/**
  The relational store behind `config.DB`, reduced to what the core asks of
  it: the sensor_data rows (kept in insertion order), the developer-mode
  settings rows keyed by id, and the few queries the core runs. Whether a
  store operation fails is not decided here: every fallible operation takes
  the outcome as a parameter.
 */
module Store {
  import opened Models

  datatype DbError = ErrRecordNotFound | ErrDatabase

  datatype Result<T> = Ok(value: T) | Err(error: DbError)

  const HistoryWindowSeconds: int := 24 * SecondsPerHour

  predicate CountsAsAbnormal(r: SensorData, userId: nat)
  {
    r.userId == userId && r.isAbnormal
  }

  /** SELECT COUNT(*) FROM sensor_data WHERE user_id = ? AND is_abnormal = true */
  function CountAbnormal(records: seq<SensorData>, userId: nat): (n: nat)
    ensures n <= |records|
  {
    if records == [] then 0
    else (if CountsAsAbnormal(records[0], userId) then 1 else 0) + CountAbnormal(records[1..], userId)
  }

  /** Persisting one more record raises its owner's abnormal count by one
      exactly when it is abnormal, and leaves every other user's count alone. */
  lemma {:induction false} CountAbnormalAppend(records: seq<SensorData>, r: SensorData, userId: nat)
    ensures CountAbnormal(records + [r], userId)
            == CountAbnormal(records, userId) + (if CountsAsAbnormal(r, userId) then 1 else 0)
    decreases |records|
  {
    if records != [] {
      assert (records + [r])[1..] == records[1..] + [r];
      CountAbnormalAppend(records[1..], r, userId);
    }
  }

  predicate InHistoryWindow(r: SensorData, userId: nat, now: int)
  {
    r.userId == userId && now - HistoryWindowSeconds <= r.timestamp < now
  }

  /** user_id = ? AND timestamp >= now - 24h AND timestamp < now, in store order. */
  function HistoryWindow(records: seq<SensorData>, userId: nat, now: int): (h: seq<SensorData>)
    ensures |h| <= |records|
    ensures forall i :: 0 <= i < |h| ==> h[i] in records && InHistoryWindow(h[i], userId, now)
    ensures forall r :: r in records && InHistoryWindow(r, userId, now) ==> r in h
  {
    if records == [] then []
    else
      var rest := HistoryWindow(records[1..], userId, now);
      if InHistoryWindow(records[0], userId, now) then [records[0]] + rest else rest
  }

  /** The row a successful insert stores: a row submitted with id 0 takes
      the id the store assigns; any other id is kept. */
  function Persisted(r: SensorData, newId: Option<nat>): (stored: SensorData)
    ensures stored.(id := r.id) == r
    ensures r.id == 0 && newId.Some? ==> stored.id == newId.value
    ensures r.id != 0 || newId.None? ==> stored == r
  {
    if newId.Some? && r.id == 0 then r.(id := newId.value) else r
  }

  class Database {
    var records: seq<SensorData>
    var devSettings: map<nat, DeveloperModeSetting>

    constructor ()
      ensures records == [] && devSettings == map[]
    {
      records := [];
      devSettings := map[];
    }

    /** db.Create(&data): on success (`newId` is the id the store gives a
        row submitted with id 0) the row is appended and the caller's copy
        carries its id; on failure nothing is stored and the copy is unchanged. */
    method Create(r: SensorData, newId: Option<nat>) returns (stored: SensorData)
      modifies this`records
      ensures stored == Persisted(r, newId)
      ensures records == old(records) + (if newId.Some? then [stored] else [])
    {
      stored := r;
      if newId.Some? {
        if r.id == 0 {
          stored := r.(id := newId.value);
        }
        records := records + [stored];
      }
    }

    /** Abnormal-record count of one user; reads only. When the query fails
        (`fails`) its error is ignored and the count keeps its zero value. */
    method CountAbnormalOf(userId: nat, fails: bool) returns (count: nat)
      ensures fails ==> count == 0
      ensures !fails ==> count == CountAbnormal(records, userId)
      ensures count <= |records|
    {
      count := 0;
      if !fails {
        count := CountAbnormal(records, userId);
      }
    }

    /** The 24-hour history of one user before `now`; fails when `fails`. */
    method HistoricalData(userId: nat, now: int, fails: bool) returns (res: Result<seq<SensorData>>)
      ensures fails ==> res == Err(ErrDatabase)
      ensures !fails ==> res == Ok(HistoryWindow(records, userId, now))
    {
      if fails {
        res := Err(ErrDatabase);
      } else {
        res := Ok(HistoryWindow(records, userId, now));
      }
    }

    /** db.First(&setting, id): the row, ErrRecordNotFound, or another error when `fails`. */
    method FirstSetting(id: nat, fails: bool) returns (res: Result<DeveloperModeSetting>)
      ensures fails ==> res == Err(ErrDatabase)
      ensures !fails && id in devSettings ==> res == Ok(devSettings[id])
      ensures !fails && id !in devSettings ==> res == Err(ErrRecordNotFound)
    {
      if fails {
        res := Err(ErrDatabase);
      } else if id in devSettings {
        res := Ok(devSettings[id]);
      } else {
        res := Err(ErrRecordNotFound);
      }
    }

    /** db.Create / db.Save of a settings row: insert or overwrite by id. */
    method SaveSetting(s: DeveloperModeSetting, fails: bool) returns (err: Option<DbError>)
      modifies this`devSettings
      ensures fails ==> err == Some(ErrDatabase) && devSettings == old(devSettings)
      ensures !fails ==> err == None && devSettings == old(devSettings)[s.id := s]
    {
      if fails {
        err := Some(ErrDatabase);
      } else {
        devSettings := devSettings[s.id := s];
        err := None;
      }
    }
  }
}
