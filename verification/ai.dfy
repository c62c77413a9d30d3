/**
  The AI-assisted correction support of utils/ai.go: rolling averages and
  lag features over a user's 24-hour history, the request sent to the
  prediction service, and the process-wide "AI enabled" flag with its plant.
 */
module AI {
  import opened Models
  import Store

  // ---------------------------------------------------------------------
  // Rolling averages
  // ---------------------------------------------------------------------

  function Sum(s: seq<real>): real
    decreases |s|
  {
    if s == [] then 0.0 else Sum(s[..|s| - 1]) + s[|s| - 1]
  }

  function Min(a: int, b: int): int { if a <= b then a else b }

  /** Index at which calculateRollingAverage starts summing. It lies past the
      end of `values` when n is negative. */
  function WindowStart(len: nat, n: int): int
  {
    if len > n then len - n else 0
  }

  /** The values calculateRollingAverage sums: the last min(n, len) values,
      none at all when n <= 0. */
  function Window(values: seq<real>, n: int): (w: seq<real>)
    ensures |w| == if n <= 0 then 0 else Min(n, |values|)
    ensures w == values[|values| - |w|..]
  {
    var start := WindowStart(|values|, n);
    if start <= |values| then values[start..] else []
  }

  /** The arithmetic mean, 0 for no values. */
  function Mean(s: seq<real>): real
  {
    if |s| == 0 then 0.0 else Sum(s) / (|s| as real)
  }

  /** The mean of the window, 0 when the window is empty. */
  function RollingAverage(values: seq<real>, n: int): real
  {
    Mean(Window(values, n))
  }

  /** calculateRollingAverage: the loop accumulates sum and count over the window. */
  method CalculateRollingAverage(values: seq<real>, n: int) returns (avg: real)
    ensures avg == RollingAverage(values, n)
    ensures values == [] ==> avg == 0.0
  {
    if |values| == 0 {
      return 0.0;
    }
    var start := 0;
    if |values| > n {
      start := |values| - n;
    }
    var sum := 0.0;
    var count := 0;
    var i := start;
    ghost var summed: seq<real> := [];
    while i < |values|
      invariant start <= i && (i <= |values| || i == start)
      invariant count == i - start == |summed|
      invariant sum == Sum(summed)
      invariant i <= |values| ==> summed == values[start..i]
    {
      SumAppend(summed, values[i]);
      assert values[start..i + 1] == values[start..i] + [values[i]];
      summed := summed + [values[i]];
      sum := sum + values[i];
      count := count + 1;
      i := i + 1;
    }
    assert summed == Window(values, n);
    if count == 0 {
      return 0.0;
    }
    avg := sum / (count as real);
    MeanOfSum(summed, sum, count);
  }

  lemma MeanOfSum(s: seq<real>, sum: real, count: int)
    requires count == |s| > 0 && sum == Sum(s)
    ensures Mean(s) == sum / (count as real)
  {
  }

  /** The empty sequence averages to 0 whatever the window size. */
  lemma RollingAverageOfEmpty(n: int)
    ensures RollingAverage([], n) == 0.0
  {
  }

  /** For a positive window size and a non-empty input, the result is the sum
      of the last min(n, len) values divided by min(n, len). */
  lemma RollingAverageIsMeanOfLast(values: seq<real>, n: int)
    requires n >= 1 && |values| >= 1
    ensures var k := Min(n, |values|);
            k >= 1 && RollingAverage(values, n) == Sum(values[|values| - k..]) / (k as real)
  {
  }

  function SeqMin(s: seq<real>): (m: real)
    requires |s| > 0
    ensures forall i :: 0 <= i < |s| ==> m <= s[i]
    ensures m in s
    decreases |s|
  {
    if |s| == 1 then s[0]
    else
      var m := SeqMin(s[..|s| - 1]);
      if s[|s| - 1] < m then s[|s| - 1] else m
  }

  function SeqMax(s: seq<real>): (m: real)
    requires |s| > 0
    ensures forall i :: 0 <= i < |s| ==> s[i] <= m
    ensures m in s
    decreases |s|
  {
    if |s| == 1 then s[0]
    else
      var m := SeqMax(s[..|s| - 1]);
      if s[|s| - 1] > m then s[|s| - 1] else m
  }

  lemma {:induction false} SumBounds(s: seq<real>, lo: real, hi: real)
    requires forall i :: 0 <= i < |s| ==> lo <= s[i] <= hi
    ensures (|s| as real) * lo <= Sum(s) <= (|s| as real) * hi
    decreases |s|
  {
    if s != [] {
      SumBounds(s[..|s| - 1], lo, hi);
    }
  }

  lemma MeanBetween(sum: real, k: real, lo: real, hi: real)
    requires k > 0.0 && k * lo <= sum <= k * hi
    ensures lo <= sum / k <= hi
  {
    assert sum / k - lo == (sum - k * lo) / k;
    assert hi - sum / k == (k * hi - sum) / k;
  }

  /** The mean of values that all lie in [lo, hi] lies in [lo, hi]. */
  lemma MeanWithin(s: seq<real>, lo: real, hi: real)
    requires |s| > 0
    requires forall i :: 0 <= i < |s| ==> lo <= s[i] <= hi
    ensures lo <= Mean(s) <= hi
  {
    SumBounds(s, lo, hi);
    MeanBetween(Sum(s), |s| as real, lo, hi);
  }

  /** A non-empty window averages to a value between its minimum and maximum. */
  lemma RollingAverageWithinWindow(values: seq<real>, n: int)
    requires |Window(values, n)| > 0
    ensures var w := Window(values, n);
            SeqMin(w) <= RollingAverage(values, n) <= SeqMax(w)
  {
    var w := Window(values, n);
    MeanWithin(w, SeqMin(w), SeqMax(w));
  }

  lemma SumAppend(s: seq<real>, x: real)
    ensures Sum(s + [x]) == Sum(s) + x
  {
    assert (s + [x])[..|s|] == s;
  }

  // ---------------------------------------------------------------------
  // Features
  // ---------------------------------------------------------------------

  /** The numeric content of AIRequestData. The source sends each value as
      text with one decimal ("%.1f"); the formatting is not modelled. */
  datatype Features = Features(
    temperature: real,
    humidity: real,
    tempRolling3: real,
    humidityRolling3: real,
    tempRolling24: real,
    humidityRolling24: real,
    tempLag1: real,
    humidityLag1: real)

  /** The request the prediction service receives. */
  datatype AIRequest = AIRequest(plantName: string, timestamp: int, features: Features)

  function Temperatures(h: seq<SensorData>): (t: seq<real>)
    ensures |t| == |h| && forall i :: 0 <= i < |h| ==> t[i] == h[i].temperature
  {
    seq(|h|, i requires 0 <= i < |h| => h[i].temperature)
  }

  function Humidities(h: seq<SensorData>): (t: seq<real>)
    ensures |t| == |h| && forall i :: 0 <= i < |h| ==> t[i] == h[i].humidity
  {
    seq(|h|, i requires 0 <= i < |h| => h[i].humidity)
  }

  /** What calculateFeatures computes: 3- and 24-point rolling averages of
      the history (0 when it is empty) and the latest history value as lag-1,
      falling back to the current reading only for lag-1. */
  function FeaturesOf(history: seq<SensorData>, currentTemp: real, currentHumidity: real): Features
  {
    var temps := Temperatures(history);
    var hums := Humidities(history);
    Features(
      currentTemp, currentHumidity,
      RollingAverage(temps, 3), RollingAverage(hums, 3),
      RollingAverage(temps, 24), RollingAverage(hums, 24),
      if |history| > 0 then temps[|temps| - 1] else currentTemp,
      if |history| > 0 then hums[|hums| - 1] else currentHumidity)
  }

  /** calculateFeatures. The source's error result is always nil, so the
      model returns the features alone. */
  method CalculateFeatures(history: seq<SensorData>, currentTemp: real, currentHumidity: real)
    returns (f: Features)
    ensures f == FeaturesOf(history, currentTemp, currentHumidity)
  {
    var tempValues: seq<real> := [];
    var humidityValues: seq<real> := [];
    var i := 0;
    while i < |history|
      invariant 0 <= i <= |history|
      invariant |tempValues| == i && |humidityValues| == i
      invariant forall k :: 0 <= k < i ==> tempValues[k] == history[k].temperature
      invariant forall k :: 0 <= k < i ==> humidityValues[k] == history[k].humidity
    {
      tempValues := tempValues + [history[i].temperature];
      humidityValues := humidityValues + [history[i].humidity];
      i := i + 1;
    }
    assert tempValues == Temperatures(history);
    assert humidityValues == Humidities(history);

    var tempRolling3 := CalculateRollingAverage(tempValues, 3);
    var humidityRolling3 := CalculateRollingAverage(humidityValues, 3);
    var tempRolling24 := CalculateRollingAverage(tempValues, 24);
    var humidityRolling24 := CalculateRollingAverage(humidityValues, 24);

    var tempLag1, humidityLag1;
    if |tempValues| > 0 {
      tempLag1 := tempValues[|tempValues| - 1];
      humidityLag1 := humidityValues[|humidityValues| - 1];
    } else {
      tempLag1 := currentTemp;
      humidityLag1 := currentHumidity;
    }
    f := Features(currentTemp, currentHumidity, tempRolling3, humidityRolling3,
                  tempRolling24, humidityRolling24, tempLag1, humidityLag1);
  }

  /** With history, lag-1 is the latest history reading; the current values
      pass through unchanged. */
  lemma LagIsLatestReading(history: seq<SensorData>, t: real, h: real)
    requires |history| > 0
    ensures var f := FeaturesOf(history, t, h);
            f.tempLag1 == history[|history| - 1].temperature &&
            f.humidityLag1 == history[|history| - 1].humidity &&
            f.temperature == t && f.humidity == h
  {
  }

  /** Without history, lag-1 falls back to the current reading while both
      rolling averages are 0. */
  lemma EmptyHistoryFeatures(t: real, h: real)
    ensures FeaturesOf([], t, h) == Features(t, h, 0.0, 0.0, 0.0, 0.0, t, h)
  {
  }

  /** Five history points: the 3-point average uses only the last three,
      the 24-point average uses all five. */
  lemma FiveReadingHistory(history: seq<SensorData>, t: real, h: real)
    requires |history| == 5
    ensures var f := FeaturesOf(history, t, h);
            f.tempRolling3 == (history[2].temperature + history[3].temperature + history[4].temperature) / 3.0 &&
            f.tempRolling24 == (history[0].temperature + history[1].temperature + history[2].temperature
                                + history[3].temperature + history[4].temperature) / 5.0
  {
    var temps := Temperatures(history);
    var a, b, c, d, e := temps[0], temps[1], temps[2], temps[3], temps[4];
    assert Window(temps, 3) == [c] + [d] + [e];
    SumAppend([], c);
    SumAppend([c], d);
    SumAppend([c] + [d], e);
    assert Window(temps, 24) == [a] + [b] + [c] + [d] + [e];
    SumAppend([], a);
    SumAppend([a], b);
    SumAppend([a] + [b], c);
    SumAppend([a] + [b] + [c], d);
    SumAppend([a] + [b] + [c] + [d], e);
  }

  /** Every rolling feature lies between the extremes of its window. */
  lemma RollingFeaturesWithinHistory(history: seq<SensorData>, t: real, h: real)
    requires |history| > 0
    ensures var f := FeaturesOf(history, t, h);
            var temps := Temperatures(history);
            SeqMin(Window(temps, 3)) <= f.tempRolling3 <= SeqMax(Window(temps, 3)) &&
            SeqMin(Window(temps, 24)) <= f.tempRolling24 <= SeqMax(Window(temps, 24))
    ensures var f := FeaturesOf(history, t, h);
            var hums := Humidities(history);
            SeqMin(Window(hums, 3)) <= f.humidityRolling3 <= SeqMax(Window(hums, 3)) &&
            SeqMin(Window(hums, 24)) <= f.humidityRolling24 <= SeqMax(Window(hums, 24))
  {
    RollingAverageWithinWindow(Temperatures(history), 3);
    RollingAverageWithinWindow(Temperatures(history), 24);
    RollingAverageWithinWindow(Humidities(history), 3);
    RollingAverageWithinWindow(Humidities(history), 24);
  }

  /** The request of GetPredictedSoilMoistureSimple: every feature is the
      current reading. */
  function FallbackFeatures(t: real, h: real): Features
  {
    Features(t, h, t, h, t, h, t, h)
  }

  /** calculateFeatures on an empty history agrees with the fallback request
      on lag-1 only: its rolling averages are 0 where the fallback sends the
      current values, so the two differ whenever a current value is non-zero. */
  lemma EmptyHistoryVersusFallback(t: real, h: real)
    ensures FeaturesOf([], t, h) == FallbackFeatures(t, h).(
              tempRolling3 := 0.0, humidityRolling3 := 0.0,
              tempRolling24 := 0.0, humidityRolling24 := 0.0)
    ensures FeaturesOf([], t, h) == FallbackFeatures(t, h) <==> t == 0.0 && h == 0.0
  {
  }

  // ---------------------------------------------------------------------
  // Prediction service
  // ---------------------------------------------------------------------

  /** A decoded answer of the prediction service. The field is None when the
      JSON object has no "predicted_soil_moisture"; decoding then leaves Go's
      zero value 0 in place without an error. */
  datatype PredictionReply = PredictionReply(predictedSoilMoisture: Option<real>)

  function DecodedPrediction(reply: PredictionReply): (v: real)
    ensures reply.predictedSoilMoisture.Some? ==> v == reply.predictedSoilMoisture.value
    ensures reply.predictedSoilMoisture.None? ==> v == 0.0
  {
    match reply.predictedSoilMoisture
    case Some(v) => v
    case None => 0.0
  }

  /** The external prediction service. `respond` stands for the HTTP round
      trip: None when the POST, the body read or the JSON decoding fails.
      `requests` logs every request actually sent. */
  class PredictionService {
    const respond: AIRequest -> Option<PredictionReply>
    var requests: seq<AIRequest>

    constructor (respond: AIRequest -> Option<PredictionReply>)
      ensures this.respond == respond && requests == []
    {
      this.respond := respond;
      requests := [];
    }

    method Post(req: AIRequest) returns (reply: Option<PredictionReply>)
      modifies this`requests
      ensures requests == old(requests) + [req]
      ensures reply == respond(req)
    {
      requests := requests + [req];
      reply := respond(req);
    }
  }

  /** The request GetPredictedSoilMoisture sends when the history query
      succeeds: the history is the one queried at QueriedInstant(timestamp). */
  function PredictionRequest(records: seq<SensorData>, userId: nat, plant: string, timestamp: int,
                             temperature: real, humidity: real): AIRequest
  {
    AIRequest(plant, timestamp,
              FeaturesOf(Store.HistoryWindow(records, userId, QueriedInstant(timestamp)), temperature, humidity))
  }

  /** The request built from the history queried at IntendedQueriedInstant. */
  function IntendedPredictionRequest(records: seq<SensorData>, userId: nat, plant: string, timestamp: int,
                                     temperature: real, humidity: real): AIRequest
  {
    AIRequest(plant, timestamp,
              FeaturesOf(Store.HistoryWindow(records, userId, IntendedQueriedInstant(timestamp)), temperature, humidity))
  }

  /** What GetPredictedSoilMoisture yields: None when the history query or
      the service call fails, otherwise the decoded prediction. */
  function PredictionOf(records: seq<SensorData>, respond: AIRequest -> Option<PredictionReply>,
                        userId: nat, plant: string, timestamp: int,
                        temperature: real, humidity: real, historyFails: bool): Option<real>
  {
    if historyFails then None
    else
      match respond(PredictionRequest(records, userId, plant, timestamp, temperature, humidity))
      case None => None
      case Some(reply) => Some(DecodedPrediction(reply))
  }

  /** GetPredictedSoilMoisture: the timestamp text is parsed back to an
      instant (QueriedInstant), then history query, features, one POST. */
  method GetPredictedSoilMoisture(db: Store.Database, service: PredictionService, userId: nat, plant: string,
                                  timestamp: int, temperature: real, humidity: real, historyFails: bool)
    returns (predicted: Option<real>)
    modifies service`requests
    ensures predicted == PredictionOf(db.records, service.respond, userId, plant, timestamp,
                                      temperature, humidity, historyFails)
    ensures service.requests == old(service.requests) +
              (if historyFails then [] else [PredictionRequest(db.records, userId, plant, timestamp, temperature, humidity)])
  {
    var currentTime := QueriedInstant(timestamp);
    var history := db.HistoricalData(userId, currentTime, historyFails);
    if history.Err? {
      return None;
    }
    var features := CalculateFeatures(history.value, temperature, humidity);
    var reply := service.Post(AIRequest(plant, timestamp, features));
    if reply.None? {
      return None;
    }
    predicted := Some(DecodedPrediction(reply.value));
  }

  /** GetPredictedSoilMoistureSimple: one POST with the fallback features. */
  method GetPredictedSoilMoistureSimple(service: PredictionService, plant: string, timestamp: int,
                                        temperature: real, humidity: real)
    returns (predicted: Option<real>)
    modifies service`requests
    ensures service.requests == old(service.requests) + [AIRequest(plant, timestamp, FallbackFeatures(temperature, humidity))]
    ensures match service.respond(AIRequest(plant, timestamp, FallbackFeatures(temperature, humidity)))
            case None => predicted == None
            case Some(reply) => predicted == Some(DecodedPrediction(reply))
  {
    var reply := service.Post(AIRequest(plant, timestamp, FallbackFeatures(temperature, humidity)));
    if reply.None? {
      return None;
    }
    predicted := Some(DecodedPrediction(reply.value));
  }

  // ---------------------------------------------------------------------
  // Wall-clock text of the reading's timestamp
  // ---------------------------------------------------------------------

  /** Asia/Kuala_Lumpur, the zone ReceiveData stamps readings in, is UTC+8. */
  const KualaLumpurOffset: int := 8 * SecondsPerHour

  const SecondsPerDay: int := 24 * SecondsPerHour

  /** The fields of the "2006-01-02 15:04:05" layout: the calendar date,
      written as a day count from 1970-01-01, and the time of day. */
  datatype WallClock = WallClock(day: int, hour: int, minute: int, second: int)

  predicate ValidClock(w: WallClock)
  {
    0 <= w.hour < 24 && 0 <= w.minute < 60 && 0 <= w.second < 60
  }

  /** t.In(zone).Format(layout) for a zone `offset` seconds east of UTC. */
  function WallClockIn(t: int, offset: int): (w: WallClock)
    ensures ValidClock(w)
  {
    var local := t + offset;
    var secs := local % SecondsPerDay;
    WallClock(local / SecondsPerDay, secs / SecondsPerHour, secs % SecondsPerHour / 60, secs % SecondsPerHour % 60)
  }

  /** time.ParseInLocation(layout, text, zone): the instant at which the
      clock of a zone `offset` seconds east of UTC shows `w`. time.Parse of
      a layout without a zone is the case offset 0: the text is read as UTC. */
  function ParseWallClock(w: WallClock, offset: int): int
  {
    w.day * SecondsPerDay + w.hour * SecondsPerHour + w.minute * 60 + w.second - offset
  }

  /** Reading a zone's wall clock in the same zone gives the instant back. */
  lemma WallClockRoundTrip(t: int, offset: int)
    ensures ParseWallClock(WallClockIn(t, offset), offset) == t
  {
    var local := t + offset;
    var secs := local % SecondsPerDay;
    assert local == local / SecondsPerDay * SecondsPerDay + secs;
    assert secs == secs / SecondsPerHour * SecondsPerHour + secs % SecondsPerHour;
    assert secs % SecondsPerHour == secs % SecondsPerHour / 60 * 60 + secs % SecondsPerHour % 60;
  }

  /** Two instants with the same wall clock in one zone are the same instant. */
  lemma WallClockInjective(t: int, u: int, offset: int)
    requires WallClockIn(t, offset) == WallClockIn(u, offset)
    ensures t == u
  {
    WallClockRoundTrip(t, offset);
    WallClockRoundTrip(u, offset);
  }

  /** The instant GetPredictedSoilMoisture queries the history with, as
      written: ReceiveData formats the reading's time as wall-clock text in
      Asia/Kuala_Lumpur, and time.Parse reads that text as UTC. */
  function QueriedInstant(now: int): int
  {
    ParseWallClock(WallClockIn(now, KualaLumpurOffset), 0)
  }

  /** The text parsed as UTC names the instant 8 hours after the reading. */
  lemma QueriedInstantIsShifted(now: int)
    ensures QueriedInstant(now) == now + KualaLumpurOffset
  {
    WallClockRoundTrip(now, KualaLumpurOffset);
  }

  /** The same text read with time.ParseInLocation in the zone it was
      written in. */
  function IntendedQueriedInstant(now: int): (t: int)
    ensures t == now
  {
    WallClockRoundTrip(now, KualaLumpurOffset);
    ParseWallClock(WallClockIn(now, KualaLumpurOffset), KualaLumpurOffset)
  }

  /** As written, the 24-hour history of a reading taken at `now` holds
      exactly the owner's rows from the last 16 hours (and any stamped up to
      8 hours ahead): a row 20 hours old is dropped, although it lies in the
      window the intended query uses. */
  lemma ShiftedHistoryDropsOlderReadings(records: seq<SensorData>, r: SensorData, now: int)
    requires r in records && r.timestamp == now - 20 * SecondsPerHour
    ensures r in Store.HistoryWindow(records, r.userId, IntendedQueriedInstant(now))
    ensures r !in Store.HistoryWindow(records, r.userId, QueriedInstant(now))
  {
    QueriedInstantIsShifted(now);
  }

  /** The consequence for the prediction: with a single earlier row, taken
      20 hours before the reading, the request as written sends the current
      temperature as lag-1 and zero rolling averages, where the intended
      request sends that row's temperature. */
  lemma ShiftedRequestMissesEarlierReading(r: SensorData, plant: string, now: int, t: real, h: real)
    requires r.timestamp == now - 20 * SecondsPerHour
    ensures var sent := PredictionRequest([r], r.userId, plant, now, t, h).features;
            sent.tempLag1 == t && sent.tempRolling3 == 0.0 && sent.tempRolling24 == 0.0
    ensures var intended := IntendedPredictionRequest([r], r.userId, plant, now, t, h).features;
            intended.tempLag1 == r.temperature && intended.tempRolling3 == r.temperature
  {
    QueriedInstantIsShifted(now);
    assert Store.HistoryWindow([r], r.userId, QueriedInstant(now)) == [];
    assert Store.HistoryWindow([r], r.userId, IntendedQueriedInstant(now)) == [r];
    assert Window([r.temperature], 3) == [r.temperature];
    SumAppend([], r.temperature);
  }

  /** The intended history of a reading: exactly the owner's rows of the 24
      hours before it. */
  lemma HistoryIsLastDay(records: seq<SensorData>, userId: nat, now: int, r: SensorData)
    ensures r in Store.HistoryWindow(records, userId, IntendedQueriedInstant(now)) <==>
              r in records && r.userId == userId && now - 24 * SecondsPerHour <= r.timestamp < now
  {
  }

  /** The window the shifted query covers, in terms of the reading's instant. */
  lemma ShiftedWindowBounds(r: SensorData, userId: nat, now: int)
    ensures Store.InHistoryWindow(r, userId, QueriedInstant(now)) <==>
              r.userId == userId && now - 16 * SecondsPerHour <= r.timestamp < now + KualaLumpurOffset
  {
    QueriedInstantIsShifted(now);
  }

  /** A failing history query means no request is sent at all. */
  lemma NoPredictionWithoutHistory(records: seq<SensorData>, respond: AIRequest -> Option<PredictionReply>,
                                   userId: nat, plant: string, timestamp: int, t: real, h: real)
    ensures PredictionOf(records, respond, userId, plant, timestamp, t, h, true) == None
  {
  }

  // ---------------------------------------------------------------------
  // Global AI flag
  // ---------------------------------------------------------------------

  /** The process-wide pair (aiEnabled, plantAI) guarded by a lock in the source. */
  class AIFlag {
    var aiEnabled: bool
    var plantAI: string

    /** Go's zero values: AI off, no plant. */
    constructor ()
      ensures !aiEnabled && plantAI == ""
    {
      aiEnabled := false;
      plantAI := "";
    }

    method SetGlobalAIEnabled(enabled: bool, plant: string)
      modifies this
      ensures aiEnabled == enabled && plantAI == plant
    {
      aiEnabled := enabled;
      plantAI := plant;
    }

    method IsGlobalAIEnabled() returns (enabled: bool, plant: string)
      ensures enabled == aiEnabled && plant == plantAI
    {
      enabled := aiEnabled;
      plant := plantAI;
    }
  }

  /** A set is observed by the next read, whatever the earlier state. */
  method SetThenRead(flag: AIFlag, e: bool, p: string) returns (enabled: bool, plant: string)
    modifies flag
    ensures enabled == e && plant == p
  {
    flag.SetGlobalAIEnabled(e, p);
    enabled, plant := flag.IsGlobalAIEnabled();
  }
}
