/**
  The handlers of controllers/sensor.go that make up the core: the
  ingestion pipeline ReceiveData (attribute, maybe correct soil moisture
  with the predictor, classify, persist, broadcast), the abnormal-history
  listing, and the permission checks of DeleteUserRecords and
  DeleteUserAccount.
 */
module Sensor {
  import opened Models
  import Strconv
  import Abnormal
  import Store
  import AI
  import Hub
  import DevMode
  import Device

  // ---------------------------------------------------------------------
  // Ingestion
  // ---------------------------------------------------------------------

  /** The type switch of ReceiveData: a float64 claim is converted, a uint
      claim taken as is, anything else is refused. */
  function ClaimUserId(v: ClaimValue): (id: Option<nat>)
    ensures id.Some? <==> v.FloatClaim? || v.UintClaim?
    ensures v.UintClaim? ==> id == Some(v.u as nat)
    ensures v.FloatClaim? && 0.0 <= v.f < UintLimit as real ==>
              id.Some? && id.value as real <= v.f < id.value as real + 1.0
  {
    match v
    case FloatClaim(f) => Some(FloatToUint(f) as nat)
    case UintClaim(u) => Some(u as nat)
    case _ => None
  }

  /** The prediction ReceiveData obtains: none at all when AI is off. */
  function PredictionFor(records: seq<SensorData>, respond: AI.AIRequest -> Option<AI.PredictionReply>,
                         aiEnabled: bool, plant: string, userId: nat, now: int,
                         submitted: SensorData, historyFails: bool): (p: Option<real>)
    ensures !aiEnabled ==> p == None
    ensures historyFails ==> p == None
  {
    if aiEnabled then
      AI.PredictionOf(records, respond, userId, plant, now, submitted.temperature, submitted.humidity, historyFails)
    else None
  }

  /** The reading ReceiveData hands to the store: attributed to the caller,
      stamped with the server time, soil moisture replaced only by a
      successful prediction, and classified after that replacement. */
  function IngestedReading(submitted: SensorData, userId: nat, now: int, prediction: Option<real>): (r: SensorData)
    ensures r.id == submitted.id && r.userId == userId && r.timestamp == now
    ensures r.temperature == submitted.temperature && r.humidity == submitted.humidity
    ensures prediction.Some? ==> r.soilMoisture == prediction.value
    ensures prediction.None? ==> r.soilMoisture == submitted.soilMoisture
    ensures r.isAbnormal <==> !Abnormal.AllNormal(r.temperature, r.humidity, r.soilMoisture)
  {
    var attributed := submitted.(timestamp := now, userId := userId);
    var corrected := if prediction.Some? then attributed.(soilMoisture := prediction.value) else attributed;
    corrected.(isAbnormal := Abnormal.CheckAbnormality(corrected))
  }

  /** A stored row whose flag agrees with the classifier. */
  predicate Classified(r: SensorData)
  {
    r.isAbnormal == Abnormal.CheckAbnormality(r)
  }

  predicate AllClassified(records: seq<SensorData>)
  {
    forall i :: 0 <= i < |records| ==> Classified(records[i])
  }

  /** What the hub's log gains from one accepted reading: the update round,
      followed by the notification round only for an abnormal reading. */
  predicate ReadingBroadcasts(out: seq<Hub.Delivery<Hub.Message>>, clients: map<Hub.ConnId, Hub.Client>,
                              stored: SensorData, records: seq<SensorData>, failing: set<Hub.ConnId>,
                              countFails: set<Hub.ConnId>)
  {
    |out| == (if stored.isAbnormal then 2 else 1) * |clients| &&
    Hub.UpdateRound(out[..|clients|], clients, stored, failing) &&
    (stored.isAbnormal ==> Hub.NotificationRound(out[|clients|..], clients, stored, records, failing, countFails))
  }

  /** Lines 48-63 of ReceiveData: read the AI flag, ask for a prediction
      when it is on, overwrite soil moisture only on success, classify. */
  method CorrectAndClassify(data: SensorData, flag: AI.AIFlag, db: Store.Database, service: AI.PredictionService,
                            historyFails: bool)
    returns (r: SensorData)
    modifies service`requests
    ensures r == IngestedReading(data, data.userId, data.timestamp,
                                 PredictionFor(db.records, service.respond, flag.aiEnabled, flag.plantAI,
                                               data.userId, data.timestamp, data, historyFails))
    ensures service.requests == old(service.requests) +
              (if flag.aiEnabled && !historyFails
               then [AI.PredictionRequest(db.records, data.userId, flag.plantAI, data.timestamp,
                                          data.temperature, data.humidity)]
               else [])
  {
    r := data;
    var isAIEnabled, plantAI := flag.IsGlobalAIEnabled();
    if isAIEnabled {
      var predicted := AI.GetPredictedSoilMoisture(db, service, data.userId, plantAI, data.timestamp,
                                                   data.temperature, data.humidity, historyFails);
      if predicted.Some? {
        r := r.(soilMoisture := predicted.value);
      }
    }
    r := r.(isAbnormal := Abnormal.CheckAbnormality(r));
  }

  /** Lines 66-70 of ReceiveData: the update round, then the notification
      round only for an abnormal reading. */
  method Publish(hub: Hub.Hub, db: Store.Database, stored: SensorData, failing: set<Hub.ConnId>,
                 countFails: set<Hub.ConnId>)
    modifies hub`sent
    ensures |hub.sent| >= |old(hub.sent)| && hub.sent[..|old(hub.sent)|] == old(hub.sent)
    ensures ReadingBroadcasts(hub.sent[|old(hub.sent)|..], hub.clients, stored, db.records, failing, countFails)
  {
    hub.BroadcastUpdate(stored, failing);
    ghost var afterUpdate := hub.sent;
    if stored.isAbnormal {
      hub.BroadcastNotification(stored, db, failing, countFails);
      assert hub.sent[|old(hub.sent)|..][..|hub.clients|] == afterUpdate[|old(hub.sent)|..];
      assert hub.sent[|old(hub.sent)|..][|hub.clients|..] == hub.sent[|afterUpdate|..];
    }
  }

  /** ReceiveData. `userIdCtx` is the value the middleware left under
      "user_id" (None when absent), `body` the decoded JSON body (None when
      binding fails), `now` the server clock. `historyFails` and the
      service's reply function decide the prediction, `newId` the outcome
      of the insert (None: the insert fails, which the handler ignores),
      `failing` the connections whose writes fail, `countFails` those
      whose abnormal-count query fails. */
  method ReceiveData(userIdCtx: Option<ClaimValue>, body: Option<SensorData>, now: int,
                     flag: AI.AIFlag, db: Store.Database, hub: Hub.Hub, service: AI.PredictionService,
                     historyFails: bool, newId: Option<nat>, failing: set<Hub.ConnId>,
                     countFails: set<Hub.ConnId>)
    returns (status: HttpStatus)
    modifies db`records, hub`sent, service`requests
    ensures userIdCtx.None? ==> status == Unauthorized
    ensures userIdCtx.Some? && body.None? ==> status == BadRequest
    ensures userIdCtx.Some? && body.Some? && ClaimUserId(userIdCtx.value).None? ==> status == InternalServerError
    ensures status == StatusOK <==> userIdCtx.Some? && body.Some? && ClaimUserId(userIdCtx.value).Some?
    // every rejection happens before any side effect
    ensures status != StatusOK ==>
              db.records == old(db.records) && hub.sent == old(hub.sent) && service.requests == old(service.requests)
    // an accepted reading is corrected, classified, stored (when the insert succeeds) and broadcast
    ensures status == StatusOK ==>
              var userId := ClaimUserId(userIdCtx.value).value;
              var prediction := PredictionFor(old(db.records), service.respond, flag.aiEnabled, flag.plantAI,
                                              userId, now, body.value, historyFails);
              var stored := Store.Persisted(IngestedReading(body.value, userId, now, prediction), newId);
              db.records == old(db.records) + (if newId.Some? then [stored] else []) &&
              |hub.sent| >= |old(hub.sent)| && hub.sent[..|old(hub.sent)|] == old(hub.sent) &&
              ReadingBroadcasts(hub.sent[|old(hub.sent)|..], hub.clients, stored, db.records, failing, countFails)
    // the predictor is asked exactly once when AI is on and the history loads, never otherwise
    ensures status == StatusOK ==>
              service.requests == old(service.requests) +
                (if flag.aiEnabled && !historyFails
                 then [AI.PredictionRequest(old(db.records), ClaimUserId(userIdCtx.value).value, flag.plantAI, now,
                                            body.value.temperature, body.value.humidity)]
                 else [])
    ensures AllClassified(old(db.records)) ==> AllClassified(db.records)
  {
    if userIdCtx.None? {
      return Unauthorized;
    }
    if body.None? {
      return BadRequest;
    }
    var data := body.value.(timestamp := now);
    var userId := ClaimUserId(userIdCtx.value);
    if userId.None? {
      return InternalServerError;
    }
    data := data.(userId := userId.value);
    IngestedReadingIgnoresAttribution(body.value, data, userId.value, now, old(db.records), service.respond,
                                      flag.aiEnabled, flag.plantAI, historyFails);
    data := CorrectAndClassify(data, flag, db, service, historyFails);
    var stored := db.Create(data, newId);
    Publish(hub, db, stored, failing, countFails);
    status := StatusOK;
  }

  /** A viewer is registered under the id its own readings are stored
      under: the websocket handler converts float64 and uint claims as the
      ingestion does, and only it also accepts a decimal string. */
  lemma RegistrationMatchesIngestion(v: ClaimValue)
    ensures ClaimUserId(v).Some? ==> Hub.ConvertUserId(v) == ClaimUserId(v)
    ensures Hub.ConvertUserId(v).Some? && ClaimUserId(v).None? ==> v.StringClaim?
  {
  }

  /** A reply without "predicted_soil_moisture" stores soil moisture 0,
      which is below its band, so the reading is flagged abnormal and, when
      its other values are in band, for its soil moisture. */
  lemma MissingPredictionStoresZero(records: seq<SensorData>, respond: AI.AIRequest -> Option<AI.PredictionReply>,
                                    plant: string, userId: nat, now: int, submitted: SensorData)
    requires respond(AI.PredictionRequest(records, userId, plant, now, submitted.temperature, submitted.humidity))
             == Some(AI.PredictionReply(None))
    ensures var r := IngestedReading(submitted, userId, now,
                                     PredictionFor(records, respond, true, plant, userId, now, submitted, false));
            r.soilMoisture == 0.0 && r.isAbnormal &&
            (Abnormal.TemperatureNormal(r.temperature) && Abnormal.HumidityNormal(r.humidity) ==>
               Abnormal.GetAbnormalType(r) == Abnormal.SoilMoistureReason)
  {
  }

  /** The fields ReceiveData overwrites before correcting make no difference
      to the prediction or the ingested reading. */
  lemma IngestedReadingIgnoresAttribution(submitted: SensorData, data: SensorData, userId: nat, now: int,
                                          records: seq<SensorData>, respond: AI.AIRequest -> Option<AI.PredictionReply>,
                                          aiEnabled: bool, plant: string, historyFails: bool)
    requires data == submitted.(timestamp := now, userId := userId)
    ensures var p := PredictionFor(records, respond, aiEnabled, plant, userId, now, submitted, historyFails);
            p == PredictionFor(records, respond, aiEnabled, plant, userId, now, data, historyFails) &&
            IngestedReading(data, userId, now, p) == IngestedReading(submitted, userId, now, p)
  {
  }

  /** With AI off the submitted soil moisture is what gets classified. */
  lemma AIDisabledKeepsSubmittedValue(records: seq<SensorData>, respond: AI.AIRequest -> Option<AI.PredictionReply>,
                                      plant: string, userId: nat, now: int, submitted: SensorData, historyFails: bool)
    ensures var r := IngestedReading(submitted, userId, now,
                                     PredictionFor(records, respond, false, plant, userId, now, submitted, historyFails));
            r.soilMoisture == submitted.soilMoisture &&
            (r.isAbnormal <==> !Abnormal.AllNormal(submitted.temperature, submitted.humidity, submitted.soilMoisture))
  {
  }

  /** A reading {25, 40, 2} whose prediction comes back as 45 is stored
      with soil moisture 45 and is not abnormal. */
  lemma CorrectedReadingIsNormal(submitted: SensorData, userId: nat, now: int)
    requires submitted.temperature == 25.0 && submitted.humidity == 40.0 && submitted.soilMoisture == 2.0
    ensures var r := IngestedReading(submitted, userId, now, Some(45.0));
            r.soilMoisture == 45.0 && !r.isAbnormal &&
            Abnormal.GetAbnormalType(r) == Abnormal.UnknownReason
  {
  }

  /** The same reading with a failed prediction keeps soil moisture 2 and
      is flagged abnormal for its soil moisture. */
  lemma FailedPredictionKeepsRawValue(submitted: SensorData, userId: nat, now: int)
    requires submitted.temperature == 25.0 && submitted.humidity == 40.0 && submitted.soilMoisture == 2.0
    ensures var r := IngestedReading(submitted, userId, now, None);
            r.soilMoisture == 2.0 && r.isAbnormal &&
            Abnormal.GetAbnormalType(r) == Abnormal.SoilMoistureReason
  {
  }

  /** Triggering developer mode turns AI off, so a reading submitted right
      after it never reaches the predictor and keeps its own soil moisture. */
  method IngestDuringDeveloperMode(cache: DevMode.DevModeCache, flag: AI.AIFlag, db: Store.Database,
                                   hub: Hub.Hub, service: AI.PredictionService, claim: ClaimValue,
                                   submitted: SensorData, now: int, newId: Option<nat>, failing: set<Hub.ConnId>,
                                   countFails: set<Hub.ConnId>)
    returns (status: HttpStatus)
    requires claim.FloatClaim? || claim.UintClaim?
    modifies cache, flag, db, hub`sent, service`requests
    ensures status == StatusOK
    ensures service.requests == old(service.requests)
    ensures var userId := ClaimUserId(claim).value;
            db.records == old(db.records) +
              (if newId.Some? then [Store.Persisted(IngestedReading(submitted, userId, now, None), newId)] else [])
  {
    var reply := Device.TriggerDeveloperMode(cache, flag, db, now, false);
    status := ReceiveData(Some(claim), Some(submitted), now, flag, db, hub, service, false, newId, failing, countFails);
  }

  // ---------------------------------------------------------------------
  // Abnormal history
  // ---------------------------------------------------------------------

  const AdminRole: string := "admin"

  /** One element of the GetAbnormalHistory response. The timestamp is sent
      as "2006-01-02 15:04:05" text; the formatting is not modelled. */
  datatype AbnormalEntry = AbnormalEntry(timestamp: int, reason: string)

  predicate AbnormalVisible(r: SensorData, isAdmin: bool, userId: nat)
  {
    r.isAbnormal && (isAdmin || r.userId == userId)
  }

  /** is_abnormal = true, restricted to the caller's rows unless the caller
      is an admin; store order. */
  function AbnormalQuery(records: seq<SensorData>, isAdmin: bool, userId: nat): (rows: seq<SensorData>)
    ensures |rows| <= |records|
    ensures forall i :: 0 <= i < |rows| ==> rows[i] in records && AbnormalVisible(rows[i], isAdmin, userId)
    ensures forall r :: r in records && AbnormalVisible(r, isAdmin, userId) ==> r in rows
  {
    if records == [] then []
    else
      var rest := AbnormalQuery(records[1..], isAdmin, userId);
      if AbnormalVisible(records[0], isAdmin, userId) then [records[0]] + rest else rest
  }

  function EntryOf(r: SensorData): AbnormalEntry
  {
    AbnormalEntry(r.timestamp, Abnormal.GetAbnormalType(r))
  }

  /** The response of GetAbnormalHistory for the queried rows. */
  function Entries(rows: seq<SensorData>): (es: seq<AbnormalEntry>)
    ensures |es| == |rows|
    ensures forall i :: 0 <= i < |rows| ==> es[i] == EntryOf(rows[i])
  {
    seq(|rows|, i requires 0 <= i < |rows| => EntryOf(rows[i]))
  }

  /** GetAbnormalHistory. `caller` is the id under "user_id" (None when
      absent); `role` is the role the caller's user row yields, "" when the
      lookup fails, whose error the handler ignores; `queryFails` says
      whether the listing query fails. */
  method GetAbnormalHistory(db: Store.Database, caller: Option<nat>, role: string, queryFails: bool)
    returns (status: HttpStatus, response: seq<AbnormalEntry>)
    ensures caller.None? ==> status == Unauthorized && response == []
    ensures caller.Some? && queryFails ==> status == InternalServerError && response == []
    ensures caller.Some? && !queryFails ==>
              status == StatusOK &&
              response == Entries(AbnormalQuery(db.records, role == AdminRole, caller.value))
  {
    if caller.None? {
      return Unauthorized, [];
    }
    if queryFails {
      return InternalServerError, [];
    }
    var records := AbnormalQuery(db.records, role == AdminRole, caller.value);
    response := [];
    var i := 0;
    while i < |records|
      invariant 0 <= i <= |records|
      invariant response == Entries(records[..i])
    {
      response := response + [EntryOf(records[i])];
      i := i + 1;
    }
    assert records[..i] == records;
    status := StatusOK;
  }

  /** A non-admin sees exactly as many entries as the abnormal count of
      their own rows. */
  lemma {:induction false} OwnHistoryMatchesCount(records: seq<SensorData>, userId: nat)
    ensures |AbnormalQuery(records, false, userId)| == Store.CountAbnormal(records, userId)
    decreases |records|
  {
    if records != [] {
      OwnHistoryMatchesCount(records[1..], userId);
    }
  }

  /** Over rows flagged by the classifier, no entry of the history is "Unknown". */
  lemma HistoryHasConcreteReasons(records: seq<SensorData>, isAdmin: bool, userId: nat)
    requires AllClassified(records)
    ensures forall e :: e in Entries(AbnormalQuery(records, isAdmin, userId)) ==>
              e.reason in {Abnormal.TemperatureReason, Abnormal.HumidityReason, Abnormal.SoilMoistureReason}
  {
    var rows := AbnormalQuery(records, isAdmin, userId);
    var es := Entries(rows);
    forall e | e in es
      ensures e.reason in {Abnormal.TemperatureReason, Abnormal.HumidityReason, Abnormal.SoilMoistureReason}
    {
      var i :| 0 <= i < |es| && es[i] == e;
      var j :| 0 <= j < |records| && records[j] == rows[i];
      assert Classified(records[j]);
      Abnormal.AbnormalHasConcreteReason(rows[i]);
    }
  }

  // ---------------------------------------------------------------------
  // Permissions
  // ---------------------------------------------------------------------

  /** The outcome of a permission check: go on to the store, or answer with a status. */
  datatype Decision = Proceed | Reject(status: HttpStatus)

  /** The text `fmt.Sprintf("%v", userID)` yields for the caller: the
      "user_id" claim is the float64 of a whole user id, which `%v` prints
      as its digits below 10^6 and in exponent form from 10^6 up. */
  function CallerText(callerId: nat): (s: string)
    ensures callerId < Strconv.ExponentFormFrom ==> s == Strconv.FormatUint(callerId)
    ensures callerId >= Strconv.ExponentFormFrom ==> !Strconv.AllDigits(s)
  {
    Strconv.FormatWholeFloat(callerId)
  }

  /** The user id the store resolves the URL parameter to: a string of
      decimal digits names the row with that value; other text names none. */
  function TargetId(target: string): (id: Option<nat>)
    ensures id.Some? <==> target != [] && Strconv.AllDigits(target) && Strconv.DecimalValue(target) < UintLimit
    ensures id.Some? ==> id.value == Strconv.DecimalValue(target)
  {
    Strconv.ParseUint(target, UintLimit)
  }

  /** DeleteUserRecords up to its permission check: a caller who is neither
      an admin nor the owner (by text) is refused. */
  function DeleteUserRecordsDecision(caller: Option<nat>, role: string, target: string): (d: Decision)
    ensures caller.None? ==> d == Reject(Unauthorized)
    ensures caller.Some? ==>
              (d == Proceed <==> role == AdminRole || CallerText(caller.value) == target) &&
              (d != Proceed ==> d == Reject(Forbidden))
  {
    if caller.None? then Reject(Unauthorized)
    else if role != AdminRole && CallerText(caller.value) != target then Reject(Forbidden)
    else Proceed
  }

  /** A non-admin can only ever reach the deletion of their own rows; from
      10^6 up the only text that passes names no user at all. */
  lemma NonAdminDeletesOnlyOwnRecords(callerId: nat, role: string, target: string)
    requires role != AdminRole
    ensures DeleteUserRecordsDecision(Some(callerId), role, target) == Proceed ==>
              if callerId < Strconv.ExponentFormFrom then TargetId(target) == Some(callerId)
              else TargetId(target) == None
  {
    if callerId < Strconv.ExponentFormFrom {
      Strconv.ParseFormatRoundTrip(callerId, UintLimit);
    }
  }

  /** As written, a non-admin whose id is 10^6 or more is refused the
      deletion of their own rows under the canonical text of their id. */
  lemma LargeIdLockedOutOfOwnRecords(callerId: nat, role: string)
    requires Strconv.ExponentFormFrom <= callerId < UintLimit && role != AdminRole
    ensures DeleteUserRecordsDecision(Some(callerId), role, Strconv.FormatUint(callerId)) == Reject(Forbidden)
    ensures TargetId(Strconv.FormatUint(callerId)) == Some(callerId)
  {
    Strconv.ParseFormatRoundTrip(callerId, UintLimit);
  }

  /** DeleteUserRecords with the ownership check comparing resolved ids. */
  function DeleteUserRecordsDecisionById(caller: Option<nat>, role: string, target: string): (d: Decision)
    ensures caller.None? ==> d == Reject(Unauthorized)
    ensures caller.Some? ==>
              (d == Proceed <==> role == AdminRole || TargetId(target) == Some(caller.value)) &&
              (d != Proceed ==> d == Reject(Forbidden))
  {
    if caller.None? then Reject(Unauthorized)
    else if role != AdminRole && TargetId(target) != Some(caller.value) then Reject(Forbidden)
    else Proceed
  }

  /** The corrected check lets every user delete their own rows under the
      canonical text of their id, and a non-admin nothing else. */
  lemma CorrectedRecordsGuardAdmitsOwner(callerId: nat, role: string, target: string)
    requires callerId < UintLimit
    ensures DeleteUserRecordsDecisionById(Some(callerId), role, Strconv.FormatUint(callerId)) == Proceed
    ensures role != AdminRole && DeleteUserRecordsDecisionById(Some(callerId), role, target) == Proceed ==>
              TargetId(target) == Some(callerId)
  {
    Strconv.ParseFormatRoundTrip(callerId, UintLimit);
  }

  /** Below 10^6 the two ownership checks decide alike on canonical text. */
  lemma RecordsGuardsAgreeBelowExponentForm(callerId: nat, role: string, n: nat)
    requires callerId < Strconv.ExponentFormFrom && n < UintLimit
    ensures DeleteUserRecordsDecision(Some(callerId), role, Strconv.FormatUint(n))
            == DeleteUserRecordsDecisionById(Some(callerId), role, Strconv.FormatUint(n))
  {
    Strconv.ParseFormatRoundTrip(n, UintLimit);
    Strconv.FormatUintInjective(callerId, n);
  }

  /** DeleteUserAccount up to its self-deletion guard, as written: the guard
      compares the caller's printed id with the URL text. `callerRole` is the
      role of the caller's user row, None when that lookup fails. */
  function DeleteUserAccountDecision(caller: Option<nat>, callerRole: Option<string>, target: string): (d: Decision)
    ensures caller.None? ==> d == Reject(Unauthorized)
    ensures caller.Some? && callerRole.None? ==> d == Reject(InternalServerError)
    ensures caller.Some? && callerRole.Some? && callerRole.value != AdminRole ==> d == Reject(Forbidden)
    ensures d == Proceed <==>
              caller.Some? && callerRole == Some(AdminRole) && CallerText(caller.value) != target
  {
    if caller.None? then Reject(Unauthorized)
    else if callerRole.None? then Reject(InternalServerError)
    else if callerRole.value != AdminRole then Reject(Forbidden)
    else if CallerText(caller.value) == target then Reject(BadRequest)
    else Proceed
  }

  /** The text guard lets an admin through with another spelling of their
      own id: id 7 with target "07", and id 1000000, which `%v` prints as
      "1e+06", with its canonical text "1000000". Both targets name the caller. */
  lemma SelfDeletionGuardBypass()
    ensures DeleteUserAccountDecision(Some(7), Some(AdminRole), "07") == Proceed
    ensures TargetId("07") == Some(7)
    ensures DeleteUserAccountDecision(Some(1000000), Some(AdminRole), "1000000") == Proceed
    ensures TargetId("1000000") == Some(1000000)
  {
    assert CallerText(7) == "7";
    assert Strconv.DecimalValue("07") == 7 by {
      assert "07"[..1] == "0";
    }
    Strconv.MillionDigits();
    Strconv.ParseFormatRoundTrip(1000000, UintLimit);
  }

  /** DeleteUserAccount with the guard comparing resolved ids. */
  function DeleteUserAccountDecisionById(caller: Option<nat>, callerRole: Option<string>, target: string): (d: Decision)
    ensures caller.None? ==> d == Reject(Unauthorized)
    ensures caller.Some? && callerRole.None? ==> d == Reject(InternalServerError)
    ensures caller.Some? && callerRole.Some? && callerRole.value != AdminRole ==> d == Reject(Forbidden)
    ensures d == Proceed ==> TargetId(target) != Some(caller.value)
    ensures d == Proceed <==>
              caller.Some? && callerRole == Some(AdminRole) && TargetId(target) != Some(caller.value)
  {
    if caller.None? then Reject(Unauthorized)
    else if callerRole.None? then Reject(InternalServerError)
    else if callerRole.value != AdminRole then Reject(Forbidden)
    else if TargetId(target) == Some(caller.value) then Reject(BadRequest)
    else Proceed
  }

  /** The corrected guard never lets an admin reach the deletion of their own account. */
  lemma CorrectedGuardBlocksSelf(callerId: nat, target: string)
    requires TargetId(target) == Some(callerId)
    ensures DeleteUserAccountDecisionById(Some(callerId), Some(AdminRole), target) == Reject(BadRequest)
  {
  }

  /** On the canonical spelling of an id both guards agree, except for an
      admin of id 10^6 or more naming their own id, whom only the corrected
      guard stops. */
  lemma GuardsAgreeOnCanonicalIds(caller: Option<nat>, callerRole: Option<string>, n: nat)
    requires n < UintLimit
    ensures DeleteUserAccountDecision(caller, callerRole, Strconv.FormatUint(n))
            == DeleteUserAccountDecisionById(caller, callerRole, Strconv.FormatUint(n))
            <==> !(caller == Some(n) && callerRole == Some(AdminRole) && n >= Strconv.ExponentFormFrom)
  {
    Strconv.ParseFormatRoundTrip(n, UintLimit);
    if caller.Some? && caller.value < Strconv.ExponentFormFrom {
      Strconv.FormatUintInjective(caller.value, n);
    }
  }
}
