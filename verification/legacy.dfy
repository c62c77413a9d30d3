/**
  The single-file server of main.go, which predates the controllers: its
  readings have no owner, every websocket connection goes into one set, and
  the abnormal notification is the same message for everybody.
 */
module Legacy {
  import opened Models
  import Abnormal
  import Hub

  /** main.go's SensorData: float64 measurements and no user id. */
  datatype LegacySensorData = LegacySensorData(
    id: nat,
    timestamp: int,
    temperature: real,
    humidity: real,
    soilMoisture: real,
    isAbnormal: bool)

  /** An update carries the reading; a notification wraps it with the
      fixed text "Abnormal data detected!". */
  datatype LegacyMessage = LegacyUpdate(data: LegacySensorData) | LegacyNotification(data: LegacySensorData)

  const NotificationText: string := "Abnormal data detected!"

  /** checkAbnormality: true exactly when a value leaves its band. */
  function CheckAbnormality(d: LegacySensorData): (abnormal: bool)
    ensures !abnormal <==> Abnormal.AllNormal(d.temperature, d.humidity, d.soilMoisture)
  {
    d.temperature < 20.0 || d.temperature > 50.0 ||
    d.humidity < 30.0 || d.humidity > 90.0 ||
    d.soilMoisture < 5.0 || d.soilMoisture > 95.0
  }

  /** getAbnormalType: Temperature, then Humidity, then Soil Moisture, else Unknown. */
  function GetAbnormalType(d: LegacySensorData): (reason: string)
    ensures reason == Abnormal.TemperatureReason <==> !Abnormal.TemperatureNormal(d.temperature)
    ensures reason == Abnormal.HumidityReason <==>
              Abnormal.TemperatureNormal(d.temperature) && !Abnormal.HumidityNormal(d.humidity)
    ensures reason == Abnormal.SoilMoistureReason <==>
              Abnormal.TemperatureNormal(d.temperature) && Abnormal.HumidityNormal(d.humidity) &&
              !Abnormal.SoilMoistureNormal(d.soilMoisture)
    ensures reason == Abnormal.UnknownReason <==> !CheckAbnormality(d)
  {
    if d.temperature < 20.0 || d.temperature > 50.0 then "Temperature"
    else if d.humidity < 30.0 || d.humidity > 90.0 then "Humidity"
    else if d.soilMoisture < 5.0 || d.soilMoisture > 95.0 then "Soil Moisture"
    else "Unknown"
  }

  /** The same reading as the controllers see it, under some owner. */
  function Lift(d: LegacySensorData, userId: nat): SensorData
  {
    SensorData(d.id, userId, d.timestamp, d.temperature, d.humidity, d.soilMoisture, d.isAbnormal)
  }

  /** The old and the new classifier agree on every reading. */
  lemma ClassifiersAgree(d: LegacySensorData, userId: nat)
    ensures CheckAbnormality(d) == Abnormal.CheckAbnormality(Lift(d, userId))
    ensures GetAbnormalType(d) == Abnormal.GetAbnormalType(Lift(d, userId))
  {
  }

  /** Every write of a round carries `msg` and succeeds only on an open connection. */
  predicate AllWrites(out: seq<Hub.Delivery<LegacyMessage>>, msg: LegacyMessage, closed: set<Hub.ConnId>)
  {
    forall i :: 0 <= i < |out| ==> out[i].msg == msg && out[i].written == (out[i].conn !in closed)
  }

  lemma AllWritesAppend(out: seq<Hub.Delivery<LegacyMessage>>, d: Hub.Delivery<LegacyMessage>,
                        msg: LegacyMessage, closed: set<Hub.ConnId>)
    requires AllWrites(out, msg, closed) && d.msg == msg && d.written == (d.conn !in closed)
    ensures AllWrites(out + [d], msg, closed)
  {
  }

  /** One broadcast round: exactly one write of `msg` per connection of the set. */
  predicate WriteRound(out: seq<Hub.Delivery<LegacyMessage>>, clients: set<Hub.ConnId>, closed: set<Hub.ConnId>,
                       msg: LegacyMessage)
  {
    Hub.OneEach(out, clients) && AllWrites(out, msg, closed)
  }

  /** What the send log gains from one reading: the update round, then the
      notification round only when the reading is abnormal. */
  predicate ReadingWrites(out: seq<Hub.Delivery<LegacyMessage>>, clients: set<Hub.ConnId>, closed: set<Hub.ConnId>,
                          stored: LegacySensorData)
  {
    |out| == (if stored.isAbnormal then 2 else 1) * |clients| &&
    WriteRound(out[..|clients|], clients, closed, LegacyUpdate(stored)) &&
    (stored.isAbnormal ==> WriteRound(out[|clients|..], clients, closed, LegacyNotification(stored)))
  }

  /** When every connection of the set is closed, no write of a reading's rounds succeeds. */
  lemma NoWriteSucceeds(out: seq<Hub.Delivery<LegacyMessage>>, clients: set<Hub.ConnId>, closed: set<Hub.ConnId>,
                        stored: LegacySensorData)
    requires clients <= closed && ReadingWrites(out, clients, closed, stored)
    ensures forall i :: 0 <= i < |out| ==> !out[i].written
  {
    forall i | 0 <= i < |out|
      ensures !out[i].written
    {
      if i < |clients| {
        assert out[..|clients|][i] == out[i];
        assert out[i].conn in Hub.ConnsOf(out[..|clients|]);
      } else {
        assert out[|clients|..][i - |clients|] == out[i];
        assert out[i].conn in Hub.ConnsOf(out[|clients|..]);
      }
    }
  }

  class LegacyServer {
    /** The `clients` set (map to true) of main.go. */
    var clients: set<Hub.ConnId>
    /** Connections already closed; a write to one of them fails. */
    var closed: set<Hub.ConnId>
    var records: seq<LegacySensorData>
    var sent: seq<Hub.Delivery<LegacyMessage>>

    /** Every registered connection has been closed by its handler. */
    predicate Valid()
      reads this
    {
      clients <= closed
    }

    constructor ()
      ensures Valid() && clients == {} && closed == {} && records == [] && sent == []
    {
      clients := {};
      closed := {};
      records := [];
      sent := [];
    }

    /** handleWebSocket: after a successful upgrade the connection is added
        to `clients`, and the deferred Close runs as the handler returns at
        once; nothing ever removes it. */
    method HandleWebSocket(conn: Hub.ConnId, upgradeOk: bool)
      requires Valid()
      modifies this`clients, this`closed
      ensures Valid()
      ensures upgradeOk ==> clients == old(clients) + {conn} && closed == old(closed) + {conn}
      ensures !upgradeOk ==> clients == old(clients) && closed == old(closed)
    {
      if !upgradeOk {
        return;
      }
      clients := clients + {conn};
      closed := closed + {conn};
    }

    /** One write of `msg` to every client; the write succeeds only on an open connection. */
    method Broadcast(msg: LegacyMessage)
      modifies this`sent
      ensures |sent| >= |old(sent)| && sent[..|old(sent)|] == old(sent)
      ensures WriteRound(sent[|old(sent)|..], clients, closed, msg)
    {
      var pending := clients;
      var done: set<Hub.ConnId> := {};
      var out: seq<Hub.Delivery<LegacyMessage>> := [];
      while pending != {}
        invariant sent == old(sent)
        invariant done + pending == clients && done !! pending
        invariant Hub.OneEach(out, done)
        invariant AllWrites(out, msg, closed)
        decreases pending
      {
        var c :| c in pending;
        var d := Hub.Delivery(c, msg, c !in closed);
        Hub.OneEachStep(out, done, d);
        AllWritesAppend(out, d, msg, closed);
        out := out + [d];
        done := done + {c};
        pending := pending - {c};
      }
      assert WriteRound(out, clients, closed, msg);
      sent := sent + out;
      assert sent[|old(sent)|..] == out;
    }

    /** receiveData: 400 for a body that does not decode; otherwise stamp,
        classify, insert (its error ignored; `newId` None is a failed
        insert), broadcast the update and, when abnormal, the notification. */
    method ReceiveData(body: Option<LegacySensorData>, now: int, newId: Option<nat>) returns (status: HttpStatus)
      requires Valid()
      modifies this`records, this`sent
      ensures Valid()
      ensures body.None? ==> status == BadRequest && records == old(records) && sent == old(sent)
      ensures body.Some? ==>
                var d := body.value.(timestamp := now);
                var r := d.(isAbnormal := CheckAbnormality(d));
                var stored := if newId.Some? && r.id == 0 then r.(id := newId.value) else r;
                status == StatusOK &&
                records == old(records) + (if newId.Some? then [stored] else []) &&
                |sent| >= |old(sent)| && sent[..|old(sent)|] == old(sent) &&
                ReadingWrites(sent[|old(sent)|..], clients, closed, stored)
      // every connection of the set was closed by its own handler, so no write reaches anyone
      ensures forall i :: |old(sent)| <= i < |sent| ==> !sent[i].written
    {
      if body.None? {
        return BadRequest;
      }
      var data := body.value.(timestamp := now);
      data := data.(isAbnormal := CheckAbnormality(data));
      if newId.Some? {
        if data.id == 0 {
          data := data.(id := newId.value);
        }
        records := records + [data];
      }
      ghost var start := sent;
      Broadcast(LegacyUpdate(data));
      ghost var afterUpdate := sent;
      if data.isAbnormal {
        Broadcast(LegacyNotification(data));
        assert sent[|start|..][..|clients|] == afterUpdate[|start|..];
        assert sent[|start|..][|clients|..] == sent[|afterUpdate|..];
      }
      status := StatusOK;
      NoWriteSucceeds(sent[|start|..], clients, closed, data);
      assert forall i :: |start| <= i < |sent| ==> sent[i] == sent[|start|..][i - |start|];
    }
  }
}
