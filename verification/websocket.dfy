/**
  The live-update registry of controllers/websocket.go: a map from
  connection to client (connection plus owning user id), filled when a
  websocket is accepted and emptied when its read loop ends, and the two
  broadcasts that loop over it. Connections are ids; every WriteMessage
  call is appended to a send log together with whether the write succeeded.
 */
module Hub {
  import opened Models
  import Strconv
  import Store

  type ConnId = nat

  datatype Client = Client(conn: ConnId, userId: nat)

  /** What a viewer receives: the reading itself, or the abnormal-data
      notification carrying the viewer's own abnormal-record count. */
  datatype Message = Update(data: SensorData) | Notification(data: SensorData, abnormalCount: nat)

  /** One WriteMessage call. A failed write is logged and otherwise ignored. */
  datatype Delivery<M> = Delivery(conn: ConnId, msg: M, written: bool)

  function ConnsOf<M>(out: seq<Delivery<M>>): set<ConnId>
  {
    set i | 0 <= i < |out| :: out[i].conn
  }

  predicate DistinctConns<M>(out: seq<Delivery<M>>)
  {
    forall i, j :: 0 <= i < j < |out| ==> out[i].conn != out[j].conn
  }

  lemma ConnsOfAppend<M>(s: seq<Delivery<M>>, d: Delivery<M>)
    ensures ConnsOf(s + [d]) == ConnsOf(s) + {d.conn}
  {
    var t := s + [d];
    forall x | x in ConnsOf(t)
      ensures x in ConnsOf(s) + {d.conn}
    {
      var i :| 0 <= i < |t| && t[i].conn == x;
      if i < |s| {
        assert s[i] == t[i];
      }
    }
    forall x | x in ConnsOf(s) + {d.conn}
      ensures x in ConnsOf(t)
    {
      if x == d.conn {
        assert t[|s|].conn == x;
      } else {
        var i :| 0 <= i < |s| && s[i].conn == x;
        assert t[i].conn == x;
      }
    }
  }

  /** Exactly one write to each connection of `conns`, in some order (Go map
      iteration order is unspecified). */
  predicate OneEach<M>(out: seq<Delivery<M>>, conns: set<ConnId>)
  {
    DistinctConns(out) && ConnsOf(out) == conns && |out| == |conns|
  }

  /** A write to a connection not yet written to extends the round. */
  lemma OneEachStep<M>(out: seq<Delivery<M>>, done: set<ConnId>, d: Delivery<M>)
    requires OneEach(out, done) && d.conn !in done
    ensures OneEach(out + [d], done + {d.conn})
  {
    ConnsOfAppend(out, d);
    var t := out + [d];
    forall i, j | 0 <= i < j < |t|
      ensures t[i].conn != t[j].conn
    {
      if j == |out| {
        assert t[i] == out[i];
        assert out[i].conn in ConnsOf(out);
      }
    }
  }

  /** One write of the update: the reading itself, successful unless the connection fails. */
  predicate UpdateEntry(d: Delivery<Message>, data: SensorData, failing: set<ConnId>)
  {
    d.msg == Update(data) && d.written == (d.conn !in failing)
  }

  /** The count a client's notification carries: its own user's abnormal
      count, or 0 when that client's count query fails (`countFails`), whose
      error the broadcast ignores. */
  function NotifiedCount(c: ConnId, clients: map<ConnId, Client>, records: seq<SensorData>,
                         countFails: set<ConnId>): nat
    requires c in clients
  {
    if c in countFails then 0 else Store.CountAbnormal(records, clients[c].userId)
  }

  /** One write of the notification: the reading with the count above. */
  predicate NotificationEntry(d: Delivery<Message>, clients: map<ConnId, Client>, data: SensorData,
                              records: seq<SensorData>, failing: set<ConnId>, countFails: set<ConnId>)
  {
    d.conn in clients &&
    d.msg == Notification(data, NotifiedCount(d.conn, clients, records, countFails)) &&
    d.written == (d.conn !in failing)
  }

  predicate AllUpdates(out: seq<Delivery<Message>>, data: SensorData, failing: set<ConnId>)
  {
    forall i :: 0 <= i < |out| ==> UpdateEntry(out[i], data, failing)
  }

  lemma AllUpdatesAppend(out: seq<Delivery<Message>>, d: Delivery<Message>, data: SensorData, failing: set<ConnId>)
    requires AllUpdates(out, data, failing) && UpdateEntry(d, data, failing)
    ensures AllUpdates(out + [d], data, failing)
  {
  }

  predicate AllNotifications(out: seq<Delivery<Message>>, clients: map<ConnId, Client>, data: SensorData,
                             records: seq<SensorData>, failing: set<ConnId>, countFails: set<ConnId>)
  {
    forall i :: 0 <= i < |out| ==> NotificationEntry(out[i], clients, data, records, failing, countFails)
  }

  lemma AllNotificationsAppend(out: seq<Delivery<Message>>, d: Delivery<Message>, clients: map<ConnId, Client>,
                               data: SensorData, records: seq<SensorData>, failing: set<ConnId>,
                               countFails: set<ConnId>)
    requires AllNotifications(out, clients, data, records, failing, countFails)
    requires NotificationEntry(d, clients, data, records, failing, countFails)
    ensures AllNotifications(out + [d], clients, data, records, failing, countFails)
  {
  }

  /** The log BroadcastUpdate leaves: the same message to every client. */
  predicate UpdateRound(out: seq<Delivery<Message>>, clients: map<ConnId, Client>, data: SensorData, failing: set<ConnId>)
  {
    OneEach(out, clients.Keys) && AllUpdates(out, data, failing)
  }

  /** The log BroadcastNotification leaves: one notification per client with
      that client's own abnormal count (0 where its count query fails). */
  predicate NotificationRound(out: seq<Delivery<Message>>, clients: map<ConnId, Client>, data: SensorData,
                              records: seq<SensorData>, failing: set<ConnId>, countFails: set<ConnId>)
  {
    OneEach(out, clients.Keys) && AllNotifications(out, clients, data, records, failing, countFails)
  }

  /** The user id a connection is registered under: float64 and uint claims
      convert directly, a string must parse as a base-10 32-bit unsigned
      integer, any other type is refused. */
  function ConvertUserId(v: ClaimValue): (id: Option<nat>)
    ensures id.Some? ==> id.value < UintLimit
    ensures v.UintClaim? ==> id == Some(v.u as nat)
    ensures v.FloatClaim? ==> id.Some?
    ensures v.FloatClaim? && 0.0 <= v.f < UintLimit as real ==> id.value as real <= v.f < id.value as real + 1.0
    ensures v.StringClaim? ==>
              (id.Some? <==> v.s != [] && Strconv.AllDigits(v.s) && Strconv.DecimalValue(v.s) < Strconv.Uint32Limit)
    ensures v.StringClaim? && id.Some? ==> id.value == Strconv.DecimalValue(v.s)
    ensures v.OtherClaim? ==> id.None?
  {
    match v
    case FloatClaim(f) => Some(FloatToUint(f))
    case UintClaim(u) => Some(u)
    case StringClaim(s) => Strconv.ParseUint(s, Strconv.Uint32Limit)
    case OtherClaim => None
  }

  /** A decimal string id within 32 bits registers under exactly that id. */
  lemma StringIdRoundTrip(n: nat)
    requires n < Strconv.Uint32Limit
    ensures ConvertUserId(StringClaim(Strconv.FormatUint(n))) == Some(n)
  {
    Strconv.ParseFormatRoundTrip(n, Strconv.Uint32Limit);
  }

  /** A float64 claim holding a whole id registers under exactly that id. */
  lemma WholeFloatIdRoundTrip(n: nat)
    requires n < UintLimit
    ensures ConvertUserId(FloatClaim(n as real)) == Some(n)
  {
  }

  class Hub {
    var clients: map<ConnId, Client>
    var sent: seq<Delivery<Message>>

    /** Each client is stored under its own connection. */
    predicate Valid()
      reads this
    {
      forall c :: c in clients ==> clients[c].conn == c
    }

    constructor ()
      ensures Valid() && clients == map[] && sent == []
    {
      clients := map[];
      sent := [];
    }

    /** HandleWebSocket up to the read loop: a connection whose request has
        no usable user id is closed and never registered. */
    method HandleWebSocket(conn: ConnId, userIdRaw: Option<ClaimValue>) returns (registered: bool)
      requires Valid()
      modifies this`clients
      ensures Valid()
      ensures registered <==> userIdRaw.Some? && ConvertUserId(userIdRaw.value).Some?
      ensures registered ==> clients == old(clients)[conn := Client(conn, ConvertUserId(userIdRaw.value).value)]
      ensures !registered ==> clients == old(clients)
    {
      if userIdRaw.None? {
        return false;
      }
      var userId := ConvertUserId(userIdRaw.value);
      if userId.None? {
        return false;
      }
      clients := clients[conn := Client(conn, userId.value)];
      registered := true;
    }

    /** The deferred cleanup once the read loop ends; a no-op for an absent connection. */
    method Unregister(conn: ConnId)
      requires Valid()
      modifies this`clients
      ensures Valid()
      ensures clients == old(clients) - {conn}
      ensures conn !in old(clients) ==> clients == old(clients)
    {
      clients := clients - {conn};
    }

    /** BroadcastUpdate: the reading, serialised once, written to every client. */
    method BroadcastUpdate(data: SensorData, failing: set<ConnId>)
      modifies this`sent
      ensures |sent| == |old(sent)| + |clients| && sent[..|old(sent)|] == old(sent)
      ensures UpdateRound(sent[|old(sent)|..], clients, data, failing)
    {
      var msg := Update(data);
      var pending := clients.Keys;
      var done: set<ConnId> := {};
      var out: seq<Delivery<Message>> := [];
      while pending != {}
        invariant sent == old(sent)
        invariant done + pending == clients.Keys && done !! pending
        invariant OneEach(out, done)
        invariant AllUpdates(out, data, failing)
        decreases pending
      {
        var c :| c in pending;
        var d := Delivery(c, msg, c !in failing);
        OneEachStep(out, done, d);
        AllUpdatesAppend(out, d, data, failing);
        out := out + [d];
        done := done + {c};
        pending := pending - {c};
      }
      sent := sent + out;
      assert sent[|old(sent)|..] == out;
    }

    /** BroadcastNotification: for each client, its own abnormal count is
        looked up and a separate notification is written. `countFails`
        holds the clients whose count query fails. */
    method BroadcastNotification(data: SensorData, db: Store.Database, failing: set<ConnId>, countFails: set<ConnId>)
      modifies this`sent
      ensures |sent| == |old(sent)| + |clients| && sent[..|old(sent)|] == old(sent)
      ensures NotificationRound(sent[|old(sent)|..], clients, data, db.records, failing, countFails)
    {
      var pending := clients.Keys;
      var done: set<ConnId> := {};
      var out: seq<Delivery<Message>> := [];
      while pending != {}
        invariant sent == old(sent)
        invariant done + pending == clients.Keys && done !! pending
        invariant OneEach(out, done)
        invariant AllNotifications(out, clients, data, db.records, failing, countFails)
        decreases pending
      {
        var c :| c in pending;
        var count := db.CountAbnormalOf(clients[c].userId, c in countFails);
        var d := Delivery(c, Notification(data, count), c !in failing);
        OneEachStep(out, done, d);
        AllNotificationsAppend(out, d, clients, data, db.records, failing, countFails);
        out := out + [d];
        done := done + {c};
        pending := pending - {c};
      }
      sent := sent + out;
      assert sent[|old(sent)|..] == out;
    }
  }
}
