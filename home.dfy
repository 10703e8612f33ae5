/** The home controller's live objects: the websocket connection, the client
    with its bounded outbox and its read and write loops, and the client hub
    with its registry. The hub is an explicit object handed to the code that
    needs it. Each loop runs here as one sequential call. */
module Home {

  import opened Base
  import opened Envelope
  import HubModel
  import opened ClientModel

  /** An established websocket connection: its remote address, whether it is
      still open, and the log of frames written to it. What it reads is given
      to `Client.ReadMessage` as a sequence of inbound frames. */
  class Conn {
    const remoteAddr: string
    var open: bool
    var written: seq<Frame>

    constructor (remoteAddr: string)
      ensures this.remoteAddr == remoteAddr && open && written == []
    {
      this.remoteAddr := remoteAddr;
      open := true;
      written := [];
    }
  }

  class Client {
    const conn: Conn
    /** `conn.RemoteAddr().String()`, the key the hub stores the client under. */
    const address: string
    const cap: nat
    /** The buffered `send` channel, oldest item first. */
    var outbox: seq<Bytes>
    /** Whether `send` has been closed. */
    var outboxClosed: bool

    ghost predicate Valid()
      reads this
    {
      |outbox| <= cap
    }

    ghost function AsBox(): HubModel.Box
      reads this
    {
      HubModel.Box(outbox, cap)
    }

    /** The struct literal in `NewClient`. */
    constructor (conn: Conn)
      ensures this.conn == conn && address == conn.remoteAddr
      ensures cap == HubModel.OutboxCapacity && outbox == [] && !outboxClosed
      ensures Valid()
    {
      this.conn := conn;
      address := conn.remoteAddr;
      cap := HubModel.OutboxCapacity;
      outbox := [];
      outboxClosed := false;
    }

    /** The read loop over the frames the connection delivers before its read
        error. Each frame is decoded; a decode error is only logged; a decoded
        Ping queues the encoded Pong on this client's own outbox (a Pong that
        fails to encode is skipped). The read error ends the loop: the
        connection is closed and the client is handed to the hub's unregister.
        Nothing is written to the connection here. The send onto the outbox
        blocks when it is full, so the caller guarantees room for the replies. */
    method ReadMessage(hub: Hub, inbound: seq<Bytes>, decode: Bytes -> Decoded, encode: Msg -> Option<Bytes>)
      requires Valid()
      requires |outbox| + |Replies(inbound, decode, encode)| <= cap
      modifies this`outbox, conn`open
      ensures outbox == old(outbox) + Replies(inbound, decode, encode)
      ensures Valid()
      ensures !conn.open && conn.written == old(conn.written)
    {
      var i := 0;
      while i < |inbound|
        invariant 0 <= i <= |inbound|
        invariant outbox == old(outbox) + Replies(inbound[..i], decode, encode)
      {
        var received := decode(inbound[i]);
        if received.msg.msgType == Ping {
          var reply := encode(PongMsg);
          if reply.Some? {
            outbox := outbox + [reply.value];
          }
        }
        assert inbound[..i + 1][..i] == inbound[..i];
        i := i + 1;
      }
      assert inbound[..i] == inbound;
      conn.open := false;
      var _ := hub.Unregister(this);
    }

    /** The write loop: take the oldest item off the outbox and write it to the
        connection as a binary frame, until a write fails (`failAt` is the
        index, within this call, of the first write the connection rejects) or
        the outbox is empty. A connection already closed (by the read loop)
        rejects every write, so its first write fails. An empty, closed outbox
        ends the loop; an empty, open one is where the goroutine would wait.
        When the loop ends (a failed write or a closed outbox) the connection
        is closed. */
    method WriteMessage(failAt: Option<nat>) returns (exit: WriteExit)
      requires Valid()
      modifies this`outbox, conn
      ensures var d := Drain(old(outbox), outboxClosed, WriteFailure(old(conn.open), failAt));
        && exit == d.exit
        && outbox == d.rest
        && conn.written == old(conn.written) + BinaryFrames(d.written)
        && conn.open == (old(conn.open) && exit == Waiting)
      ensures Valid()
    {
      ghost var queue := outbox;
      var fail := WriteFailure(conn.open, failAt);
      var n := 0;
      while |outbox| > 0
        invariant 0 <= n <= |queue|
        invariant outbox == queue[n..]
        invariant conn.written == old(conn.written) + BinaryFrames(queue[..n])
        invariant fail == WriteFailure(old(conn.open), failAt)
        invariant fail.Some? ==> n <= fail.value
        invariant conn.open == old(conn.open)
        decreases |outbox|
      {
        var message := outbox[0];
        outbox := outbox[1..];
        if fail == Some(n) {
          conn.open := false;
          return WriteFailed;
        }
        assert queue[..n + 1] == queue[..n] + [message];
        BinaryFramesAppend(queue[..n], message);
        conn.written := conn.written + [Frame(BinaryMessage, message)];
        n := n + 1;
      }
      assert queue[..n] == queue;
      if outboxClosed {
        conn.open := false;
        exit := OutboxClosed;
      } else {
        exit := Waiting;
      }
    }

    /** The broadcast's non-blocking send: `msg` is queued when the outbox has
        room, otherwise it is dropped and the outbox is left as it was. */
    method TrySend(msg: Bytes) returns (sent: bool)
      requires Valid()
      modifies this`outbox
      ensures Valid()
      ensures sent <==> HubModel.HasRoom(old(AsBox()))
      ensures AsBox() == HubModel.TrySend(old(AsBox()), msg)
    {
      sent := |outbox| < cap;
      if sent {
        outbox := outbox + [msg];
      }
    }

    /** One round of `SendHello`: queue the bytes of "hello" (a blocking send,
        so the caller guarantees room). */
    method SendHello()
      requires Valid() && |outbox| < cap
      modifies this`outbox
      ensures outbox == old(outbox) + [AsciiBytes("hello")]
      ensures Valid()
    {
      outbox := outbox + [AsciiBytes("hello")];
    }
  }

  /** An event of the hub's loop: a client on the register channel, a client on
      the unregister channel (either may be nil), or a broadcast message. */
  datatype Event = RegisterEvent(client: Client?) | UnregisterEvent(client: Client?) | BroadcastEvent(msg: Bytes)

  predicate IsNilUnregister(e: Event)
  {
    e.UnregisterEvent? && e.client == null
  }

  /** Where the hub's loop stops: the index of the first nil client on the
      unregister channel, or the length of the run when there is none. */
  function FirstNilUnregister(events: seq<Event>): (k: nat)
    ensures k <= |events|
    ensures forall i | 0 <= i < k :: !IsNilUnregister(events[i])
    ensures k < |events| ==> IsNilUnregister(events[k])
  {
    if events == [] || IsNilUnregister(events[0]) then 0
    else 1 + FirstNilUnregister(events[1..])
  }

  /** The clients that the register events carry. */
  ghost function RegisteredBy(events: seq<Event>): set<Client>
  {
    set i | 0 <= i < |events| && events[i].RegisterEvent? && events[i].client != null :: events[i].client as Client
  }

  /** Every client that a register event carries has an entry in `boxes`. */
  predicate Covers(events: seq<Event>, boxes: map<Client, HubModel.Box>)
  {
    forall i | 0 <= i < |events| :: events[i].RegisterEvent? && events[i].client != null ==> events[i].client in boxes
  }

  /** The outboxes of the given clients, as values. */
  ghost function BoxesOf(cs: set<Client>): map<Client, HubModel.Box>
    reads cs
  {
    map c | c in cs :: c.AsBox()
  }

  /** What an event means for the registry; a registered client brings the
      outbox that `boxes` records for it. */
  function OpOf(e: Event, boxes: map<Client, HubModel.Box>): HubModel.Op
    requires !IsNilUnregister(e)
    requires e.RegisterEvent? && e.client != null ==> e.client in boxes
  {
    match e
    case RegisterEvent(c) => if c == null then HubModel.AdmitNil else HubModel.Admit(c.address, boxes[c])
    case UnregisterEvent(c) => HubModel.Retire(c.address)
    case BroadcastEvent(m) => HubModel.Send(m)
  }

  function OpsOf(events: seq<Event>, boxes: map<Client, HubModel.Box>): (ops: seq<HubModel.Op>)
    requires forall i | 0 <= i < |events| :: !IsNilUnregister(events[i])
    requires Covers(events, boxes)
    ensures |ops| == |events|
    ensures forall i | 0 <= i < |events| :: ops[i] == OpOf(events[i], boxes)
  {
    if events == [] then [] else [OpOf(events[0], boxes)] + OpsOf(events[1..], boxes)
  }

  /** The register branch on the map of clients: a non-nil client is stored
      under its address when that address is absent; every other event leaves
      the map as it is. */
  function RegisterStep(clients: map<string, Client>, e: Event): map<string, Client>
  {
    if e.RegisterEvent? && e.client != null && e.client.address !in clients
    then clients[e.client.address := e.client]
    else clients
  }

  /** The map of clients after `events`, as the source's `run` behaves. */
  function ClientsAsWritten(clients: map<string, Client>, events: seq<Event>): map<string, Client>
    decreases |events|
  {
    if events == [] then clients
    else RegisterStep(ClientsAsWritten(clients, events[..|events| - 1]), events[|events| - 1])
  }

  /** As written, no entry is ever replaced or removed, and every new entry is
      a client that a register event carried, stored under its own address. */
  lemma {:induction false} ClientsAsWrittenKeepsEntries(clients: map<string, Client>, events: seq<Event>)
    ensures forall a | a in clients ::
      a in ClientsAsWritten(clients, events) && ClientsAsWritten(clients, events)[a] == clients[a]
    ensures forall a | a in ClientsAsWritten(clients, events) && a !in clients ::
      ClientsAsWritten(clients, events)[a] in RegisteredBy(events) && ClientsAsWritten(clients, events)[a].address == a
    decreases |events|
  {
    if events != [] {
      var n := |events| - 1;
      var init := events[..n];
      ClientsAsWrittenKeepsEntries(clients, init);
      assert RegisteredBy(init) <= RegisteredBy(events) by {
        forall c | c in RegisteredBy(init) ensures c in RegisteredBy(events) {
          var i :| 0 <= i < |init| && init[i].RegisterEvent? && init[i].client == c;
          assert events[i] == init[i];
        }
      }
      if events[n].RegisterEvent? && events[n].client != null {
        assert events[n].client in RegisteredBy(events);
      }
    }
  }

  /** Handling one more event applies its step to the registry. */
  lemma RunExtend(reg: HubModel.Registry, events: seq<Event>, boxes: map<Client, HubModel.Box>, k: nat)
    requires k < FirstNilUnregister(events) && Covers(events, boxes)
    ensures HubModel.RunAsWritten(reg, OpsOf(events[..k + 1], boxes))
         == HubModel.RegistryStepAsWritten(HubModel.RunAsWritten(reg, OpsOf(events[..k], boxes)), OpOf(events[k], boxes))
  {
    var ops := OpsOf(events[..k + 1], boxes);
    assert ops[..k] == OpsOf(events[..k], boxes);
  }

  /** Handling one more event applies its step to the map of clients. */
  lemma ClientsExtend(clients: map<string, Client>, events: seq<Event>, k: nat)
    requires k < |events|
    ensures ClientsAsWritten(clients, events[..k + 1]) == RegisterStep(ClientsAsWritten(clients, events[..k]), events[k])
  {
    assert events[..k + 1][..k] == events[..k];
  }

  class Hub {
    /** `clients map[string]*Client`. */
    var clients: map<string, Client>

    ghost function Members(): set<Client>
      reads this
    {
      set a | a in clients :: clients[a]
    }

    /** Every client is stored under its own address, and every outbox is
        within its capacity. */
    ghost predicate Valid()
      reads this, Members()
    {
      && (forall a | a in clients :: clients[a].address == a)
      && (forall a | a in clients :: clients[a].Valid())
    }

    /** The registry as a value. */
    ghost function Snapshot(): HubModel.Registry
      reads this, Members()
    {
      map a | a in clients :: clients[a].AsBox()
    }

    /** A client whose address is not a key is not registered. */
    lemma AbsentAddressesNotMembers(cs: set<Client>)
      requires Valid()
      ensures forall c | c in cs && c.address !in clients :: c !in Members()
    {
    }

    /** `newClientHub`: an empty registry. */
    constructor ()
      ensures clients == map[] && Valid()
    {
      clients := map[];
    }

    /** The register branch: a nil client is ignored; otherwise the client is
        inserted under its address only if that address is absent. */
    method Register(c: Client?)
      requires Valid() && (c != null ==> c.Valid())
      modifies this
      ensures Valid()
      ensures c == null ==> clients == old(clients)
      ensures c != null ==> clients == if c.address in old(clients) then old(clients) else old(clients)[c.address := c]
      ensures c != null ==> Snapshot() == HubModel.Register(old(Snapshot()), c.address, c.AsBox())
      ensures old(Members()) <= Members()
    {
      if c == null {
        return;
      }
      if c.address !in clients {
        ghost var before := clients;
        clients := clients[c.address := c];
        forall x | x in old(Members())
          ensures x in Members()
        {
          var a :| a in before && before[a] == x;
          assert clients[a] == x;
        }
      }
    }

    /** The unregister branch as written: the guard `if homeClient != nil {
        continue }` skips every real client, and a nil one would go on to
        dereference nil (`panicked`). Neither path changes the registry. */
    method Unregister(c: Client?) returns (panicked: bool)
      ensures panicked <==> c == null
    {
      if c != null {
        return false;
      }
      return true;
    }

    /** The removal body behind the unregister guard: delete the client's
        address if it is present. It deletes by address, whichever client is
        stored there. */
    method Remove(c: Client)
      requires Valid()
      modifies this
      ensures Valid()
      ensures clients == if c.address in old(clients) then old(clients) - {c.address} else old(clients)
      ensures Snapshot() == HubModel.Remove(old(Snapshot()), c.address)
    {
      if c.address in clients {
        clients := clients - {c.address};
      }
    }

    /** The broadcast branch: a non-blocking send of `msg` to every registered
        client, in whatever order the map is iterated. A full outbox misses the
        message (its address is reported in `dropped`); no error is raised, the
        registry's keys do not change, and only outboxes are written. */
    method Broadcast(msg: Bytes) returns (dropped: set<string>)
      requires Valid()
      modifies Members()`outbox
      ensures Valid()
      ensures Snapshot() == HubModel.Broadcast(old(Snapshot()), msg)
      ensures dropped == HubModel.Dropped(old(Snapshot()))
    {
      var todo := clients.Keys;
      dropped := {};
      while todo != {}
        invariant todo <= clients.Keys
        invariant forall a | a in clients && a !in todo ::
          clients[a].AsBox() == HubModel.TrySend(old(clients[a].AsBox()), msg)
        invariant forall a | a in todo :: clients[a].outbox == old(clients[a].outbox)
        invariant dropped == set a | a in clients && a !in todo && !HubModel.HasRoom(old(clients[a].AsBox()))
        invariant Valid()
        decreases todo
      {
        var a :| a in todo;
        var sent := clients[a].TrySend(msg);
        if !sent {
          dropped := dropped + {a};
        }
        todo := todo - {a};
      }
    }

    /** One turn of the hub's loop: the branch that the event selects. A nil
        client on the unregister channel is where the source dereferences nil
        (`panicked`). `boxes` records the outbox a registered client brings
        (it must be the client's own when its address is new); `others` is any
        set of clients whose invariant the caller needs kept. */
    method Handle(e: Event, ghost boxes: map<Client, HubModel.Box>, ghost others: set<Client>) returns (panicked: bool)
      requires Valid()
      requires e.RegisterEvent? && e.client != null ==> e.client.Valid() && e.client in boxes
      requires e.RegisterEvent? && e.client != null && e.client.address !in clients ==>
        boxes[e.client] == e.client.AsBox()
      requires forall c | c in others :: c.Valid()
      modifies this, Members()`outbox
      ensures Valid()
      ensures forall c | c in others :: c.Valid()
      ensures panicked <==> IsNilUnregister(e)
      ensures clients == RegisterStep(old(clients), e)
      ensures panicked ==> Snapshot() == old(Snapshot())
      ensures !panicked ==> Snapshot() == HubModel.RegistryStepAsWritten(old(Snapshot()), OpOf(e, boxes))
      ensures old(Members()) <= Members() <= old(Members()) + (if e.RegisterEvent? && e.client != null then {e.client} else {})
    {
      panicked := false;
      match e {
        case RegisterEvent(c) =>
          Register(c);
        case UnregisterEvent(c) =>
          panicked := Unregister(c);
        case BroadcastEvent(m) =>
          var _ := Broadcast(m);
      }
    }

    /** The turn of `Run` that handles `events[k]`, given that the earlier
        events brought the hub to the registry and the map of clients the
        folds give, and that every registered client not yet stored has the
        outbox `boxes` recorded for it. The map only grows, and a client it
        still does not store keeps that outbox. */
    method RunStep(events: seq<Event>, k: nat, ghost boxes: map<Client, HubModel.Box>,
                   ghost reg0: HubModel.Registry, ghost clients0: map<string, Client>) returns (panicked: bool)
      requires k < |events| && k <= FirstNilUnregister(events)
      requires Covers(events, boxes)
      requires Valid()
      requires clients == ClientsAsWritten(clients0, events[..k])
      requires Snapshot() == HubModel.RunAsWritten(reg0, OpsOf(events[..k], boxes))
      requires forall c | c in RegisteredBy(events) :: c.Valid()
      requires forall c | c in RegisteredBy(events) && c !in Members() :: c.AsBox() == boxes[c]
      modifies this, Members()`outbox
      ensures Valid()
      ensures panicked <==> k == FirstNilUnregister(events)
      ensures panicked ==> clients == old(clients) && Snapshot() == old(Snapshot())
      ensures !panicked ==> clients == ClientsAsWritten(clients0, events[..k + 1])
      ensures !panicked ==> Snapshot() == HubModel.RunAsWritten(reg0, OpsOf(events[..k + 1], boxes))
      ensures old(Members()) <= Members() <= old(Members()) + RegisteredBy(events)
      ensures forall c | c in RegisteredBy(events) :: c.Valid()
      ensures forall c | c in RegisteredBy(events) && c !in Members() :: c.AsBox() == boxes[c]
    {
      var e := events[k];
      if e.RegisterEvent? && e.client != null {
        assert e.client in RegisteredBy(events);
      }
      AbsentAddressesNotMembers(RegisteredBy(events));
      panicked := Handle(e, boxes, RegisteredBy(events));
      if !panicked {
        RunExtend(reg0, events, boxes, k);
        ClientsExtend(clients0, events, k);
      }
    }

    /** The hub's loop over a run of events, one at a time, stopping at a nil
        client on the unregister channel; `processed` is the number of events
        handled. The map of clients is the one `ClientsAsWritten` gives, and the
        registry is the one `HubModel.RunAsWritten` gives, each registered
        client bringing the outbox it had when the run began. No client is
        dropped from the map, and a client the run does not store (its address
        was taken, or its event comes after the stop) keeps its outbox. */
    method Run(events: seq<Event>) returns (processed: nat)
      requires Valid()
      requires forall c | c in RegisteredBy(events) :: c.Valid()
      modifies this, Members()`outbox, RegisteredBy(events)`outbox
      ensures Valid()
      ensures processed == FirstNilUnregister(events)
      ensures clients == ClientsAsWritten(old(clients), events[..processed])
      ensures Snapshot() == HubModel.RunAsWritten(old(Snapshot()), OpsOf(events[..processed], old(BoxesOf(RegisteredBy(events)))))
      ensures clients.Keys == HubModel.KeysAsWritten(old(clients).Keys, OpsOf(events[..processed], old(BoxesOf(RegisteredBy(events)))))
      ensures old(Members()) <= Members()
      ensures forall c | c in RegisteredBy(events) && c !in Members() :: c.outbox == old(c.outbox)
    {
      ghost var boxes := BoxesOf(RegisteredBy(events));
      ghost var reg0 := Snapshot();
      ghost var clients0 := clients;
      processed := 0;
      while processed < |events|
        invariant processed <= FirstNilUnregister(events)
        invariant Valid()
        invariant clients == ClientsAsWritten(clients0, events[..processed])
        invariant Snapshot() == HubModel.RunAsWritten(reg0, OpsOf(events[..processed], boxes))
        invariant old(Members()) <= Members() <= old(Members()) + RegisteredBy(events)
        invariant forall c | c in RegisteredBy(events) :: c.Valid()
        invariant forall c | c in RegisteredBy(events) && c !in Members() :: c.AsBox() == boxes[c]
      {
        var panicked := RunStep(events, processed, boxes, reg0, clients0);
        if panicked {
          break;
        }
        processed := processed + 1;
      }
      HubModel.RunAsWrittenKeys(reg0, OpsOf(events[..processed], boxes));
      assert reg0.Keys == clients0.Keys;
      assert Snapshot().Keys == clients.Keys;
    }
  }

  /** `NewClient`: a nil connection is an error and registers nothing;
      otherwise a fresh client keyed by the remote address, with an empty
      outbox of capacity 10·1024·1024, is built and submitted for
      registration. */
  method NewClient(hub: Hub, conn: Conn?) returns (c: Client?, err: Option<string>)
    requires hub.Valid()
    modifies hub
    ensures hub.Valid()
    ensures conn == null ==> c == null && err == Some("websocket conn is nil") && hub.clients == old(hub.clients)
    ensures conn != null ==>
      && c != null && fresh(c) && err == None
      && c.conn == conn && c.address == conn.remoteAddr
      && c.outbox == [] && c.cap == HubModel.OutboxCapacity && !c.outboxClosed
      && hub.clients == if c.address in old(hub.clients) then old(hub.clients) else old(hub.clients)[c.address := c]
  {
    if conn == null {
      return null, Some("websocket conn is nil");
    }
    c := new Client(conn);
    hub.Register(c);
    err := None;
  }
}
