/** The client hub's registry and its broadcast, as values: a registry maps a
    client address to that client's outbox (the buffered `send` channel) and
    the outbox's capacity. The `Hub` class in module Home is proved against
    these functions. */
module HubModel {

  import opened Base

  /** `make(chan []byte, 1024*1024*10)`: the capacity of every client's outbox. */
  const OutboxCapacity: nat := 1024 * 1024 * 10

  /** A registered client as the hub's broadcast sees it. */
  datatype Box = Box(outbox: seq<Bytes>, cap: nat)

  type Registry = map<string, Box>

  predicate HasRoom(b: Box)
  {
    |b.outbox| < b.cap
  }

  predicate WithinCapacity(reg: Registry)
  {
    forall a | a in reg :: |reg[a].outbox| <= reg[a].cap
  }

  // ---------------------------------------------------------------------------
  // Register and the guarded removal

  /** Register: insert under the address only if the address is absent. */
  function Register(reg: Registry, address: string, b: Box): Registry
  {
    if address in reg then reg else reg[address := b]
  }

  /** Registration adds the address; on a duplicate the earlier entry wins,
      and no other entry changes. */
  lemma RegisterEffect(reg: Registry, address: string, b: Box)
    ensures Register(reg, address, b).Keys == reg.Keys + {address}
    ensures address in reg ==> Register(reg, address, b)[address] == reg[address]
    ensures address !in reg ==> Register(reg, address, b)[address] == b
    ensures forall a | a in reg && a != address :: Register(reg, address, b)[a] == reg[a]
  {
  }

  /** The guarded removal: delete the address if it is present. */
  function Remove(reg: Registry, address: string): Registry
  {
    if address in reg then reg - {address} else reg
  }

  /** Removal deletes exactly that address, touches no other entry, and is
      idempotent. */
  lemma RemoveEffect(reg: Registry, address: string)
    ensures Remove(reg, address).Keys == reg.Keys - {address}
    ensures forall a | a in reg && a != address :: Remove(reg, address)[a] == reg[a]
    ensures Remove(Remove(reg, address), address) == Remove(reg, address)
  {
  }

  // ---------------------------------------------------------------------------
  // Broadcast

  /** The non-blocking send `select { case client.send <- msg: default: }`:
      a full outbox drops the message. */
  function TrySend(b: Box, msg: Bytes): Box
  {
    if HasRoom(b) then b.(outbox := b.outbox + [msg]) else b
  }

  /** Broadcast, per client: every registered outbox tries the send once. */
  function Broadcast(reg: Registry, msg: Bytes): Registry
  {
    map a | a in reg :: TrySend(reg[a], msg)
  }

  /** Broadcast never changes the key set; an outbox with room gets `msg` at
      its tail after its earlier items, a full one is left as it was, and the
      capacity bound is kept. */
  lemma BroadcastEffect(reg: Registry, msg: Bytes)
    ensures Broadcast(reg, msg).Keys == reg.Keys
    ensures forall a | a in reg && HasRoom(reg[a]) ::
      Broadcast(reg, msg)[a].outbox == reg[a].outbox + [msg]
    ensures forall a | a in reg && !HasRoom(reg[a]) :: Broadcast(reg, msg)[a] == reg[a]
    ensures forall a | a in reg :: Broadcast(reg, msg)[a].cap == reg[a].cap
    ensures WithinCapacity(reg) ==> WithinCapacity(Broadcast(reg, msg))
  {
  }

  /** The addresses whose outbox was full, so that the broadcast was dropped
      for them (the hub logs a warning for each). */
  function Dropped(reg: Registry): set<string>
  {
    set a | a in reg && !HasRoom(reg[a])
  }

  /** The Go loop `for address, client := range hc.clients` sends in some
      order the language leaves unspecified. */
  function BroadcastInOrder(reg: Registry, order: seq<string>, msg: Bytes): Registry
    decreases |order|
  {
    if order == [] then reg
    else
      var a := order[0];
      var reg' := if a in reg then reg[a := TrySend(reg[a], msg)] else reg;
      BroadcastInOrder(reg', order[1..], msg)
  }

  predicate Distinct(order: seq<string>)
  {
    forall i, j | 0 <= i < j < |order| :: order[i] != order[j]
  }

  /** Sending along any repetition-free order touches exactly the addresses
      in that order. */
  lemma {:induction false} BroadcastInOrderTouches(reg: Registry, order: seq<string>, msg: Bytes)
    requires Distinct(order)
    ensures BroadcastInOrder(reg, order, msg)
         == map a | a in reg :: if a in order then TrySend(reg[a], msg) else reg[a]
    decreases |order|
  {
    if order != [] {
      var a := order[0];
      var reg' := if a in reg then reg[a := TrySend(reg[a], msg)] else reg;
      var rest := order[1..];
      assert Distinct(rest) by {
        forall i, j | 0 <= i < j < |rest| ensures rest[i] != rest[j] {
          assert rest[i] == order[i + 1] && rest[j] == order[j + 1];
        }
      }
      BroadcastInOrderTouches(reg', rest, msg);
      assert a !in rest by {
        forall i | 0 <= i < |rest| ensures rest[i] != a { assert rest[i] == order[i + 1]; }
      }
      forall b ensures b in order <==> b == a || b in rest {
        assert order == [a] + rest;
      }
    }
  }

  /** Whatever order the map iteration takes, the broadcast ends in the same
      registry: the per-client outcome does not depend on the order. */
  lemma BroadcastOrderIrrelevant(reg: Registry, order: seq<string>, msg: Bytes)
    requires Distinct(order)
    requires forall a | a in reg :: a in order
    ensures BroadcastInOrder(reg, order, msg) == Broadcast(reg, msg)
  {
    BroadcastInOrderTouches(reg, order, msg);
  }

  // ---------------------------------------------------------------------------
  // The registry's key set over a run of events

  /** The hub's events, reduced to what decides the registry: `Admit` carries
      the client's address and its outbox as it is when the event is handled,
      and `AdmitNil` is a nil client on the register channel. */
  datatype Op = Admit(address: string, box: Box) | AdmitNil | Retire(address: string) | Send(msg: Bytes)

  /** One event's effect on the key set as the source's `run` behaves: an
      unregister of a (non-nil) client is skipped by the inverted guard. */
  function StepAsWritten(keys: set<string>, op: Op): set<string>
  {
    match op
    case Admit(a, _) => keys + {a}
    case _ => keys
  }

  /** The key set after `ops`, as the source's `run` behaves. */
  function KeysAsWritten(keys: set<string>, ops: seq<Op>): set<string>
    decreases |ops|
  {
    if ops == [] then keys
    else StepAsWritten(KeysAsWritten(keys, ops[..|ops| - 1]), ops[|ops| - 1])
  }

  /** The key set after `ops` with the guarded removal applied on unregister. */
  function Keys(keys: set<string>, ops: seq<Op>): set<string>
    decreases |ops|
  {
    if ops == [] then keys
    else
      var before := Keys(keys, ops[..|ops| - 1]);
      match ops[|ops| - 1]
      case Admit(a, _) => before + {a}
      case Retire(a) => before - {a}
      case _ => before
  }

  /** Every address ever admitted by `ops`. */
  function Admitted(ops: seq<Op>): set<string>
    decreases |ops|
  {
    if ops == [] then {}
    else Admitted(ops[..|ops| - 1]) + (if ops[|ops| - 1].Admit? then {ops[|ops| - 1].address} else {})
  }

  /** As written, a run never removes anything: the keys are the starting keys
      plus every address ever admitted. */
  lemma {:induction false} KeysAsWrittenOnlyGrow(keys: set<string>, ops: seq<Op>)
    ensures KeysAsWritten(keys, ops) == keys + Admitted(ops)
    decreases |ops|
  {
    if ops != [] {
      KeysAsWrittenOnlyGrow(keys, ops[..|ops| - 1]);
    }
  }

  /** An input that shows the inverted guard: registering a client and then
      unregistering it leaves it registered. */
  lemma UnregisterAsWrittenKeepsClient(address: string, b: Box)
    ensures address in KeysAsWritten({}, [Admit(address, b), Retire(address)])
  {
    var ops := [Admit(address, b), Retire(address)];
    assert ops[..1] == [Admit(address, b)];
    assert [Admit(address, b)][..0] == [];
  }

  /** The last register or unregister for `address` in `ops`: `Some(true)` for a
      register, `Some(false)` for an unregister, `None` if there is neither. */
  function LastVerdict(ops: seq<Op>, address: string): Option<bool>
    decreases |ops|
  {
    if ops == [] then None
    else
      match ops[|ops| - 1]
      case Admit(a, _) => if a == address then Some(true) else LastVerdict(ops[..|ops| - 1], address)
      case Retire(a) => if a == address then Some(false) else LastVerdict(ops[..|ops| - 1], address)
      case _ => LastVerdict(ops[..|ops| - 1], address)
  }

  /** With the guarded removal, an address is registered after a run exactly
      when its last event was a register (or, with no event for it, when it was
      registered before the run): the registry holds the admitted-and-not-yet-
      evicted clients, with no stale entries. */
  lemma {:induction false} KeysAreAdmittedNotEvicted(keys: set<string>, ops: seq<Op>, address: string)
    ensures address in Keys(keys, ops) <==>
      match LastVerdict(ops, address)
      case Some(admitted) => admitted
      case None => address in keys
    decreases |ops|
  {
    if ops != [] {
      KeysAreAdmittedNotEvicted(keys, ops[..|ops| - 1], address);
    }
  }

  // ---------------------------------------------------------------------------
  // The registry itself over a run of events

  /** One event's effect on the registry as the source's `run` behaves:
      register, the broadcast, and nothing for an unregister. */
  function RegistryStepAsWritten(reg: Registry, op: Op): Registry
  {
    match op
    case Admit(a, b) => Register(reg, a, b)
    case Send(m) => Broadcast(reg, m)
    case _ => reg
  }

  /** The registry after `ops`, as the source's `run` behaves. */
  function RunAsWritten(reg: Registry, ops: seq<Op>): Registry
    decreases |ops|
  {
    if ops == [] then reg
    else RegistryStepAsWritten(RunAsWritten(reg, ops[..|ops| - 1]), ops[|ops| - 1])
  }

  /** The run's key set is the one `KeysAsWritten` gives. */
  lemma {:induction false} RunAsWrittenKeys(reg: Registry, ops: seq<Op>)
    ensures RunAsWritten(reg, ops).Keys == KeysAsWritten(reg.Keys, ops)
    decreases |ops|
  {
    if ops != [] {
      var before := RunAsWritten(reg, ops[..|ops| - 1]);
      RunAsWrittenKeys(reg, ops[..|ops| - 1]);
      match ops[|ops| - 1]
      case Admit(a, b) => RegisterEffect(before, a, b);
      case Send(m) => BroadcastEffect(before, m);
      case _ =>
    }
  }

  /** Every admitted outbox is within its capacity. */
  predicate AdmitsWithinCapacity(ops: seq<Op>)
  {
    forall i | 0 <= i < |ops| :: ops[i].Admit? ==> |ops[i].box.outbox| <= ops[i].box.cap
  }

  /** A run whose admitted outboxes are within capacity keeps the whole
      registry within capacity. */
  lemma {:induction false} RunAsWrittenWithinCapacity(reg: Registry, ops: seq<Op>)
    requires WithinCapacity(reg) && AdmitsWithinCapacity(ops)
    ensures WithinCapacity(RunAsWritten(reg, ops))
    decreases |ops|
  {
    if ops != [] {
      var init := ops[..|ops| - 1];
      assert AdmitsWithinCapacity(init) by {
        forall i | 0 <= i < |init| ensures init[i].Admit? ==> |init[i].box.outbox| <= init[i].box.cap {
          assert init[i] == ops[i];
        }
      }
      RunAsWrittenWithinCapacity(reg, init);
      var before := RunAsWritten(reg, init);
      match ops[|ops| - 1]
      case Admit(a, b) => RegisterEffect(before, a, b);
      case Send(m) => BroadcastEffect(before, m);
      case _ =>
    }
  }
}
