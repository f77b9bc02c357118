/**
 * The objects on both sides of a provisioning port, as the classes they are in the source: the two
 * endpoints that hold and hand out Data connections, and the two request tables of the broker's side.
 * Their methods are proved to act like the endpoints (`Receive`) and request tables (`Admission`,
 * `WithStatus`, `Answer`) of the DataProvisioning transition system.
 */
module DataEndpoints {
  import opened Base
  import opened DataProvisioning

  /** A transferred MessagePort; each is transferred, and so arrives, only once. */
  type Port = nat

  datatype Current = Current(tuple: Tuple, conn: ConnId, carrier: Port, delivered: bool)

  /** A carrier handed to whoever asked for `asked`. */
  datatype Delivery = Delivery(asked: Tuple, tuple: Tuple, carrier: Port)

  /** No carrier is handed out twice, and none that did not arrive. */
  ghost predicate DeliveredOnce(deliveries: seq<Delivery>, arrived: set<Port>) {
    && (forall i :: 0 <= i < |deliveries| ==> deliveries[i].carrier in arrived)
    && (forall i, j :: 0 <= i < j < |deliveries| ==> deliveries[i].carrier != deliveries[j].carrier)
  }

  ghost predicate WasDelivered(deliveries: seq<Delivery>, carrier: Port) {
    exists i :: 0 <= i < |deliveries| && deliveries[i].carrier == carrier
  }

  /** An installed connection's carrier arrived and is marked delivered exactly if it was handed out. */
  ghost predicate CurrentOk(c: Current, deliveries: seq<Delivery>, arrived: set<Port>) {
    c.carrier in arrived && (c.delivered <==> WasDelivered(deliveries, c.carrier))
  }

  ghost predicate SameCarrier(a: Option<Current>, b: Option<Current>) {
    a.Some? && b.Some? && a.value.carrier == b.value.carrier
  }

  lemma DeliveredMore(deliveries: seq<Delivery>, d: Delivery)
    ensures forall c :: WasDelivered(deliveries + [d], c) <==> WasDelivered(deliveries, c) || c == d.carrier
  {
    forall c ensures WasDelivered(deliveries + [d], c) <==> WasDelivered(deliveries, c) || c == d.carrier {
      if WasDelivered(deliveries, c) {
        var i :| 0 <= i < |deliveries| && deliveries[i].carrier == c;
        assert (deliveries + [d])[i].carrier == c;
      }
      if c == d.carrier { assert (deliveries + [d])[|deliveries|].carrier == c; }
    }
  }

  /** What acquiring comes to: a carrier at once, waiting under an identity, or a rejection. */
  datatype Acquired = Now(carrier: Port) | Later(waiter: nat) | Refused

  /** The end of the transition system that has exactly this message to take. */
  function Before(key: Option<Key>, phase: Phase, slots: map<Key, Held>, m: Message): End {
    End(key, phase, slots, [m], [])
  }

  // ----- the Window endpoint and its dispatcher

  datatype Waiter = Waiter(id: nat, tuple: Tuple)
  datatype Slot = Slot(current: Option<Current>, waiter: Option<Waiter>)

  /** A waiter never waits for a carrier that is there for it: no wake-up is lost. */
  ghost predicate SlotOk(k: Key, slot: Slot, deliveries: seq<Delivery>, arrived: set<Port>) {
    && (slot.current.Some? ==> slot.current.value.tuple.key == k && CurrentOk(slot.current.value, deliveries, arrived))
    && (slot.waiter.Some? ==> slot.waiter.value.tuple.key == k)
    && (slot.current.Some? && slot.waiter.Some? && !slot.current.value.delivered
        ==> slot.waiter.value.tuple != slot.current.value.tuple)
  }

  ghost predicate SlotsOk(slots: map<Key, Slot>, deliveries: seq<Delivery>, arrived: set<Port>) {
    && (forall k :: k in slots ==> SlotOk(k, slots[k], deliveries, arrived))
    && (forall j, k :: j in slots && k in slots && SameCarrier(slots[j].current, slots[k].current) ==> j == k)
  }

  function HeldBy(slots: map<Key, Slot>): map<Key, Held> {
    map k | k in slots && slots[k].current.Some? :: Held(slots[k].current.value.tuple, slots[k].current.value.conn)
  }

  /** Replacing one slot, possibly after the delivery of that slot's carrier. */
  lemma PutSlot(slots: map<Key, Slot>, k: Key, slot: Slot, was: seq<Delivery>, now: seq<Delivery>, arrived: set<Port>,
      arrived': set<Port>)
    requires SlotsOk(slots, was, arrived) && arrived <= arrived' && SlotOk(k, slot, now, arrived')
    requires now == was
             || (|now| > 0 && now[..|now| - 1] == was && slot.current.Some?
             && slot.current.value.carrier == now[|now| - 1].carrier)
    requires slot.current.Some? ==>
      slot.current.value.carrier !in arrived || (k in slots && SameCarrier(slots[k].current, slot.current))
    ensures SlotsOk(slots[k := slot], now, arrived')
    ensures HeldBy(slots[k := slot]) == if slot.current.Some?
            then HeldBy(slots)[k := Held(slot.current.value.tuple, slot.current.value.conn)] else HeldBy(slots) - {k}
  {
    if now != was { DeliveredMore(was, now[|now| - 1]); assert now == was + [now[|now| - 1]]; }
    forall j | j in slots && j != k
        ensures SlotOk(j, slots[j], now, arrived') && !SameCarrier(slots[j].current, slot.current) {
      assert SlotOk(j, slots[j], was, arrived);
    }
  }

  class WindowData {
    var slots: map<Key, Slot>
    var closed: bool
    var sessionCurrent: bool
    var seen: set<ReqId>
    var nextWaiter: nat
    ghost var deliveries: seq<Delivery>
    ghost var arrived: set<Port>

    ghost predicate Valid()
      reads this
    {
      && DeliveredOnce(deliveries, arrived)
      && (forall i :: 0 <= i < |deliveries| ==> deliveries[i].asked == deliveries[i].tuple)
      && SlotsOk(slots, deliveries, arrived)
      && (closed ==> slots == map[])
    }

    ghost function Phase(): Phase
      reads this
    {
      if closed then Shut else if sessionCurrent then Serving else Stale
    }

    ghost function Holds(): map<Key, Held>
      reads this
    {
      HeldBy(slots)
    }

    constructor ()
      ensures Valid() && Holds() == map[] && Phase() == Serving && deliveries == []
    {
      slots, closed, sessionCurrent, seen, nextWaiter, deliveries, arrived := map[], false, true, {}, 0, [], {};
    }

    function SlotAt(k: Key): Slot
      reads this
    {
      if k in slots then slots[k] else Slot(None, None)
    }

    /** Hands out the installed connection of exactly this tuple if nobody has it yet, else waits. */
    method Acquire(tuple: Tuple, aborted: bool) returns (r: Acquired)
      requires Valid()
      modifies this
      ensures Valid() && Holds() == old(Holds()) && Phase() == old(Phase()) && seen == old(seen)
              && arrived == old(arrived)
      ensures r.Now? ==> deliveries == old(deliveries) + [Delivery(tuple, tuple, r.carrier)]
      ensures !r.Now? ==> deliveries == old(deliveries)
      ensures var had := old(SlotAt(tuple.key)).current;
              r.Now? <==> !old(closed) && !aborted && had.Some? && had.value.tuple == tuple && !had.value.delivered
      ensures r.Later? <==> !old(closed) && !aborted && !r.Now? && old(SlotAt(tuple.key)).waiter.None?
      ensures slots == match r
        case Now(c) =>
          old(slots)[tuple.key :=
              old(SlotAt(tuple.key)).(current := Some(old(SlotAt(tuple.key)).current.value.(delivered := true)))]
        case Later(w) => old(slots)[tuple.key := old(SlotAt(tuple.key)).(waiter := Some(Waiter(w, tuple)))]
        case Refused => old(slots)
    {
      if closed || aborted { return Refused; }
      var slot := SlotAt(tuple.key);
      if slot.current.Some? && !slot.current.value.delivered && slot.current.value.tuple == tuple {
        ghost var more := deliveries + [Delivery(tuple, tuple, slot.current.value.carrier)];
        DeliveredMore(deliveries, more[|deliveries|]);
        var taken := slot.(current := Some(slot.current.value.(delivered := true)));
        PutSlot(slots, tuple.key, taken, deliveries, more, arrived, arrived);
        slots, deliveries := slots[tuple.key := taken], more;
        return Now(slot.current.value.carrier);
      }
      if slot.waiter.Some? { return Refused; }
      slot := slot.(waiter := Some(Waiter(nextWaiter, tuple)));
      PutSlot(slots, tuple.key, slot, deliveries, deliveries, arrived, arrived);
      slots := slots[tuple.key := slot];
      nextWaiter := nextWaiter + 1;
      return Later(nextWaiter - 1);
    }

    /** The abort signal of a waiter that still waits. */
    method AbortWaiter(k: Key, id: nat)
      requires Valid()
      modifies this`slots
      ensures Valid() && Holds() == old(Holds())
      ensures slots == if k in old(slots) && old(slots)[k].waiter.Some? && old(slots)[k].waiter.value.id == id
                       then old(slots)[k := old(slots)[k].(waiter := None)] else old(slots)
    {
      if k in slots && slots[k].waiter.Some? && slots[k].waiter.value.id == id {
        PutSlot(slots, k, slots[k].(waiter := None), deliveries, deliveries, arrived, arrived);
        slots := slots[k := slots[k].(waiter := None)];
      }
    }

    /** Refuses when closed or occupied; a waiter for exactly this tuple gets the carrier at once. */
    method Install(tuple: Tuple, conn: ConnId, carrier: Port) returns (ok: bool)
      requires Valid() && carrier !in arrived
      modifies this`slots, this`deliveries, this`arrived
      ensures Valid()
      ensures ok <==> !closed && tuple.key !in old(Holds())
      ensures !ok ==> slots == old(slots) && deliveries == old(deliveries)
      ensures ok ==> Holds() == old(Holds())[tuple.key := Held(tuple, conn)]
      ensures ok ==>
        var waiter := old(SlotAt(tuple.key)).waiter;
        if waiter.Some? && waiter.value.tuple == tuple
        then deliveries == old(deliveries) + [Delivery(tuple, tuple, carrier)] && SlotAt(tuple.key).waiter.None?
        else deliveries == old(deliveries) && SlotAt(tuple.key).waiter == waiter
      ensures ok ==> SlotAt(tuple.key).current.Some? && SlotAt(tuple.key).current.value.carrier == carrier
      ensures slots - {tuple.key} == old(slots) - {tuple.key}
    {
      ghost var before := arrived;
      arrived := arrived + {carrier};
      if closed { return false; }
      var slot := SlotAt(tuple.key);
      if slot.current.Some? { return false; }
      var handed := slot.waiter.Some? && slot.waiter.value.tuple == tuple;
      slot := Slot(Some(Current(tuple, conn, carrier, handed)), if handed then None else slot.waiter);
      ghost var more := if handed then deliveries + [Delivery(tuple, tuple, carrier)] else deliveries;
      if handed { DeliveredMore(deliveries, more[|deliveries|]); }
      PutSlot(slots, tuple.key, slot, deliveries, more, before, arrived);
      slots, deliveries := slots[tuple.key := slot], more;
      return true;
    }

    /** Drops the connection only if tuple and identity are exactly those of the slot. */
    method Revoke(tuple: Tuple, conn: ConnId)
      requires Valid()
      modifies this`slots
      ensures Valid() && Holds() == SlotsAfterRevoke(old(Holds()), Held(tuple, conn))
      ensures var held := old(Holds());
              Holds() == if tuple.key in held && held[tuple.key] == Held(tuple, conn) then held - {tuple.key} else held
      ensures forall k :: k in old(slots) ==> k in slots && slots[k].waiter == old(slots)[k].waiter
      ensures slots - {tuple.key} == old(slots) - {tuple.key}
    {
      if closed { return; }
      if tuple.key in slots && slots[tuple.key].current.Some? {
        var current := slots[tuple.key].current.value;
        if current.tuple == tuple && current.conn == conn {
          var slot := slots[tuple.key].(current := None);
          PutSlot(slots, tuple.key, slot, deliveries, deliveries, arrived, arrived);
          slots := slots[tuple.key := slot];
        }
      }
    }

    method Close()
      requires Valid()
      modifies this`slots, this`closed
      ensures Valid() && Phase().Shut? && Holds() == map[] && slots == map[]
    {
      slots, closed := map[], true;
    }

    /** The Session stops being the Window's current one; nothing is dropped. */
    method Leave()
      requires Valid()
      modifies this`sessionCurrent
      ensures Valid() && Holds() == old(Holds()) && Phase() == if closed then Shut else Stale
    {
      sessionCurrent := false;
    }

    /** The dispatcher of the Window bridge: one message in, one result out. */
    method Handle(m: Message, carrier: Port) returns (reply: Reply)
      requires Valid() && carrier !in arrived
      modifies this
      ensures Valid() && Phase() == old(Phase()) && seen == old(seen) + {m.req}
      ensures m.req !in old(seen) ==>
        var e := Receive(Before(None, old(Phase()), old(Holds()), m));
        Holds() == e.slots && [reply] == e.outbox
      ensures reply.req == m.req && reply.conn == m.conn
      ensures m.req !in old(seen) && m.install ==>
        && (reply.ok <==> !old(closed) && old(sessionCurrent) && m.tuple.key !in old(Holds()))
        && Holds() == if reply.ok then old(Holds())[m.tuple.key := Held(m.tuple, m.conn)] else old(Holds())
      ensures m.req !in old(seen) && !m.install ==>
        && reply.ok
        && var held := old(Holds());
           Holds() == if m.tuple.key in held && held[m.tuple.key] == Held(m.tuple, m.conn) then held - {m.tuple.key}
           else held
      ensures m.req in old(seen) ==> Holds() == old(Holds()) && reply == Reply(m.req, m.conn, false)
    {
      var accepted := false;
      if m.req !in seen {
        if !m.install {
          Revoke(m.tuple, m.conn);
          accepted := true;
        } else if sessionCurrent {
          accepted := Install(m.tuple, m.conn, carrier);
        }
      }
      seen := seen + {m.req};
      return Reply(m.req, m.conn, accepted);
    }
  }

  // ----- the Runner endpoint

  /** A Runner has one slot, for its own key, and whoever acquires takes whatever is installed. */
  class RunnerData {
    const key: Key
    var current: Option<Current>
    var waiter: Option<nat>
    var seen: set<ReqId>
    var nextWaiter: nat
    ghost var deliveries: seq<Delivery>
    ghost var arrived: set<Port>

    ghost predicate Valid()
      reads this
    {
      && DeliveredOnce(deliveries, arrived)
      && (current.Some? ==> current.value.tuple.key == key && CurrentOk(current.value, deliveries, arrived))
      && (current.Some? && waiter.Some? ==> current.value.delivered)
    }

    ghost function Holds(): map<Key, Held>
      reads this
    {
      if current.None? then map[] else map[key := Held(current.value.tuple, current.value.conn)]
    }

    constructor (key: Key)
      ensures Valid() && this.key == key && Holds() == map[] && deliveries == []
    {
      this.key := key;
      current, waiter, seen, nextWaiter, deliveries, arrived := None, None, {}, 0, [], {};
    }

    method Acquire(aborted: bool) returns (r: Acquired)
      requires Valid()
      modifies this`current, this`waiter, this`nextWaiter, this`deliveries
      ensures Valid() && Holds() == old(Holds())
      ensures r.Now? <==> !aborted && old(current).Some? && !old(current).value.delivered
      ensures r.Now? ==>
              r.carrier == old(current).value.carrier && current == Some(old(current).value.(delivered := true))
              && waiter == old(waiter)
                         && deliveries ==
                            old(deliveries) + [Delivery(current.value.tuple, current.value.tuple, r.carrier)]
      ensures !r.Now? ==> current == old(current) && deliveries == old(deliveries)
      ensures r.Later? <==> !aborted && !r.Now? && old(waiter).None?
      ensures waiter == if r.Later? then Some(r.waiter) else old(waiter)
    {
      if aborted { return Refused; }
      if current.Some? && !current.value.delivered {
        var taken := current.value.(delivered := true);
        DeliveredMore(deliveries, Delivery(taken.tuple, taken.tuple, taken.carrier));
        current, deliveries := Some(taken), deliveries + [Delivery(taken.tuple, taken.tuple, taken.carrier)];
        return Now(taken.carrier);
      }
      if waiter.Some? { return Refused; }
      waiter, nextWaiter := Some(nextWaiter), nextWaiter + 1;
      return Later(nextWaiter - 1);
    }

    method AbortWaiter(id: nat)
      requires Valid()
      modifies this`waiter
      ensures Valid() && waiter == if old(waiter) == Some(id) then None else old(waiter)
    {
      if waiter == Some(id) { waiter := None; }
    }

    /** A message for another key is answered `false` and forgotten; a repeated identity is refused. */
    method Handle(m: Message, carrier: Port) returns (reply: Reply)
      requires Valid() && carrier !in arrived
      modifies this`current, this`waiter, this`seen, this`deliveries, this`arrived
      ensures Valid()
      ensures m.tuple.key == key && m.req !in old(seen) ==>
        var e := Receive(Before(Some(key), Serving, old(Holds()), m));
        Holds() == e.slots && [reply] == e.outbox
      ensures reply.req == m.req && reply.conn == m.conn
      ensures m.tuple.key == key && m.req !in old(seen) && m.install ==>
        && (reply.ok <==> old(current).None?)
        && (reply.ok ==> current == Some(Current(m.tuple, m.conn, carrier, old(waiter).Some?)))
        && (!reply.ok ==> current == old(current))
      ensures m.tuple.key == key && m.req !in old(seen) && !m.install ==>
        && reply.ok
        && current == if old(current).Some? && old(current).value.conn == m.conn && old(current).value.tuple == m.tuple
                      then None else old(current)
      ensures m.tuple.key != key || m.req in old(seen) ==>
              current == old(current) && reply == Reply(m.req, m.conn, false)
      ensures old(seen) <= seen <= old(seen) + {m.req}
      ensures deliveries == if m.install && reply.ok && old(waiter).Some?
              then old(deliveries) + [Delivery(m.tuple, m.tuple, carrier)] else old(deliveries)
      ensures waiter == if m.install && reply.ok then None else old(waiter)
    {
      ghost var held := Holds();
      if m.tuple.key != key || m.req in seen { return Reply(m.req, m.conn, false); }
      if m.install {
        if current.Some? { return Reply(m.req, m.conn, false); }
        arrived := arrived + {carrier};
        seen := seen + {m.req};
        if waiter.Some? {
          DeliveredMore(deliveries, Delivery(m.tuple, m.tuple, carrier));
          deliveries := deliveries + [Delivery(m.tuple, m.tuple, carrier)];
        } else {
          DeliveredMore(deliveries, Delivery(m.tuple, m.tuple, carrier));
        }
        current := Some(Current(m.tuple, m.conn, carrier, waiter.Some?));
        waiter := None;
        assert Holds() == held[key := Held(m.tuple, m.conn)];
      } else {
        seen := seen + {m.req};
        if current.Some? && current.value.conn == m.conn && current.value.tuple == m.tuple {
          current := None;
          assert Holds() == held - {key};
        }
      }
      return Reply(m.req, m.conn, true);
    }
  }

  // ----- the request tables of the broker's side

  datatype Awaiting = Awaiting(conn: ConnId)

  /**
   * A SessionWindowBridge (`target` is the Window) or a RunnerDataProvisioner. `pending` is what the
   * object keeps; `requests` is every request it was ever given, with the outcome its promise got.
   */
  class RequestTable {
    const target: Target
    const key: Option<Key>
    var pending: map<ReqId, Awaiting>
    var closed: bool
    ghost var requests: map<ReqId, Request>

    ghost predicate Valid()
      reads this
    {
      && (target.ToWindow? <==> key.None?)
      && pending.Keys == (set q | q in requests && requests[q].status.Pending?)
      && (forall q :: q in requests ==> requests[q].target == target)
      && (forall q :: q in pending ==> pending[q].conn == requests[q].conn)
      && (closed ==> pending == map[])
    }

    /** The net of the transition system in which this table is the only one. */
    ghost function AsNet(nextReq: nat): Net
      reads this
    {
      Net(map[target := End(key, Serving, map[], [], [])], if closed then {target} else {}, requests, nextReq)
    }

    constructor (target: Target, key: Option<Key>)
      requires target.ToWindow? <==> key.None?
      ensures Valid() && requests == map[] && this.target == target && this.key == key && !closed
    {
      this.target, this.key := target, key;
      pending, closed, requests := map[], false, map[];
    }

    /** A request with a fresh identity is answered or left pending exactly as `Admission` says. */
    method Ask(q: ReqId, install: bool, tuple: Tuple, conn: ConnId, aborted: bool) returns (status: Status)
      requires Valid() && q !in requests
      modifies this`pending, this`requests
      ensures Valid() && status == Admission(AsNet(q), target, install, tuple, aborted)
      ensures status.Resolved? <==> target.ToRunner? && !install && closed
      ensures status.Pending? <==> !closed && !aborted && (key.Some? ==> key.value == tuple.key)
      ensures pending == if status.Pending? then old(pending)[q := Awaiting(conn)] else old(pending)
      ensures requests == old(requests)[q := Request(target, install, tuple, conn, status)]
    {
      if target.ToRunner? && !install && closed {
        status := Resolved;
      } else if aborted || closed || (key.Some? && key.value != tuple.key) {
        status := Rejected;
      } else {
        status := Pending;
        pending := pending[q := Awaiting(conn)];
      }
      requests := requests[q := Request(target, install, tuple, conn, status)];
    }

    /** An abort signal or a timer: the request is dropped and rejected unless it settled before. */
    method GiveUp(q: ReqId)
      requires Valid()
      modifies this`pending, this`requests
      ensures Valid() && requests == WithStatus(old(requests), {q}, Rejected) && pending == old(pending) - {q}
      ensures requests == if q in old(pending) then old(requests)[q := old(requests)[q].(status := Rejected)]
              else old(requests)
    {
      pending := pending - {q};
      requests := WithStatus(requests, {q}, Rejected);
    }

    /** A reply settles its request once; a late or repeated one is ignored. */
    method OnReply(reply: Reply)
      requires Valid()
      modifies this`pending, this`requests
      ensures Valid() && requests == Answer(old(AsNet(0)), reply).requests && pending == old(pending) - {reply.req}
      ensures reply.req !in old(pending) ==> requests == old(requests)
      ensures reply.req in old(pending) ==>
        var was := old(requests)[reply.req];
        var ok := reply.ok && (target.ToWindow? || reply.conn == was.conn);
        requests == old(requests)[reply.req := was.(status := if ok then Resolved else Rejected)]
    {
      if reply.req !in pending {
        assert pending == pending - {reply.req};
        return;
      }
      var ok := reply.ok && (target.ToWindow? || reply.conn == pending[reply.req].conn);
      pending := pending - {reply.req};
      requests := WithStatus(requests, {reply.req}, if ok then Resolved else Rejected);
    }

    method Close()
      requires Valid()
      modifies this`pending, this`closed, this`requests
      ensures Valid() && closed && pending == map[]
      ensures requests == Sever(old(AsNet(0)), target).requests
      ensures requests.Keys == old(requests).Keys && forall q :: q in requests ==>
        requests[q] == if q in old(pending) then old(requests)[q].(status := Rejected) else old(requests)[q]
    {
      ghost var every := PendingTo(AsNet(0), target);
      pending, closed := map[], true;
      requests := WithStatus(requests, every, Rejected);
    }
  }
}
