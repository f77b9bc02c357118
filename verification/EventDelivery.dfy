/**
 * The bounded delivery queue of a Session Event subscription (packages/session-events/src/subscription.ts).
 *
 * `Delivery` is its state as a value together with two histories, every event offered to it and every
 * event its listener was called with; the functions on it are the specification of the class
 * `SessionEventDelivery` at the end and the building block of the hub and of the carrier protocol.
 * A timer callback and the settling of the listener's promise are separate steps.
 */
module EventDelivery {
  import opened Base

  const MAX_PENDING_EVENTS: nat := 64
  const MAX_PENDING_BYTES: nat := 8 * 1024 * 1024

  datatype HostState = Background | Foreground
  datatype Snapshot = Snapshot(epoch: string, sequence: int, state: HostState)
  datatype Payload = Opaque(value: string) | Lifecycle(snapshot: Snapshot)

  /** `bytes` is the event's logical size as the validation module measures it. */
  datatype Event = Event(channel: string, kind: string, payload: Payload, source: string, bytes: nat)

  datatype Reason = Overflow | BindingTerminal | ClientTerminal | HubTerminal | Closed

  datatype Delivery = Delivery(
    queue: seq<Event>, pendingBytes: int, visible: bool, active: bool, running: bool, scheduled: bool,
    reason: Option<Reason>, offered: seq<Event>, delivered: seq<Event>)

  const FRESH := Delivery([], 0, false, true, false, false, None, [], [])

  function TotalBytes(queue: seq<Event>): (n: nat) {
    if queue == [] then 0 else queue[0].bytes + TotalBytes(queue[1..])
  }

  lemma {:induction false} TotalBytesAppend(queue: seq<Event>, e: Event)
    ensures TotalBytes(queue + [e]) == TotalBytes(queue) + e.bytes
  {
    if queue == [] {
      assert [e][1..] == [];
    } else {
      TotalBytesAppend(queue[1..], e);
      assert (queue + [e])[1..] == queue[1..] + [e];
    }
  }

  // ----- operations

  function Terminated(d: Delivery, reason: Reason): Delivery {
    if !d.active then d else d.(active := false, reason := Some(reason), queue := [], pendingBytes := 0)
  }

  function Scheduled(d: Delivery): Delivery {
    if !d.active || !d.visible || d.running || d.scheduled || d.queue == [] then d else d.(scheduled := true)
  }

  predicate Overflows(d: Delivery, e: Event) {
    |d.queue| + 1 > MAX_PENDING_EVENTS || d.pendingBytes + e.bytes > MAX_PENDING_BYTES
  }

  function Offered(d: Delivery, e: Event): Delivery {
    var d := d.(offered := d.offered + [e]);
    if !d.active then d
    else if Overflows(d, e) then Terminated(d, Overflow)
    else Scheduled(d.(queue := d.queue + [e], pendingBytes := d.pendingBytes + e.bytes))
  }

  function Revealed(d: Delivery): Delivery {
    if !d.active then d else Scheduled(d.(visible := true))
  }

  /** One turn of the drain loop: call the listener with the next event and suspend, or leave the loop. */
  function LoopHead(d: Delivery): Delivery {
    if d.active && d.visible && d.queue != [] then
      d.(queue := d.queue[1..], pendingBytes := d.pendingBytes - d.queue[0].bytes,
          delivered := d.delivered + [d.queue[0]])
    else Scheduled(d.(running := false))
  }

  /** The timer armed by `Scheduled` fires. */
  function Fired(d: Delivery): Delivery {
    var d := d.(scheduled := false);
    if !d.active || !d.visible || d.running then d else LoopHead(d.(running := true))
  }

  /** The promise of the running listener settles, either way. */
  function Settled(d: Delivery): Delivery
    requires d.running
  {
    LoopHead(d)
  }

  // ----- what every operation keeps

  /**
   * Nothing is lost, repeated or reordered while the queue is active, and afterwards the listener saw a
   * gap-free beginning of what was offered; limits hold; a waiting event always has a drain coming.
   */
  ghost predicate Valid(d: Delivery) {
    && d.pendingBytes == TotalBytes(d.queue) <= MAX_PENDING_BYTES
    && |d.queue| <= MAX_PENDING_EVENTS
    && (d.active <==> d.reason.None?)
    && (d.active ==> d.offered == d.delivered + d.queue)
    && (!d.active ==> d.queue == [])
    && d.delivered <= d.offered
    && (!d.visible ==> d.delivered == [] && !d.running && !d.scheduled)
    && (d.active && d.visible && d.queue != [] ==> d.running || d.scheduled)
    && !(d.running && d.scheduled)
  }

  lemma FreshValid()
    ensures Valid(FRESH)
  {
  }

  lemma OfferedValid(d: Delivery, e: Event)
    requires Valid(d)
    ensures Valid(Offered(d, e))
    ensures Offered(d, e).delivered == d.delivered && Offered(d, e).running == d.running
  {
    TotalBytesAppend(d.queue, e);
    assert d.delivered + (d.queue + [e]) == (d.delivered + d.queue) + [e];
  }

  lemma RevealedValid(d: Delivery)
    requires Valid(d)
    ensures Valid(Revealed(d))
  {
  }

  lemma LoopHeadValid(d: Delivery)
    requires Valid(d) && d.running
    ensures Valid(LoopHead(d))
  {
    if d.active && d.visible && d.queue != [] {
      assert d.delivered + d.queue == d.delivered + [d.queue[0]] + d.queue[1..];
    }
  }

  lemma FiredValid(d: Delivery)
    requires Valid(d) && d.scheduled
    ensures Valid(Fired(d)) && Fired(d).offered == d.offered
  {
    var idle := d.(scheduled := false);
    if idle.active && idle.visible && !idle.running {
      LoopHeadValid(idle.(running := true));
    }
  }

  lemma SettledValid(d: Delivery)
    requires Valid(d) && d.running
    ensures Valid(Settled(d)) && Settled(d).offered == d.offered
  {
    LoopHeadValid(d);
  }

  /** An idle, visible, active queue has delivered everything that was ever offered to it. */
  lemma IdleMeansDelivered(d: Delivery)
    requires Valid(d) && d.active && d.visible && !d.running && !d.scheduled
    ensures d.delivered == d.offered
  {
    assert d.queue == [];
    assert d.delivered + [] == d.delivered;
  }

  // ----- nothing waits for ever

  /** The drain's next turn, if one is coming: the listener settles, or else the timer fires. */
  function NextTurn(d: Delivery): Delivery {
    if d.running then Settled(d) else if d.scheduled then Fired(d) else d
  }

  function AfterTurns(d: Delivery, n: nat): Delivery {
    if n == 0 then d else NextTurn(AfterTurns(d, n - 1))
  }

  /** Each turn hands the listener the next waiting event, whatever its size. */
  lemma {:induction false} TurnsDeliver(d: Delivery, n: nat)
    requires Valid(d) && d.active && d.visible && n <= |d.queue|
    ensures var after := AfterTurns(d, n);
            && Valid(after) && after.active && after.visible && after.offered == d.offered
            && after.delivered == d.delivered + d.queue[..n] && after.queue == d.queue[n..]
            && (n > 0 ==> after.running)
  {
    if n == 0 {
      assert d.delivered + [] == d.delivered;
    } else {
      TurnsDeliver(d, n - 1);
      var before, after := AfterTurns(d, n - 1), AfterTurns(d, n);
      if before.running { SettledValid(before); } else { FiredValid(before); }
      assert before.queue == d.queue[n - 1..] && before.queue[0] == d.queue[n - 1];
      assert d.queue[..n] == d.queue[..n - 1] + [d.queue[n - 1]];
      assert before.queue[1..] == d.queue[n..];
      assert d.delivered + d.queue[..n] == (d.delivered + d.queue[..n - 1]) + [d.queue[n - 1]];
    }
  }

  /** A visible active queue that is offered nothing more is empty and at rest one turn after its last event. */
  lemma ComesToRest(d: Delivery)
    requires Valid(d) && d.active && d.visible
    ensures var rest := AfterTurns(d, |d.queue| + 1);
            && rest.active && rest.queue == [] && !rest.running && !rest.scheduled
            && rest.delivered == rest.offered == d.offered
  {
    TurnsDeliver(d, |d.queue|);
    var before := AfterTurns(d, |d.queue|);
    assert d.queue[|d.queue|..] == [] && d.queue[..|d.queue|] == d.queue;
    if before.running { SettledValid(before); } else if before.scheduled { FiredValid(before); }
  }

  /** A queue ends by overflow exactly when an event finds it full, and then nothing more is delivered. */
  lemma OverflowIsExact(d: Delivery, e: Event)
    requires Valid(d) && d.active
    ensures !Offered(d, e).active <==>
            |d.queue| == 64 || TotalBytes(d.queue) + e.bytes > 0x800000
    ensures !Offered(d, e).active ==>
            Offered(d, e).reason == Some(Overflow) && Offered(d, e).delivered < Offered(d, e).offered
    ensures Offered(d, e).active ==> Offered(d, e).queue == d.queue + [e]
  {
    TotalBytesAppend(d.queue, e);
  }

  // ----- the class

  class SessionEventDelivery {
    var queue: seq<Event>
    var pendingBytes: int
    var visible: bool
    var active: bool
    var running: bool
    var scheduled: bool
    var reason: Option<Reason>
    ghost var offered: seq<Event>
    ghost var delivered: seq<Event>

    ghost function State(): Delivery
      reads this
    {
      Delivery(queue, pendingBytes, visible, active, running, scheduled, reason, offered, delivered)
    }

    constructor ()
      ensures State() == FRESH && Valid(State())
    {
      queue, pendingBytes, visible, active, running, scheduled, reason := [], 0, false, true, false, false, None;
      offered, delivered := [], [];
      new;
      FreshValid();
    }

    /** `closing` says that the terminal callback ran, which it does once. */
    method Terminate(why: Reason) returns (closing: bool)
      requires Valid(State())
      modifies this
      ensures Valid(State()) && State() == Terminated(old(State()), why)
      ensures closing <==> old(active)
      ensures !active && queue == [] && delivered == old(delivered) && offered == old(offered)
      ensures reason == if closing then Some(why) else old(reason)
    {
      if !active { return false; }
      active, reason, queue, pendingBytes := false, Some(why), [], 0;
      return true;
    }

    method Enqueue(e: Event) returns (closing: bool)
      requires Valid(State())
      modifies this
      ensures Valid(State()) && State() == Offered(old(State()), e)
      ensures closing <==> old(active) && !active
      ensures offered == old(offered) + [e] && delivered == old(delivered)
      ensures active ==> queue == old(queue) + [e]
    {
      OfferedValid(State(), e);
      offered := offered + [e];
      if !active { return false; }
      if |queue| + 1 > MAX_PENDING_EVENTS || pendingBytes + e.bytes > MAX_PENDING_BYTES {
        active, reason, queue, pendingBytes := false, Some(Overflow), [], 0;
        return true;
      }
      queue, pendingBytes := queue + [e], pendingBytes + e.bytes;
      Schedule();
      return false;
    }

    method Reveal() returns (ok: bool)
      requires Valid(State())
      modifies this
      ensures Valid(State()) && State() == Revealed(old(State())) && ok == old(active)
      ensures active == old(active) && (active ==> visible) && queue == old(queue) && delivered == old(delivered)
    {
      RevealedValid(State());
      if !active { return false; }
      visible := true;
      Schedule();
      return true;
    }

    method Schedule()
      modifies this`scheduled
      ensures State() == Scheduled(old(State()))
    {
      if !active || !visible || running || scheduled || queue == [] { return; }
      scheduled := true;
    }

    /** The timer callback up to the first listener call; `next` is the event the listener gets. */
    method Fire() returns (next: Option<Event>)
      requires Valid(State()) && scheduled
      modifies this
      ensures Valid(State()) && State() == Fired(old(State()))
      ensures next.Some? <==> old(active && visible && !running && queue != [])
      ensures next.Some? ==> next.value == old(queue)[0] && queue == old(queue)[1..] && running
      ensures next.None? ==> queue == old(queue) && running == old(running)
      ensures delivered == if next.Some? then old(delivered) + [next.value] else old(delivered)
    {
      FiredValid(State());
      scheduled := false;
      if !active || !visible || running { return None; }
      running := true;
      next := Turn();
    }

    method Settle() returns (next: Option<Event>)
      requires Valid(State()) && running
      modifies this
      ensures Valid(State()) && State() == Settled(old(State()))
      ensures next.Some? <==> old(active && visible && queue != [])
      ensures next.Some? ==> next.value == old(queue)[0] && queue == old(queue)[1..] && running
      ensures next.None? ==> queue == old(queue) && !running
      ensures delivered == if next.Some? then old(delivered) + [next.value] else old(delivered)
    {
      SettledValid(State());
      next := Turn();
    }

    method Turn() returns (next: Option<Event>)
      requires running
      modifies this
      ensures State() == LoopHead(old(State()))
      ensures next.Some? <==> old(active && visible && queue != [])
      ensures next.Some? ==> next.value == old(queue)[0] && queue == old(queue)[1..] && running
      ensures next.None? ==> queue == old(queue) && !running
      ensures delivered == if next.Some? then old(delivered) + [next.value] else old(delivered)
    {
      if active && visible && queue != [] {
        next := Some(queue[0]);
        queue, pendingBytes, delivered := queue[1..], pendingBytes - queue[0].bytes, delivered + [queue[0]];
      } else {
        running := false;
        Schedule();
        next := None;
      }
    }
  }
}
