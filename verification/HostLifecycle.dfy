/** The subscriber side of the host lifecycle (packages/session-events/src/host-lifecycle.ts). */
module HostLifecycle {
  import opened Base
  import opened EventDelivery
  import opened EventHub

  predicate Follows(x: Snapshot, y: Snapshot) { y.epoch == x.epoch && y.sequence == x.sequence + 1 }

  predicate Accepts(heeded: seq<Snapshot>, x: Snapshot) { heeded == [] || Follows(heeded[|heeded| - 1], x) }

  /** The snapshots the filter of `subscribeHostLifecycle` lets through. */
  function Heeded(snapshots: seq<Snapshot>): seq<Snapshot> {
    if snapshots == [] then []
    else
      var h, x := Heeded(snapshots[..|snapshots| - 1]), snapshots[|snapshots| - 1];
      if Accepts(h, x) then h + [x] else h
  }

  lemma HeededMore(snapshots: seq<Snapshot>, x: Snapshot)
    ensures Heeded(snapshots + [x]) == if Accepts(Heeded(snapshots), x) then Heeded(snapshots) + [x]
            else Heeded(snapshots)
  {
    assert (snapshots + [x])[..|snapshots|] == snapshots;
  }

  /** Whatever it is fed, the filter lets through consecutive numbers of one epoch, from the first snapshot on. */
  lemma {:induction false} HeededIsConsecutive(snapshots: seq<Snapshot>)
    ensures forall i :: 0 <= i < |Heeded(snapshots)| - 1 ==> Follows(Heeded(snapshots)[i], Heeded(snapshots)[i + 1])
    ensures snapshots != [] ==> Heeded(snapshots) != [] && Heeded(snapshots)[0] == snapshots[0]
  {
    if snapshots != [] { HeededIsConsecutive(snapshots[..|snapshots| - 1]); }
  }

  lemma {:induction false} RunIsHeeded(run: seq<Snapshot>)
    requires IsRun(run)
    ensures Heeded(run) == run
  {
    hide IsRun, Follows;
    if run != [] {
      var most, last := run[..|run| - 1], run[|run| - 1];
      RunEnds(run);
      RunIsHeeded(most);
      assert most + [last] == run;
    }
  }

  lemma RunEnds(run: seq<Snapshot>)
    requires IsRun(run) && run != []
    ensures IsRun(run[..|run| - 1])
    ensures |run| > 1 ==> Follows(run[|run| - 2], run[|run| - 1])
  {
    var most := run[..|run| - 1];
    assert forall i :: 0 <= i < |most| ==> most[i] == run[i];
  }

  lemma RunPrefix(seen: seq<Snapshot>, run: seq<Snapshot>)
    requires IsRun(run) && seen <= run
    ensures IsRun(seen)
  {
    assert forall i :: 0 <= i < |seen| ==> seen[i] == run[i];
  }

  // ----- when the filter lets every host snapshot through

  /**
   * Snapshot `i` of those told since the current publisher was installed gets past the filter; `before` is
   * what the subscriber was told by earlier publishers.
   */
  predicate Passes(before: seq<Told>, told: seq<Told>, i: nat)
    requires i < |told|
  {
    Accepts(Heeded(Plain(before + told[..i])), told[i].snapshot)
  }

  ghost predicate HostPasses(before: seq<Told>, told: seq<Told>) {
    forall i :: 0 <= i < |told| && told[i].byHost ==> Passes(before, told, i)
  }

  /** A posed snapshot that carries the number the host gives next. */
  predicate Anticipates(told: seq<Told>, i: nat)
    requires i < |told|
  {
    var hosts := Hosts(told[..i]);
    !told[i].byHost && hosts != [] && Follows(hosts[|hosts| - 1], told[i].snapshot)
  }

  /** The host tells nothing after a posed snapshot that carries its next number. */
  ghost predicate Undisturbed(told: seq<Told>) {
    forall i, k :: 0 <= i < k < |told| && told[k].byHost ==> !Anticipates(told, i)
  }

  predicate IsFirst(told: seq<Told>, i: nat)
    requires i < |told|
  {
    told[i].byHost && Hosts(told[..i]) == []
  }

  ghost predicate FirstPasses(before: seq<Told>, told: seq<Told>) {
    forall i :: 0 <= i < |told| && IsFirst(told, i) ==> Passes(before, told, i)
  }

  ghost predicate Anticipated(told: seq<Told>) { exists i :: 0 <= i < |told| && Anticipates(told, i) }

  /** Where the filter stands once every host snapshot has passed: at the host's last, or past it. */
  ghost predicate Stands(before: seq<Told>, told: seq<Told>) {
    var heeded, hosts := Heeded(Plain(before + told)), Hosts(told);
    hosts != [] ==>
      && heeded != []
      && var at, last := heeded[|heeded| - 1], hosts[|hosts| - 1];
         if Anticipated(told) then at.epoch == last.epoch && at.sequence > last.sequence else at == last
  }

  /**
   * The exact condition, for every subscriber: the host's first snapshot gets past the filter, and the host
   * tells nothing after a posed snapshot that carries its next number.
   */
  lemma {:induction false} HostPassesIff(before: seq<Told>, told: seq<Told>)
    requires IsRun(Hosts(told))
    ensures HostPasses(before, told) <==> FirstPasses(before, told) && Undisturbed(told)
    ensures HostPasses(before, told) ==> Stands(before, told)
    decreases |told|
  {
    hide IsRun, Heeded, Hosts, HostPasses, FirstPasses, Undisturbed, Stands, Plain;
    if told == [] {
      NothingTold(before);
    } else {
      var most, x := told[..|told| - 1], told[|told| - 1];
      assert most + [x] == told;
      ToldMore(most, x);
      if x.byHost { RunEnds(Hosts(told)); }
      HostPassesIff(before, most);
      OneMorePasses(before, most, x);
      OneMoreUndisturbed(most, x);
      if x.byHost && HostPasses(before, most) { HostNextPasses(before, most, x); }
      if HostPasses(before, told) { OneMoreStands(before, most, x); }
    }
  }

  lemma NothingTold(before: seq<Told>)
    ensures HostPasses(before, []) && FirstPasses(before, []) && Undisturbed([]) && Stands(before, [])
  {
  }

  lemma OneMorePasses(before: seq<Told>, told: seq<Told>, x: Told)
    ensures HostPasses(before, told + [x]) <==>
            HostPasses(before, told) && (x.byHost ==> Accepts(Heeded(Plain(before + told)), x.snapshot))
    ensures FirstPasses(before, told + [x]) <==>
              FirstPasses(before, told)
                  && (x.byHost && Hosts(told) == [] ==> Accepts(Heeded(Plain(before + told)), x.snapshot))
  {
    hide Passes, IsFirst, Heeded, Plain, Hosts, Accepts;
    var more := told + [x];
    LastPasses(before, told, x);
    if HostPasses(before, more) {
      forall i | 0 <= i < |told| && told[i].byHost ensures Passes(before, told, i) { SamePasses(before, told, x, i); }
    }
    if FirstPasses(before, more) {
      forall i | 0 <= i < |told| && IsFirst(told, i) ensures Passes(before, told, i) { SamePasses(before, told, x, i); }
    }
    forall i | 0 <= i < |more| && (i < |told| ==> Passes(before, told, i)) && (i == |told| ==> Passes(before, more, i))
      ensures Passes(before, more, i)
    {
      if i < |told| { SamePasses(before, told, x, i); }
    }
    forall i | 0 <= i < |told| ensures more[i] == told[i] && (IsFirst(more, i) <==> IsFirst(told, i)) {
      SamePasses(before, told, x, i);
    }
  }

  lemma SamePasses(before: seq<Told>, told: seq<Told>, x: Told, i: nat)
    requires i < |told|
    ensures (told + [x])[i] == told[i]
    ensures Passes(before, told + [x], i) <==> Passes(before, told, i)
    ensures IsFirst(told + [x], i) <==> IsFirst(told, i)
  {
    hide Heeded, Plain, Hosts, Accepts;
    assert (told + [x])[..i] == told[..i];
  }

  lemma LastPasses(before: seq<Told>, told: seq<Told>, x: Told)
    ensures Passes(before, told + [x], |told|) <==> Accepts(Heeded(Plain(before + told)), x.snapshot)
    ensures IsFirst(told + [x], |told|) <==> x.byHost && Hosts(told) == []
  {
    hide Heeded, Plain, Hosts, Accepts;
    assert (told + [x])[..|told|] == told;
  }

  lemma OneMoreUndisturbed(told: seq<Told>, x: Told)
    ensures Undisturbed(told + [x]) <==> Undisturbed(told) && (x.byHost ==> !Anticipated(told))
    ensures Anticipated(told + [x]) <==> Anticipated(told) || Anticipates(told + [x], |told|)
    ensures Anticipates(told + [x], |told|) <==>
              !x.byHost && Hosts(told) != [] && Follows(Hosts(told)[|Hosts(told)| - 1], x.snapshot)
    ensures Hosts(told) == [] ==> !Anticipated(told)
  {
    hide Hosts, Follows;
    var more := told + [x];
    assert more[..|told|] == told;
    forall i | 0 <= i < |told| ensures Anticipates(more, i) <==> Anticipates(told, i) {
      assert more[i] == told[i] && more[..i] == told[..i];
    }
    forall i | 0 <= i < |told| && Anticipates(told, i) ensures Hosts(told) != [] { HostsPrefix(told, i); }
  }

  lemma {:induction false} HostsPrefix(told: seq<Told>, n: nat)
    requires n <= |told|
    ensures Hosts(told[..n]) <= Hosts(told)
  {
    if n < |told| {
      HostsPrefix(told[..|told| - 1], n);
      assert told[..|told| - 1][..n] == told[..n];
    } else { assert told[..n] == told; }
  }

  lemma PlainMore(before: seq<Told>, told: seq<Told>, x: Told)
    ensures Heeded(Plain(before + (told + [x]))) ==
            var h := Heeded(Plain(before + told)); if Accepts(h, x.snapshot) then h + [x.snapshot] else h
  {
    hide Heeded, Plain, Accepts;
    assert before + (told + [x]) == (before + told) + [x];
    ToldMore(before + told, x);
    HeededMore(Plain(before + told), x.snapshot);
  }

  lemma OneMoreStands(before: seq<Told>, told: seq<Told>, x: Told)
    requires Stands(before, told) && (x.byHost ==> Accepts(Heeded(Plain(before + told)), x.snapshot))
    requires x.byHost ==> !Anticipated(told)
    ensures Stands(before, told + [x])
  {
    hide Heeded, Plain, Hosts, Anticipated;
    PlainMore(before, told, x);
    ToldMore(told, x);
    OneMoreUndisturbed(told, x);
  }

  /** A host snapshot that is not the first passes exactly if no posed one carried its number before. */
  lemma HostNextPasses(before: seq<Told>, told: seq<Told>, x: Told)
    requires Stands(before, told) && Hosts(told) != [] ==> Follows(Hosts(told)[|Hosts(told)| - 1], x.snapshot)
    requires Stands(before, told)
    ensures Hosts(told) != [] ==> (Accepts(Heeded(Plain(before + told)), x.snapshot) <==> !Anticipated(told))
  {
    hide Heeded, Plain, Hosts, Anticipated;
  }

  // ----- who lets every host snapshot through

  lemma OnlyFirst(told: seq<Told>, i: nat)
    requires i < |told| && told[0].byHost
    ensures IsFirst(told, i) ==> i == 0
  {
    if i > 0 {
      HostsPrefix(told[..i], 1);
      assert told[..i][..1] == [] + [told[0]];
      ToldMore([], told[0]);
    }
  }

  /** Who was told nothing by earlier publishers, and first something by the host. */
  lemma FirstOfAll(told: seq<Told>)
    requires told != [] && told[0].byHost && IsRun(Hosts(told))
    ensures HostPasses([], told) <==> Undisturbed(told)
  {
    hide IsRun, Undisturbed;
    HostPassesIff([], told);
    forall i | 0 <= i < |told| && IsFirst(told, i) ensures Passes([], told, i) {
      OnlyFirst(told, i);
    }
  }

  /** If no one posed as the host since it was installed, it depends on the host's first snapshot alone. */
  lemma NewPublisher(before: seq<Told>, told: seq<Told>)
    requires told != [] && (forall i :: 0 <= i < |told| ==> told[i].byHost) && IsRun(Hosts(told))
    ensures HostPasses(before, told) <==> Accepts(Heeded(Plain(before)), told[0].snapshot)
  {
    hide IsRun, Heeded, Plain, Accepts;
    HostPassesIff(before, told);
    assert before + told[..0] == before;
    assert IsFirst(told, 0);
    forall i | 0 < i < |told| ensures !IsFirst(told, i) { OnlyFirst(told, i); }
  }

  /** What the listener got to see of what was told since the current publisher was installed. */
  function Since(before: seq<Told>, heard: seq<Told>, seen: nat): (told: seq<Told>)
    requires seen <= |before| + |heard|
    ensures told <= heard
  {
    if seen <= |before| then [] else heard[..seen - |before|]
  }

  lemma DeliveredPrefix(d: Delivery)
    requires EventDelivery.Valid(d)
    ensures |d.delivered| <= |d.offered| && d.delivered == d.offered[..|d.delivered|]
  {
  }

  lemma PlainPrefix(told: seq<Told>, snapshots: seq<Snapshot>)
    requires snapshots <= Plain(told)
    ensures |snapshots| <= |told| && snapshots == Plain(told[..|snapshots|])
  {
  }

  /**
   * In every state of the hub with a publisher: the listener of a host lifecycle subscriber was called with
   * a beginning of what it was told, and every host snapshot among it got past the filter if and only if the
   * host's first one did and the host told nothing after a posed snapshot that carried its next number.
   */
  lemma SubscriberPassesIff(host: Host, subs: map<SubId, Sub>, before: map<SubId, seq<Told>>,
      heard: map<SubId, seq<Told>>, late: map<SubId, Option<Snapshot>>, s: SubId)
    requires HistoryOk(subs, before, heard) && HostHeard(Some(host), subs, before, heard, late)
    requires s in subs && HOST_CHANNEL in subs[s].channels && EventDelivery.Valid(subs[s].delivery)
    ensures var seen := Snapshots(subs[s].delivery.delivered);
            && |seen| <= |before[s] + heard[s]| && seen == Plain((before[s] + heard[s])[..|seen|])
            && var told := Since(before[s], heard[s], |seen|);
               HostPasses(before[s], told) <==> FirstPasses(before[s], told) && Undisturbed(told)
  {
    hide Snapshots, IsRun, Heeded, EventDelivery.Valid, Hosts, Plain, HostPasses, FirstPasses, Undisturbed;
    var d := subs[s].delivery;
    DeliveredPrefix(d);
    SnapshotsPrefix(d.offered, |d.delivered|);
    PlainPrefix(before[s] + heard[s], Snapshots(d.delivered));
    var told := Since(before[s], heard[s], |Snapshots(d.delivered)|);
    HostsPrefix(heard[s], |told|);
    assert told == heard[s][..|told|];
    RunPrefix(Hosts(told), Hosts(heard[s]));
    HostPassesIff(before[s], told);
  }

  /**
   * Whoever was told nothing by earlier publishers, and nothing by anyone posing as the host, sees consecutive
   * numbers with alternating states, none of which the filter discards. If it came while the publisher was
   * installed, it sees first the state retained then or, if there was none, the publisher's number 0.
   */
  lemma SubscriberSeesRun(host: Host, subs: map<SubId, Sub>, before: map<SubId, seq<Told>>,
      heard: map<SubId, seq<Told>>, late: map<SubId, Option<Snapshot>>, s: SubId)
    requires HistoryOk(subs, before, heard) && HostHeard(Some(host), subs, before, heard, late)
    requires s in subs && HOST_CHANNEL in subs[s].channels && EventDelivery.Valid(subs[s].delivery)
    requires before[s] == [] && forall i :: 0 <= i < |heard[s]| ==> heard[s][i].byHost
    ensures var seen := Snapshots(subs[s].delivery.delivered);
            && IsRun(seen) && Heeded(seen) == seen
            && (s in late && seen != [] ==> if late[s].Some? then seen[0] == late[s].value else seen[0].sequence == 0)
  {
    hide Snapshots, IsRun, Heeded, EventDelivery.Valid;
    var d := subs[s].delivery;
    DeliveredPrefix(d);
    SnapshotsPrefix(d.offered, |d.delivered|);
    assert [] + heard[s] == heard[s];
    AllHosts(heard[s]);
    RunPrefix(Snapshots(d.delivered), Plain(heard[s]));
    RunIsHeeded(Snapshots(d.delivered));
  }

  lemma {:induction false} AllHosts(told: seq<Told>)
    requires forall i :: 0 <= i < |told| ==> told[i].byHost
    ensures Hosts(told) == Plain(told)
  {
    if told != [] {
      AllHosts(told[..|told| - 1]);
      assert told == told[..|told| - 1] + [told[|told| - 1]];
    }
  }

  /** The subscriber callback of host-lifecycle.ts. */
  class HostLifecycleSubscriber {
    var current: Option<Snapshot>
    ghost var events: seq<Event>
    ghost var heeded: seq<Snapshot>

    ghost predicate Valid()
      reads this
    {
      && heeded == Heeded(Snapshots(events))
      && current == if heeded == [] then None else Some(heeded[|heeded| - 1])
    }

    constructor ()
      ensures Valid() && events == [] && heeded == []
    {
      current, events, heeded := None, [], [];
    }

    /** The snapshot the author's listener is called with, if any. */
    method OnEvent(e: Event) returns (calls: Option<Snapshot>)
      requires Valid()
      modifies this
      ensures Valid() && events == old(events) + [e]
      ensures calls == if Parsed(e).Some? && Accepts(Heeded(Snapshots(old(events))), Parsed(e).value) then Parsed(e)
              else None
      ensures heeded == if calls.Some? then old(heeded) + [calls.value] else old(heeded)
      ensures calls.Some? <==>
              && e.channel == "host.lifecycle" && e.kind == "state" && e.source == "host" && e.payload.Lifecycle?
              && e.payload.snapshot.epoch != "" && e.payload.snapshot.sequence >= 0
              && (old(current).None?
                  || (e.payload.snapshot.epoch == old(current).value.epoch
                      && e.payload.snapshot.sequence == old(current).value.sequence + 1))
      ensures calls.Some? ==> calls.value == e.payload.snapshot && current == calls
      ensures calls.None? ==> current == old(current)
    {
      hide Snapshots;
      SnapshotsMore(events, e);
      if Parsed(e).Some? { HeededMore(Snapshots(events), Parsed(e).value); }
      else { assert Snapshots(events) + [] == Snapshots(events); }
      events := events + [e];
      var snapshot := Parsed(e);
      if snapshot.None? { return None; }
      if current.Some? && !Follows(current.value, snapshot.value) { return None; }
      current, heeded := snapshot, heeded + [snapshot.value];
      return snapshot;
    }
  }

  // ----- runs of the hub in which a host snapshot is discarded

  /** The hub, a subscriber of its lifecycle channel, and the events its listener was called with so far. */
  ghost predicate Listens(hub: SessionEventHub, s: SubId, subscriber: HostLifecycleSubscriber)
    reads hub, subscriber
  {
    && hub.Valid() && hub.HostOk() && subscriber.Valid()
    && s in hub.subs && subscriber.events == hub.subs[s].delivery.delivered
  }

  /** The latest host snapshot was handed to the listener and discarded. */
  ghost predicate Discards(hub: SessionEventHub, s: SubId, subscriber: HostLifecycleSubscriber)
    reads hub, subscriber
  {
    && Listens(hub, s, subscriber) && hub.hostLifecycle.Some?
    && subscriber.events != [] && subscriber.events[|subscriber.events| - 1] == HostEvent(hub.hostLifecycle.value, 0)
    && Parsed(HostEvent(hub.hostLifecycle.value, 0)).Some?
    && Parsed(HostEvent(hub.hostLifecycle.value, 0)).value !in subscriber.heeded
  }

  /** A live subscription whose listener is running, with events of no size. */
  function Running(delivered: seq<Event>, queue: seq<Event>): Delivery {
    Delivery(queue, 0, true, true, true, false, None, delivered + queue, delivered)
  }

  lemma Begins(e: Event)
    requires e.bytes == 0
    ensures Offered(FRESH, e).reason.None? && Revealed(Offered(FRESH, e)).scheduled
    ensures Fired(Revealed(Offered(FRESH, e))) == Running([e], [])
  {
    assert [] + [e] == [e] && [e] + [] == [e];
  }

  lemma Queues(delivered: seq<Event>, queue: seq<Event>, e: Event)
    requires e.bytes == 0 && |queue| < MAX_PENDING_EVENTS
    ensures Offered(Running(delivered, queue), e) == Running(delivered, queue + [e])
  {
    assert delivered + queue + [e] == delivered + (queue + [e]);
  }

  lemma Turns(delivered: seq<Event>, queue: seq<Event>)
    requires queue != [] && queue[0].bytes == 0
    ensures Settled(Running(delivered, queue)) == Running(delivered + [queue[0]], queue[1..])
  {
    assert delivered + queue == delivered + [queue[0]] + queue[1..];
  }

  /** The subscription `s` of the channel, with this delivery, on an open binding with this key. */
  predicate Holds(hub: SessionEventHub, b: BindingId, key: string, s: SubId, d: Delivery)
    reads hub
  {
    && !hub.terminal && b in hub.bindings && hub.bindings.Keys == {b} && hub.bindings[b].key == key
       && !hub.bindings[b].closed
    && s in hub.subs && hub.subs[s] == Sub(b, {HOST_CHANNEL}, d)
  }

  lemma NoBytes(h: Host)
    ensures HostEvent(h, 0).bytes == 0 && HostEvent(h, 0).channel == HOST_CHANNEL
  {
  }

  lemma NothingHeeded()
    ensures Snapshots([]) == [] && Heeded([]) == []
  {
  }

  /** An event of the channel reaches the subscription behind the running listener and is handed to it next. */
  lemma ComesNext(hub: SessionEventHub, b: BindingId, key: string, s: SubId, delivered: seq<Event>, queue: seq<Event>,
      e: Event)
    requires Holds(hub, b, key, s, Running(delivered, queue)) && e.channel == HOST_CHANNEL && e.bytes == 0
             && |queue| < MAX_PENDING_EVENTS
    ensures s in RoutedSubs(hub.subs, hub.bindings, e, None)
    ensures RoutedSubs(hub.subs, hub.bindings, e, None)[s] == Sub(b, {HOST_CHANNEL}, Running(delivered, queue + [e]))
  {
    hide Offered;
    Queues(delivered, queue, e);
  }

  /** A hub with a publisher in the foreground and a subscription that is told so. */
  method Open(key: string, epoch: string) returns (hub: SessionEventHub, b: BindingId, s: SubId)
    requires epoch != ""
    ensures fresh(hub) && hub.Valid() && hub.HostOk() && hub.hostLifecycle == Some(Host(0, epoch, 0, Foreground))
    ensures Holds(hub, b, key, s, Offered(FRESH, HostEvent(hub.hostLifecycle.value, 0)))
    ensures s in hub.heard && hub.heard[s] == [Told(Snapshot(epoch, 0, Foreground), true)] && s in hub.before
            && hub.before[s] == []
  {
    hide Coherent, HistoryOk, HostHeard, Offered, HostEvent;
    hub := new SessionEventHub();
    var created := hub.CreateBinding(key);
    b := created.value;
    var installed := hub.InstallHost(0, epoch, 1, Some(Foreground));
    var candidate := hub.Subscribe(b, {HOST_CHANNEL}, 0);
    s := candidate.value;
  }

  /** Its listener has been called with that. */
  method Subscribed(key: string, epoch: string)
      returns (hub: SessionEventHub, b: BindingId, s: SubId, subscriber: HostLifecycleSubscriber)
    requires epoch != ""
    ensures fresh(hub) && fresh(subscriber) && Listens(hub, s, subscriber)
    ensures hub.hostLifecycle == Some(Host(0, epoch, 0, Foreground))
    ensures Holds(hub, b, key, s, Running([HostEvent(hub.hostLifecycle.value, 0)], []))
    ensures s in hub.heard && hub.heard[s] == [Told(Snapshot(epoch, 0, Foreground), true)] && s in hub.before
            && hub.before[s] == []
    ensures subscriber.heeded == [Snapshot(epoch, 0, Foreground)]
  {
    hide Coherent, HistoryOk, HostHeard, Offered, Revealed, Fired, HostEvent, Snapshots, Heeded, Parsed;
    hub, b, s := Open(key, epoch);
    var e := HostEvent(hub.hostLifecycle.value, 0);
    NoBytes(hub.hostLifecycle.value);
    Begins(e);
    var established := hub.Establish(s);
    hub.Fire(s);
    subscriber := new HostLifecycleSubscriber();
    NothingHeeded();
    ParsedHost(hub.hostLifecycle.value, 0);
    var calls := subscriber.OnEvent(e);
    assert [] + [e] == [e] && [] + [calls.value] == [calls.value];
  }

  /** A Runtime publishes a lifecycle state under its key. */
  method Pose(hub: SessionEventHub, b: BindingId, key: string, s: SubId, subscriber: HostLifecycleSubscriber,
              ghost delivered: seq<Event>, ghost queue: seq<Event>, x: Snapshot)
    requires Listens(hub, s, subscriber) && Holds(hub, b, key, s, Running(delivered, queue))
             && |queue| < MAX_PENDING_EVENTS
    modifies hub`subs, hub`channelIndex, hub`bindings, hub`heard
    ensures Listens(hub, s, subscriber)
    ensures Holds(hub, b, key, s,
            Running(delivered, queue + [EventOf(key, Input(HOST_CHANNEL, "state", Lifecycle(x), 0))]))
    ensures s in old(hub.heard) && s in hub.heard
    ensures hub.heard[s] == old(hub.heard)[s] +
            (if key == HOST_SOURCE && x.epoch != "" && x.sequence >= 0 then [Told(x, false)] else [])
  {
    hide Coherent, HistoryOk, HostHeard, Offered, RoutedSubs, Snapshots, Heeded;
    var input := Input(HOST_CHANNEL, "state", Lifecycle(x), 0);
    ComesNext(hub, b, key, s, delivered, queue, EventOf(key, input));
    Known(hub, s);
    var failure := hub.Publish(b, input);
    assert hub.heard[s] == old(hub.heard)[s] + [] || key == HOST_SOURCE;
  }

  lemma Known(hub: SessionEventHub, s: SubId)
    requires hub.Valid() && s in hub.subs
    ensures s in hub.heard && s in hub.before
  {
  }

  /** The listener gets the next event. */
  method Hand(hub: SessionEventHub, b: BindingId, key: string, s: SubId, subscriber: HostLifecycleSubscriber,
              ghost delivered: seq<Event>, e: Event, ghost queue: seq<Event>) returns (calls: Option<Snapshot>)
    requires Listens(hub, s, subscriber) && Holds(hub, b, key, s, Running(delivered, [e] + queue)) && e.bytes == 0
    modifies hub`subs, subscriber
    ensures Listens(hub, s, subscriber) && Holds(hub, b, key, s, Running(delivered + [e], queue))
    ensures calls == if Parsed(e).Some? && Accepts(old(subscriber.heeded), Parsed(e).value) then Parsed(e) else None
    ensures subscriber.heeded == if calls.Some? then old(subscriber.heeded) + [calls.value] else old(subscriber.heeded)
  {
    hide Coherent, HistoryOk, HostHeard, Settled, Snapshots, Heeded, Accepts, Parsed;
    Turns(delivered, [e] + queue);
    assert ([e] + queue)[1..] == queue;
    hub.Settle(s);
    calls := subscriber.OnEvent(e);
  }

  /** The host publishes a changed state. */
  method Announce(hub: SessionEventHub, b: BindingId, key: string, s: SubId, subscriber: HostLifecycleSubscriber,
                  ghost delivered: seq<Event>, ghost queue: seq<Event>, owner: nat, state: HostState)
    requires Listens(hub, s, subscriber) && Holds(hub, b, key, s, Running(delivered, queue))
             && |queue| < MAX_PENDING_EVENTS
    requires hub.hostLifecycle.Some? && hub.hostLifecycle.value.owner == owner
    requires Advanced(hub.hostLifecycle.value, state) != hub.hostLifecycle.value
    modifies hub`subs, hub`channelIndex, hub`bindings, hub`heard, hub`hostLifecycle
    ensures Listens(hub, s, subscriber) && hub.hostLifecycle == Some(Advanced(old(hub.hostLifecycle).value, state))
    ensures Holds(hub, b, key, s, Running(delivered, queue + [HostEvent(hub.hostLifecycle.value, 0)]))
    ensures s in old(hub.heard) && s in hub.heard
    ensures var h := hub.hostLifecycle.value;
            hub.heard[s] == old(hub.heard)[s] + [Told(Snapshot(h.epoch, h.sequence, h.state), true)]
  {
    hide Coherent, HistoryOk, Offered, RoutedSubs, Snapshots, Heeded, HostEvent, Parsed, HeardOk, Hosts;
    ghost var h := Advanced(hub.hostLifecycle.value, state);
    NoBytes(h);
    ParsedHost(h, 0);
    ComesNext(hub, b, key, s, delivered, queue, HostEvent(h, 0));
    Known(hub, s);
    var failure := hub.PublishHost(owner, state, 0);
  }

  /** The latest host snapshot is handed over and does not follow what was let through last. */
  method Discarded(hub: SessionEventHub, b: BindingId, key: string, s: SubId, subscriber: HostLifecycleSubscriber,
      ghost delivered: seq<Event>)
    requires hub.hostLifecycle.Some? && hub.hostLifecycle.value.epoch != "" && hub.hostLifecycle.value.sequence >= 0
    requires Listens(hub, s, subscriber)
    requires Holds(hub, b, key, s, Running(delivered, [HostEvent(hub.hostLifecycle.value, 0)]))
    requires var h := hub.hostLifecycle.value;
             var x := Snapshot(h.epoch, h.sequence, h.state);
             x !in subscriber.heeded && !Accepts(subscriber.heeded, x)
    modifies hub`subs, subscriber
    ensures Discards(hub, s, subscriber)
    ensures Holds(hub, b, key, s, Running(delivered + [HostEvent(hub.hostLifecycle.value, 0)], []))
  {
    hide Coherent, HistoryOk, HostHeard, HostEvent, Snapshots, Heeded, Accepts, Parsed;
    var e := HostEvent(hub.hostLifecycle.value, 0);
    NoBytes(hub.hostLifecycle.value);
    ParsedHost(hub.hostLifecycle.value, 0);
    assert [e] + [] == [e];
    var calls := Hand(hub, b, key, s, subscriber, delivered, e, []);
  }

  const HELD := Snapshot("e", 0, Foreground)
  const POSED := Snapshot("e", 1, Foreground)
  const NEXT := Snapshot("e", 1, Background)

  lemma PosedTold()
    ensures var told := [Told(HELD, true), Told(POSED, false), Told(NEXT, true)];
            Anticipates(told, 1) && !Undisturbed(told)
  {
    var told := [Told(HELD, true), Told(POSED, false), Told(NEXT, true)];
    assert told[..1] == [Told(HELD, true)];
    OneHost(HELD);
    assert told[2].byHost && Anticipates(told, 1);
  }

  lemma HoldsKey(hub: SessionEventHub, b: BindingId, key: string, s: SubId, d: Delivery)
    requires Holds(hub, b, key, s, d)
    ensures hub.bindings.Keys == {b} && hub.bindings[b].key == key
  {
  }

  lemma PosedIsParsed()
    ensures var e := EventOf(HOST_SOURCE, Input(HOST_CHANNEL, "state", Lifecycle(POSED), 0));
            Parsed(e) == Some(POSED) && e.bytes == 0
    ensures Accepts([HELD], POSED) && !Accepts([HELD, POSED], NEXT) && [HELD] + [POSED] == [HELD, POSED]
            && NEXT !in [HELD, POSED]
  {
  }

  /**
   * A Runtime with the key "host" publishes a well-formed snapshot with the number the host gives next; the
   * host's own snapshot is then handed to the listener and discarded.
   */
  method PosedRun() returns (hub: SessionEventHub, b: BindingId, s: SubId, subscriber: HostLifecycleSubscriber)
    ensures Discards(hub, s, subscriber) && hub.bindings.Keys == {b} && hub.bindings[b].key == HOST_SOURCE
    ensures s in hub.heard && hub.heard[s] == [Told(HELD, true), Told(POSED, false), Told(NEXT, true)]
            && !Undisturbed(hub.heard[s])
  {
    hide Undisturbed, Anticipates, HostEvent, Parsed, Hosts, Listens, Holds, Discards, Accepts, Running;
    hub, b, s, subscriber := Subscribed(HOST_SOURCE, "e");
    ghost var first := HostEvent(hub.hostLifecycle.value, 0);
    var posed := EventOf(HOST_SOURCE, Input(HOST_CHANNEL, "state", Lifecycle(POSED), 0));
    Pose(hub, b, HOST_SOURCE, s, subscriber, [first], [], POSED);
    assert [] + [posed] == [posed];
    Announce(hub, b, HOST_SOURCE, s, subscriber, [first], [posed], 0, Background);
    ghost var next := HostEvent(hub.hostLifecycle.value, 0);
    PosedIsParsed();
    PosedTold();
    var calls := Hand(hub, b, HOST_SOURCE, s, subscriber, [first], posed, [next]);
    assert [next] == [HostEvent(hub.hostLifecycle.value, 0)];
    Discarded(hub, b, HOST_SOURCE, s, subscriber, [first] + [posed]);
    HoldsKey(hub, b, HOST_SOURCE, s, Running([first] + [posed] + [next], []));
  }

  /** The publisher is closed and another one, with its own epoch, is installed. */
  method Replace(hub: SessionEventHub, b: BindingId, key: string, s: SubId, subscriber: HostLifecycleSubscriber,
                 ghost delivered: seq<Event>, owner: nat, epoch: string)
    requires Listens(hub, s, subscriber) && Holds(hub, b, key, s, Running(delivered, []))
    requires hub.hostLifecycle.Some? && epoch != ""
    modifies hub`hostLifecycle, hub`before, hub`heard, hub`late
    ensures Listens(hub, s, subscriber) && Holds(hub, b, key, s, Running(delivered, []))
    ensures hub.hostLifecycle == Some(Host(owner, epoch, -1, Foreground))
    ensures s in hub.heard && hub.heard[s] == [] && s in hub.before && s in old(hub.before) && s in old(hub.heard)
    ensures hub.before[s] == old(hub.before)[s] + old(hub.heard)[s]
  {
    hide Coherent, HistoryOk, HostHeard, Snapshots, Heeded, Running;
    Known(hub, s);
    hub.CloseHost(hub.hostLifecycle.value.owner);
    var failure := hub.InstallHost(owner, epoch, 1, None);
  }

  const RENEWED := Snapshot("f", 0, Background)

  lemma RenewedFails()
    ensures !Accepts([HELD], RENEWED) && RENEWED !in [HELD]
    ensures !FirstPasses([Told(HELD, true)], [Told(RENEWED, true)])
  {
    var before, told := [Told(HELD, true)], [Told(RENEWED, true)];
    assert told[..0] == [] && before + [] == before && Plain(before) == [HELD];
    HeededMore([], HELD);
    assert [] + [HELD] == [HELD] && Heeded([]) == [];
    assert IsFirst(told, 0);
  }

  /**
   * A publisher is replaced by one with another epoch while a subscriber stays; no Runtime has the key "host".
   * The new publisher's snapshot is handed to the listener and discarded.
   */
  method ReplacedRun() returns (hub: SessionEventHub, b: BindingId, s: SubId, subscriber: HostLifecycleSubscriber)
    ensures Discards(hub, s, subscriber) && hub.bindings.Keys == {b} && hub.bindings[b].key != HOST_SOURCE
    ensures s in hub.before && hub.before[s] == [Told(HELD, true)] && s in hub.heard
            && hub.heard[s] == [Told(RENEWED, true)]
    ensures !FirstPasses(hub.before[s], hub.heard[s])
  {
    hide FirstPasses, HostEvent, Parsed, Hosts, Listens, Holds, Discards, Accepts, Running;
    hub, b, s, subscriber := Subscribed("game", "e");
    ghost var first := HostEvent(hub.hostLifecycle.value, 0);
    Replace(hub, b, "game", s, subscriber, [first], 1, "f");
    assert [] + [Told(HELD, true)] == [Told(HELD, true)];
    Announce(hub, b, "game", s, subscriber, [first], [], 1, Background);
    ghost var next := HostEvent(hub.hostLifecycle.value, 0);
    assert [] + [next] == [next] && [] + [Told(RENEWED, true)] == [Told(RENEWED, true)];
    RenewedFails();
    Discarded(hub, b, "game", s, subscriber, [first]);
    HoldsKey(hub, b, "game", s, Running([first] + [next], []));
  }
}
