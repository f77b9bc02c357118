/**
 * The Session Event hub (packages/session-events/src/hub.ts): bindings, their subscriptions, the channel
 * index kept up to date in place, routing, terminalization and the retained host lifecycle.
 *
 * The identities of binding and subscription objects are numbers, and what a subscription object holds
 * is a `Delivery` value. Both tables keep ended objects, since a listener may still be running.
 */
module EventHub {
  import opened Base
  import opened EventDelivery

  type Channel = string
  type BindingId = nat
  type SubId = nat

  const SUBSCRIPTIONS_PER_CLIENT: nat := 64
  const HOST_CHANNEL: Channel := "host.lifecycle"
  const HOST_SOURCE := "host"
  const MAX_EPOCH_BYTES: nat := 1024

  datatype Sub = Sub(owner: BindingId, channels: set<Channel>, delivery: Delivery)
  datatype Binding = Binding(key: string, closed: bool, hubTerminal: bool, subscriptions: set<SubId>)
  datatype Host = Host(owner: nat, epoch: string, sequence: int, state: HostState)

  /** An input as `validatePublish` accepts it. */
  datatype Input = Input(channel: Channel, kind: string, payload: Payload, bytes: nat)

  datatype Error = TerminalError | BindingUnavailable | LimitExceeded | HostClosed | HostExists | InvalidHost
  datatype Result<+T> = Ok(value: T) | Err(error: Error)

  function EventOf(source: string, input: Input): Event {
    Event(input.channel, input.kind, input.payload, source, input.bytes)
  }

  // ----- the index

  function LiveOn(subs: map<SubId, Sub>, c: Channel): set<SubId> {
    set s | s in subs && subs[s].delivery.active && c in subs[s].channels
  }

  function LiveChannels(subs: map<SubId, Sub>): set<Channel> {
    set s, c | s in subs && subs[s].delivery.active && c in subs[s].channels :: c
  }

  /** The index computed afresh from every live subscription of every binding. */
  function Recomputed(subs: map<SubId, Sub>): map<Channel, set<SubId>> {
    map c | c in LiveChannels(subs) :: LiveOn(subs, c)
  }

  function With(index: map<Channel, set<SubId>>, cs: set<Channel>, s: SubId): map<Channel, set<SubId>> {
    map c | c in index.Keys + cs :: (if c in index then index[c] else {}) + (if c in cs then {s} else {})
  }

  function Without(index: map<Channel, set<SubId>>, cs: set<Channel>, s: SubId): map<Channel, set<SubId>> {
    map c | c in index && !(c in cs && index[c] - {s} == {}) :: if c in cs then index[c] - {s} else index[c]
  }

  lemma NoEmptyBuckets(subs: map<SubId, Sub>, c: Channel)
    requires c in Recomputed(subs)
    ensures Recomputed(subs)[c] != {}
  {
    var s :| s in subs && subs[s].delivery.active && c in subs[s].channels;
    assert s in LiveOn(subs, c);
  }

  lemma WithIsRecomputed(subs: map<SubId, Sub>, s: SubId, sub: Sub)
    requires s !in subs && sub.delivery.active
    ensures With(Recomputed(subs), sub.channels, s) == Recomputed(subs[s := sub])
  {
    var after := subs[s := sub];
    assert LiveChannels(after) == LiveChannels(subs) + sub.channels by {
      forall c | c in LiveChannels(subs) + sub.channels ensures c in LiveChannels(after) {
        if c in sub.channels { assert after[s].delivery.active && c in after[s].channels; }
        else { var t :| t in subs && subs[t].delivery.active && c in subs[t].channels; assert after[t] == subs[t]; }
      }
    }
    forall c | c in LiveChannels(after) ensures With(Recomputed(subs), sub.channels, s)[c] == LiveOn(after, c) {
      assert c !in LiveChannels(subs) ==> LiveOn(subs, c) == {};
      assert LiveOn(after, c) == LiveOn(subs, c) + (if c in sub.channels then {s} else {});
    }
  }

  lemma WithoutIsRecomputed(subs: map<SubId, Sub>, s: SubId, ended: Sub)
    requires s in subs && subs[s].delivery.active && !ended.delivery.active
    ensures Without(Recomputed(subs), subs[s].channels, s) == Recomputed(subs[s := ended])
  {
    hide LiveOn, LiveChannels, Recomputed;
    var after, cs := subs[s := ended], subs[s].channels;
    var w, r := Without(Recomputed(subs), cs, s), Recomputed(after);
    forall c ensures (c in w <==> c in r) && (c in r ==> w[c] == r[c]) {
      RecomputedAt(subs, c);
      RecomputedAt(after, c);
      LiveOnEnded(subs, s, ended, c);
    }
    assert w.Keys == r.Keys;
  }

  lemma RecomputedAt(subs: map<SubId, Sub>, c: Channel)
    ensures c in Recomputed(subs) <==> LiveOn(subs, c) != {}
    ensures c in Recomputed(subs) ==> Recomputed(subs)[c] == LiveOn(subs, c)
  {
    ChannelIsLive(subs, c);
  }

  lemma LiveOnEnded(subs: map<SubId, Sub>, s: SubId, ended: Sub, c: Channel)
    requires s in subs && !ended.delivery.active
    ensures LiveOn(subs[s := ended], c) == LiveOn(subs, c) - {s}
    ensures c !in subs[s].channels ==> LiveOn(subs, c) - {s} == LiveOn(subs, c)
  {
  }

  lemma ChannelIsLive(subs: map<SubId, Sub>, c: Channel)
    ensures c in LiveChannels(subs) <==> LiveOn(subs, c) != {}
  {
    if c in LiveChannels(subs) {
      var s :| s in subs && subs[s].delivery.active && c in subs[s].channels;
      assert s in LiveOn(subs, c);
    }
    if LiveOn(subs, c) != {} {
      var s :| s in LiveOn(subs, c);
      assert subs[s].delivery.active && c in subs[s].channels;
    }
  }

  lemma SameLiveSameIndex(subs: map<SubId, Sub>, s: SubId, sub: Sub)
    requires s in subs && sub.channels == subs[s].channels && sub.delivery.active == subs[s].delivery.active
    ensures Recomputed(subs[s := sub]) == Recomputed(subs)
  {
    forall c ensures LiveOn(subs[s := sub], c) == LiveOn(subs, c) {}
    forall c ensures c in LiveChannels(subs[s := sub]) <==> c in LiveChannels(subs) {
      ChannelIsLive(subs, c);
      ChannelIsLive(subs[s := sub], c);
    }
  }

  // ----- bindings

  ghost predicate BindingsOk(bindings: map<BindingId, Binding>, subs: map<SubId, Sub>) {
    && (forall s :: s in subs ==> Valid(subs[s].delivery) && subs[s].owner in bindings)
    && (forall b :: b in bindings ==> |bindings[b].subscriptions| <= SUBSCRIPTIONS_PER_CLIENT)
    && (forall b, s :: b in bindings ==>
       (s in bindings[b].subscriptions <==> s in subs && subs[s].owner == b && subs[s].delivery.active))
    && (forall b :: b in bindings && bindings[b].closed ==> bindings[b].subscriptions == {})
  }

  function DropSub(bindings: map<BindingId, Binding>, b: BindingId, s: SubId): map<BindingId, Binding>
    requires b in bindings
  {
    bindings[b := bindings[b].(subscriptions := bindings[b].subscriptions - {s})]
  }

  // ----- the host lifecycle as a subscriber reads it

  function Parsed(e: Event): Option<Snapshot> {
    if e.channel == HOST_CHANNEL && e.kind == "state" && e.source == HOST_SOURCE && e.payload.Lifecycle?
       && e.payload.snapshot.epoch != "" && e.payload.snapshot.sequence >= 0
    then Some(e.payload.snapshot) else None
  }

  function HostEvent(h: Host, bytes: nat): Event {
    Event(HOST_CHANNEL, "state", Lifecycle(Snapshot(h.epoch, h.sequence, h.state)), HOST_SOURCE, bytes)
  }

  /** Consecutive sequence numbers of one epoch with alternating states. */
  ghost predicate IsRun(run: seq<Snapshot>) {
    forall i :: 0 <= i < |run| - 1 ==>
      run[i + 1].epoch == run[i].epoch && run[i + 1].sequence == run[i].sequence + 1 && run[i + 1].state != run[i].state
  }

  /** A snapshot offered to a subscription, and whether it is the host publisher's or a Runtime posed it. */
  datatype Told = Told(snapshot: Snapshot, byHost: bool)

  function Plain(told: seq<Told>): (snapshots: seq<Snapshot>)
    ensures |snapshots| == |told|
  {
    seq(|told|, i requires 0 <= i < |told| => told[i].snapshot)
  }

  /** Those of the host publisher. */
  function Hosts(told: seq<Told>): seq<Snapshot> {
    if told == [] then []
    else
      var last := told[|told| - 1];
      Hosts(told[..|told| - 1]) + (if last.byHost then [last.snapshot] else [])
  }

  lemma ToldMore(told: seq<Told>, x: Told)
    ensures Plain(told + [x]) == Plain(told) + [x.snapshot]
    ensures Hosts(told + [x]) == if x.byHost then Hosts(told) + [x.snapshot] else Hosts(told)
  {
    assert (told + [x])[..|told|] == told;
  }

  /**
   * What the host told a subscriber while this publisher is installed: a run that, as long as the subscriber
   * is live, ends at the retained state. `bare` is a subscriber that came before anything was retained; its
   * run starts with the publisher's first number.
   */
  ghost predicate HeardOk(h: Host, hosts: seq<Snapshot>, bare: bool, active: bool) {
    && IsRun(hosts)
    && (hosts != [] && active ==> h.sequence >= 0 && hosts[|hosts| - 1] == Snapshot(h.epoch, h.sequence, h.state))
    && (bare && hosts == [] && active ==> h.sequence < 0)
    && (bare && hosts != [] ==> hosts[0].sequence == 0)
  }

  predicate Bare(late: map<SubId, Option<Snapshot>>, s: SubId) { s in late && late[s].None? }

  function Snapshots(events: seq<Event>): seq<Snapshot> {
    if events == [] then []
    else
      var p := Parsed(events[|events| - 1]);
      Snapshots(events[..|events| - 1]) + (if p.Some? then [p.value] else [])
  }

  lemma SnapshotsMore(events: seq<Event>, e: Event)
    ensures Snapshots(events + [e]) == Snapshots(events) + (if Parsed(e).Some? then [Parsed(e).value] else [])
  {
    assert (events + [e])[..|events|] == events;
  }

  lemma {:induction false} SnapshotsPrefix(events: seq<Event>, n: nat)
    requires n <= |events|
    ensures Snapshots(events[..n]) <= Snapshots(events)
  {
    if n < |events| {
      SnapshotsPrefix(events[..|events| - 1], n);
      assert events[..|events| - 1][..n] == events[..n];
    } else { assert events[..n] == events; }
  }

  // ----- one subscription ends or changes

  lemma EndKeepsBindings(bindings: map<BindingId, Binding>, subs: map<SubId, Sub>, s: SubId, ended: Sub)
    requires BindingsOk(bindings, subs) && s in subs && subs[s].delivery.active
    requires ended.owner == subs[s].owner && !ended.delivery.active && Valid(ended.delivery)
    ensures BindingsOk(DropSub(bindings, subs[s].owner, s), subs[s := ended])
  {
    hide Valid;
    assert s in bindings[subs[s].owner].subscriptions;
  }

  lemma SameKeepsBindings(bindings: map<BindingId, Binding>, subs: map<SubId, Sub>, s: SubId, sub: Sub)
    requires BindingsOk(bindings, subs) && s in subs
    requires sub.owner == subs[s].owner && sub.delivery.active == subs[s].delivery.active && Valid(sub.delivery)
    ensures BindingsOk(bindings, subs[s := sub])
  {
    hide Valid;
  }

  lemma NewKeepsBindings(bindings: map<BindingId, Binding>, subs: map<SubId, Sub>, s: SubId, sub: Sub)
    requires BindingsOk(bindings, subs) && s !in subs && sub.owner in bindings && !bindings[sub.owner].closed
    requires sub.delivery.active && Valid(sub.delivery)
             && |bindings[sub.owner].subscriptions| < SUBSCRIPTIONS_PER_CLIENT
    ensures BindingsOk(bindings[sub.owner :=
            bindings[sub.owner].(subscriptions := bindings[sub.owner].subscriptions + {s})], subs[s := sub])
  {
    hide Valid;
  }

  /** What enqueueing does to one subscription. */
  function OfferTo(sub: Sub, e: Event): Sub { sub.(delivery := Offered(sub.delivery, e)) }
  function EndOf(sub: Sub, reason: Reason): Sub { sub.(delivery := Terminated(sub.delivery, reason)) }

  predicate Recipient(subs: map<SubId, Sub>, bindings: map<BindingId, Binding>, s: SubId, channel: Channel,
      target: Option<string>)
  {
    && s in subs && subs[s].delivery.active && channel in subs[s].channels
    && (target.None? || (subs[s].owner in bindings && bindings[subs[s].owner].key == target.value))
  }

  /** The tables agree: the index is the recomputed one, and bindings own exactly their live subscriptions. */
  ghost predicate Coherent(bindings: map<BindingId, Binding>, attached: set<BindingId>, subs: map<SubId, Sub>,
                           index: map<Channel, set<SubId>>, nextBinding: nat, nextSub: nat) {
    && index == Recomputed(subs)
    && BindingsOk(bindings, subs)
    && attached == Attached(bindings)
    && (forall b :: b in bindings ==> b < nextBinding)
    && (forall s :: s in subs ==> s < nextSub)
  }

  function Attached(bindings: map<BindingId, Binding>): set<BindingId> {
    set b | b in bindings && !bindings[b].closed
  }

  ghost predicate HistoryOk(subs: map<SubId, Sub>, before: map<SubId, seq<Told>>, heard: map<SubId, seq<Told>>) {
    && before.Keys == heard.Keys == subs.Keys
    && (forall s :: s in subs ==> Snapshots(subs[s].delivery.offered) == Plain(before[s] + heard[s]))
  }

  lemma DropKeeps(bindings: map<BindingId, Binding>, owner: BindingId, s: SubId)
    requires owner in bindings
    ensures SameBindings(bindings, DropSub(bindings, owner, s))
  {
  }

  /** The same bindings, in the same state, up to which subscriptions they have. */
  ghost predicate SameBindings(bindings: map<BindingId, Binding>, bindings': map<BindingId, Binding>) {
    && bindings'.Keys == bindings.Keys
    && (forall b :: b in bindings ==> bindings'[b] == bindings[b].(subscriptions := bindings'[b].subscriptions))
  }

  predicate Dies(sub: Sub, e: Event) { sub.delivery.active && !OfferTo(sub, e).delivery.active }

  /** One subscription changes; if it ends on the way, it leaves its binding and the index. */
  lemma ChangeLeaves(bindings: map<BindingId, Binding>, attached: set<BindingId>, subs: map<SubId, Sub>,
                     index: map<Channel, set<SubId>>, nextBinding: nat, nextSub: nat, s: SubId, sub: Sub)
    requires Coherent(bindings, attached, subs, index, nextBinding, nextSub) && s in subs
    requires sub.owner == subs[s].owner && sub.channels == subs[s].channels
             && (sub.delivery.active ==> subs[s].delivery.active)
    requires Valid(subs[s].delivery) ==> Valid(sub.delivery)
    ensures subs[s].owner in bindings
    ensures var ends := subs[s].delivery.active && !sub.delivery.active;
            var bindings' := if ends then DropSub(bindings, subs[s].owner, s) else bindings;
            var index' := if ends then Without(index, subs[s].channels, s) else index;
            Coherent(bindings', attached, subs[s := sub], index', nextBinding, nextSub)
                && SameBindings(bindings, bindings')
  {
    hide Recomputed, Without, DropSub, Valid;
    DropKeeps(bindings, subs[s].owner, s);
    if subs[s].delivery.active && !sub.delivery.active {
      EndKeepsBindings(bindings, subs, s, sub);
      WithoutIsRecomputed(subs, s, sub);
    } else {
      SameKeepsBindings(bindings, subs, s, sub);
      SameLiveSameIndex(subs, s, sub);
    }
  }

  lemma OfferLeaves(bindings: map<BindingId, Binding>, attached: set<BindingId>, subs: map<SubId, Sub>,
                    index: map<Channel, set<SubId>>, nextBinding: nat, nextSub: nat, s: SubId, e: Event)
    requires Coherent(bindings, attached, subs, index, nextBinding, nextSub) && s in subs
    ensures subs[s].owner in bindings
    ensures var bindings' := if Dies(subs[s], e) then DropSub(bindings, subs[s].owner, s) else bindings;
            var index' := if Dies(subs[s], e) then Without(index, subs[s].channels, s) else index;
            Coherent(bindings', attached, subs[s := OfferTo(subs[s], e)], index', nextBinding, nextSub)
                && SameBindings(bindings, bindings')
  {
    hide Recomputed, Without, Offered, DropSub, Valid, Coherent;
    OfferedHistory(subs[s].delivery, e);
    if Valid(subs[s].delivery) { OfferedValid(subs[s].delivery, e); }
    ChangeLeaves(bindings, attached, subs, index, nextBinding, nextSub, s, OfferTo(subs[s], e));
  }

  function Hearing(heard: map<SubId, seq<Told>>, s: SubId, e: Event, byHost: bool): map<SubId, seq<Told>>
    requires s in heard
  {
    if Parsed(e).Some? then heard[s := heard[s] + [Told(Parsed(e).value, byHost)]] else heard
  }

  lemma OfferHeard(subs: map<SubId, Sub>, before: map<SubId, seq<Told>>, heard: map<SubId, seq<Told>>, s: SubId,
      e: Event, byHost: bool)
    requires HistoryOk(subs, before, heard) && s in subs
    ensures s in heard && HistoryOk(subs[s := OfferTo(subs[s], e)], before, Hearing(heard, s, e, byHost))
  {
    hide Snapshots, Offered, Parsed, Plain;
    SnapshotsMore(subs[s].delivery.offered, e);
    OfferedHistory(subs[s].delivery, e);
    if Parsed(e).Some? {
      var x := Told(Parsed(e).value, byHost);
      ToldMore(before[s] + heard[s], x);
      assert (before[s] + heard[s]) + [x] == before[s] + (heard[s] + [x]);
    } else {
      assert Snapshots(subs[s].delivery.offered) + [] == Snapshots(subs[s].delivery.offered);
    }
  }

  lemma OfferedHistory(d: Delivery, e: Event)
    ensures Offered(d, e).offered == d.offered + [e] && (Offered(d, e).active ==> d.active)
  {
  }

  /**
   * What every subscriber of the host lifecycle was told since the current publisher was installed. `late`
   * has the subscribers made since then with the state that was retained when they came, which is the first
   * thing they were told.
   */
  ghost predicate HostHeard(host: Option<Host>, subs: map<SubId, Sub>, before: map<SubId, seq<Told>>,
                            heard: map<SubId, seq<Told>>, late: map<SubId, Option<Snapshot>>) {
    && (host.Some? ==> host.value.epoch != "" && host.value.sequence >= -1)
    && (forall s :: s in late && s in before ==> before[s] == [])
    && (forall s :: s in late && late[s].Some? && s in subs && s in heard ==> StartsAt(heard[s], late[s].value))
    && (host.Some? ==>
          forall s :: s in subs && s in heard && HOST_CHANNEL in subs[s].channels ==>
            HeardOk(host.value, Hosts(heard[s]), Bare(late, s), subs[s].delivery.active))
  }

  predicate StartsAt(told: seq<Told>, retained: Snapshot) { told != [] && told[0] == Told(retained, true) }

  // ----- routing as a full scan

  /** Every live subscription of any binding that names the channel, on the target's bindings if one is given. */
  function RoutedSubs(subs: map<SubId, Sub>, bindings: map<BindingId, Binding>, e: Event,
      target: Option<string>): map<SubId, Sub>
  {
    map s | s in subs :: if Recipient(subs, bindings, s, e.channel, target) then OfferTo(subs[s], e) else subs[s]
  }

  function RoutedHeard(subs: map<SubId, Sub>, bindings: map<BindingId, Binding>, heard: map<SubId, seq<Told>>,
                       e: Event, target: Option<string>, byHost: bool): map<SubId, seq<Told>> {
    map s | s in heard ::
      if Parsed(e).Some? && Recipient(subs, bindings, s, e.channel, target)
          then heard[s] + [Told(Parsed(e).value, byHost)] else heard[s]
  }

  lemma RoutedIs(subs: map<SubId, Sub>, bindings: map<BindingId, Binding>, e: Event, target: Option<string>)
    ensures RoutedSubs(subs, bindings, e, target).Keys == subs.Keys
    ensures forall s :: s in subs ==>
      RoutedSubs(subs, bindings, e, target)[s] ==
      if subs[s].delivery.active && e.channel in subs[s].channels
         && (target.None? || (subs[s].owner in bindings && bindings[subs[s].owner].key == target.value))
      then subs[s].(delivery := Offered(subs[s].delivery, e)) else subs[s]
  {
    hide Offered;
  }

  /** Routing half way through its snapshot of the bucket: those in `done` have been offered the event. */
  ghost predicate RoutedPart(subs0: map<SubId, Sub>, bindings0: map<BindingId, Binding>, heard0: map<SubId, seq<Told>>,
      e: Event, target: Option<string>, byHost: bool, done: set<SubId>, subs: map<SubId, Sub>,
      heard: map<SubId, seq<Told>>)
  {
    && subs.Keys == subs0.Keys
    && heard.Keys == heard0.Keys
    && (forall s :: s in subs0 ==>
          subs[s] == if s in done && Recipient(subs0, bindings0, s, e.channel, target) then OfferTo(subs0[s], e)
              else subs0[s])
    && (forall s :: s in heard0 ==>
          heard[s] == if s in done && Parsed(e).Some? && Recipient(subs0, bindings0, s, e.channel, target)
              then heard0[s] + [Told(Parsed(e).value, byHost)] else heard0[s])
  }

  lemma BucketIs(subs: map<SubId, Sub>, c: Channel)
    ensures LiveOn(subs, c) == if c in Recomputed(subs) then Recomputed(subs)[c] else {}
  {
    ChannelIsLive(subs, c);
  }

  lemma RoutedAll(subs0: map<SubId, Sub>, bindings0: map<BindingId, Binding>, heard0: map<SubId, seq<Told>>,
                  e: Event, target: Option<string>, byHost: bool, subs: map<SubId, Sub>, heard: map<SubId, seq<Told>>)
    requires RoutedPart(subs0, bindings0, heard0, e, target, byHost, LiveOn(subs0, e.channel), subs, heard)
    ensures subs == RoutedSubs(subs0, bindings0, e, target)
            && heard == RoutedHeard(subs0, bindings0, heard0, e, target, byHost)
  {
    hide OfferTo, Parsed;
  }

  lemma RoutedOne(subs0: map<SubId, Sub>, bindings0: map<BindingId, Binding>, heard0: map<SubId, seq<Told>>, e: Event,
      target: Option<string>, byHost: bool, done: set<SubId>, subs: map<SubId, Sub>, heard: map<SubId, seq<Told>>,
      s: SubId)
    requires RoutedPart(subs0, bindings0, heard0, e, target, byHost, done, subs, heard)
    requires s in LiveOn(subs0, e.channel) && s !in done && s in heard0 && subs0[s].owner in bindings0
    ensures s in subs && subs[s] == subs0[s] && s in heard
    ensures target.None? || bindings0[subs0[s].owner].key == target.value ==>
      RoutedPart(subs0, bindings0, heard0, e, target, byHost, done + {s}, subs[s := OfferTo(subs[s], e)],
          Hearing(heard, s, e, byHost))
    ensures !(target.None? || bindings0[subs0[s].owner].key == target.value) ==>
      RoutedPart(subs0, bindings0, heard0, e, target, byHost, done + {s}, subs, heard)
  {
    hide OfferTo, Parsed;
  }

  lemma SameBindingsTrans(b0: map<BindingId, Binding>, b1: map<BindingId, Binding>, b2: map<BindingId, Binding>)
    requires SameBindings(b0, b1) && SameBindings(b1, b2)
    ensures SameBindings(b0, b2)
  {
  }

  lemma Owned(bindings: map<BindingId, Binding>, attached: set<BindingId>, subs: map<SubId, Sub>,
      index: map<Channel, set<SubId>>, nextBinding: nat, nextSub: nat, before: map<SubId, seq<Told>>,
      heard: map<SubId, seq<Told>>)
    requires Coherent(bindings, attached, subs, index, nextBinding, nextSub) && HistoryOk(subs, before, heard)
    ensures heard.Keys == subs.Keys && index == Recomputed(subs)
    ensures forall s :: s in subs ==> subs[s].owner in bindings
  {
  }

  lemma RoutedNone(subs: map<SubId, Sub>, bindings: map<BindingId, Binding>, heard: map<SubId, seq<Told>>, e: Event,
      target: Option<string>, byHost: bool)
    ensures RoutedPart(subs, bindings, heard, e, target, byHost, {}, subs, heard)
  {
  }

  lemma LiveKnown(subs: map<SubId, Sub>, c: Channel, s: SubId)
    requires s in LiveOn(subs, c)
    ensures s in subs
  {
  }

  lemma SameBindingsSelf(bindings: map<BindingId, Binding>)
    ensures SameBindings(bindings, bindings)
  {
  }

  lemma SameKey(bindings: map<BindingId, Binding>, bindings': map<BindingId, Binding>, b: BindingId)
    requires SameBindings(bindings, bindings')
    ensures b in bindings ==> b in bindings' && bindings'[b].key == bindings[b].key
  {
  }

  // ----- ending subscriptions and bindings

  lemma NewBinding(bindings: map<BindingId, Binding>, attached: set<BindingId>, subs: map<SubId, Sub>,
                   index: map<Channel, set<SubId>>, nextBinding: nat, nextSub: nat, key: string)
    requires Coherent(bindings, attached, subs, index, nextBinding, nextSub)
    ensures Coherent(bindings[nextBinding := Binding(key, false, false, {})], attached + {nextBinding}, subs, index,
            nextBinding + 1, nextSub)
  {
    hide Recomputed, Valid;
  }

  lemma EndLeaves(bindings: map<BindingId, Binding>, attached: set<BindingId>, subs: map<SubId, Sub>,
                  index: map<Channel, set<SubId>>, nextBinding: nat, nextSub: nat, s: SubId, reason: Reason)
    requires Coherent(bindings, attached, subs, index, nextBinding, nextSub) && s in subs
    ensures subs[s].owner in bindings
    ensures var bindings' := if subs[s].delivery.active then DropSub(bindings, subs[s].owner, s) else bindings;
            var index' := if subs[s].delivery.active then Without(index, subs[s].channels, s) else index;
            Coherent(bindings', attached, subs[s := EndOf(subs[s], reason)], index', nextBinding, nextSub)
                && SameBindings(bindings, bindings')
  {
    hide Recomputed, Without, DropSub, Coherent;
    ChangeLeaves(bindings, attached, subs, index, nextBinding, nextSub, s, EndOf(subs[s], reason));
  }

  lemma EndHeard(subs: map<SubId, Sub>, before: map<SubId, seq<Told>>, heard: map<SubId, seq<Told>>, s: SubId,
      reason: Reason)
    requires HistoryOk(subs, before, heard) && s in subs
    ensures HistoryOk(subs[s := EndOf(subs[s], reason)], before, heard)
  {
    hide Snapshots;
  }

  lemma EndKeepsHeard(host: Option<Host>, subs: map<SubId, Sub>, before: map<SubId, seq<Told>>,
                      heard: map<SubId, seq<Told>>, late: map<SubId, Option<Snapshot>>, s: SubId, reason: Reason)
    requires HostHeard(host, subs, before, heard, late) && s in subs
    ensures HostHeard(host, subs[s := EndOf(subs[s], reason)], before, heard, late)
  {
    hide IsRun;
  }

  lemma NoPublisher(host: Option<Host>, subs: map<SubId, Sub>, before: map<SubId, seq<Told>>,
                    heard: map<SubId, seq<Told>>, late: map<SubId, Option<Snapshot>>)
    requires HostHeard(host, subs, before, heard, late)
    ensures HostHeard(None, subs, before, heard, late)
  {
  }

  function EndedBy(subs: map<SubId, Sub>, b: BindingId, reason: Reason): map<SubId, Sub> {
    map s | s in subs :: if subs[s].owner == b && subs[s].delivery.active then EndOf(subs[s], reason) else subs[s]
  }

  lemma EndedIs(subs: map<SubId, Sub>, b: BindingId, reason: Reason)
    ensures EndedBy(subs, b, reason).Keys == subs.Keys
    ensures forall s :: s in subs ==>
      EndedBy(subs, b, reason)[s] ==
      if subs[s].owner == b && subs[s].delivery.active
      then subs[s].(delivery := Terminated(subs[s].delivery, reason)) else subs[s]
  {
    hide Terminated;
  }

  ghost predicate EndedPart(subs0: map<SubId, Sub>, reason: Reason, done: set<SubId>, subs: map<SubId, Sub>) {
    subs.Keys == subs0.Keys
        && forall s :: s in subs0 ==> subs[s] == if s in done then EndOf(subs0[s], reason) else subs0[s]
  }

  lemma AttachedIs(bindings: map<BindingId, Binding>, attached: set<BindingId>, subs: map<SubId, Sub>,
                   index: map<Channel, set<SubId>>, nextBinding: nat, nextSub: nat)
    requires Coherent(bindings, attached, subs, index, nextBinding, nextSub)
    ensures forall b :: b in attached <==> b in bindings && !bindings[b].closed
  {
  }

  function LiveOf(subs: map<SubId, Sub>, b: BindingId): set<SubId> {
    set s | s in subs && subs[s].owner == b && subs[s].delivery.active
  }

  lemma LiveOfKnown(subs: map<SubId, Sub>, b: BindingId, s: SubId)
    requires s in LiveOf(subs, b)
    ensures s in subs
  {
  }

  lemma OwnedLive(bindings: map<BindingId, Binding>, attached: set<BindingId>, subs: map<SubId, Sub>,
                  index: map<Channel, set<SubId>>, nextBinding: nat, nextSub: nat, b: BindingId)
    requires Coherent(bindings, attached, subs, index, nextBinding, nextSub) && b in bindings
    ensures bindings[b].subscriptions == LiveOf(subs, b)
  {
    hide Recomputed, Valid;
  }

  lemma ClosedIs(bindings: map<BindingId, Binding>, attached: set<BindingId>, subs: map<SubId, Sub>,
                 index: map<Channel, set<SubId>>, nextBinding: nat, nextSub: nat, b: BindingId)
    requires Coherent(bindings, attached, subs, index, nextBinding, nextSub) && b in bindings
    ensures b in attached <==> !bindings[b].closed
    ensures bindings[b].closed ==> bindings[b].subscriptions == {}
  {
    hide Recomputed, Valid;
  }

  lemma EndedNone(subs: map<SubId, Sub>, reason: Reason)
    ensures EndedPart(subs, reason, {}, subs)
  {
  }

  lemma EndedOne(subs0: map<SubId, Sub>, reason: Reason, done: set<SubId>, subs: map<SubId, Sub>, s: SubId)
    requires EndedPart(subs0, reason, done, subs) && s in subs0 && s !in done
    ensures s in subs && EndedPart(subs0, reason, done + {s}, subs[s := EndOf(subs[s], reason)])
  {
    hide EndOf;
  }

  lemma EndedEvery(subs0: map<SubId, Sub>, b: BindingId, reason: Reason, subs: map<SubId, Sub>)
    requires EndedPart(subs0, reason, LiveOf(subs0, b), subs)
    ensures subs == EndedBy(subs0, b, reason)
  {
    hide EndOf;
  }

  lemma SameState(bindings: map<BindingId, Binding>, bindings': map<BindingId, Binding>)
    requires SameBindings(bindings, bindings')
    ensures bindings'.Keys == bindings.Keys
    ensures forall b :: b in bindings ==>
            bindings'[b].closed == bindings[b].closed && bindings'[b].hubTerminal == bindings[b].hubTerminal
                && bindings'[b].key == bindings[b].key
  {
  }

  lemma AllEnded(bindings: map<BindingId, Binding>, attached: set<BindingId>, subs0: map<SubId, Sub>,
      subs: map<SubId, Sub>, index: map<Channel, set<SubId>>, nextBinding: nat, nextSub: nat, b: BindingId,
      reason: Reason)
    requires Coherent(bindings, attached, subs, index, nextBinding, nextSub) && b in bindings
             && subs == EndedBy(subs0, b, reason)
    ensures Coherent(bindings[b := bindings[b].(closed := true, hubTerminal := reason.HubTerminal?)], attached - {b},
            subs, index, nextBinding, nextSub)
    ensures bindings[b].subscriptions == {} && subs.Keys == subs0.Keys
  {
    hide Recomputed, Valid;
    forall s ensures s !in bindings[b].subscriptions {
      if s in subs && subs[s].owner == b { assert subs0[s].owner == b && !subs[s].delivery.active; }
    }
    assert bindings[b].subscriptions == {};
  }

  lemma NothingLive(bindings: map<BindingId, Binding>, attached: set<BindingId>, subs: map<SubId, Sub>,
                    index: map<Channel, set<SubId>>, nextBinding: nat, nextSub: nat)
    requires Coherent(bindings, attached, subs, index, nextBinding, nextSub) && attached == {}
    ensures index == map[]
  {
    hide Valid;
    forall s | s in subs ensures !subs[s].delivery.active {
      assert subs[s].owner in bindings && bindings[subs[s].owner].closed ==>
          s !in bindings[subs[s].owner].subscriptions;
      assert subs[s].owner !in attached;
    }
    assert LiveChannels(subs) == {};
  }

  // ----- installing a candidate

  function Candidate(b: BindingId, channels: set<Channel>, host: Option<Host>, bytes: nat): Sub {
    var d := if HOST_CHANNEL in channels && host.Some? && host.value.sequence >= 0
        then Offered(FRESH, HostEvent(host.value, bytes)) else FRESH;
    Sub(b, channels, d)
  }

  lemma OneMoreSub(subs: map<SubId, Sub>, s: SubId, b: BindingId, channels: set<Channel>, h: Option<Host>, bytes: nat)
    requires s !in subs
    ensures var after := subs[s := Candidate(b, channels, h, bytes)];
            && after.Keys == subs.Keys + {s} && (forall t :: t in subs ==> after[t] == subs[t])
            && after[s].owner == b && after[s].channels == channels
            && after[s].delivery ==
               if !("host.lifecycle" in channels && h.Some? && h.value.sequence >= 0) then FRESH
               else
                 var x := Snapshot(h.value.epoch, h.value.sequence, h.value.state);
                 Offered(FRESH, Event("host.lifecycle", "state", Lifecycle(x), "host", bytes))
  {
    hide Offered;
  }

  /** The lifecycle state a new subscriber of these channels is told first. */
  function Retained(host: Option<Host>, channels: set<Channel>): Option<Snapshot> {
    if HOST_CHANNEL in channels && host.Some? && host.value.sequence >= 0
    then Some(Snapshot(host.value.epoch, host.value.sequence, host.value.state)) else None
  }

  lemma WithoutNone(index: map<Channel, set<SubId>>, s: SubId)
    ensures Without(index, {}, s) == index
  {
  }

  lemma WithoutOne(index: map<Channel, set<SubId>>, done: set<Channel>, c: Channel, s: SubId)
    requires c !in done
    ensures var w := Without(index, done, s);
            Without(index, done + {c}, s) == if c !in w then w else if w[c] - {s} == {} then w - {c}
                else w[c := w[c] - {s}]
  {
    var w, w1 := Without(index, done, s), Without(index, done + {c}, s);
    var w2 := if c !in w then w else if w[c] - {s} == {} then w - {c} else w[c := w[c] - {s}];
    forall d ensures d in w1 <==> d in w2 {}
    forall d | d in w1 ensures w1[d] == w2[d] {}
    assert w1.Keys == w2.Keys;
  }

  lemma WithNone(index: map<Channel, set<SubId>>, s: SubId)
    ensures With(index, {}, s) == index
  {
    var w := With(index, {}, s);
    forall c ensures c in w <==> c in index {}
    forall c | c in index ensures w[c] == index[c] {}
    assert w.Keys == index.Keys;
  }

  lemma WithOne(index: map<Channel, set<SubId>>, done: set<Channel>, c: Channel, s: SubId)
    requires c !in done
    ensures var w := With(index, done, s); With(index, done + {c}, s) == w[c := (if c in w then w[c] else {}) + {s}]
  {
    var w := With(index, done, s);
    var w1, w2 := With(index, done + {c}, s), w[c := (if c in w then w[c] else {}) + {s}];
    forall d ensures d in w1 <==> d in w2 {}
    forall d | d in w1 ensures w1[d] == w2[d] {}
    assert w1.Keys == w2.Keys;
  }

  lemma Installed(bindings: map<BindingId, Binding>, attached: set<BindingId>, subs: map<SubId, Sub>,
                  index: map<Channel, set<SubId>>, nextBinding: nat, nextSub: nat, sub: Sub)
    requires Coherent(bindings, attached, subs, index, nextBinding, nextSub) && sub.delivery == FRESH
    requires sub.owner in bindings && !bindings[sub.owner].closed
             && |bindings[sub.owner].subscriptions| < SUBSCRIPTIONS_PER_CLIENT
    ensures nextSub !in subs
    ensures Coherent(bindings[sub.owner :=
            bindings[sub.owner].(subscriptions := bindings[sub.owner].subscriptions + {nextSub})], attached,
                     subs[nextSub := sub], With(index, sub.channels, nextSub), nextBinding, nextSub + 1)
    ensures SameBindings(bindings,
            bindings[sub.owner := bindings[sub.owner].(subscriptions := bindings[sub.owner].subscriptions + {nextSub})])
  {
    hide Recomputed, With, Valid;
    FreshValid();
    WithIsRecomputed(subs, nextSub, sub);
    NewKeepsBindings(bindings, subs, nextSub, sub);
  }

  /** A new subscription has heard nothing; all is well for the others, and for it unless a state is retained. */
  ghost predicate HeardButFor(host: Option<Host>, subs: map<SubId, Sub>, before: map<SubId, seq<Told>>,
                              heard: map<SubId, seq<Told>>, late: map<SubId, Option<Snapshot>>, s: SubId) {
    && HostHeard(host, subs - {s}, before, heard, late)
    && HistoryOk(subs, before, heard)
    && s in subs && s in before && before[s] == [] && s in heard && heard[s] == [] && s in late
  }

  lemma InstalledHeard(host: Option<Host>, subs: map<SubId, Sub>, before: map<SubId, seq<Told>>,
      heard: map<SubId, seq<Told>>, late: map<SubId, Option<Snapshot>>, s: SubId, sub: Sub, retained: Option<Snapshot>)
    requires HostHeard(host, subs, before, heard, late) && HistoryOk(subs, before, heard) && s !in subs
             && sub.delivery == FRESH
    ensures HeardButFor(host, subs[s := sub], before[s := []], heard[s := []], late[s := retained], s)
    ensures HistoryOk(subs[s := sub], before[s := []], heard[s := []])
  {
    hide HeardOk, Hosts;
    assert Snapshots([]) == [] && Plain([] + []) == [];
  }

  lemma ParsedHost(h: Host, bytes: nat)
    requires h.epoch != "" && h.sequence >= 0
    ensures Parsed(HostEvent(h, bytes)) == Some(Snapshot(h.epoch, h.sequence, h.state))
  {
  }

  lemma OneHost(x: Snapshot)
    ensures Hosts([Told(x, true)]) == [x]
  {
    ToldMore([], Told(x, true));
    assert [] + [Told(x, true)] == [Told(x, true)];
  }

  lemma HeardFirst(h: Host, active: bool)
    requires h.sequence >= 0
    ensures HeardOk(h, [Snapshot(h.epoch, h.sequence, h.state)], false, active)
  {
  }

  lemma FirstHeard(heard: map<SubId, seq<Told>>, s: SubId, h: Host, bytes: nat)
    requires s in heard && heard[s] == [] && h.epoch != "" && h.sequence >= 0
    ensures Hearing(heard, s, HostEvent(h, bytes), true) ==
            heard[s := [Told(Snapshot(h.epoch, h.sequence, h.state), true)]]
  {
    hide HostEvent, Parsed;
    ParsedHost(h, bytes);
    var x := Told(Snapshot(h.epoch, h.sequence, h.state), true);
    assert [] + [x] == [x];
  }

  lemma RetainedHeard(host: Option<Host>, subs: map<SubId, Sub>, before: map<SubId, seq<Told>>,
                      heard: map<SubId, seq<Told>>, late: map<SubId, Option<Snapshot>>, s: SubId, bytes: nat)
    requires HeardButFor(host, subs, before, heard, late, s) && host.Some? && host.value.sequence >= 0
    requires late[s] == Some(Snapshot(host.value.epoch, host.value.sequence, host.value.state))
    ensures s in heard
    ensures HostHeard(host, subs[s := OfferTo(subs[s], HostEvent(host.value, bytes))], before,
                      Hearing(heard, s, HostEvent(host.value, bytes), true), late)
    ensures Hearing(heard, s, HostEvent(host.value, bytes), true) == heard[s := [Told(late[s].value, true)]]
  {
    hide OfferTo, HostEvent, Hosts, Hearing, HeardOk, HistoryOk;
    FirstHeard(heard, s, host.value, bytes);
    OneHost(late[s].value);
    HeardFirst(host.value, OfferTo(subs[s], HostEvent(host.value, bytes)).delivery.active);
  }

  lemma NothingRetained(host: Option<Host>, subs: map<SubId, Sub>, before: map<SubId, seq<Told>>,
                        heard: map<SubId, seq<Told>>, late: map<SubId, Option<Snapshot>>, s: SubId)
    requires HeardButFor(host, subs, before, heard, late, s) && late[s].None?
    requires HOST_CHANNEL in subs[s].channels && host.Some? ==> host.value.sequence < 0
    ensures HostHeard(host, subs, before, heard, late)
  {
  }

  // ----- deliveries that move on, and events routed past the lifecycle

  ghost predicate Moves(d: Delivery, d': Delivery) {
    (Valid(d) ==> Valid(d')) && d'.offered == d.offered && d'.active == d.active
  }

  lemma RevealedMoves(d: Delivery)
    ensures Moves(d, Revealed(d))
  {
    hide Valid;
    if Valid(d) { RevealedValid(d); }
  }

  lemma TurnMoves(d: Delivery)
    ensures d.scheduled ==> Moves(d, Fired(d))
    ensures d.running ==> Moves(d, Settled(d))
  {
    if Valid(d) {
      if d.scheduled { FiredValid(d); }
      if d.running { SettledValid(d); }
    }
  }

  function EstablishmentFailure(reason: Reason): Error {
    match reason
    case Overflow => LimitExceeded
    case BindingTerminal => BindingUnavailable
    case _ => TerminalError
  }

  lemma MoveLeaves(bindings: map<BindingId, Binding>, attached: set<BindingId>, subs: map<SubId, Sub>,
                   index: map<Channel, set<SubId>>, nextBinding: nat, nextSub: nat, s: SubId, d: Delivery)
    requires Coherent(bindings, attached, subs, index, nextBinding, nextSub) && s in subs && Moves(subs[s].delivery, d)
    ensures Coherent(bindings, attached, subs[s := subs[s].(delivery := d)], index, nextBinding, nextSub)
  {
    hide Recomputed, Without, DropSub, Coherent, Valid;
    ChangeLeaves(bindings, attached, subs, index, nextBinding, nextSub, s, subs[s].(delivery := d));
  }

  lemma MoveHeard(host: Option<Host>, subs: map<SubId, Sub>, before: map<SubId, seq<Told>>,
                  heard: map<SubId, seq<Told>>, late: map<SubId, Option<Snapshot>>, s: SubId, d: Delivery)
    requires HostHeard(host, subs, before, heard, late) && HistoryOk(subs, before, heard)
    requires s in subs && Moves(subs[s].delivery, d)
    ensures HostHeard(host, subs[s := subs[s].(delivery := d)], before, heard, late)
    ensures HistoryOk(subs[s := subs[s].(delivery := d)], before, heard)
  {
    hide HeardOk, Valid, Snapshots;
  }

  lemma RouteKeepsHeard(host: Option<Host>, subs: map<SubId, Sub>, bindings: map<BindingId, Binding>,
      before: map<SubId, seq<Told>>, heard: map<SubId, seq<Told>>, late: map<SubId, Option<Snapshot>>, e: Event,
      target: Option<string>)
    requires HostHeard(host, subs, before, heard, late)
    ensures HostHeard(host, RoutedSubs(subs, bindings, e, target), before,
            RoutedHeard(subs, bindings, heard, e, target, false), late)
  {
    hide HeardOk, Offered, Parsed, Hosts;
    var heard' := RoutedHeard(subs, bindings, heard, e, target, false);
    forall s | s in heard ensures Hosts(heard'[s]) == Hosts(heard[s]) {
      if Parsed(e).Some? { ToldMore(heard[s], Told(Parsed(e).value, false)); }
    }
    forall s | s in subs ensures OfferTo(subs[s], e).delivery.active ==> subs[s].delivery.active {
      OfferedHistory(subs[s].delivery, e);
    }
    forall s | s in subs && s in heard && host.Some?
        && HeardOk(host.value, Hosts(heard[s]), Bare(late, s), subs[s].delivery.active)
      ensures HeardOk(host.value, Hosts(heard[s]), Bare(late, s), false)
    {
      HeardEnds(host.value, Hosts(heard[s]), Bare(late, s), subs[s].delivery.active);
    }
  }

  lemma HeardEnds(h: Host, hosts: seq<Snapshot>, bare: bool, active: bool)
    requires HeardOk(h, hosts, bare, active)
    ensures HeardOk(h, hosts, bare, false)
  {
  }

  ghost function Archived(before: map<SubId, seq<Told>>, heard: map<SubId, seq<Told>>): map<SubId, seq<Told>> {
    map s | s in before && s in heard :: before[s] + heard[s]
  }

  ghost function Emptied(heard: map<SubId, seq<Told>>): map<SubId, seq<Told>> {
    map s | s in heard :: []
  }

  lemma NewPublisher(host: Host, subs: map<SubId, Sub>, before: map<SubId, seq<Told>>, heard: map<SubId, seq<Told>>)
    requires HistoryOk(subs, before, heard) && host.epoch != "" && host.sequence >= -1
    ensures HistoryOk(subs, Archived(before, heard), Emptied(heard))
    ensures HostHeard(Some(host), subs, Archived(before, heard), Emptied(heard), map[])
  {
    hide Snapshots;
    forall s | s in subs ensures Archived(before, heard)[s] + Emptied(heard)[s] == before[s] + heard[s] {
      assert before[s] + heard[s] + [] == before[s] + heard[s];
    }
  }

  /** A publish of the installed publisher that is not dropped. */
  function Advanced(h: Host, state: HostState): Host {
    if h.sequence >= 0 && h.state == state then h else h.(sequence := h.sequence + 1, state := state)
  }

  lemma HeardNext(h: Host, hosts: seq<Snapshot>, bare: bool, state: HostState, active: bool)
    requires HeardOk(h, hosts, bare, true) && h.sequence >= -1 && !(h.sequence >= 0 && h.state == state)
    ensures HeardOk(Advanced(h, state), hosts + [Snapshot(h.epoch, h.sequence + 1, state)], bare, active)
  {
  }

  lemma HeardStill(h: Host, h': Host, hosts: seq<Snapshot>, bare: bool, active: bool)
    requires HeardOk(h, hosts, bare, active)
    ensures HeardOk(h', hosts, bare, false)
  {
  }

  lemma HostPublished(h: Host, state: HostState, subs: map<SubId, Sub>, bindings: map<BindingId, Binding>,
      before: map<SubId, seq<Told>>, heard: map<SubId, seq<Told>>, late: map<SubId, Option<Snapshot>>, bytes: nat)
    requires HostHeard(Some(h), subs, before, heard, late) && !(h.sequence >= 0 && h.state == state)
    ensures var h' := Advanced(h, state);
            var e := HostEvent(h', bytes);
            && e == EventOf(HOST_SOURCE,
               Input(HOST_CHANNEL, "state", Lifecycle(Snapshot(h.epoch, h.sequence + 1, state)), bytes))
            && HostHeard(Some(h'), RoutedSubs(subs, bindings, e, None), before,
               RoutedHeard(subs, bindings, heard, e, None, true), late)
  {
    hide HeardOk, Offered, Parsed;
    var h' := Advanced(h, state);
    var e := HostEvent(h', bytes);
    ParsedHost(h', bytes);
    forall s | s in subs && s in heard && HOST_CHANNEL in subs[s].channels
      ensures HeardOk(h', Hosts(RoutedHeard(subs, bindings, heard, e, None, true)[s]), Bare(late, s),
                      RoutedSubs(subs, bindings, e, None)[s].delivery.active)
    {
      OfferedHistory(subs[s].delivery, e);
      var x := Snapshot(h'.epoch, h'.sequence, h'.state);
      ToldMore(heard[s], Told(x, true));
      if subs[s].delivery.active {
        HeardNext(h, Hosts(heard[s]), Bare(late, s), state, OfferTo(subs[s], e).delivery.active);
      }
      else { HeardStill(h, h', Hosts(heard[s]), Bare(late, s), false); }
    }
  }

  /** Everything ended with the hub, except what belongs to the bindings still to be told. */
  function HubEnded(subs: map<SubId, Sub>, todo: set<BindingId>): map<SubId, Sub> {
    map s | s in subs :: if subs[s].owner in todo then subs[s] else EndOf(subs[s], HubTerminal)
  }

  lemma NothingEnded(bindings: map<BindingId, Binding>, attached: set<BindingId>, subs: map<SubId, Sub>,
                     index: map<Channel, set<SubId>>, nextBinding: nat, nextSub: nat)
    requires Coherent(bindings, attached, subs, index, nextBinding, nextSub)
    ensures HubEnded(subs, attached) == subs
  {
    forall s | s in subs && subs[s].owner !in attached ensures !subs[s].delivery.active {
      assert s !in bindings[subs[s].owner].subscriptions;
    }
  }

  /** The bindings `gone` were told that the hub ended. */
  ghost predicate HubClosed(was: map<BindingId, Binding>, now: map<BindingId, Binding>, gone: set<BindingId>) {
    && now.Keys == was.Keys
    && forall b :: b in was ==>
      now[b].key == was[b].key && now[b].hubTerminal == (was[b].hubTerminal || b in gone)
  }

  lemma HubClosesNone(bindings: map<BindingId, Binding>)
    ensures HubClosed(bindings, bindings, {})
  {
  }

  lemma HubClosesOne(was: map<BindingId, Binding>, now: map<BindingId, Binding>, now': map<BindingId, Binding>,
      gone: set<BindingId>, b: BindingId)
    requires HubClosed(was, now, gone) && b in now && now'.Keys == now.Keys && now'[b].hubTerminal
    requires forall c :: c in now ==> now'[c].key == now[c].key
    requires forall c :: c in now && c != b ==> now'[c].hubTerminal == now[c].hubTerminal
    ensures HubClosed(was, now', gone + {b})
  {
  }

  lemma AllClosed(was: map<BindingId, Binding>, now: map<BindingId, Binding>, attached: set<BindingId>)
    requires HubClosed(was, now, attached)
    requires forall b :: b in attached <==> b in was && !was[b].closed
    ensures now.Keys == was.Keys && forall b :: b in now ==>
      now[b].key == was[b].key && now[b].hubTerminal == (!was[b].closed || was[b].hubTerminal)
  {
  }

  lemma AllEndedIs(subs: map<SubId, Sub>)
    ensures HubEnded(subs, {}).Keys == subs.Keys
    ensures forall s :: s in subs ==>
            HubEnded(subs, {})[s] == subs[s].(delivery := Terminated(subs[s].delivery, HubTerminal))
  {
    hide Terminated;
  }

  lemma OneMoreEnded(subs: map<SubId, Sub>, todo: set<BindingId>, b: BindingId)
    requires b in todo
    ensures EndedBy(HubEnded(subs, todo), b, HubTerminal) == HubEnded(subs, todo - {b})
  {
  }

  class SessionEventHub {
    var bindings: map<BindingId, Binding>
    var attached: set<BindingId>
    var subs: map<SubId, Sub>
    var channelIndex: map<Channel, set<SubId>>
    var terminal: bool
    var hostLifecycle: Option<Host>
    var nextBinding: nat
    var nextSub: nat

    /** What each subscription was offered of the host lifecycle before, and since, the current publisher. */
    ghost var before: map<SubId, seq<Told>>
    ghost var heard: map<SubId, seq<Told>>
    /** The subscriptions made while the current publisher is installed, with what was retained for them. */
    ghost var late: map<SubId, Option<Snapshot>>

    ghost predicate Valid()
      reads this
    {
      && Coherent(bindings, attached, subs, channelIndex, nextBinding, nextSub)
      && HistoryOk(subs, before, heard)
      && (terminal ==> attached == {} && hostLifecycle.None?)
    }

    /** As `Valid`, while the hub is being terminated. */
    ghost predicate Sound()
      reads this
    {
      Coherent(bindings, attached, subs, channelIndex, nextBinding, nextSub) && HistoryOk(subs, before, heard)
    }

    ghost predicate HostOk()
      reads this
    {
      HostHeard(hostLifecycle, subs, before, heard, late)
    }

    constructor ()
      ensures Valid() && HostOk() && bindings == map[] && subs == map[] && !terminal && hostLifecycle == None
    {
      bindings, attached, subs, channelIndex, terminal, hostLifecycle := map[], {}, map[], map[], false, None;
      nextBinding, nextSub, before, heard, late := 0, 0, map[], map[], map[];
      new;
      assert LiveChannels(subs) == {};
    }

    /** `removeSubscription`: the one loop that keeps the index; an emptied bucket is dropped. */
    method RemoveSubscription(s: SubId)
      requires s in subs && subs[s].owner in bindings
      modifies this`channelIndex, this`bindings
      ensures channelIndex == Without(old(channelIndex), subs[s].channels, s)
      ensures bindings == DropSub(old(bindings), subs[s].owner, s)
    {
      hide Without, DropSub;
      ghost var index, done: set<Channel> := channelIndex, {};
      var channels := subs[s].channels;
      bindings := DropSub(bindings, subs[s].owner, s);
      var todo := channels;
      WithoutNone(channelIndex, s);
      while |todo| > 0
        invariant done + todo == channels && done !! todo
        invariant channelIndex == Without(index, done, s)
        invariant bindings == DropSub(old(bindings), subs[s].owner, s)
        decreases |todo|
      {
        var c :| c in todo;
        WithoutOne(index, done, c, s);
        if c in channelIndex {
          var left := channelIndex[c] - {s};
          channelIndex := if left == {} then channelIndex - {c} else channelIndex[c := left];
        }
        done, todo := done + {c}, todo - {c};
      }
      assert done == channels;
    }

    /** An event for one subscription, which may overflow and leave the index. */
    method Enqueue(s: SubId, e: Event, ghost byHost: bool)
      requires Valid() && s in subs
      modifies this`subs, this`channelIndex, this`bindings, this`heard
      ensures Valid() && subs == old(subs)[s := OfferTo(old(subs)[s], e)]
      ensures SameBindings(old(bindings), bindings)
      ensures s in old(heard) && heard == Hearing(old(heard), s, e, byHost)
    {
      hide Coherent, HistoryOk, Recomputed, Without, Offered, DropSub, SameBindings;
      OfferLeaves(bindings, attached, subs, channelIndex, nextBinding, nextSub, s, e);
      OfferHeard(subs, before, heard, s, e, byHost);
      var sub := OfferTo(subs[s], e);
      if Dies(subs[s], e) { RemoveSubscription(s); }
      subs := subs[s := sub];
      heard := Hearing(heard, s, e, byHost);
    }

    /** A snapshot of the bucket is walked, so subscriptions that overflow on the way leave the index safely. */
    method Route(source: string, input: Input, target: Option<string>, ghost byHost: bool) returns (ok: bool)
      requires Valid()
      modifies this`subs, this`channelIndex, this`bindings, this`heard
      ensures Valid() && SameBindings(old(bindings), bindings) && ok == !terminal
      ensures !ok ==> subs == old(subs) && heard == old(heard)
      ensures ok ==> subs == RoutedSubs(old(subs), old(bindings), EventOf(source, input), target)
      ensures ok ==> heard == RoutedHeard(old(subs), old(bindings), old(heard), EventOf(source, input), target, byHost)
    {
      hide Coherent, HistoryOk, Hearing, OfferTo, Recomputed, RoutedSubs, RoutedHeard, RoutedPart, SameBindings, LiveOn;
      SameBindingsSelf(bindings);
      if terminal { return false; }
      var e := EventOf(source, input);
      var todo := if e.channel in channelIndex then channelIndex[e.channel] else {};
      ghost var recipients := todo;
      ghost var subs0, bindings0, heard0 := subs, bindings, heard;
      Owned(bindings, attached, subs, channelIndex, nextBinding, nextSub, before, heard);
      BucketIs(subs, e.channel);
      RoutedNone(subs, bindings, heard, e, target, byHost);
      assert recipients - todo == {};
      while todo != {}
        invariant Valid() && SameBindings(bindings0, bindings) && todo <= recipients
        invariant RoutedPart(subs0, bindings0, heard0, e, target, byHost, recipients - todo, subs, heard)
        decreases |todo|
      {
        var s :| s in todo;
        ghost var done := recipients - todo;
        todo := todo - {s};
        assert recipients - todo == done + {s};
        Owned(bindings, attached, subs, channelIndex, nextBinding, nextSub, before, heard);
        LiveKnown(subs0, e.channel, s);
        RoutedOne(subs0, bindings0, heard0, e, target, byHost, done, subs, heard, s);
        SameKey(bindings0, bindings, subs[s].owner);
        if target.None? || bindings[subs[s].owner].key == target.value {
          ghost var bindings1 := bindings;
          Enqueue(s, e, byHost);
          SameBindingsTrans(bindings0, bindings1, bindings);
        }
      }
      assert recipients - todo == recipients;
      RoutedAll(subs0, bindings0, heard0, e, target, byHost, subs, heard);
      return true;
    }

    method CreateBinding(key: string) returns (r: Result<BindingId>)
      requires Valid()
      modifies this`bindings, this`attached, this`nextBinding
      ensures Valid()
      ensures terminal ==> r == Err(TerminalError) && bindings == old(bindings)
      ensures !terminal ==>
              r == Ok(old(nextBinding)) && bindings == old(bindings)[old(nextBinding) := Binding(key, false, false, {})]
    {
      hide Coherent, HistoryOk;
      if terminal { return Err(TerminalError); }
      NewBinding(bindings, attached, subs, channelIndex, nextBinding, nextSub, key);
      bindings, attached, nextBinding := bindings[nextBinding := Binding(key, false, false, {})],
          attached + {nextBinding}, nextBinding + 1;
      return Ok(nextBinding - 1);
    }

    /** `terminate` of one subscription, with its terminal callback. */
    method End(s: SubId, reason: Reason)
      requires Sound() && s in subs
      modifies this`subs, this`channelIndex, this`bindings
      ensures Sound() && SameBindings(old(bindings), bindings)
      ensures subs == old(subs)[s := EndOf(old(subs)[s], reason)]
      ensures old(HostOk()) ==> HostOk()
    {
      hide HostHeard, Coherent, HistoryOk, Recomputed, Without, DropSub, SameBindings, Terminated;
      EndLeaves(bindings, attached, subs, channelIndex, nextBinding, nextSub, s, reason);
      EndHeard(subs, before, heard, s, reason);
      if HostOk() { EndKeepsHeard(hostLifecycle, subs, before, heard, late, s, reason); }
      SameBindingsSelf(bindings);
      if subs[s].delivery.active { RemoveSubscription(s); }
      subs := subs[s := EndOf(subs[s], reason)];
    }

    method EndAll(b: BindingId, reason: Reason)
      requires Sound() && b in bindings
      modifies this`subs, this`channelIndex, this`bindings
      ensures Sound() && SameBindings(old(bindings), bindings)
      ensures subs == EndedBy(old(subs), b, reason)
      ensures old(HostOk()) ==> HostOk()
    {
      hide HostHeard, Coherent, HistoryOk, EndOf, SameBindings, EndedBy, EndedPart, LiveOf;
      var todo := bindings[b].subscriptions;
      ghost var every, subs0, bindings0 := todo, subs, bindings;
      OwnedLive(bindings, attached, subs, channelIndex, nextBinding, nextSub, b);
      SameBindingsSelf(bindings);
      EndedNone(subs, reason);
      assert every - todo == {};
      while todo != {}
        invariant old(HostOk()) ==> HostOk()
        invariant Sound() && SameBindings(bindings0, bindings) && todo <= every
                  && EndedPart(subs0, reason, every - todo, subs)
        decreases |todo|
      {
        var s :| s in todo;
        ghost var done, bindings1 := every - todo, bindings;
        todo := todo - {s};
        assert every - todo == done + {s};
        LiveOfKnown(subs0, b, s);
        EndedOne(subs0, reason, done, subs, s);
        End(s, reason);
        SameBindingsTrans(bindings0, bindings1, bindings);
      }
      assert every - todo == every;
      EndedEvery(subs0, b, reason, subs);
    }

    /** Every subscription of the binding ends with the reason, and the binding leaves the hub. */
    method Terminalize(b: BindingId, reason: Reason)
      requires Sound() && b in bindings
      modifies this`subs, this`channelIndex, this`bindings, this`attached
      ensures Sound() && bindings.Keys == old(bindings.Keys) && attached == old(attached) - {b}
      ensures bindings[b].closed && bindings[b].subscriptions == {} && subs.Keys == old(subs.Keys)
      ensures subs == if old(bindings[b].closed) then old(subs) else EndedBy(old(subs), b, reason)
      ensures forall s :: s in subs ==>
        var was := old(subs)[s];
        subs[s] == if was.owner == b && !old(bindings[b].closed) && was.delivery.active
                   then was.(delivery := Terminated(was.delivery, reason)) else was
      ensures bindings[b].hubTerminal == if old(bindings)[b].closed then old(bindings)[b].hubTerminal
              else reason == HubTerminal
      ensures forall c :: c in bindings ==> bindings[c].key == old(bindings)[c].key
      ensures forall c :: c in bindings && c != b ==>
              bindings[c].closed == old(bindings)[c].closed && bindings[c].hubTerminal == old(bindings)[c].hubTerminal
      ensures old(HostOk()) ==> HostOk()
    {
      hide HostHeard, Coherent, HistoryOk, SameBindings, EndedBy;
      ClosedIs(bindings, attached, subs, channelIndex, nextBinding, nextSub, b);
      if bindings[b].closed {
        assert attached == attached - {b};
        return;
      }
      ghost var subs0, bindings0 := subs, bindings;
      EndAll(b, reason);
      EndedIs(subs0, b, reason);
      SameState(bindings0, bindings);
      AllEnded(bindings, attached, subs0, subs, channelIndex, nextBinding, nextSub, b, reason);
      bindings := bindings[b := bindings[b].(closed := true, hubTerminal := reason.HubTerminal?)];
      attached := attached - {b};
    }

    /** One turn of the loop over the bindings; those `gone` were told before, those in `todo` are not yet. */
    method TellBinding(b: BindingId, ghost was: map<BindingId, Binding>, ghost gone: set<BindingId>,
        ghost subs0: map<SubId, Sub>, ghost todo: set<BindingId>)
      requires Sound() && b in bindings && !bindings[b].closed && b in todo
      requires HubClosed(was, bindings, gone) && subs == HubEnded(subs0, todo)
      modifies this`subs, this`channelIndex, this`bindings, this`attached
      ensures Sound() && bindings.Keys == old(bindings).Keys && attached == old(attached) - {b}
      ensures HubClosed(was, bindings, gone + {b}) && subs == HubEnded(subs0, todo - {b})
      ensures old(HostOk()) ==> HostOk()
    {
      hide HostHeard, Coherent, HistoryOk, EndedBy, HubEnded, HubClosed, Terminated;
      OneMoreEnded(subs0, todo, b);
      ghost var before := bindings;
      Terminalize(b, HubTerminal);
      HubClosesOne(was, before, bindings, gone, b);
    }

    /** The loop over the bindings. */
    method TellBindings()
      requires Sound() && subs == HubEnded(subs, attached)
      modifies this`subs, this`channelIndex, this`bindings, this`attached
      ensures Sound() && attached == {}
      ensures HubClosed(old(bindings), bindings, old(attached)) && subs == HubEnded(old(subs), {})
      ensures old(HostOk()) ==> HostOk()
    {
      hide HostHeard, Coherent, HistoryOk, HubEnded, HubClosed;
      ghost var gone: set<BindingId> := {};
      HubClosesNone(bindings);
      var todo := attached;
      while todo != {}
        invariant Sound() && (old(HostOk()) ==> HostOk())
        invariant subs == HubEnded(old(subs), todo) && attached == todo
        invariant HubClosed(old(bindings), bindings, gone) && gone + todo == old(attached)
        decreases |todo|
      {
        var b :| b in todo;
        AttachedIs(bindings, attached, subs, channelIndex, nextBinding, nextSub);
        TellBinding(b, old(bindings), gone, old(subs), todo);
        todo, gone := todo - {b}, gone + {b};
      }
      assert gone == old(attached);
    }

    /** The hub ends: every binding is told, nothing live is left and the retained lifecycle state is gone. */
    method SelfTerminal() returns (first: bool)
      requires Valid()
      modifies this`terminal, this`hostLifecycle, this`subs, this`channelIndex, this`bindings, this`attached
      ensures Valid() && terminal && first == !old(terminal)
      ensures attached == {} && channelIndex == map[] && hostLifecycle.None?
      ensures subs.Keys == old(subs).Keys && forall s :: s in subs ==>
        subs[s] == if first then old(subs)[s].(delivery := Terminated(old(subs)[s].delivery, HubTerminal))
                   else old(subs)[s]
      ensures bindings.Keys == old(bindings).Keys && forall b :: b in bindings ==>
        bindings[b].closed && bindings[b].key == old(bindings)[b].key
        && bindings[b].hubTerminal == (!old(bindings)[b].closed || old(bindings)[b].hubTerminal)
      ensures old(HostOk()) ==> HostOk()
    {
      hide HostHeard, Coherent, HistoryOk, HubEnded, HubClosed, Terminated;
      AttachedIs(bindings, attached, subs, channelIndex, nextBinding, nextSub);
      NothingEnded(bindings, attached, subs, channelIndex, nextBinding, nextSub);
      HubClosesNone(bindings);
      first := !terminal;
      if first {
        if HostOk() { NoPublisher(hostLifecycle, subs, before, heard, late); }
        terminal, hostLifecycle := true, None;
        TellBindings();
      }
      NothingLive(bindings, attached, subs, channelIndex, nextBinding, nextSub);
      AttachedIs(bindings, attached, subs, channelIndex, nextBinding, nextSub);
      AllEndedIs(old(subs));
      AllClosed(old(bindings), bindings, old(attached));
    }

    /** The index loop of `subscribe`. */
    method AddToIndex(s: SubId, channels: set<Channel>)
      modifies this`channelIndex
      ensures channelIndex == With(old(channelIndex), channels, s)
    {
      hide With;
      ghost var index := channelIndex;
      var todo := channels;
      WithNone(index, s);
      assert channels - todo == {};
      while todo != {}
        invariant todo <= channels
        invariant channelIndex == With(index, channels - todo, s)
        decreases |todo|
      {
        var c :| c in todo;
        WithOne(index, channels - todo, c, s);
        assert channels - (todo - {c}) == channels - todo + {c};
        todo := todo - {c};
        channelIndex := channelIndex[c := (if c in channelIndex then channelIndex[c] else {}) + {s}];
      }
      assert channels - todo == channels;
    }

    /** The part of `subscribe` that puts a candidate into the tables. */
    method Install(b: BindingId, channels: set<Channel>, ghost retained: Option<Snapshot>) returns (s: SubId)
      requires Valid() && HostOk() && b in bindings && !bindings[b].closed
               && |bindings[b].subscriptions| < SUBSCRIPTIONS_PER_CLIENT
      modifies this`subs, this`bindings, this`channelIndex, this`nextSub, this`heard, this`before, this`late
      ensures Valid() && s == old(nextSub) && s !in old(subs) && subs == old(subs)[s := Sub(b, channels, FRESH)]
      ensures SameBindings(old(bindings), bindings)
      ensures HeardButFor(hostLifecycle, subs, before, heard, late, s) && late == old(late)[s := retained]
      ensures before == old(before)[s := []] && heard == old(heard)[s := []]
    {
      hide Coherent, HistoryOk, Recomputed, With, HostHeard, HeardButFor, SameBindings, FRESH;
      s := nextSub;
      var sub := Sub(b, channels, FRESH);
      Installed(bindings, attached, subs, channelIndex, nextBinding, nextSub, sub);
      InstalledHeard(hostLifecycle, subs, before, heard, late, s, sub, retained);
      bindings := bindings[b := bindings[b].(subscriptions := bindings[b].subscriptions + {s})];
      AddToIndex(s, channels);
      subs, nextSub, before, heard, late := subs[s := sub], s + 1, before[s := []], heard[s := []], late[s := retained];
    }

    /**
     * `subscribe` up to its checkpoint: the candidate is installed and, on the host channel, offered the
     * retained state. `bytes` is the size of that retained event.
     */
    method Subscribe(b: BindingId, channels: set<Channel>, bytes: nat) returns (r: Result<SubId>)
      requires Valid() && HostOk() && b in bindings
      modifies this`subs, this`bindings, this`channelIndex, this`nextSub, this`heard, this`before, this`late
      ensures Valid() && HostOk()
      ensures SameBindings(old(bindings), bindings)
      ensures r.Ok? <==> !old(bindings)[b].closed && |old(bindings)[b].subscriptions| < 64
      ensures r.Ok? ==> r.value == old(nextSub) && r.value !in old(subs)
      ensures r.Err? ==>
              r.error == if !old(bindings)[b].closed then LimitExceeded
                         else if old(bindings)[b].hubTerminal then TerminalError else BindingUnavailable
      ensures r.Err? ==> subs == old(subs)
      ensures r.Err? ==> late == old(late) && before == old(before) && heard == old(heard)
      ensures r.Ok? ==>
              late == old(late)[r.value := Retained(hostLifecycle, channels)] && before == old(before)[r.value := []]
      ensures r.Ok? ==>
        var first := Retained(hostLifecycle, channels);
        heard == old(heard)[r.value := if first.Some? then [Told(first.value, true)] else []]
      ensures r.Ok? ==> subs == old(subs)[r.value := Candidate(b, channels, hostLifecycle, bytes)]
      ensures r.Ok? ==>
        var h := hostLifecycle;
        var told := "host.lifecycle" in channels && h.Some? && h.value.sequence >= 0;
        && subs.Keys == old(subs).Keys + {r.value} && (forall s :: s in old(subs) ==> subs[s] == old(subs)[s])
        && subs[r.value].owner == b && subs[r.value].channels == channels
        && subs[r.value].delivery ==
           if !told then FRESH
           else
             var x := Snapshot(h.value.epoch, h.value.sequence, h.value.state);
             Offered(FRESH, Event("host.lifecycle", "state", Lifecycle(x), "host", bytes))
    {
      hide Coherent, HistoryOk, HostHeard, HostEvent, Offered, Parsed, SameBindings, FRESH;
      SameBindingsSelf(bindings);
      ClosedIs(bindings, attached, subs, channelIndex, nextBinding, nextSub, b);
      if bindings[b].closed { return Err(if bindings[b].hubTerminal then TerminalError else BindingUnavailable); }
      if |bindings[b].subscriptions| >= SUBSCRIPTIONS_PER_CLIENT { return Err(LimitExceeded); }
      ghost var subs0 := subs;
      var s := Install(b, channels, Retained(hostLifecycle, channels));
      if HOST_CHANNEL in channels && hostLifecycle.Some? && hostLifecycle.value.sequence >= 0 {
        RetainedHeard(hostLifecycle, subs, before, heard, late, s, bytes);
        ghost var bindings1 := bindings;
        Enqueue(s, HostEvent(hostLifecycle.value, bytes), true);
        SameBindingsTrans(old(bindings), bindings1, bindings);
      } else {
        NothingRetained(hostLifecycle, subs, before, heard, late, s);
      }
      assert subs == subs0[s := Candidate(b, channels, hostLifecycle, bytes)];
      OneMoreSub(subs0, s, b, channels, hostLifecycle, bytes);
      return Ok(s);
    }

    /** The rest of `subscribe` after its checkpoint. */
    method Establish(s: SubId) returns (r: Result<SubId>)
      requires Valid() && HostOk() && s in subs
      modifies this`subs
      ensures Valid() && HostOk()
      ensures r.Ok? <==> old(subs)[s].delivery.reason.None?
      ensures r.Ok? ==> r.value == s
      ensures r.Err? ==>
        && old(subs)[s].delivery.reason.Some?
        && var why := old(subs)[s].delivery.reason.value;
        && (r.error == LimitExceeded <==> why == Overflow)
        && (r.error == BindingUnavailable <==> why == BindingTerminal)
        && (r.error == TerminalError <==> why == ClientTerminal || why == HubTerminal || why == Closed)
      ensures subs == if r.Ok? then old(subs)[s := old(subs)[s].(delivery := Revealed(old(subs)[s].delivery))]
              else old(subs)
    {
      hide Revealed;
      if subs[s].delivery.reason.Some? { return Err(EstablishmentFailure(subs[s].delivery.reason.value)); }
      RevealedMoves(subs[s].delivery);
      Move(s, Revealed(subs[s].delivery));
      return Ok(s);
    }

    /** A delivery moves on without being offered anything and without ending. */
    method Move(s: SubId, d: Delivery)
      requires Valid() && HostOk() && s in subs && Moves(subs[s].delivery, d)
      modifies this`subs
      ensures Valid() && HostOk() && subs == old(subs)[s := old(subs)[s].(delivery := d)]
    {
      hide Coherent, HistoryOk, HostHeard, Moves;
      MoveLeaves(bindings, attached, subs, channelIndex, nextBinding, nextSub, s, d);
      MoveHeard(hostLifecycle, subs, before, heard, late, s, d);
      subs := subs[s := subs[s].(delivery := d)];
    }

    /** A drain timer of one subscription. */
    method Fire(s: SubId)
      requires Valid() && HostOk() && s in subs && subs[s].delivery.scheduled
      modifies this`subs
      ensures Valid() && HostOk() && subs == old(subs)[s := old(subs)[s].(delivery := Fired(old(subs)[s].delivery))]
    {
      hide Fired;
      TurnMoves(subs[s].delivery);
      Move(s, Fired(subs[s].delivery));
    }

    /** A listener's promise settles. */
    method Settle(s: SubId)
      requires Valid() && HostOk() && s in subs && subs[s].delivery.running
      modifies this`subs
      ensures Valid() && HostOk() && subs == old(subs)[s := old(subs)[s].(delivery := Settled(old(subs)[s].delivery))]
    {
      hide Settled;
      TurnMoves(subs[s].delivery);
      Move(s, Settled(subs[s].delivery));
    }

    /** A publish through a binding; it fails synchronously when the binding is closed. */
    method Publish(b: BindingId, input: Input) returns (failure: Option<Error>)
      requires Valid() && HostOk() && b in bindings
      modifies this`subs, this`channelIndex, this`bindings, this`heard
      ensures Valid() && HostOk() && SameBindings(old(bindings), bindings)
      ensures failure == if !old(bindings)[b].closed then None
              else Some(if old(bindings)[b].hubTerminal then TerminalError else BindingUnavailable)
      ensures failure.Some? ==> subs == old(subs)
      ensures failure.None? ==> subs == RoutedSubs(old(subs), old(bindings), EventOf(old(bindings)[b].key, input), None)
      ensures failure.None? ==> subs.Keys == old(subs).Keys && forall s :: s in subs ==>
        var was := old(subs)[s];
        var e := Event(input.channel, input.kind, input.payload, old(bindings)[b].key, input.bytes);
        subs[s] == if was.delivery.active && input.channel in was.channels
                   then was.(delivery := Offered(was.delivery, e)) else was
      ensures heard == if failure.Some? then old(heard)
                       else RoutedHeard(old(subs), old(bindings), old(heard), EventOf(old(bindings)[b].key, input),
                           None, false)
    {
      hide Coherent, HistoryOk, SameBindings, RoutedSubs, RoutedHeard, HostHeard, Parsed;
      ClosedIs(bindings, attached, subs, channelIndex, nextBinding, nextSub, b);
      SameBindingsSelf(bindings);
      if bindings[b].closed { return Some(if bindings[b].hubTerminal then TerminalError else BindingUnavailable); }
      var e := EventOf(bindings[b].key, input);
      RouteKeepsHeard(hostLifecycle, subs, bindings, before, heard, late, e, None);
      RoutedIs(subs, bindings, e, None);
      var ok := Route(bindings[b].key, input, None, false);
      return None;
    }

    /** A publish by the Host on behalf of a Runtime, possibly to that of one key only. */
    method PublishAs(source: string, input: Input, target: Option<string>) returns (failure: Option<Error>)
      requires Valid() && HostOk()
      modifies this`subs, this`channelIndex, this`bindings, this`heard
      ensures Valid() && HostOk() && SameBindings(old(bindings), bindings)
      ensures failure == if terminal then Some(TerminalError) else None
      ensures subs == if terminal then old(subs)
              else RoutedSubs(old(subs), old(bindings), EventOf(source, input), target)
      ensures !terminal ==> subs.Keys == old(subs).Keys && forall s :: s in subs ==>
        var was := old(subs)[s];
        var e := Event(input.channel, input.kind, input.payload, source, input.bytes);
        subs[s] == if was.delivery.active && input.channel in was.channels
                      && (target.None? || (was.owner in old(bindings) && old(bindings)[was.owner].key == target.value))
                   then was.(delivery := Offered(was.delivery, e)) else was
      ensures heard == if failure.Some? then old(heard)
                       else RoutedHeard(old(subs), old(bindings), old(heard), EventOf(source, input), target, false)
    {
      hide Coherent, HistoryOk, SameBindings, RoutedSubs, RoutedHeard, HostHeard, Parsed;
      SameBindingsSelf(bindings);
      if terminal { return Some(TerminalError); }
      var e := EventOf(source, input);
      RouteKeepsHeard(hostLifecycle, subs, bindings, before, heard, late, e, target);
      RoutedIs(subs, bindings, e, target);
      var ok := Route(source, input, target, false);
      return None;
    }

    // the host lifecycle publisher

    /** `bytes` is the length of the epoch in UTF-8. */
    method InstallHost(owner: nat, epoch: string, bytes: nat, initial: Option<HostState>)
        returns (failure: Option<Error>)
      requires Valid() && HostOk()
      modifies this`hostLifecycle, this`before, this`heard, this`late
      ensures Valid() && HostOk()
      ensures failure == if terminal then Some(TerminalError) else if old(hostLifecycle).Some? then Some(HostExists)
                         else if epoch == "" || bytes > MAX_EPOCH_BYTES then Some(InvalidHost) else None
      ensures hostLifecycle == if failure.Some? then old(hostLifecycle)
                               else Some(Host(owner, epoch, if initial.None? then -1 else 0, if initial.None?
                                   then Foreground else initial.value))
      ensures if failure.Some? then before == old(before) && heard == old(heard) && late == old(late)
              else before == Archived(old(before), old(heard)) && heard == Emptied(old(heard)) && late == map[]
    {
      hide Coherent, HistoryOk, HostHeard, Archived, Emptied;
      if terminal { return Some(TerminalError); }
      if hostLifecycle.Some? { return Some(HostExists); }
      if epoch == "" || bytes > MAX_EPOCH_BYTES { return Some(InvalidHost); }
      hostLifecycle :=
          Some(Host(owner, epoch, if initial.None? then -1 else 0, if initial.None? then Foreground
          else initial.value));
      NewPublisher(hostLifecycle.value, subs, before, heard);
      before, heard := Archived(before, heard), Emptied(heard);
      late := map[];
      return None;
    }

    /** A changed state gets the next number and is routed; an unchanged one is dropped. */
    method PublishHost(owner: nat, state: HostState, bytes: nat) returns (failure: Option<Error>)
      requires Valid() && HostOk()
      modifies this`subs, this`channelIndex, this`bindings, this`heard, this`hostLifecycle
      ensures Valid() && HostOk() && SameBindings(old(bindings), bindings)
      ensures failure == if terminal then Some(TerminalError)
                         else if old(hostLifecycle).None? || old(hostLifecycle).value.owner != owner
                             then Some(HostClosed) else None
      ensures hostLifecycle == if failure.Some? then old(hostLifecycle)
              else Some(Advanced(old(hostLifecycle).value, state))
      ensures failure.None? ==>
        var h, h' := old(hostLifecycle).value, hostLifecycle.value;
        if h.sequence >= 0 && h.state == state then h' == h && subs == old(subs)
        else
          && h' == Host(owner, h.epoch, h.sequence + 1, state) && subs.Keys == old(subs).Keys
          && forall s :: s in subs ==>
            var was := old(subs)[s];
            var x := Snapshot(h.epoch, h.sequence + 1, state);
            subs[s] == if was.delivery.active && "host.lifecycle" in was.channels
                       then was.(delivery :=
                         Offered(was.delivery, Event("host.lifecycle", "state", Lifecycle(x), "host", bytes)))
                       else was
      ensures subs == if failure.Some? || hostLifecycle == old(hostLifecycle) then old(subs)
                      else RoutedSubs(old(subs), old(bindings), HostEvent(hostLifecycle.value, bytes), None)
      ensures heard == if failure.Some? || hostLifecycle == old(hostLifecycle) then old(heard)
                       else RoutedHeard(old(subs), old(bindings), old(heard), HostEvent(hostLifecycle.value, bytes),
                           None, true)
    {
      hide Coherent, HistoryOk, SameBindings, RoutedSubs, RoutedHeard, HostHeard;
      SameBindingsSelf(bindings);
      if terminal { return Some(TerminalError); }
      if hostLifecycle.None? || hostLifecycle.value.owner != owner { return Some(HostClosed); }
      var h := hostLifecycle.value;
      if h.sequence >= 0 && h.state == state { return None; }
      HostPublished(h, state, subs, bindings, before, heard, late, bytes);
      RoutedIs(subs, bindings, HostEvent(Advanced(h, state), bytes), None);
      hostLifecycle := Some(h.(sequence := h.sequence + 1, state := state));
      var ok := Route(HOST_SOURCE,
          Input(HOST_CHANNEL, "state", Lifecycle(Snapshot(h.epoch, h.sequence + 1, state)), bytes), None, true);
      return None;
    }

    method CloseHost(owner: nat)
      requires Valid() && HostOk()
      modifies this`hostLifecycle
      ensures Valid() && HostOk()
      ensures hostLifecycle == if old(hostLifecycle).Some? && old(hostLifecycle).value.owner == owner then None
              else old(hostLifecycle)
    {
      if hostLifecycle.Some? && hostLifecycle.value.owner == owner { hostLifecycle := None; }
    }
  }
}
