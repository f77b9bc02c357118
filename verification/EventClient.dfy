/**
 * The replaceable Session Event client (packages/session-events/src/client.ts): which binding is current,
 * which author subscriptions belong to it, and the slots they occupy.
 */
module EventClient {
  import opened Base

  const SUBSCRIPTIONS_PER_CLIENT: nat := 64

  type WrapperId = nat

  /** `exposed` is the gate of the listener, None while nothing is decided. */
  datatype Wrapper = Wrapper(generation: nat, active: bool, exposed: Option<bool>)

  datatype Refusal = TerminalClient | NoBinding | LimitExceeded

  function Active(wrappers: map<WrapperId, Wrapper>): set<WrapperId> {
    set w | w in wrappers && wrappers[w].active
  }

  function Ended(wrapper: Wrapper): Wrapper { wrapper.(active := false) }

  /** One wrapper ends: it leaves the active ones, and their number drops by one if it was active. */
  lemma OneEnds(wrappers: map<WrapperId, Wrapper>, w: WrapperId)
    requires w in wrappers && wrappers[w].active
    ensures Active(wrappers[w := Ended(wrappers[w])]) == Active(wrappers) - {w}
    ensures |Active(wrappers[w := Ended(wrappers[w])])| == |Active(wrappers)| - 1
  {
    assert Active(wrappers[w := Ended(wrappers[w])]) == Active(wrappers) - {w};
  }

  lemma SameActive(wrappers: map<WrapperId, Wrapper>, w: WrapperId, wrapper: Wrapper)
    requires w in wrappers && wrapper.active == wrappers[w].active
    ensures Active(wrappers[w := wrapper]) == Active(wrappers)
  {
  }

  lemma OneMore(wrappers: map<WrapperId, Wrapper>, w: WrapperId, wrapper: Wrapper)
    requires w !in wrappers && wrapper.active
    ensures Active(wrappers[w := wrapper]) == Active(wrappers) + {w}
            && |Active(wrappers[w := wrapper])| == |Active(wrappers)| + 1
  {
    assert Active(wrappers[w := wrapper]) == Active(wrappers) + {w};
  }

  function AllEnded(wrappers: map<WrapperId, Wrapper>, ids: set<WrapperId>): map<WrapperId, Wrapper> {
    map w | w in wrappers :: if w in ids then Ended(wrappers[w]) else wrappers[w]
  }

  /** Exactly the wrappers in `done` have ended. */
  ghost predicate EndedIn(done: set<WrapperId>, before: map<WrapperId, Wrapper>, after: map<WrapperId, Wrapper>) {
    after.Keys == before.Keys
        && forall w :: w in before ==> after[w] == if w in done then Ended(before[w]) else before[w]
  }

  lemma NoneEnded(wrappers: map<WrapperId, Wrapper>)
    ensures EndedIn({}, wrappers, wrappers)
  {
  }

  lemma EndedAre(done: set<WrapperId>, before: map<WrapperId, Wrapper>, after: map<WrapperId, Wrapper>)
    requires EndedIn(done, before, after)
    ensures after.Keys == before.Keys
            && forall w :: w in after ==> after[w] == if w in done then Ended(before[w]) else before[w]
  {
  }

  lemma EndedMore(done: set<WrapperId>, before: map<WrapperId, Wrapper>, after: map<WrapperId, Wrapper>, w: WrapperId)
    requires EndedIn(done, before, after) && w in after
    ensures EndedIn(done + {w}, before, after[w := Ended(after[w])])
  {
  }

  /** What is done of a set, given what is left to do. */
  ghost predicate AllBut(every: set<WrapperId>, todo: set<WrapperId>, done: set<WrapperId>) {
    done + todo == every && done !! todo
  }

  lemma AllButNone(every: set<WrapperId>)
    ensures AllBut(every, every, {}) && forall done :: AllBut(every, {}, done) ==> done == every
  {
  }

  lemma AllButOne(every: set<WrapperId>, todo: set<WrapperId>, done: set<WrapperId>, w: WrapperId)
    requires AllBut(every, todo, done) && w in todo
    ensures AllBut(every, todo - {w}, done + {w}) && w in every && w !in done
  {
  }

  lemma DropMore(subs: map<WrapperId, nat>, done: set<WrapperId>, w: WrapperId)
    ensures subs - done - {w} == subs - (done + {w})
  {
  }

  /** The established subscriptions of a generation, or all of them. */
  function Targets(subs: map<WrapperId, nat>, of: Option<nat>): set<WrapperId> {
    set w | w in subs && (of.None? || subs[w] == of.value)
  }

  lemma Spared(subs: map<WrapperId, nat>, of: Option<nat>)
    ensures Targets(subs, of) <= subs.Keys
    ensures subs - Targets(subs, of) == map w | w in subs && of.Some? && subs[w] != of.value :: subs[w]
  {
  }

  class ReplaceableSessionEventClient {
    /** The generation of the attached binding; detaching takes a generation of its own. */
    var current: Option<nat>
    var generation: nat
    var terminal: bool
    var hubTerminal: bool
    var subscriptionSlots: int
    var subscriptions: map<WrapperId, nat>
    var wrappers: map<WrapperId, Wrapper>
    var nextWrapper: nat

    /** A slot is held by each wrapper that has not ended, whichever way and however often it is ended. */
    ghost predicate SlotsOk()
      reads this
    {
      && subscriptionSlots == |Active(wrappers)| <= SUBSCRIPTIONS_PER_CLIENT
      && (forall w :: w in wrappers ==> w < nextWrapper)
      && (forall w :: w in subscriptions ==>
         w in wrappers && wrappers[w].active && wrappers[w].generation == subscriptions[w])
    }

    /** An established subscription belongs to the current binding; none outlives it. */
    ghost predicate Valid()
      reads this
    {
      && SlotsOk()
      && (forall w :: w in subscriptions ==> current == Some(subscriptions[w]))
      && (current.Some? ==> current.value <= generation)
      && (forall w :: w in wrappers ==> wrappers[w].generation <= generation)
      && (terminal || hubTerminal ==> current.None?)
    }

    constructor ()
      ensures Valid() && current == None && wrappers == map[] && !IsTerminal()
    {
      current, generation, terminal, hubTerminal, subscriptionSlots := None, 0, false, false, 0;
      subscriptions, wrappers, nextWrapper := map[], map[], 0;
      new;
      assert Active(map[]) == {};
    }

    function IsTerminal(): bool
      reads this
    {
      terminal || hubTerminal
    }

    function Same(generation: nat): bool
      reads this
    {
      !IsTerminal() && current == Some(generation)
    }

    /** Whether an event may be handed to the author's listener now. */
    function MayCall(w: WrapperId): bool
      reads this
    {
      w in wrappers && wrappers[w].exposed == Some(true) && wrappers[w].active && Same(wrappers[w].generation)
    }

    /** A listener may be called from its exposure on, while its subscription is active and its binding current. */
    lemma MayCallMeans(w: WrapperId)
      requires Valid()
      ensures MayCall(w) <==>
              w in wrappers && wrappers[w].exposed == Some(true) && wrappers[w].active
              && current == Some(wrappers[w].generation)
    {
    }

    /** A wrapper's `terminal`: the first one releases its slot. */
    method End(w: WrapperId)
      requires SlotsOk() && w in wrappers
      modifies this`wrappers, this`subscriptionSlots, this`subscriptions
      ensures SlotsOk() && wrappers == old(wrappers)[w := Ended(old(wrappers)[w])]
      ensures subscriptionSlots == old(subscriptionSlots) - (if old(wrappers)[w].active then 1 else 0)
      ensures subscriptions == old(subscriptions) - {w}
    {
      if !wrappers[w].active {
        assert wrappers[w := Ended(wrappers[w])] == wrappers && subscriptions - {w} == subscriptions;
        return;
      }
      OneEnds(wrappers, w);
      wrappers := wrappers[w := Ended(wrappers[w])];
      subscriptionSlots := subscriptionSlots - 1;
      subscriptions := subscriptions - {w};
    }

    lemma Known(w: WrapperId)
      requires SlotsOk() && w in subscriptions
      ensures w in wrappers
    {
    }

    /** Ends every established subscription of a generation. */
    method EndAll(of: Option<nat>)
      requires SlotsOk()
      modifies this`wrappers, this`subscriptionSlots, this`subscriptions
      ensures SlotsOk() && wrappers.Keys == old(wrappers.Keys)
      ensures subscriptions == map w | w in old(subscriptions) && of.Some? && old(subscriptions)[w] != of.value ::
              old(subscriptions)[w]
      ensures forall w :: w in wrappers ==> wrappers[w] == if w in old(subscriptions) && w !in subscriptions
              then Ended(old(wrappers)[w]) else old(wrappers)[w]
    {
      hide SlotsOk, EndedIn, Targets, Ended, AllBut;
      Spared(subscriptions, of);
      ghost var subs0, wrappers0 := subscriptions, wrappers;
      var todo := Targets(subscriptions, of);
      ghost var every, done: set<WrapperId> := todo, {};
      NoneEnded(wrappers);
      AllButNone(every);
      assert subs0 - done == subs0;
      while |todo| > 0
        invariant SlotsOk() && AllBut(every, todo, done) && every <= subs0.Keys
        invariant subscriptions == subs0 - done && EndedIn(done, wrappers0, wrappers)
        decreases |todo|
      {
        var w :| w in todo;
        AllButOne(every, todo, done, w);
        Known(w);
        EndedMore(done, wrappers0, wrappers, w);
        DropMore(subs0, done, w);
        End(w);
        done, todo := done + {w}, todo - {w};
      }
      assert todo == {};
      AllButNone(every);
      EndedAre(done, wrappers0, wrappers);
    }

    method Detach()
      requires Valid()
      modifies this
      ensures Valid() && current == None && terminal == old(terminal) && hubTerminal == old(hubTerminal)
      ensures generation == old(generation) + (if old(current).Some? then 1 else 0) && nextWrapper == old(nextWrapper)
      ensures subscriptions == map[] && wrappers == AllEnded(old(wrappers), old(subscriptions).Keys)
    {
      if current.None? {
        assert subscriptions == map[];
        assert AllEnded(wrappers, {}) == wrappers;
        return;
      }
      ghost var wrappers0, subs0 := wrappers, subscriptions;
      var attached := current.value;
      current, generation := None, generation + 1;
      EndAll(Some(attached));
      assert subscriptions == map[];
      assert wrappers == AllEnded(wrappers0, subs0.Keys);
    }

    /** A new binding replaces the old one, whose subscriptions end. */
    method Attach() returns (attached: Option<nat>)
      requires Valid()
      modifies this
      ensures Valid() && subscriptions == (if old(IsTerminal()) then old(subscriptions) else map[])
      ensures attached.None? <==> old(terminal || hubTerminal)
      ensures attached.Some? ==> current == attached && attached.value > old(generation)
      ensures wrappers == if old(IsTerminal()) then old(wrappers) else AllEnded(old(wrappers), old(subscriptions).Keys)
      ensures terminal == old(terminal) && hubTerminal == old(hubTerminal)
              && (attached.None? ==> current == old(current))
    {
      if IsTerminal() { return None; }
      Detach();
      generation := generation + 1;
      current := Some(generation);
      return current;
    }

    method Terminate()
      requires Valid()
      modifies this
      ensures Valid() && terminal && subscriptions == map[] && current == None && hubTerminal == old(hubTerminal)
      ensures wrappers == AllEnded(old(wrappers), old(subscriptions).Keys)
    {
      if terminal {
        assert subscriptions == map[];
        assert AllEnded(wrappers, {}) == wrappers;
        return;
      }
      ghost var wrappers0, subs0 := wrappers, subscriptions;
      terminal := true;
      EndAll(None);
      assert subscriptions == map[];
      assert wrappers == AllEnded(wrappers0, subs0.Keys);
      current, generation := None, generation + 1;
    }

    /** The current binding ended by itself; the end of a binding that was replaced means nothing. */
    method BindingTerminated(attached: nat, hub: bool)
      requires Valid()
      modifies this
      ensures Valid()
      ensures old(current) != Some(attached) ==>
              current == old(current) && subscriptions == old(subscriptions) && wrappers == old(wrappers)
      ensures old(current) == Some(attached) ==> current == None && subscriptions == map[]
      ensures old(current) == Some(attached) ==> wrappers == AllEnded(old(wrappers), old(subscriptions).Keys)
      ensures terminal == old(terminal) && hubTerminal == (old(hubTerminal) || (hub && old(current) == Some(attached)))
    {
      if current != Some(attached) { return; }
      ghost var wrappers0, subs0 := wrappers, subscriptions;
      current, generation := None, generation + 1;
      if hub { hubTerminal := true; }
      EndAll(Some(attached));
      assert subscriptions == map[];
      assert wrappers == AllEnded(wrappers0, subs0.Keys);
    }

    /** `subscribe` up to its first await: a slot is taken before anything is asked of the binding. */
    method BeginSubscribe() returns (w: Option<WrapperId>, refusal: Option<Refusal>)
      requires Valid()
      modifies this
      ensures Valid() && current == old(current) && generation == old(generation)
      ensures refusal == if terminal || hubTerminal then Some(TerminalClient) else if current.None? then Some(NoBinding)
                         else if old(subscriptionSlots) >= SUBSCRIPTIONS_PER_CLIENT then Some(LimitExceeded) else None
      ensures w.Some? <==> refusal.None?
      ensures w.Some? ==>
              w.value !in old(wrappers) && wrappers == old(wrappers)[w.value := Wrapper(current.value, true, None)]
      ensures w.None? ==> wrappers == old(wrappers)
    {
      if IsTerminal() { return None, Some(TerminalClient); }
      if current.None? { return None, Some(NoBinding); }
      if subscriptionSlots >= SUBSCRIPTIONS_PER_CLIENT { return None, Some(LimitExceeded); }
      var wrapper := Wrapper(current.value, true, None);
      OneMore(wrappers, nextWrapper, wrapper);
      wrappers, subscriptionSlots, nextWrapper := wrappers[nextWrapper := wrapper], subscriptionSlots + 1,
          nextWrapper + 1;
      return Some(nextWrapper - 1), None;
    }

    /** The binding's subscribe failed, or the wait for it became pointless: the slot is given back. */
    method SubscribeFails(w: WrapperId)
      requires Valid() && w in wrappers
      modifies this`wrappers, this`subscriptionSlots, this`subscriptions
      ensures Valid() && wrappers == old(wrappers)[w := old(wrappers)[w].(active := false, exposed := Some(false))]
      ensures !MayCall(w) && subscriptions == old(subscriptions) - {w}
      ensures subscriptionSlots == old(subscriptionSlots) - (if old(wrappers)[w].active then 1 else 0)
    {
      SameActive(wrappers, w, wrappers[w].(exposed := Some(false)));
      wrappers := wrappers[w := wrappers[w].(exposed := Some(false))];
      End(w);
    }

    /** The inner subscription arrived; it is kept only if its binding is still the current one. */
    method InnerArrives(w: WrapperId) returns (kept: bool)
      requires Valid() && w in wrappers && wrappers[w].active && w !in subscriptions
      modifies this`wrappers, this`subscriptionSlots, this`subscriptions
      ensures Valid() && w in wrappers && (kept <==> current == Some(old(wrappers)[w].generation))
      ensures kept ==> subscriptions == old(subscriptions)[w := wrappers[w].generation] && wrappers == old(wrappers)
      ensures !kept ==> subscriptions == old(subscriptions) && subscriptionSlots == old(subscriptionSlots) - 1
      ensures !kept ==> wrappers == old(wrappers)[w := old(wrappers)[w].(active := false, exposed := Some(false))]
    {
      if !Same(wrappers[w].generation) {
        SubscribeFails(w);
        return false;
      }
      subscriptions := subscriptions[w := wrappers[w].generation];
      return true;
    }

    /** Nothing ended it early: from now on the listener may be called, as long as the wrapper is active. */
    method Expose(w: WrapperId)
      requires Valid() && w in wrappers && wrappers[w].exposed.None?
      modifies this`wrappers
      ensures Valid() && wrappers == old(wrappers)[w := old(wrappers)[w].(exposed := Some(true))]
      ensures MayCall(w) <==> wrappers[w].active && current == Some(wrappers[w].generation)
    {
      SameActive(wrappers, w, wrappers[w].(exposed := Some(true)));
      wrappers := wrappers[w := wrappers[w].(exposed := Some(true))];
    }

    /** The author closes, or the inner subscription closed. */
    method Close(w: WrapperId)
      requires Valid() && w in wrappers
      modifies this`wrappers, this`subscriptionSlots, this`subscriptions
      ensures Valid() && !MayCall(w) && wrappers == old(wrappers)[w := Ended(old(wrappers)[w])]
      ensures subscriptions == old(subscriptions) - {w}
      ensures subscriptionSlots == old(subscriptionSlots) - (if old(wrappers)[w].active then 1 else 0)
    {
      End(w);
    }
  }
}
