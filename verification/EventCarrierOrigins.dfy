/** Where the subscriptions, the events due and the ends of a carrier pair come from. */
module EventCarrierOrigins {
  import opened Base
  import opened EventDelivery
  import opened EventCarrier
  import opened EventCarrierSafety

  // ----- the events due

  /** The positions, in order, of the events on these channels that were routed from `since` on. */
  ghost predicate Picks(channels: set<Channel>, since: nat, log: seq<Event>, positions: seq<nat>) {
    && (forall i, j :: 0 <= i < j < |positions| ==> positions[i] < positions[j])
    && (forall k: nat :: k in positions <==> since <= k < |log| && log[k].channel in channels)
  }

  /** After what was there at first come the events of the log at these positions. */
  ghost predicate Reads(due: seq<Event>, first: seq<Event>, log: seq<Event>, positions: seq<nat>) {
    && |due| == |first| + |positions| && first <= due
    && forall i :: 0 <= i < |positions| ==> positions[i] < |log| && due[|first| + i] == log[positions[i]]
  }

  lemma ReadsMore(due: seq<Event>, first: seq<Event>, log: seq<Event>, positions: seq<nat>, e: Event)
    requires Reads(due, first, log, positions)
    ensures Reads(due, first, log + [e], positions)
    ensures Reads(due + [e], first, log + [e], positions + [|log|])
  {
  }

  lemma DueMore(h: HubSub, log: seq<Event>, e: Event)
    requires h.since <= |log|
    ensures Due(h, log + [e]) == if e.channel in h.channels then Due(h, log) + [e] else Due(h, log)
  {
    hide Matching;
    MatchingMore(h.channels, log, h.since, e);
  }

  /** Due are the retained event, if any, and then exactly the events routed since on channels asked for. */
  lemma {:induction false} DueIs(h: HubSub, log: seq<Event>) returns (positions: seq<nat>)
    requires h.since <= |log|
    ensures Picks(h.channels, h.since, log, positions) && Reads(Due(h, log), h.initial, log, positions)
    decreases |log|
  {
    hide Due, Picks, Reads;
    if h.since == |log| {
      NothingDue(h, log);
      return [];
    }
    var most, last := log[..|log| - 1], log[|log| - 1];
    assert most + [last] == log;
    DueMore(h, most, last);
    var before := DueIs(h, most);
    PicksMore(h.channels, h.since, most, before, last);
    ReadsMore(Due(h, most), h.initial, most, before, last);
    positions := if last.channel in h.channels then before + [|most|] else before;
  }

  lemma NothingDue(h: HubSub, log: seq<Event>)
    requires h.since == |log|
    ensures Picks(h.channels, h.since, log, []) && Reads(Due(h, log), h.initial, log, [])
  {
    assert log[h.since..] == [];
  }

  lemma PicksMore(channels: set<Channel>, since: nat, log: seq<Event>, positions: seq<nat>, e: Event)
    requires Picks(channels, since, log, positions) && since <= |log|
    ensures Picks(channels, since, log + [e], if e.channel in channels then positions + [|log|] else positions)
  {
    var more := if e.channel in channels then positions + [|log|] else positions;
    forall i | 0 <= i < |positions| ensures positions[i] < |log| { assert positions[i] in positions; }
    forall k: nat ensures k in more <==> since <= k < |log + [e]| && (log + [e])[k].channel in channels {
      if k == |log| {
        assert k !in positions;
      }
    }
  }

  /** Routing is always possible, is logged, and offers the event to every subscription of its channel. */
  lemma RoutingOffers(w: World, limit: nat, e: Event)
    ensures Apply(w, limit, Routes(e)).Some?
    ensures var w' := Apply(w, limit, Routes(e)).value;
            && w'.log == w.log + [e] && w'.client == w.client && w'.server.hub.Keys == w.server.hub.Keys
            && forall m :: m in w.server.hub ==>
              w'.server.hub[m].delivery ==
              if e.channel in w.server.hub[m].channels then Offered(w.server.hub[m].delivery, e)
              else w.server.hub[m].delivery
  {
    hide Offered;
  }

  // ----- what a step leaves of a subscription of the hub

  /** Its terms stay, and once it has ended, so does the reason. */
  predicate Stays(h: HubSub, h': HubSub) {
    && h'.channels == h.channels && h'.initial == h.initial && h'.since == h.since
    && (h.delivery.reason.Some? && !h.delivery.active ==>
          h'.delivery.reason == h.delivery.reason && !h'.delivery.active)
  }

  lemma DeliveryStays(h: HubSub, e: Event, reason: Reason)
    ensures Stays(h, h) && Stays(h, h.(delivery := Offered(h.delivery, e)))
    ensures Stays(h, h.(delivery := Terminated(h.delivery, reason)))
    ensures Stays(h, h.(delivery := Revealed(h.delivery))) && Stays(h, h.(delivery := Fired(h.delivery)))
    ensures h.delivery.running ==> Stays(h, h.(delivery := Settled(h.delivery)))
  {
  }

  lemma ShutdownStays(s: Server, m: SubId)
    requires m in s.hub
    ensures m in Shutdown(s).hub && Stays(s.hub[m], Shutdown(s).hub[m])
  {
    hide Terminated, Stays;
    DeliveryStays(s.hub[m], Event("", "", Opaque(""), "", 0), Closed);
    DeliveryStays(s.hub[m], Event("", "", Opaque(""), "", 0), BindingTerminal);
  }

  lemma TakesStays(w: World, limit: nat, retained: Option<Event>, m: SubId)
    requires w.toServer != [] && m in w.server.hub && m < w.server.nextSub
    ensures var hub := ServerTakes(w, limit, retained).server.hub; m in hub && Stays(w.server.hub[m], hub[m])
  {
    hide Offered, Terminated, Alive, Stays, Shutdown;
    DeliveryStays(w.server.hub[m], Event("", "", Opaque(""), "", 0), Closed);
    ShutdownStays(w.server.(lastRequest := w.toServer[0].id), m);
  }

  lemma FinishesStays(w: World, ok: bool, m: SubId)
    requires m in w.server.hub
    ensures var hub := ServerFinishes(w, ok).server.hub; m in hub && Stays(w.server.hub[m], hub[m])
  {
    hide Revealed, Stays;
    DeliveryStays(w.server.hub[m], Event("", "", Opaque(""), "", 0), Closed);
  }

  lemma ReceivesKeepsServer(w: World)
    requires w.toClient != []
    ensures ClientReceives(w).server == w.server && ClientReceives(w).log == w.log
  {
    hide FailClosed, EndHandle, Offered, Revealed;
  }

  lemma LocalCloseKeepsServer(w: World, m: SubId)
    ensures LocalClose(w, m).server == w.server && LocalClose(w, m).log == w.log
  {
    hide FailClosed;
  }

  lemma HubStays(w: World, limit: nat, step: Step, m: SubId)
    requires Apply(w, limit, step).Some? && m in w.server.hub && m < w.server.nextSub
    ensures var hub := Apply(w, limit, step).value.server.hub; m in hub && Stays(w.server.hub[m], hub[m])
  {
    hide ServerTakes, ServerFinishes, ClientReceives, FailClosed, LocalClose, Offered, Terminated, Revealed, Fired,
        Settled, Stays;
    var h := w.server.hub[m];
    var any := Event("", "", Opaque(""), "", 0);
    DeliveryStays(h, any, BindingTerminal);
    match step
    case Takes(retained) => TakesStays(w, limit, retained, m);
    case Finishes(ok) => FinishesStays(w, ok, m);
    case Receives => ReceivesKeepsServer(w);
    case ClosesHandle(n) =>
      LocalCloseKeepsServer(PutHandle(w, n, EndHandle(w.client.handles[n], Closed)), n);
    case Routes(e) => DeliveryStays(h, e, Closed);
    case Ends(_, reason) => DeliveryStays(h, any, reason);
    case ServerShuts => DeliveryStays(h, any, Closed);
    case _ =>
  }

  // ----- where a subscription comes from

  /** In this step the server installs the subscription, for the channels of the request it takes. */
  predicate Installs(w: World, step: Step, h: HubSub) {
    && step.Takes? && w.toServer != [] && w.toServer[0].call.Subscribe?
    && h.channels == w.toServer[0].call.channels && h.since == |w.log|
    && h.initial == if step.retained.Some? && step.retained.value.channel in h.channels then [step.retained.value]
                    else []
  }

  /** At some step of the run the subscription was installed with these terms. */
  ghost predicate Installed(limit: nat, steps: seq<Step>, h: HubSub) {
    exists j :: 0 <= j < |steps| && Run(limit, steps[..j]).Some?
                && Installs(Run(limit, steps[..j]).value, steps[j], h)
  }

  lemma InstalledLater(limit: nat, steps: seq<Step>, h: HubSub, h': HubSub)
    requires steps != [] && Installed(limit, steps[..|steps| - 1], h) && Stays(h, h')
    ensures Installed(limit, steps, h')
  {
    var most := steps[..|steps| - 1];
    var j :| 0 <= j < |most| && Run(limit, most[..j]).Some? && Installs(Run(limit, most[..j]).value, most[j], h);
    assert steps[..j] == most[..j] && steps[j] == most[j];
    assert Installs(Run(limit, steps[..j]).value, steps[j], h');
  }

  lemma InstalledNow(w: World, limit: nat, step: Step, m: SubId)
    requires Apply(w, limit, step).Some? && m !in w.server.hub && m in Apply(w, limit, step).value.server.hub
    ensures Installs(w, step, Apply(w, limit, step).value.server.hub[m])
  {
    hide ServerTakes, ServerFinishes, ClientReceives, FailClosed, LocalClose, Offered, Terminated, Revealed, Fired,
        Settled, Installs;
    match step
    case Takes(retained) => TakesInstalls(w, limit, retained, m);
    case Finishes(ok) => FinishesSame(w, ok, m);
    case Receives => ReceivesKeepsServer(w);
    case ClosesHandle(n) =>
      LocalCloseKeepsServer(PutHandle(w, n, EndHandle(w.client.handles[n], Closed)), n);
    case _ =>
  }

  lemma TakesInstalls(w: World, limit: nat, retained: Option<Event>, m: SubId)
    requires w.toServer != [] && m !in w.server.hub && m in ServerTakes(w, limit, retained).server.hub
    ensures Installs(w, Takes(retained), ServerTakes(w, limit, retained).server.hub[m])
  {
    hide Offered, Terminated, Alive;
  }

  lemma FinishesSame(w: World, ok: bool, m: SubId)
    requires m in ServerFinishes(w, ok).server.hub
    ensures m in w.server.hub
  {
    hide Revealed;
  }

  lemma HubIsKnown(w: World, limit: nat)
    requires Safe(w, limit)
    ensures forall m :: m in w.server.hub ==> m < w.server.nextSub
  {
  }

  /**
   * Every subscription of the server was installed by a subscribe request it took: with the channels asked for,
   * the lifecycle event retained then if that is among them, and from that position of the log on.
   */
  lemma {:induction false} SubscribedAt(limit: nat, steps: seq<Step>, m: SubId)
    requires limit <= MAX_SUBSCRIPTION_CORRELATIONS && Run(limit, steps).Some?
    requires m in Run(limit, steps).value.server.hub
    ensures Installed(limit, steps, Run(limit, steps).value.server.hub[m])
    decreases |steps|
  {
    hide Apply, Safe, Installs, Stays;
    if steps == [] {
      NoneAtFirst();
    } else {
      var most, step := steps[..|steps| - 1], steps[|steps| - 1];
      var w := Run(limit, most).value;
      RunSafe(limit, most);
      HubIsKnown(w, limit);
      if m in w.server.hub {
        SubscribedAt(limit, most, m);
        HubStays(w, limit, step, m);
        InstalledLater(limit, steps, w.server.hub[m], Run(limit, steps).value.server.hub[m]);
      } else {
        InstalledNow(w, limit, step, m);
        assert steps[..|most|] == most;
      }
    }
  }

  lemma NoneAtFirst()
    ensures INITIAL.server.hub == map[] && INITIAL.toClient == []
  {
  }

  // ----- the end of a subscription

  /** What the server tells of an end is the end of its subscription. */
  predicate TrueEnd(f: Frame, hub: map<SubId, HubSub>) {
    f.Terminal? ==> f.sub in hub && !hub[f.sub].delivery.active && hub[f.sub].delivery.reason == Some(f.reason)
  }

  /** A frame that is new on the lane to the client tells a true end, if it tells one. */
  lemma SentIsTrue(w: World, limit: nat, step: Step, f: Frame)
    requires Apply(w, limit, step).Some? && f in Apply(w, limit, step).value.toClient
    requires forall m :: m in w.server.hub ==> Valid(w.server.hub[m].delivery)
    ensures f in w.toClient || !f.Terminal? || TrueEnd(f, Apply(w, limit, step).value.server.hub)
  {
    hide ServerTakes, ServerFinishes, ClientReceives, FailClosed, LocalClose, Offered, Terminated, Revealed, Fired,
        Settled;
    match step
    case Takes(retained) => TakesSends(w, limit, retained, f);
    case Finishes(ok) => FinishesSends(w, ok, f);
    case Receives => ReceivesLane(w);
    case ClosesHandle(n) =>
      LocalCloseLane(PutHandle(w, n, EndHandle(w.client.handles[n], Closed)), n);
    case _ =>
  }

  lemma TakesSends(w: World, limit: nat, retained: Option<Event>, f: Frame)
    requires w.toServer != [] && f in ServerTakes(w, limit, retained).toClient
    ensures f in w.toClient || f.Response?
  {
    hide Shutdown, Offered, Terminated;
  }

  lemma FinishesSends(w: World, ok: bool, f: Frame)
    requires f in ServerFinishes(w, ok).toClient
    ensures f in w.toClient || f.Response?
  {
    hide Revealed;
  }

  lemma ReceivesLane(w: World)
    requires w.toClient != []
    ensures ClientReceives(w).toClient == w.toClient[1..]
  {
    hide FailClosed, EndHandle, Offered, Revealed;
  }

  lemma LocalCloseLane(w: World, m: SubId)
    ensures LocalClose(w, m).toClient == w.toClient
  {
    hide FailClosed;
  }

  lemma HubIsValid(w: World, limit: nat)
    requires Safe(w, limit)
    ensures forall m :: m in w.server.hub ==> Valid(w.server.hub[m].delivery)
  {
  }

  /** In every run, each end on its way to the client is the end of that subscription, with its own reason. */
  lemma {:induction false} EndsAreTrue(limit: nat, steps: seq<Step>, f: Frame)
    requires limit <= MAX_SUBSCRIPTION_CORRELATIONS && Run(limit, steps).Some?
    requires f in Run(limit, steps).value.toClient
    ensures TrueEnd(f, Run(limit, steps).value.server.hub)
    decreases |steps|
  {
    hide Apply, Safe, Stays, Valid;
    if steps == [] {
      NoneAtFirst();
    } else {
      var most, step := steps[..|steps| - 1], steps[|steps| - 1];
      var w := Run(limit, most).value;
      RunSafe(limit, most);
      HubIsKnown(w, limit);
      HubIsValid(w, limit);
      SentIsTrue(w, limit, step, f);
      if f in w.toClient && f.Terminal? {
        EndsAreTrue(limit, most, f);
        HubStays(w, limit, step, f.sub);
        EndStays(f, w.server.hub[f.sub], Run(limit, steps).value.server.hub[f.sub]);
      }
    }
  }

  lemma EndStays(f: Frame, h: HubSub, h': HubSub)
    requires f.Terminal? && Stays(h, h') && !h.delivery.active && h.delivery.reason == Some(f.reason)
    ensures !h'.delivery.active && h'.delivery.reason == Some(f.reason)
  {
  }

  /** The server can always tell the end of an established subscription, and then is done with it. */
  lemma EndsAreTold(limit: nat, steps: seq<Step>, m: SubId)
    requires limit <= MAX_SUBSCRIPTION_CORRELATIONS && Run(limit, steps).Some?
    requires var w := Run(limit, steps).value;
             w.up && m in w.server.subs && m in w.server.hub && !w.server.hub[m].delivery.active
    ensures var w := Run(limit, steps).value;
            && w.server.hub[m].delivery.reason.Some? && Apply(w, limit, Reports(m)).Some?
            && var w' := Apply(w, limit, Reports(m)).value;
               && w'.toClient == w.toClient + [Terminal(m, w.server.hub[m].delivery.reason.value)]
               && w'.server.subs == w.server.subs - {m}
  {
    hide Safe, Run;
    RunSafe(limit, steps);
    HubIsValid(Run(limit, steps).value, limit);
  }

  /**
   * When it arrives, the author's subscription ends with the reason its hub subscription ended with, unless it had
   * ended before, and the client asks the server for nothing more.
   */
  lemma EndsArrive(limit: nat, steps: seq<Step>)
    requires limit <= MAX_SUBSCRIPTION_CORRELATIONS && Run(limit, steps).Some?
    requires var w := Run(limit, steps).value; w.client.live && w.toClient != [] && w.toClient[0].Terminal?
    ensures var w := Run(limit, steps).value;
            var m, reason, w' := w.toClient[0].sub, w.toClient[0].reason, ClientReceives(w);
            && Apply(w, limit, Receives) == Some(w') && w'.toServer == w.toServer && w'.client.live
            && m in w.server.hub && w.server.hub[m].delivery.reason == Some(reason)
            && w'.client.subs == w.client.subs - {m} && w'.client.pending == w.client.pending
            && (m in w.client.subs && w.client.subs[m].Live? ==>
                  m in w.client.handles && w.client.handles[m].delivery.active
                  && !w'.client.handles[m].delivery.active && w'.client.handles[m].delivery.reason == Some(reason))
  {
    hide Safe, Run;
    var w := Run(limit, steps).value;
    RunSafe(limit, steps);
    EndsAreTrue(limit, steps, w.toClient[0]);
    EndFits(w, limit);
  }

  lemma EndFits(w: World, limit: nat)
    requires Safe(w, limit) && w.client.live && w.toClient != [] && w.toClient[0].Terminal?
    ensures w.toClient[0].sub <= w.client.highest
    ensures forall m :: m in w.client.subs ==> m in w.client.handles
    ensures forall m :: m in w.client.subs && w.client.subs[m].Live? ==> w.client.handles[m].delivery.active
  {
  }
}
