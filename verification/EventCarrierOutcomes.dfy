/**
 * What becomes of the requests and subscriptions of a carrier pair (packages/session-events/src/carrier.ts),
 * told from the steps of the run.
 *
 * A response says what the server's operation came to (`ResponsesAreTrue`); a request is under way until it is
 * answered (`NothingIsForgotten`), so that nothing is pending at rest (`AtRestAllIsAnswered`); the client's
 * correlations are the handles of its authors (`SubscriptionsAreEstablished`); and as long as an author has not
 * seen every event due, something can go on (`NeverStuck`).
 */
module EventCarrierOutcomes {
  import opened Base
  import opened EventDelivery
  import opened EventCarrier
  import opened EventCarrierSafety
  import opened EventCarrierResults

  // ----- a response says what the server's operation came to

  /** In this step the server decides the request, and this is what it came to. */
  predicate Decides(w: World, limit: nat, step: Step, id: ReqId, body: Body) {
    match step
    case Finishes(ok) =>
      || (w.server.work == Publishing(id) && body == if ok then Done else Failed)
      || (w.server.work.Opening? && w.server.work.id == id && w.server.work.sub in w.server.hub
          && body == if w.server.hub[w.server.work.sub].delivery.active then Opened(w.server.work.sub) else Failed)
    case Takes(_) =>
      && w.toServer != [] && w.toServer[0].id == id
      && (match w.toServer[0].call
          case Publish => false
          case Subscribe(_) => body.Failed? && (!w.server.open || |Alive(w.server.hub)| >= limit)
          case Unsubscribe(m) => body == Released(m))
    case _ => false
  }

  lemma TakesResponds(w: World, limit: nat, retained: Option<Event>, f: Frame)
    requires w.toServer != [] && f.Response? && f in ServerTakes(w, limit, retained).toClient
    ensures f in w.toClient || Decides(w, limit, Takes(retained), f.id, f.body)
  {
    hide Shutdown, Offered, Terminated;
  }

  lemma FinishesResponds(w: World, limit: nat, ok: bool, f: Frame)
    requires f.Response? && f in ServerFinishes(w, ok).toClient
             && (w.server.work.Opening? ==> w.server.work.sub in w.server.hub)
    ensures f in w.toClient || Decides(w, limit, Finishes(ok), f.id, f.body)
  {
    hide Revealed;
  }

  lemma ClientKeepsLane(w: World)
    requires w.toClient != []
    ensures ClientReceives(w).toClient == w.toClient[1..]
  {
    hide FailClosed, EndHandle, Offered, Revealed;
  }

  lemma LocalCloseKeepsLane(w: World, m: SubId)
    ensures LocalClose(w, m).toClient == w.toClient
  {
    hide FailClosed;
  }

  lemma ResponseFrom(w: World, limit: nat, step: Step, f: Frame)
    requires Apply(w, limit, step).Some? && f.Response? && f in Apply(w, limit, step).value.toClient
    requires w.server.work.Opening? ==> w.server.work.sub in w.server.hub
    ensures f in w.toClient || Decides(w, limit, step, f.id, f.body)
  {
    hide ServerTakes, ServerFinishes, ClientReceives, FailClosed, LocalClose, Routed, Shutdown, Fired, Settled,
        Terminated,
        Decides;
    match step
    case Takes(retained) => TakesResponds(w, limit, retained, f);
    case Finishes(ok) => FinishesResponds(w, limit, ok, f);
    case Receives => ClientKeepsLane(w);
    case ClosesHandle(m) =>
      if w.client.handles[m].delivery.active {
        LocalCloseKeepsLane(PutHandle(w, m, EndHandle(w.client.handles[m], Closed)), m);
      }
    case _ =>
  }

  /** At some step of the run the server decided the request this way. */
  ghost predicate Decided(limit: nat, steps: seq<Step>, id: ReqId, body: Body) {
    exists j :: 0 <= j < |steps| && Run(limit, steps[..j]).Some?
                && Decides(Run(limit, steps[..j]).value, limit, steps[j], id, body)
  }

  lemma DecidedLater(limit: nat, steps: seq<Step>, id: ReqId, body: Body)
    requires steps != [] && Decided(limit, steps[..|steps| - 1], id, body)
    ensures Decided(limit, steps, id, body)
  {
    var most := steps[..|steps| - 1];
    var j :| 0 <= j < |most| && Run(limit, most[..j]).Some?
             && Decides(Run(limit, most[..j]).value, limit, most[j], id, body);
    assert steps[..j] == most[..j] && steps[j] == most[j];
  }

  lemma OpeningIsKnown(w: World, limit: nat)
    requires Safe(w, limit)
    ensures w.server.work.Opening? ==> w.server.work.sub in w.server.hub
  {
  }

  /**
   * A publish is answered as done exactly if the hub took it, a subscribe with the identity of the subscription
   * that was established, or as failed because the server was closed, full or the candidate had ended meanwhile,
   * and an unsubscribe with the subscription it released.
   */
  lemma {:induction false} ResponsesAreTrue(limit: nat, steps: seq<Step>, f: Frame)
    requires limit <= MAX_SUBSCRIPTION_CORRELATIONS && Run(limit, steps).Some?
    requires f.Response? && f in Run(limit, steps).value.toClient
    ensures Decided(limit, steps, f.id, f.body)
    decreases |steps|
  {
    hide Apply, Safe, Decides;
    if steps != [] {
      var most, step := steps[..|steps| - 1], steps[|steps| - 1];
      var w := Run(limit, most).value;
      RunSafe(limit, most);
      OpeningIsKnown(w, limit);
      ResponseFrom(w, limit, step, f);
      if f in w.toClient {
        ResponsesAreTrue(limit, most, f);
        DecidedLater(limit, steps, f.id, f.body);
      } else {
        assert steps[..|most|] == most;
      }
    }
  }

  // ----- no request is forgotten

  ghost predicate Waits(requests: seq<Request>, id: ReqId) { exists i :: 0 <= i < |requests| && requests[i].id == id }

  predicate Answering(f: Frame, id: ReqId) { f.Response? && f.id == id }

  ghost predicate Returns(frames: seq<Frame>, id: ReqId) { exists i :: 0 <= i < |frames| && Answering(frames[i], id) }

  /** The request is on its way to the server, being worked on there, or its response is on its way back. */
  ghost predicate UnderWay(w: World, id: ReqId) {
    || Waits(w.toServer, id)
    || (!w.server.work.Idle? && w.server.work.id == id)
    || Returns(w.toClient, id)
  }

  lemma LongerLanes(requests: seq<Request>, r: Request, frames: seq<Frame>, f: Frame, id: ReqId)
    ensures Waits(requests + [r], id) <==> Waits(requests, id) || r.id == id
    ensures Returns(frames + [f], id) <==> Returns(frames, id) || Answering(f, id)
  {
    var more, later := requests + [r], frames + [f];
    assert more[|requests|] == r && later[|frames|] == f;
    forall i | 0 <= i < |requests| ensures more[i] == requests[i] {}
    forall i | 0 <= i < |frames| ensures later[i] == frames[i] {}
  }

  lemma ShorterLanes(requests: seq<Request>, frames: seq<Frame>, id: ReqId)
    ensures requests != [] && Waits(requests, id) ==> Waits(requests[1..], id) || requests[0].id == id
    ensures frames != [] && Returns(frames, id) ==> Returns(frames[1..], id) || Answering(frames[0], id)
  {
    if requests != [] {
      var rest := requests[1..];
      forall i | 0 < i < |requests| ensures requests[i] == rest[i - 1] {}
    }
    if frames != [] {
      var rest := frames[1..];
      forall i | 0 < i < |frames| ensures frames[i] == rest[i - 1] {}
    }
  }

  /** A step of the server: what it was asked it answers or works on, and what it worked on it answers. */
  lemma TakesPasses(w: World, limit: nat, retained: Option<Event>, id: ReqId)
    requires w.toServer != [] && w.server.work.Idle? && w.up && UnderWay(w, id)
    requires var s' := ServerTakes(w, limit, retained).server; !s'.fault && s'.nextSub < MAX_SAFE_INTEGER
    ensures UnderWay(ServerTakes(w, limit, retained), id)
  {
    hide Offered, Terminated, Alive;
    ShorterLanes(w.toServer, w.toClient, id);
    LongerLanes([], w.toServer[0], w.toClient, Response(w.toServer[0].id, Failed), id);
    if w.toServer[0].call.Unsubscribe? {
      LongerLanes([], w.toServer[0], w.toClient, Response(w.toServer[0].id, Released(w.toServer[0].call.sub)), id);
    }
  }

  lemma FinishesPasses(w: World, ok: bool, id: ReqId)
    requires w.up && UnderWay(w, id)
    ensures UnderWay(ServerFinishes(w, ok), id)
  {
    hide Revealed;
    var r := Request(id, Publish);
    if !w.server.work.Idle? {
      LongerLanes([], r, w.toClient, Response(w.server.work.id, if ok then Done else Failed), id);
      LongerLanes([], r, w.toClient, Response(w.server.work.id, Failed), id);
      if w.server.work.Opening? {
        LongerLanes([], r, w.toClient, Response(w.server.work.id, Opened(w.server.work.sub)), id);
      }
    }
  }

  /** Lanes only gain at their ends and the server's work stays: nothing under way is lost. */
  lemma GrowsPasses(w: World, w': World, id: ReqId)
    requires UnderWay(w, id) && w.toServer <= w'.toServer && w.toClient <= w'.toClient
             && w'.server.work == w.server.work
    ensures UnderWay(w', id)
  {
    forall i | 0 <= i < |w.toServer| ensures w'.toServer[i] == w.toServer[i] {}
    forall i | 0 <= i < |w.toClient| ensures w'.toClient[i] == w.toClient[i] {}
  }

  lemma ReceivesPasses(w: World, id: ReqId)
    requires w.toClient != [] && UnderWay(w, id) && !Answering(w.toClient[0], id)
    ensures UnderWay(ClientReceives(w), id)
  {
    hide FailClosed, EndHandle, Offered, Revealed, Waits, Returns, Answering;
    var popped := w.(toClient := w.toClient[1..]);
    ShorterLanes(w.toServer, w.toClient, id);
    assert UnderWay(popped, id);
    ClientReceivesGrows(w);
    GrowsPasses(popped, ClientReceives(w), id);
  }

  lemma ClientReceivesGrows(w: World)
    requires w.toClient != []
    ensures var w' := ClientReceives(w);
            w.toServer <= w'.toServer && w'.toClient == w.toClient[1..] && w'.server == w.server && w'.up == w.up
  {
    hide FailClosed, EndHandle, Offered, Revealed;
  }

  lemma LocalCloseGrows(w: World, m: SubId)
    ensures var w' := LocalClose(w, m);
            w.toServer <= w'.toServer && w'.toClient == w.toClient && w'.server == w.server && w'.up == w.up
  {
    hide FailClosed;
  }

  lemma ResponsePending(w: World, answered: ReqId, body: Body, id: ReqId)
    requires OnResponse(w, answered, body).client.live && id in OnResponse(w, answered, body).client.pending
    ensures id in w.client.pending && id != answered
  {
    hide EndHandle, Revealed;
  }

  lemma LocalClosePending(w: World, m: SubId, id: ReqId)
    requires LocalClose(w, m).client.live && id in LocalClose(w, m).client.pending
    ensures id !in w.client.pending && w.up ==> Waits(LocalClose(w, m).toServer, id)
  {
    hide EndHandle, Waits;
    AskedIsSent(w, Unsubscribe(m));
  }

  lemma NoticePending(w: World, m: SubId, e: Event, id: ReqId)
    requires OnNotice(w, m, e).client.live && id in OnNotice(w, m, e).client.pending
    ensures id !in w.client.pending && w.up ==> Waits(OnNotice(w, m, e).toServer, id)
  {
    hide LocalClose, Offered, EndHandle, Waits;
    if m in w.client.handles {
      var w' := PutHandle(w, m, w.client.handles[m].(delivery := Offered(w.client.handles[m].delivery, e)));
      if LocalClose(w', m).client.live && id in LocalClose(w', m).client.pending { LocalClosePending(w', m, id); }
    }
  }

  lemma TerminalPending(w: World, m: SubId, reason: Reason, id: ReqId)
    requires OnTerminal(w, m, reason).client.live && id in OnTerminal(w, m, reason).client.pending
    ensures id in w.client.pending
  {
    hide EndHandle;
  }

  /** Which requests are pending afterwards: none is new that is not on the lane, and an answered one is gone. */
  lemma ReceivesPending(w: World, id: ReqId)
    requires w.toClient != [] && ClientReceives(w).client.live && id in ClientReceives(w).client.pending
    requires w.client.live
    ensures !Answering(w.toClient[0], id)
    ensures id !in w.client.pending && w.up ==> Waits(ClientReceives(w).toServer, id)
  {
    hide OnResponse, OnNotice, OnTerminal, Waits;
    var popped := w.(toClient := w.toClient[1..]);
    match w.toClient[0]
    case Response(answered, body) => ResponsePending(popped, answered, body, id);
    case Notice(m, e) => NoticePending(popped, m, e, id);
    case Terminal(m, reason) => TerminalPending(popped, m, reason, id);
  }

  lemma AskedIsSent(w: World, call: Call)
    ensures w.up ==> Ask(w, call).toServer == w.toServer + [Request(w.client.nextId, call)]
    ensures w.up ==> Waits(Ask(w, call).toServer, w.client.nextId)
  {
    LongerLanes(w.toServer, Request(w.client.nextId, call), [], Response(0, Done), w.client.nextId);
  }

  /** A step that is neither the server's nor the reading of a frame only adds to the lanes. */
  lemma OthersGrow(w: World, limit: nat, step: Step)
    requires Apply(w, limit, step).Some? && !step.Takes? && !step.Finishes? && !step.Receives? && !step.LinkFails?
    ensures var w' := Apply(w, limit, step).value;
            && w.toServer <= w'.toServer && w.toClient <= w'.toClient && w'.up == w.up
            && w'.server.work == w.server.work
  {
    hide ServerTakes, ServerFinishes, ClientReceives, FailClosed, LocalClose, Routed, Fired, Settled, Terminated;
    if step.ClosesHandle? && w.client.handles[step.sub].delivery.active {
      LocalCloseGrows(PutHandle(w, step.sub, EndHandle(w.client.handles[step.sub], Closed)), step.sub);
    }
  }

  lemma StepPasses(w: World, limit: nat, step: Step, id: ReqId)
    requires Apply(w, limit, step).Some? && UnderWay(w, id)
    requires var w' := Apply(w, limit, step).value; w'.up && !w'.server.fault && w'.server.nextSub < MAX_SAFE_INTEGER
    requires step.Receives? ==> !Answering(w.toClient[0], id)
    ensures UnderWay(Apply(w, limit, step).value, id)
  {
    hide UnderWay, ServerTakes, ServerFinishes, ClientReceives, FailClosed, LocalClose, Routed, Fired, Settled;
    match step
    case Takes(retained) => TakesLink(w, limit, retained); TakesPasses(w, limit, retained, id);
    case Finishes(ok) => FinishesLink(w, ok); FinishesPasses(w, ok, id);
    case Receives => ReceivesPasses(w, id);
    case LinkFails(_, _) =>
    case _ => OthersGrow(w, limit, step); GrowsPasses(w, Apply(w, limit, step).value, id);
  }

  lemma TakesLink(w: World, limit: nat, retained: Option<Event>)
    requires w.toServer != []
    ensures ServerTakes(w, limit, retained).up == w.up && ServerTakes(w, limit, retained).client == w.client
  {
  }

  lemma FinishesLink(w: World, ok: bool)
    ensures ServerFinishes(w, ok).up == w.up && ServerFinishes(w, ok).client == w.client
  {
  }

  /** A request that is pending now and was not before has been put on the lane. */
  lemma NewIsSent(w: World, limit: nat, step: Step, id: ReqId)
    requires Apply(w, limit, step).Some? && w.client.live && Apply(w, limit, step).value.client.live && w.up
    requires id !in w.client.pending && id in Apply(w, limit, step).value.client.pending
    ensures Waits(Apply(w, limit, step).value.toServer, id)
  {
    hide ServerTakes, ServerFinishes, ClientReceives, FailClosed, LocalClose, Routed, Fired, Settled, Waits;
    match step
    case Asks(call) => AskedIsSent(w, call);
    case ClosesHandle(m) =>
      LocalClosePending(PutHandle(w, m, EndHandle(w.client.handles[m], Closed)), m, id);
    case Receives => ReceivesPending(w, id);
    case Takes(retained) => TakesLink(w, limit, retained);
    case Finishes(ok) => FinishesLink(w, ok);
    case _ => PendingStays(w, limit, step);
  }

  lemma PendingStays(w: World, limit: nat, step: Step)
    requires Apply(w, limit, step).Some? && Apply(w, limit, step).value.client.live
    requires !step.Asks? && !step.ClosesHandle? && !step.Receives? && !step.Takes? && !step.Finishes?
    ensures Apply(w, limit, step).value.client.pending == w.client.pending
  {
    hide Routed, Fired, Settled, Terminated;
  }

  lemma ReceivesLive(w: World)
    requires w.toClient != []
    ensures ClientReceives(w).client.live ==> w.client.live
  {
    hide Offered, Revealed, EndHandle;
  }

  lemma LocalCloseLive(w: World, m: SubId)
    ensures LocalClose(w, m).client.live ==> w.client.live
  {
    hide EndHandle;
  }

  lemma TakesIdentities(w: World, limit: nat, retained: Option<Event>)
    requires w.toServer != []
    ensures w.server.nextSub <= ServerTakes(w, limit, retained).server.nextSub
  {
    hide Offered, Terminated, Alive;
  }

  lemma FinishesIdentities(w: World, ok: bool)
    ensures w.server.nextSub == ServerFinishes(w, ok).server.nextSub
  {
    hide Revealed;
  }

  /** Neither end comes back to life, a failed carrier stays failed, and identities only go up. */
  lemma LiveBefore(w: World, limit: nat, step: Step)
    requires Apply(w, limit, step).Some?
    ensures var w' := Apply(w, limit, step).value;
            && (w'.client.live ==> w.client.live) && (w'.up ==> w.up) && w.server.nextSub <= w'.server.nextSub
  {
    hide ServerTakes, ServerFinishes, ClientReceives, LocalClose, Routed, Fired, Settled, Terminated, EndHandle;
    match step
    case Takes(retained) => TakesLink(w, limit, retained); TakesIdentities(w, limit, retained);
    case Finishes(ok) => FinishesLink(w, ok); FinishesIdentities(w, ok);
    case Receives => ReceivesLive(w); ClientReceivesGrows(w);
    case ClosesHandle(m) =>
      LocalCloseLive(PutHandle(w, m, EndHandle(w.client.handles[m], Closed)), m);
      LocalCloseGrows(PutHandle(w, m, EndHandle(w.client.handles[m], Closed)), m);
    case _ =>
  }

  /**
   * While the client lives and the carrier holds, every pending request is on its way to the server, being worked
   * on there, or its response is on its way back.
   */
  lemma {:induction false} NothingIsForgotten(limit: nat, steps: seq<Step>, id: ReqId)
    requires limit <= MAX_SUBSCRIPTION_CORRELATIONS && Run(limit, steps).Some?
    requires var w := Run(limit, steps).value;
             w.client.live && w.up && w.server.nextSub < MAX_SAFE_INTEGER && id in w.client.pending
    ensures UnderWay(Run(limit, steps).value, id)
    decreases |steps|
  {
    hide Apply, Safe, UnderWay;
    if steps == [] {
      NothingAsked();
    } else {
      var most, step := steps[..|steps| - 1], steps[|steps| - 1];
      var w, w' := Run(limit, most).value, Run(limit, steps).value;
      LiveBefore(w, limit, step);
      RunSafe(limit, steps);
      ServerIsFine(w', limit);
      if id in w.client.pending {
        NothingIsForgotten(limit, most, id);
        StillUnanswered(w, limit, step, id);
        StepPasses(w, limit, step, id);
      } else {
        NewIsSent(w, limit, step, id);
        SentIsUnderWay(w', id);
      }
    }
  }

  lemma NothingAsked()
    ensures INITIAL.client.pending == map[]
  {
  }

  lemma ServerIsFine(w: World, limit: nat)
    requires Safe(w, limit)
    ensures !w.server.fault
  {
  }

  lemma SentIsUnderWay(w: World, id: ReqId)
    requires Waits(w.toServer, id)
    ensures UnderWay(w, id)
  {
  }

  lemma StillUnanswered(w: World, limit: nat, step: Step, id: ReqId)
    requires Apply(w, limit, step).Some? && w.client.live
    requires Apply(w, limit, step).value.client.live && id in Apply(w, limit, step).value.client.pending
    ensures step.Receives? ==> w.toClient != [] && !Answering(w.toClient[0], id)
  {
    hide ClientReceives;
    if step.Receives? { ReceivesPending(w, id); }
  }

  /** Once the lanes are empty and the server is idle, every request has been answered. */
  lemma AtRestAllIsAnswered(limit: nat, steps: seq<Step>)
    requires limit <= MAX_SUBSCRIPTION_CORRELATIONS && Run(limit, steps).Some?
    requires var w := Run(limit, steps).value;
             w.client.live && w.up && w.server.nextSub < MAX_SAFE_INTEGER && w.toServer == [] && w.toClient == []
                 && w.server.work.Idle?
    ensures Run(limit, steps).value.client.pending == map[]
  {
    hide Run;
    forall id | id in Run(limit, steps).value.client.pending ensures false { NothingIsForgotten(limit, steps, id); }
  }

  // ----- what the client's subscriptions stand for

  /**
   * A subscription the author can still hear of has its correlation, and one being given up has its unsubscribe
   * pending.
   */
  ghost predicate Established(c: Client) {
    && (forall m :: m in c.handles && c.handles[m].delivery.active ==> m in c.subs && c.subs[m].Live?)
    && (forall m :: m in c.subs && c.subs[m].Retiring? ==>
       c.subs[m].request in c.pending && c.pending[c.subs[m].request] == Unsubscribe(m))
  }

  ghost predicate Numbered(c: Client) { forall id :: id in c.pending ==> id < c.nextId }

  lemma FailClosedEstablished(c: Client)
    requires Established(c)
    ensures Established(FailClosed(c)) && Established(FailClosed(c).(fault := true))
  {
  }

  lemma AskEstablished(w: World, call: Call)
    requires Established(w.client) && Numbered(w.client)
    ensures Established(Ask(w, call).client)
  {
  }

  lemma RetiredEstablished(c: Client, m: SubId)
    requires Established(c) && Numbered(c) && m in c.handles && !c.handles[m].delivery.active
    ensures Established(c.(nextId := c.nextId + 1, pending := c.pending[c.nextId := Unsubscribe(m)],
                           subs := c.subs[m := Retiring(c.nextId)]))
  {
  }

  /** `m`'s handle has just ended. */
  lemma LocalCloseEstablished(w: World, m: SubId)
    requires Established(w.client) && Numbered(w.client) && (w.client.live || w.client.subs == map[])
    requires m in w.client.handles && !w.client.handles[m].delivery.active
    ensures Established(LocalClose(w, m).client)
  {
    hide Established, FailClosed;
    FailClosedEstablished(w.client);
    RetiredEstablished(w.client, m);
  }

  lemma HandleEstablished(c: Client, m: SubId, h: Handle)
    requires Established(c) && m in c.handles && (h.delivery.active ==> c.handles[m].delivery.active)
    ensures Established(c.(handles := c.handles[m := h]))
  {
  }

  lemma AnsweredEstablished(c: Client, id: ReqId)
    requires Established(c) && id in c.pending && !c.pending[id].Unsubscribe?
    ensures Established(c.(pending := c.pending - {id}))
  {
  }

  lemma ReleasedEstablished(c: Client, id: ReqId)
    requires Established(c) && id in c.pending && c.pending[id].Unsubscribe?
    ensures var m := c.pending[id].sub;
            Established(c.(pending := c.pending - {id},
                           subs := if m in c.subs && c.subs[m] == Retiring(id) then c.subs - {m} else c.subs))
  {
  }

  lemma OpenedEstablished(c: Client, n: SubId, h: Handle, highest: nat)
    requires Established(c)
    ensures Established(c.(highest := highest, subs := c.subs[n := Live], handles := c.handles[n := h]))
  {
  }

  lemma ResponseEstablished(w: World, id: ReqId, body: Body)
    requires Established(w.client) && w.client.live
    ensures Established(OnResponse(w, id, body).client)
  {
    hide Established, FailClosed, Revealed;
    var c := w.client;
    FailClosedEstablished(c);
    if id in c.pending {
      var c' := c.(pending := c.pending - {id});
      if c.pending[id].Unsubscribe? {
        FailedUnsubscribe(c, c', id);
        ReleasedEstablished(c, id);
      } else {
        AnsweredEstablished(c, id);
        if body.Opened? && c.pending[id].Subscribe? {
          OpenedEstablished(c', body.sub, Handle(c.pending[id].channels, Revealed(FRESH), Hidden, false, []), body.sub);
        }
      }
    }
  }

  lemma FailedUnsubscribe(c: Client, c': Client, id: ReqId)
    requires Established(c) && c.live && c' == c.(pending := c.pending - {id})
    ensures Established(FailClosed(c'))
  {
  }

  lemma NoticeEstablished(w: World, m: SubId, e: Event)
    requires Established(w.client) && Numbered(w.client) && w.client.live
    ensures Established(OnNotice(w, m, e).client)
  {
    hide LocalClose, FailClosed;
    FailClosedEstablished(w.client);
    if m in w.client.handles {
      var h := w.client.handles[m];
      var w' := PutHandle(w, m, h.(delivery := Offered(h.delivery, e)));
      HandleEstablished(w.client, m, h.(delivery := Offered(h.delivery, e)));
      if !Offered(h.delivery, e).active { LocalCloseEstablished(w', m); }
    }
  }

  lemma TerminalEstablished(w: World, m: SubId, reason: Reason)
    requires Established(w.client) && w.client.live
    ensures Established(OnTerminal(w, m, reason).client)
  {
    hide FailClosed;
    FailClosedEstablished(w.client);
  }

  lemma ReceivesEstablished(w: World)
    requires Established(w.client) && Numbered(w.client) && w.toClient != []
    ensures Established(ClientReceives(w).client)
  {
    hide OnResponse, OnNotice, OnTerminal, Established, Numbered;
    var popped := w.(toClient := w.toClient[1..]);
    if w.client.live {
      match w.toClient[0]
      case Response(id, body) => ResponseEstablished(popped, id, body);
      case Notice(m, e) => NoticeEstablished(popped, m, e);
      case Terminal(m, reason) => TerminalEstablished(popped, m, reason);
    }
  }

  lemma TurnKeepsActive(d: Delivery)
    ensures Fired(d).active == d.active && (d.running ==> Settled(d).active == d.active)
  {
  }

  lemma StepEstablished(w: World, limit: nat, step: Step)
    requires Apply(w, limit, step).Some? && Established(w.client) && Numbered(w.client)
    requires w.client.live || w.client.subs == map[]
    ensures Established(Apply(w, limit, step).value.client)
  {
    hide ServerTakes, ServerFinishes, ClientReceives, FailClosed, LocalClose, Routed, Fired, Settled, Established, Ask,
        Terminated, Admits;
    var c := w.client;
    match step
    case Asks(call) => AskEstablished(w, call);
    case ClosesHandle(m) =>
      var h := EndHandle(c.handles[m], Closed);
      EndedHandle(c, m, Closed);
      LocalCloseEstablished(PutHandle(w, m, h), m);
    case Receives => ReceivesEstablished(w);
    case Fires(m) =>
      TurnKeepsActive(c.handles[m].delivery);
      HandleEstablished(c, m, Turned(c.handles[m], Fired(c.handles[m].delivery)));
    case Settles(m) =>
      TurnKeepsActive(c.handles[m].delivery);
      HandleEstablished(c, m, Turned(c.handles[m], Settled(c.handles[m].delivery)));
    case Passes(m) => HandleEstablished(c, m, Passed(c.handles[m]));
    case Exposes(m) => HandleEstablished(c, m, c.handles[m].(gate := Exposed));
    case Shuts(m) => HandleEstablished(c, m, c.handles[m].(gate := Shut));
    case ClientFails => FailClosedEstablished(c);
    case Takes(retained) => TakesLink(w, limit, retained);
    case Finishes(ok) => FinishesLink(w, ok);
    case _ =>
  }

  lemma EndedHandle(c: Client, m: SubId, reason: Reason)
    requires Established(c) && m in c.handles
    ensures Established(c.(handles := c.handles[m := EndHandle(c.handles[m], reason)]))
    ensures !EndHandle(c.handles[m], reason).delivery.active
  {
  }

  lemma ClientIsFine(w: World, limit: nat)
    requires Safe(w, limit)
    ensures Numbered(w.client) && (w.client.live || w.client.subs == map[])
  {
  }

  /**
   * In every run, an author's subscription that has not ended has a live correlation, and one that is being given
   * up has its unsubscribe pending; so once a client is at rest its correlations are exactly its subscriptions.
   */
  lemma {:induction false} SubscriptionsAreEstablished(limit: nat, steps: seq<Step>)
    requires limit <= MAX_SUBSCRIPTION_CORRELATIONS && Run(limit, steps).Some?
    ensures Established(Run(limit, steps).value.client)
    ensures var c := Run(limit, steps).value.client;
            c.pending == map[] ==> forall m :: m in c.subs <==> m in c.handles && c.handles[m].delivery.active
    decreases |steps|
  {
    hide Apply, Safe;
    if steps != [] {
      var most := steps[..|steps| - 1];
      SubscriptionsAreEstablished(limit, most);
      RunSafe(limit, most);
      ClientIsFine(Run(limit, most).value, limit);
      StepEstablished(Run(limit, most).value, limit, steps[|steps| - 1]);
    }
    RunSafe(limit, steps);
    KnownHandles(Run(limit, steps).value, limit);
  }

  lemma KnownHandles(w: World, limit: nat)
    requires Safe(w, limit)
    ensures forall m :: m in w.client.subs ==>
            m in w.client.handles && (w.client.subs[m].Live? ==> w.client.handles[m].delivery.active)
  {
  }

  // ----- what is asked is sent, and what is established keeps moving

  /** A live client sends what it is asked for, up to 256 requests at a time and until the identities run out. */
  lemma AskedWithinLimits(w: World, limit: nat, call: Call)
    requires !call.Unsubscribe? && w.up
    ensures Apply(w, limit, Asks(call)).Some?
    ensures var c, w' := w.client, Apply(w, limit, Asks(call)).value;
            if c.live && |c.pending| < 256 && c.nextId < 0x1F_FFFF_FFFF_FFFF
            then w'.toServer == w.toServer + [Request(c.nextId, call)]
                 && w'.client == c.(nextId := c.nextId + 1, pending := c.pending[c.nextId := call])
            else w' == w
  {
  }

  ghost predicate HandlesVisible(c: Client) { forall m :: m in c.handles ==> c.handles[m].delivery.visible }

  lemma DeliveryKeepsVisible(d: Delivery, e: Event, reason: Reason)
    requires d.visible
    ensures Fired(d).visible && Offered(d, e).visible && Terminated(d, reason).visible
            && (d.running ==> Settled(d).visible)
  {
  }

  lemma FailClosedVisible(c: Client)
    requires HandlesVisible(c)
    ensures HandlesVisible(FailClosed(c))
  {
    hide Terminated;
    forall d: Delivery, reason | d.visible ensures Terminated(d, reason).visible {
      DeliveryKeepsVisible(d, Event("", "", Opaque(""), "", 0), reason);
    }
  }

  lemma LocalCloseVisible(w: World, m: SubId)
    requires HandlesVisible(w.client)
    ensures HandlesVisible(LocalClose(w, m).client)
  {
    hide FailClosed;
    FailClosedVisible(w.client);
  }

  lemma PutVisible(c: Client, m: SubId, h: Handle)
    requires HandlesVisible(c) && h.delivery.visible
    ensures HandlesVisible(c.(handles := c.handles[m := h]))
  {
  }

  lemma ResponseVisible(w: World, id: ReqId, body: Body)
    requires HandlesVisible(w.client)
    ensures HandlesVisible(OnResponse(w, id, body).client)
  {
    hide FailClosed;
    FailClosedVisible(w.client);
    FailClosedVisible(w.client.(pending := w.client.pending - {id}));
  }

  lemma NoticeVisible(w: World, m: SubId, e: Event)
    requires HandlesVisible(w.client)
    ensures HandlesVisible(OnNotice(w, m, e).client)
  {
    hide FailClosed, LocalClose, Offered, HandlesVisible;
    FailClosedVisible(w.client);
    FaultVisible(w.client);
    if m in w.client.handles {
      var h := w.client.handles[m];
      HandleVisible(w.client, m);
      DeliveryKeepsVisible(h.delivery, e, Closed);
      PutVisible(w.client, m, h.(delivery := Offered(h.delivery, e)));
      LocalCloseVisible(PutHandle(w, m, h.(delivery := Offered(h.delivery, e))), m);
    }
  }

  lemma HandleVisible(c: Client, m: SubId)
    requires HandlesVisible(c) && m in c.handles
    ensures c.handles[m].delivery.visible
  {
  }

  lemma FaultVisible(c: Client)
    requires HandlesVisible(c)
    ensures HandlesVisible(FailClosed(c).(fault := true))
  {
    hide FailClosed;
    FailClosedVisible(c);
  }

  lemma TerminalVisible(w: World, m: SubId, reason: Reason)
    requires HandlesVisible(w.client)
    ensures HandlesVisible(OnTerminal(w, m, reason).client)
  {
    hide FailClosed, Terminated;
    FailClosedVisible(w.client);
    if m in w.client.handles {
      DeliveryKeepsVisible(w.client.handles[m].delivery, Event("", "", Opaque(""), "", 0), reason);
    }
  }

  lemma ReceivesVisible(w: World)
    requires HandlesVisible(w.client) && w.toClient != []
    ensures HandlesVisible(ClientReceives(w).client)
  {
    hide OnResponse, OnNotice, OnTerminal, HandlesVisible;
    var popped := w.(toClient := w.toClient[1..]);
    match w.toClient[0]
    case Response(id, body) => ResponseVisible(popped, id, body);
    case Notice(m, e) => NoticeVisible(popped, m, e);
    case Terminal(m, reason) => TerminalVisible(popped, m, reason);
  }

  lemma StepVisible(w: World, limit: nat, step: Step)
    requires Apply(w, limit, step).Some? && HandlesVisible(w.client)
    ensures HandlesVisible(Apply(w, limit, step).value.client)
  {
    hide ServerTakes, ServerFinishes, ClientReceives, LocalClose, Routed, Fired, Settled, Terminated, Admits;
    var e := Event("", "", Opaque(""), "", 0);
    match step
    case ClosesHandle(m) =>
      DeliveryKeepsVisible(w.client.handles[m].delivery, e, Closed);
      LocalCloseVisible(PutHandle(w, m, EndHandle(w.client.handles[m], Closed)), m);
    case Receives => ReceivesVisible(w);
    case Fires(m) => if m in w.client.handles { DeliveryKeepsVisible(w.client.handles[m].delivery, e, Closed); }
    case Settles(m) => if m in w.client.handles { DeliveryKeepsVisible(w.client.handles[m].delivery, e, Closed); }
    case ClientFails =>
      forall d: Delivery, reason | d.visible ensures Terminated(d, reason).visible {
        DeliveryKeepsVisible(d, e, reason);
      }
    case Takes(retained) => TakesLink(w, limit, retained);
    case Finishes(ok) => FinishesLink(w, ok);
    case _ =>
  }

  lemma {:induction false} RunVisible(limit: nat, steps: seq<Step>)
    requires Run(limit, steps).Some?
    ensures HandlesVisible(Run(limit, steps).value.client)
    decreases |steps|
  {
    hide Apply, HandlesVisible;
    if steps == [] {
      NoHandles();
    } else {
      RunVisible(limit, steps[..|steps| - 1]);
      StepVisible(Run(limit, steps[..|steps| - 1]).value, limit, steps[|steps| - 1]);
    }
  }

  lemma NoHandles()
    ensures HandlesVisible(INITIAL.client)
  {
  }

  /**
   * A subscription established on both ends and exposed is at rest with its author having seen all that is due, or
   * its next step is possible: a delivery takes a turn, the gate passes an event on, or a frame is read.
   */
  lemma NeverStuck(limit: nat, steps: seq<Step>, m: SubId)
    requires limit <= MAX_SUBSCRIPTION_CORRELATIONS && Run(limit, steps).Some?
    requires var w := Run(limit, steps).value;
             && w.up && w.client.live && m in w.client.subs && w.client.subs[m].Live? && m in w.client.handles
             && w.client.handles[m].gate.Exposed? && m in w.server.subs && m in w.server.hub
             && w.server.hub[m].delivery.active
    ensures var w := Run(limit, steps).value;
            || (w.server.hub[m].since <= |w.log| && w.client.handles[m].author == Due(w.server.hub[m], w.log))
            || exists step :: step in [Fires(m), Passes(m), Settles(m), HubFires(m), HubSettles(m), Receives]
                              && Apply(w, limit, step).Some?
  {
    hide Run, Safe, ClientReceives, Fired, Settled, HubTurned, Turned, Passed, HandlesVisible;
    var w := Run(limit, steps).value;
    assert Reachable(w, limit);
    RunSafe(limit, steps);
    RunVisible(limit, steps);
    EndsOk(w, limit, m);
    if Quiet(w, m) {
      AuthorSeesAll(w, limit, m);
    } else {
      SomethingMoves(w, limit, m);
    }
  }

  lemma EndsOk(w: World, limit: nat, m: SubId)
    requires Safe(w, limit) && m in w.server.subs && m in w.client.handles && HandlesVisible(w.client)
    ensures m in w.server.hub && w.server.hub[m].delivery.visible && w.client.handles[m].delivery.visible
    ensures w.client.handles[m].inHand ==> w.client.handles[m].delivery.delivered != []
  {
    assert HandleOk(w.client.handles[m], w.server.hub[m]);
  }

  lemma SomethingMoves(w: World, limit: nat, m: SubId)
    requires w.up && w.client.live && m in w.client.subs && w.client.subs[m].Live? && m in w.client.handles
    requires w.client.handles[m].gate.Exposed? && m in w.server.hub && w.server.hub[m].delivery.active
    requires w.server.hub[m].delivery.visible && w.client.handles[m].delivery.visible && !Quiet(w, m)
    requires w.client.handles[m].inHand ==> w.client.handles[m].delivery.delivered != []
    ensures exists step :: step in [Fires(m), Passes(m), Settles(m), HubFires(m), HubSettles(m), Receives]
                           && Apply(w, limit, step).Some?
  {
    hide ClientReceives, Fired, Settled, HubTurned, Turned, Passed;
    var h, d := w.client.handles[m], w.server.hub[m].delivery;
    var step := if h.inHand then Passes(m) else if h.delivery.running then Settles(m)
                else if h.delivery.scheduled then Fires(m) else if d.running then HubSettles(m)
                else if d.scheduled then HubFires(m) else Receives;
    assert Apply(w, limit, step).Some?;
    assert step in [Fires(m), Passes(m), Settles(m), HubFires(m), HubSettles(m), Receives];
  }
}
