/**
 * What every run of the Session Event carrier protocol keeps, as an inductive invariant over both ends,
 * both lanes and the hub side. Besides the absence of faults, `Safe` says of a state:
 *
 * - `LinkOk`: request identities increase along the lane to the server, through the server and along the
 *   lane back, so that each response finds its request pending and each request is newer than the last.
 * - `FlowOk`: the frames under way open, feed and end subscriptions in an order the client's view of them
 *   accepts, and what a handle was offered followed by the notices under way is what the hub handed over.
 * - `RetiringOk`: a pending unsubscribe is of a subscription that, if still known, is being given up by it.
 * - `ServerOk` and `HubOk`: the server reports only what it opened, and the hub side's deliveries hold
 *   exactly the routed events since each subscription was installed.
 */
module EventCarrierSafety {
  import opened Base
  import opened EventDelivery
  import opened EventCarrier

  // ----- the client's correlations as the frames under way will leave them

  datatype View = View(highest: nat, subs: set<SubId>)

  function ViewOf(c: Client): View { View(c.highest, c.subs.Keys) }

  function Sees(v: View, f: Frame): View {
    match f
    case Response(_, Opened(n)) => View(n, v.subs + {n})
    case Response(_, Released(m)) => v.(subs := v.subs - {m})
    case Terminal(m, _) => v.(subs := v.subs - {m})
    case _ => v
  }

  /** The identity checks the client applies to a frame about a subscription. */
  predicate Fits(v: View, f: Frame) {
    match f
    case Response(_, Opened(n)) => n > v.highest && |v.subs| < MAX_SUBSCRIPTION_CORRELATIONS
    case Notice(m, _) => m <= v.highest
    case Terminal(m, _) => m <= v.highest
    case _ => true
  }

  function Plays(v: View, frames: seq<Frame>): View
    decreases frames
  {
    if frames == [] then v else Plays(Sees(v, frames[0]), frames[1..])
  }

  predicate AllFit(v: View, frames: seq<Frame>)
    decreases frames
  {
    frames == [] || (Fits(v, frames[0]) && AllFit(Sees(v, frames[0]), frames[1..]))
  }

  lemma {:induction false} PlaysMore(v: View, frames: seq<Frame>, f: Frame)
    decreases frames
    ensures Plays(v, frames + [f]) == Sees(Plays(v, frames), f)
    ensures AllFit(v, frames + [f]) <==> AllFit(v, frames) && Fits(Plays(v, frames), f)
  {
    if frames == [] {
      assert [f][1..] == [] && Plays(Sees(v, f), []) == Sees(v, f);
    } else {
      PlaysMore(Sees(v, frames[0]), frames[1..], f);
      assert (frames + [f])[1..] == frames[1..] + [f];
    }
  }

  lemma {:induction false} AllFitPrefix(v: View, frames: seq<Frame>, n: nat)
    requires n <= |frames| && AllFit(v, frames)
    ensures AllFit(v, frames[..n])
    decreases frames
  {
    if n > 0 {
      AllFitPrefix(Sees(v, frames[0]), frames[1..], n - 1);
      assert frames[..n][1..] == frames[1..][..n - 1];
    }
  }

  // ----- the events under way to one subscription, and the events it is meant to get

  function Notices(m: SubId, frames: seq<Frame>): seq<Event> {
    if frames == [] then []
    else (if frames[0].Notice? && frames[0].sub == m then [frames[0].event] else []) + Notices(m, frames[1..])
  }

  lemma {:induction false} NoticesMore(m: SubId, frames: seq<Frame>, f: Frame)
    ensures Notices(m, frames + [f]) == if f.Notice? && f.sub == m then Notices(m, frames) + [f.event]
            else Notices(m, frames)
  {
    if frames == [] {
      assert [f][1..] == [] && Notices(m, []) == [];
    } else {
      NoticesMore(m, frames[1..], f);
      assert (frames + [f])[1..] == frames[1..] + [f];
    }
  }

  lemma {:induction false} NoticesPrefix(m: SubId, frames: seq<Frame>, n: nat)
    requires n <= |frames|
    ensures Notices(m, frames[..n]) <= Notices(m, frames)
  {
    if n > 0 {
      NoticesPrefix(m, frames[1..], n - 1);
      assert frames[..n][1..] == frames[1..][..n - 1];
    }
  }

  function Matching(channels: set<Channel>, events: seq<Event>): seq<Event> {
    if events == [] then []
    else
      var e := events[|events| - 1];
      Matching(channels, events[..|events| - 1]) + (if e.channel in channels then [e] else [])
  }

  lemma MatchingMore(channels: set<Channel>, log: seq<Event>, since: nat, e: Event)
    requires since <= |log|
    ensures Matching(channels, (log + [e])[since..]) ==
            Matching(channels, log[since..]) + (if e.channel in channels then [e] else [])
  {
    var events := (log + [e])[since..];
    assert events[..|events| - 1] == log[since..] && events[|events| - 1] == e;
  }

  /** What subscription `m` should see: its retained event, then every matching event since it was installed. */
  function Due(h: HubSub, log: seq<Event>): seq<Event>
    requires h.since <= |log|
  {
    h.initial + Matching(h.channels, log[h.since..])
  }

  lemma NoticesTail(frames: seq<Frame>)
    requires frames != []
    ensures forall k :: (Notices(k, frames) ==
      if frames[0].Notice? && frames[0].sub == k then [frames[0].event] + Notices(k, frames[1..])
          else Notices(k, frames[1..]))
  {
  }

  lemma NoNotices(m: SubId, frames: seq<Frame>)
    requires forall i :: 0 <= i < |frames| && frames[i].Notice? ==> frames[i].sub != m
    ensures Notices(m, frames) == []
  {
    if frames != [] { NoNotices(m, frames[1..]); }
  }

  // ----- the invariant

  /** Requests are numbered upwards and answered in order; one being worked on is not answered yet. */
  ghost predicate OrderOk(toServer: seq<Request>, toClient: seq<Frame>, nextId: nat, pending: set<ReqId>, last: nat,
      work: Work)
  {
    && (forall i, j :: 0 <= i < j < |toServer| ==> toServer[i].id < toServer[j].id)
    && (forall i :: 0 <= i < |toServer| ==> last < toServer[i].id < nextId)
    && (forall i, j :: 0 <= i < j < |toClient| && toClient[i].Response? && toClient[j].Response? ==>
       toClient[i].id < toClient[j].id)
    && (forall i :: 0 <= i < |toClient| && toClient[i].Response? ==>
       toClient[i].id <= last && (toClient[i].id == last ==> work.Idle?))
    && (!work.Idle? ==> work.id == last)
    && last < nextId
    && (forall id :: id in pending ==> id < nextId)
  }

  /** What the lanes name exists: an unsubscribe's subscription, and a notice's. */
  ghost predicate LanesOk(toServer: seq<Request>, toClient: seq<Frame>, nextSub: nat, known: set<SubId>) {
    && (forall i :: 0 <= i < |toServer| && toServer[i].call.Unsubscribe? ==> toServer[i].call.sub < nextSub)
    && (forall i :: 0 <= i < |toClient| && toClient[i].Notice? ==> toClient[i].sub in known)
  }

  /** Only the request that retired a subscription is pending for it. */
  ghost predicate RetiringOk(pending: map<ReqId, Call>, subs: map<SubId, Correlation>, highest: nat) {
    forall id :: id in pending && pending[id].Unsubscribe? ==>
      pending[id].sub <= highest && (pending[id].sub in subs ==> subs[pending[id].sub] == Retiring(id))
  }

  ghost predicate Answers(call: Call, body: Body, hub: map<SubId, HubSub>) {
    match call
    case Publish => body.Done? || body.Failed?
    case Subscribe(channels) => body.Failed? || (body.Opened? && body.sub in hub && hub[body.sub].channels == channels)
    case Unsubscribe(m) => body == Released(m)
  }

  /** Everything under way in either direction belongs to a pending request of the right kind. */
  ghost predicate PairingOk(pending: map<ReqId, Call>, toServer: seq<Request>, toClient: seq<Frame>, work: Work,
      hub: map<SubId, HubSub>)
  {
    && (forall i :: 0 <= i < |toServer| ==> toServer[i].id in pending && pending[toServer[i].id] == toServer[i].call)
    && (forall i :: 0 <= i < |toClient| && toClient[i].Response? ==>
          toClient[i].id in pending && Answers(pending[toClient[i].id], toClient[i].body, hub))
    && match work
       case Idle => true
       case Publishing(id) => id in pending && pending[id].Publish?
       case Opening(id, n, _) => id in pending && n in hub && pending[id] == Subscribe(hub[n].channels)
  }

  ghost predicate ServerOk(s: Server, limit: nat) {
    && !s.fault
    && (forall m :: m in s.hub ==> m < s.nextSub)
    && (forall m :: m in s.subs ==> m in s.hub && s.hub[m].delivery.visible)
    && |Alive(s.hub)| <= limit
    && (!s.open ==> Alive(s.hub) == {})
    && (s.work.Opening? ==>
       s.work.sub in s.hub && !s.hub[s.work.sub].delivery.visible && |s.subs - s.work.stale| < limit)
  }

  ghost predicate HubOk(hub: map<SubId, HubSub>, log: seq<Event>) {
    forall m :: m in hub ==>
        Valid(hub[m].delivery) && hub[m].since <= |log| && hub[m].delivery.offered == Due(hub[m], log)
  }

  ghost predicate ViewOk(v: View, s: Server, frames: seq<Frame>, up: bool) {
    AllFit(v, frames) && (up ==> ViewBound(s, Plays(v, frames)))
  }

  ghost predicate ViewBound(s: Server, v: View) {
    && (s.open ==> v.subs <= s.subs)
    && v.highest < s.nextSub
    && (s.work.Opening? ==> v.highest < s.work.sub)
    && (forall m :: m in s.hub && s.hub[m].delivery.visible ==> m <= v.highest)
  }

  ghost predicate HandleOk(h: Handle, hub: HubSub) {
    && Valid(h.delivery)
    && h.channels == hub.channels
    && h.delivery.offered <= hub.delivery.delivered
    && h.author <= h.delivery.delivered
    && (h.inHand ==> h.delivery.running && h.delivery.delivered != [])
    && (!h.gate.Shut? ==> h.delivery.delivered == if h.inHand
       then h.author + [h.delivery.delivered[|h.delivery.delivered| - 1]] else h.author)
  }

  ghost predicate HandlesOk(handles: map<SubId, Handle>, subs: map<SubId, Correlation>, highest: nat,
      hub: map<SubId, HubSub>)
  {
    && (forall m :: m in handles ==> m in hub && m <= highest && HandleOk(handles[m], hub[m]))
    && (forall m :: m in subs ==> m in handles && (subs[m].Live? ==> handles[m].delivery.active))
  }

  /** `seen` then `coming` is what the hub handed over, of which a failed carrier may have lost the end. */
  ghost predicate Streams(seen: seq<Event>, coming: seq<Event>, sent: seq<Event>, up: bool) {
    seen + coming <= sent && (up ==> seen + coming == sent)
  }

  ghost predicate StreamOk(handles: map<SubId, Handle>, subs: map<SubId, Correlation>, highest: nat,
      hub: map<SubId, HubSub>, frames: seq<Frame>, up: bool)
  {
    && (forall m :: m in subs && subs[m].Live? && m in handles && m in hub ==>
          Streams(handles[m].delivery.offered, Notices(m, frames), hub[m].delivery.delivered, up))
    && (forall m :: m in hub && m > highest ==> Streams([], Notices(m, frames), hub[m].delivery.delivered, up))
  }

  ghost predicate LinkOk(w: World) {
    var c, s := w.client, w.server;
    && OrderOk(w.toServer, w.toClient, c.nextId, c.pending.Keys, s.lastRequest, s.work)
    && LanesOk(w.toServer, w.toClient, s.nextSub, s.hub.Keys)
    && (c.live ==> PairingOk(c.pending, w.toServer, w.toClient, s.work, s.hub))
  }

  ghost predicate FlowOk(w: World) {
    var c, s := w.client, w.server;
    && HandlesOk(c.handles, c.subs, c.highest, s.hub)
    && (c.live ==>
       ViewOk(ViewOf(c), s, w.toClient, w.up) && StreamOk(c.handles, c.subs, c.highest, s.hub, w.toClient, w.up))
  }

  ghost predicate Safe(w: World, limit: nat) {
    var c, s := w.client, w.server;
    && !c.fault
    && RetiringOk(c.pending, c.subs, c.highest)
    && (!c.live ==> c.subs == map[] && c.pending == map[])
    && ServerOk(s, limit)
    && HubOk(s.hub, w.log)
    && LinkOk(w)
    && FlowOk(w)
  }

  lemma InitialSafe(limit: nat)
    ensures Safe(INITIAL, limit)
  {
    assert Alive(INITIAL.server.hub) == {};
  }

  // ----- client steps

  lemma PutHandleFlow(w: World, m: SubId, h: Handle)
    requires FlowOk(w) && m in w.client.handles && m in w.server.hub && HandleOk(h, w.server.hub[m])
    requires h.delivery.offered == w.client.handles[m].delivery.offered
             && h.delivery.active == w.client.handles[m].delivery.active
    ensures FlowOk(PutHandle(w, m, h))
  {
    hide ViewOk, HandleOk, Streams;
  }

  lemma PutHandleSafe(w: World, limit: nat, m: SubId, h: Handle)
    requires Safe(w, limit) && m in w.client.handles && m in w.server.hub && HandleOk(h, w.server.hub[m])
    requires h.delivery.offered == w.client.handles[m].delivery.offered
             && h.delivery.active == w.client.handles[m].delivery.active
    ensures Safe(PutHandle(w, m, h), limit)
  {
    hide FlowOk, OrderOk, LanesOk, PairingOk, ServerOk, HubOk, RetiringOk, HandleOk;
    PutHandleFlow(w, m, h);
  }

  lemma TurnedOk(h: Handle, hub: HubSub)
    requires HandleOk(h, hub)
    ensures h.delivery.scheduled ==> HandleOk(Turned(h, Fired(h.delivery)), hub)
    ensures h.delivery.scheduled ==>
            Fired(h.delivery).offered == h.delivery.offered && Fired(h.delivery).active == h.delivery.active
    ensures h.delivery.running && !h.inHand ==> HandleOk(Turned(h, Settled(h.delivery)), hub)
    ensures h.delivery.running ==>
            Settled(h.delivery).offered == h.delivery.offered && Settled(h.delivery).active == h.delivery.active
  {
    if h.delivery.scheduled { FiredValid(h.delivery); }
    if h.delivery.running { SettledValid(h.delivery); }
  }

  lemma PassedOk(h: Handle, hub: HubSub)
    requires HandleOk(h, hub) && h.inHand && !h.gate.Hidden?
    ensures HandleOk(Passed(h), hub)
  {
  }

  lemma EndedOk(h: Handle, hub: HubSub, reason: Reason)
    requires HandleOk(h, hub)
    ensures HandleOk(EndHandle(h, reason), hub)
  {
  }

  lemma FailClosedSafe(w: World, limit: nat)
    requires Safe(w, limit)
    ensures Safe(w.(client := FailClosed(w.client)), limit)
  {
    hide OrderOk, LanesOk, PairingOk, ServerOk, HubOk, HandleOk, EndHandle, StreamOk, ViewOk;
    FailClosedLink(w);
    forall m | m in w.client.handles
        ensures m in w.server.hub && HandleOk(EndHandle(w.client.handles[m], BindingTerminal), w.server.hub[m]) {
      EndedOk(w.client.handles[m], w.server.hub[m], BindingTerminal);
    }
  }

  lemma FailClosedLink(w: World)
    requires LinkOk(w)
    ensures LinkOk(w.(client := FailClosed(w.client)))
  {
  }

  lemma AskLink(w: World, call: Call)
    requires LinkOk(w) && w.client.live && (call.Unsubscribe? ==> call.sub < w.server.nextSub)
    ensures LinkOk(Ask(w, call))
  {
    hide Answers;
  }

  lemma AskSafe(w: World, limit: nat, call: Call)
    requires Safe(w, limit) && Admits(w.client) && !call.Unsubscribe?
    ensures Safe(Ask(w, call), limit)
  {
    hide LinkOk, FlowOk, ServerOk, HubOk;
    AskLink(w, call);
    AskFlow(w, call);
  }

  lemma AskFlow(w: World, call: Call)
    requires FlowOk(w)
    ensures FlowOk(Ask(w, call))
  {
    hide HandlesOk, ViewOk, StreamOk;
  }

  predicate Retirable(w: World, m: SubId) {
    w.client.live && m in w.client.subs && w.client.subs[m].Live?
  }

  lemma RetireFlow(w: World, m: SubId, id: ReqId)
    requires FlowOk(w) && m in w.client.subs
    ensures FlowOk(w.(client := w.client.(subs := w.client.subs[m := Retiring(id)])))
  {
    hide HandleOk, Streams, ViewOk;
    assert w.client.subs[m := Retiring(id)].Keys == w.client.subs.Keys;
  }

  lemma LocalCloseSafe(w: World, limit: nat, m: SubId)
    requires Safe(w, limit) && Retirable(w, m)
    ensures Safe(LocalClose(w, m), limit)
  {
    hide LinkOk, FlowOk, ServerOk, HubOk;
    if Admits(w.client) {
      KnownSub(w, limit, m);
      AskLink(w, Unsubscribe(m));
      AskFlow(w, Unsubscribe(m));
      RetireFlow(Ask(w, Unsubscribe(m)), m, w.client.nextId);
      RetiredLink(Ask(w, Unsubscribe(m)), w.client.subs[m := Retiring(w.client.nextId)]);
      PendingBelow(w);
    } else { FailClosedSafe(w, limit); }
  }

  lemma PendingBelow(w: World)
    requires LinkOk(w)
    ensures w.client.nextId !in w.client.pending
  {
  }

  lemma KnownSub(w: World, limit: nat, m: SubId)
    requires FlowOk(w) && ServerOk(w.server, limit) && m in w.client.subs
    ensures m < w.server.nextSub && m <= w.client.highest
  {
  }

  lemma RetiredLink(w: World, subs: map<SubId, Correlation>)
    requires LinkOk(w)
    ensures LinkOk(w.(client := w.client.(subs := subs)))
  {
  }

  lemma LinkFailsSafe(w: World, limit: nat, i: nat, j: nat)
    requires Safe(w, limit) && i <= |w.toServer| && j <= |w.toClient|
    ensures Safe(w.(up := false, toServer := w.toServer[..i], toClient := w.toClient[..j]), limit)
  {
    hide ServerOk, HubOk, RetiringOk, HandlesOk, OrderOk, LanesOk, PairingOk, ViewBound, AllFit, Plays, Notices;
    if w.client.live {
      AllFitPrefix(ViewOf(w.client), w.toClient, j);
      CutPairing(w.client.pending, w.toServer, w.toClient, w.server.work, w.server.hub, i, j);
    }
    CutLanes(w, i, j);
    forall m ensures Notices(m, w.toClient[..j]) <= Notices(m, w.toClient) { NoticesPrefix(m, w.toClient, j); }
  }

  lemma CutPairing(pending: map<ReqId, Call>, toServer: seq<Request>, toClient: seq<Frame>, work: Work,
      hub: map<SubId, HubSub>, i: nat, j: nat)
    requires PairingOk(pending, toServer, toClient, work, hub) && i <= |toServer| && j <= |toClient|
    ensures PairingOk(pending, toServer[..i], toClient[..j], work, hub)
  {
    hide Answers;
  }

  lemma CutLanes(w: World, i: nat, j: nat)
    requires i <= |w.toServer| && j <= |w.toClient|
    requires LanesOk(w.toServer, w.toClient, w.server.nextSub, w.server.hub.Keys)
    requires OrderOk(w.toServer, w.toClient, w.client.nextId, w.client.pending.Keys, w.server.lastRequest,
             w.server.work)
    ensures LanesOk(w.toServer[..i], w.toClient[..j], w.server.nextSub, w.server.hub.Keys)
    ensures OrderOk(w.toServer[..i], w.toClient[..j], w.client.nextId, w.client.pending.Keys, w.server.lastRequest,
            w.server.work)
  {
  }

  // ----- the client takes a frame

  lemma HeadView(v: View, s: Server, frames: seq<Frame>, up: bool)
    requires ViewOk(v, s, frames, up) && frames != []
    ensures Fits(v, frames[0]) && ViewOk(Sees(v, frames[0]), s, frames[1..], up)
  {
    hide Sees, Fits, ViewBound;
  }

  lemma PoppedLink(w: World)
    requires LinkOk(w) && w.toClient != []
    ensures LinkOk(w.(toClient := w.toClient[1..]))
  {
    hide Answers;
  }

  /** Only the pending table, the lanes and the server matter to correlation. */
  lemma SameLink(w: World, w': World)
    requires LinkOk(w) && w.toServer == w'.toServer && w.toClient == w'.toClient && w.server == w'.server
    requires w'.client.nextId == w.client.nextId && w'.client.pending == w.client.pending
             && w'.client.live == w.client.live
    ensures LinkOk(w')
  {
    hide OrderOk, LanesOk, PairingOk;
  }

  /** The head response belongs to a pending request of its kind, which no other message names. */
  lemma AnsweredLink(w: World)
    requires LinkOk(w) && w.client.live && w.toClient != [] && w.toClient[0].Response?
    ensures w.toClient[0].id in w.client.pending
    ensures Answers(w.client.pending[w.toClient[0].id], w.toClient[0].body, w.server.hub)
    ensures LinkOk(w.(toClient := w.toClient[1..],
            client := w.client.(pending := w.client.pending - {w.toClient[0].id})))
  {
    hide Answers;
  }

  lemma QuietHeadFlow(w: World)
    requires FlowOk(w) && w.client.live && w.toClient != [] && !w.toClient[0].Notice?
    requires Sees(ViewOf(w.client), w.toClient[0]) == ViewOf(w.client)
    ensures FlowOk(w.(toClient := w.toClient[1..]))
  {
    hide HandlesOk, ViewOk, Streams, Notices;
    HeadView(ViewOf(w.client), w.server, w.toClient, w.up);
    NoticesTail(w.toClient);
  }

  lemma DroppedFlow(w: World, m: SubId)
    requires FlowOk(w) && w.client.live && w.toClient != [] && m in w.client.subs && !w.toClient[0].Notice?
    requires Sees(ViewOf(w.client), w.toClient[0]) == ViewOf(w.client).(subs := w.client.subs.Keys - {m})
    ensures FlowOk(w.(toClient := w.toClient[1..], client := w.client.(subs := w.client.subs - {m})))
  {
    hide ViewOk, Streams, HandleOk, Notices;
    HeadView(ViewOf(w.client), w.server, w.toClient, w.up);
    NoticesTail(w.toClient);
    assert (w.client.subs - {m}).Keys == w.client.subs.Keys - {m};
  }

  function OpenedHandle(channels: set<Channel>): Handle { Handle(channels, Revealed(FRESH), Hidden, false, []) }

  lemma OpenedHandleIs()
    ensures forall channels :: OpenedHandle(channels) == Handle(channels, Revealed(FRESH), Hidden, false, [])
  {
  }

  lemma OpenedHandleOk(hub: HubSub)
    ensures HandleOk(OpenedHandle(hub.channels), hub) && OpenedHandle(hub.channels).delivery.offered == []
    ensures OpenedHandle(hub.channels).delivery.active
  {
  }

  lemma OpenedFits(w: World, n: SubId)
    requires FlowOk(w) && w.client.live && w.toClient != [] && w.toClient[0].Response?
             && w.toClient[0].body == Opened(n)
    ensures n > w.client.highest && n !in w.client.subs && |w.client.subs| < MAX_SUBSCRIPTION_CORRELATIONS
    ensures ViewOk(View(n, w.client.subs[n := Live].Keys), w.server, w.toClient[1..], w.up)
  {
    hide ViewOk;
    HeadView(ViewOf(w.client), w.server, w.toClient, w.up);
    HandleOfSub(w);
    assert w.client.subs[n := Live].Keys == w.client.subs.Keys + {n};
    assert |w.client.subs.Keys| == |w.client.subs|;
  }

  lemma OpenedFlow(w: World, n: SubId, channels: set<Channel>)
    requires FlowOk(w) && w.client.live && w.toClient != [] && w.toClient[0].Response?
             && w.toClient[0].body == Opened(n)
    requires n in w.server.hub && w.server.hub[n].channels == channels
    ensures FlowOk(w.(toClient := w.toClient[1..], client := w.client.(
              highest := n, subs := w.client.subs[n := Live],
                  handles := w.client.handles[n := OpenedHandle(channels)])))
  {
    hide ViewOk, HandleOk, OpenedHandle, Notices;
    OpenedFits(w, n);
    OpenedHandleOk(w.server.hub[n]);
    NoticesTail(w.toClient);
  }

  lemma OpenedResponseSafe(w: World, limit: nat)
    requires Safe(w, limit) && w.client.live && w.toClient != [] && w.toClient[0].Response?
             && w.toClient[0].body.Opened?
    ensures Safe(ClientReceives(w), limit)
  {
    hide LinkOk, FlowOk, ServerOk, HubOk, OpenedHandle;
    OpenedHandleIs();
    var f, c := w.toClient[0], w.client;
    AnsweredLink(w);
    OpenedFits(w, f.body.sub);
    OpenedFlow(w, f.body.sub, c.pending[f.id].channels);
    SameLink(w.(toClient := w.toClient[1..], client := c.(pending := c.pending - {f.id})), ClientReceives(w));
    SameFlow(w.(toClient := w.toClient[1..], client := c.(highest := f.body.sub, subs := c.subs[f.body.sub := Live],
                handles := c.handles[f.body.sub := OpenedHandle(c.pending[f.id].channels)])), ClientReceives(w));
  }

  lemma ReleasedResponseSafe(w: World, limit: nat)
    requires Safe(w, limit) && w.client.live && w.toClient != [] && w.toClient[0].Response?
             && w.toClient[0].body.Released?
    requires w.toClient[0].body.sub in w.client.subs
    ensures Safe(ClientReceives(w), limit)
  {
    hide LinkOk, FlowOk, ServerOk, HubOk;
    var f, c := w.toClient[0], w.client;
    AnsweredLink(w);
    DroppedFlow(w, f.body.sub);
    SameLink(w.(toClient := w.toClient[1..], client := c.(pending := c.pending - {f.id})), ClientReceives(w));
    SameFlow(w.(toClient := w.toClient[1..], client := c.(subs := c.subs - {f.body.sub})), ClientReceives(w));
  }

  lemma PlainResponseSafe(w: World, limit: nat)
    requires Safe(w, limit) && w.client.live && w.toClient != [] && w.toClient[0].Response?
             && !w.toClient[0].body.Opened?
    requires w.toClient[0].body.Released? ==> w.toClient[0].body.sub !in w.client.subs
    ensures Safe(ClientReceives(w), limit)
  {
    hide LinkOk, FlowOk, ServerOk, HubOk;
    var f, c := w.toClient[0], w.client;
    AnsweredLink(w);
    assert f.body.Released? ==> c.subs.Keys - {f.body.sub} == c.subs.Keys;
    QuietHeadFlow(w);
    SameFlow(w.(toClient := w.toClient[1..]),
        w.(toClient := w.toClient[1..], client := c.(pending := c.pending - {f.id})));
  }

  lemma OnResponseSafe(w: World, limit: nat)
    requires Safe(w, limit) && w.client.live && w.toClient != [] && w.toClient[0].Response?
    ensures Safe(ClientReceives(w), limit)
  {
    hide Safe, ClientReceives;
    var body := w.toClient[0].body;
    if body.Opened? { OpenedResponseSafe(w, limit); }
    else if body.Released? && body.sub in w.client.subs { ReleasedResponseSafe(w, limit); }
    else { PlainResponseSafe(w, limit); }
  }

  /** Only subscriptions, handles, the frames and the server matter to the flow of events. */
  lemma SameFlow(w: World, w': World)
    requires FlowOk(w) && w.toClient == w'.toClient && w.server == w'.server && w.up == w'.up
             && w'.client.live == w.client.live
    requires w'.client.handles == w.client.handles && w'.client.subs == w.client.subs
             && w'.client.highest == w.client.highest
    ensures FlowOk(w')
  {
    hide HandlesOk, ViewOk, StreamOk;
  }

  lemma OnTerminalSafe(w: World, limit: nat)
    requires Safe(w, limit) && w.client.live && w.toClient != [] && w.toClient[0].Terminal?
    ensures Safe(ClientReceives(w), limit)
  {
    hide LinkOk, FlowOk, ServerOk, HubOk, HandleOk;
    var f := w.toClient[0];
    var c := w.client;
    HeadFits(w);
    PoppedLink(w);
    SameLink(w.(toClient := w.toClient[1..]), ClientReceives(w));
    if f.sub in c.subs {
      DroppedFlow(w, f.sub);
      if c.subs[f.sub].Live? {
        EndedFlow(w.(toClient := w.toClient[1..], client := c.(subs := c.subs - {f.sub})), f.sub, f.reason);
      }
    } else {
      assert c.subs.Keys - {f.sub} == c.subs.Keys;
      QuietHeadFlow(w);
    }
    HandleOfSub(w);
  }

  lemma HandleOfSub(w: World)
    requires FlowOk(w)
    ensures w.client.subs.Keys <= w.client.handles.Keys && w.client.handles.Keys <= w.server.hub.Keys
  {
  }

  lemma HeadFits(w: World)
    requires FlowOk(w) && w.client.live && w.toClient != []
    ensures Fits(ViewOf(w.client), w.toClient[0])
  {
    HeadView(ViewOf(w.client), w.server, w.toClient, w.up);
  }

  lemma EndedFlow(w: World, m: SubId, reason: Reason)
    requires FlowOk(w) && m !in w.client.subs
    ensures m in w.client.handles ==> FlowOk(PutHandle(w, m, EndHandle(w.client.handles[m], reason)))
  {
    hide ViewOk, Streams, HandleOk, EndHandle;
    if m in w.client.handles { EndedOk(w.client.handles[m], w.server.hub[m], reason); }
  }

  // an event: handed to a live handle, which may overflow; otherwise ignored

  /** The head notice extends what a live handle was offered by the very next event the hub handed over. */
  lemma NextEvent(w: World)
    requires FlowOk(w) && w.client.live && w.toClient != [] && w.toClient[0].Notice?
    requires w.toClient[0].sub in w.client.subs && w.client.subs[w.toClient[0].sub].Live?
    ensures w.toClient[0].sub in w.client.handles && w.toClient[0].sub in w.server.hub
    ensures w.client.handles[w.toClient[0].sub].delivery.offered
            + [w.toClient[0].event] <= w.server.hub[w.toClient[0].sub].delivery.delivered
  {
    hide ViewOk, HandleOk, Streams, Notices;
    var m := w.toClient[0].sub;
    NoticesTail(w.toClient);
    NextComes(w.client.handles[m].delivery.offered, w.toClient[0].event, Notices(m, w.toClient[1..]),
        w.server.hub[m].delivery.delivered, w.up);
  }

  lemma NextComes(seen: seq<Event>, e: Event, coming: seq<Event>, sent: seq<Event>, up: bool)
    requires Streams(seen, [e] + coming, sent, up)
    ensures seen + [e] <= sent
  {
    assert seen + ([e] + coming) == (seen + [e]) + coming;
  }

  function EventHandle(h: Handle, e: Event): Handle { h.(delivery := Offered(h.delivery, e)) }

  lemma EventOk(h: Handle, e: Event, hub: HubSub)
    requires HandleOk(h, hub) && h.delivery.offered + [e] <= hub.delivery.delivered
    ensures HandleOk(EventHandle(h, e), hub)
  {
    OfferedValid(h.delivery, e);
  }

  lemma ReceivedFlow(w: World, h: Handle)
    requires FlowOk(w) && w.client.live && w.toClient != [] && w.toClient[0].Notice?
    requires w.toClient[0].sub in w.client.subs && w.client.subs[w.toClient[0].sub].Live?
             && w.toClient[0].sub in w.client.handles
    requires h == EventHandle(w.client.handles[w.toClient[0].sub], w.toClient[0].event) && h.delivery.active
    ensures FlowOk(PutHandle(w.(toClient := w.toClient[1..]), w.toClient[0].sub, h))
  {
    hide ViewOk, HandleOk, Offered, EventHandle, Streams, Notices;
    var m, e := w.toClient[0].sub, w.toClient[0].event;
    HeadView(ViewOf(w.client), w.server, w.toClient, w.up);
    NextEvent(w);
    EventOk(w.client.handles[m], e, w.server.hub[m]);
    OfferedIs(w.client.handles[m], e);
    NoticesTail(w.toClient);
    Shift(w.client.handles[m].delivery.offered, e, Notices(m, w.toClient[1..]), w.server.hub[m].delivery.delivered,
        w.up);
  }

  lemma Shift(seen: seq<Event>, e: Event, coming: seq<Event>, sent: seq<Event>, up: bool)
    ensures Streams(seen, [e] + coming, sent, up) <==> Streams(seen + [e], coming, sent, up)
  {
    assert seen + ([e] + coming) == (seen + [e]) + coming;
  }

  lemma OfferedIs(h: Handle, e: Event)
    ensures EventHandle(h, e).delivery.offered == h.delivery.offered + [e]
  {
  }

  lemma IgnoredFlow(w: World)
    requires FlowOk(w) && w.client.live && w.toClient != [] && w.toClient[0].Notice?
    requires w.toClient[0].sub in w.client.subs ==> !w.client.subs[w.toClient[0].sub].Live?
    ensures FlowOk(w.(toClient := w.toClient[1..]))
  {
    hide HandlesOk, ViewOk, Streams, Notices;
    HeadView(ViewOf(w.client), w.server, w.toClient, w.up);
    NoticesTail(w.toClient);
  }

  /** Closing first and then dropping the event is the same as the overflow that closes. */
  lemma OverflowIs(w: World, m: SubId, e: Event)
    requires Retirable(w, m) && m in w.client.handles && w.toClient != [] && w.toClient[0] == Notice(m, e)
    requires w.client.handles[m].delivery.active && !Offered(w.client.handles[m].delivery, e).active
    ensures var h := EventHandle(w.client.handles[m], e);
            var l := LocalClose(w, m);
            ClientReceives(w) == if Admits(w.client) then PutHandle(l.(toClient := l.toClient[1..]), m, h)
                                 else PutHandle(l.(toClient := l.toClient[1..]), m, EndHandle(h, BindingTerminal))
  {
    hide Offered, ClientReceives, FailClosed, LocalClose, PutHandle;
    if Admits(w.client) { OverflowAdmitted(w, m, e); } else { OverflowRefused(w, m, e); }
  }

  lemma OverflowAdmitted(w: World, m: SubId, e: Event)
    requires Retirable(w, m) && m in w.client.handles && w.toClient != [] && w.toClient[0] == Notice(m, e)
             && Admits(w.client)
    requires w.client.handles[m].delivery.active && !Offered(w.client.handles[m].delivery, e).active
    ensures var l := LocalClose(w, m);
            ClientReceives(w) == PutHandle(l.(toClient := l.toClient[1..]), m, EventHandle(w.client.handles[m], e))
  {
    hide Offered, FailClosed;
  }

  lemma OverflowRefused(w: World, m: SubId, e: Event)
    requires Retirable(w, m) && m in w.client.handles && w.toClient != [] && w.toClient[0] == Notice(m, e)
             && !Admits(w.client)
    requires w.client.handles[m].delivery.active && !Offered(w.client.handles[m].delivery, e).active
    ensures var l := LocalClose(w, m);
            ClientReceives(w) ==
                PutHandle(l.(toClient := l.toClient[1..]), m,
                EndHandle(EventHandle(w.client.handles[m], e), BindingTerminal))
  {
    hide Offered;
    var h := EventHandle(w.client.handles[m], e);
    var handles := w.client.handles[m := h];
    assert FailClosed(w.client.(handles := handles)).handles ==
        FailClosed(w.client).handles[m := EndHandle(h, BindingTerminal)];
  }

  lemma ClosedHandleFlow(w: World, m: SubId, h: Handle)
    requires FlowOk(w) && m in w.client.handles && m in w.server.hub && HandleOk(h, w.server.hub[m])
    requires m in w.client.subs ==> !w.client.subs[m].Live?
    ensures FlowOk(PutHandle(w, m, h))
  {
    hide ViewOk, HandleOk, Streams;
  }

  lemma OverflowSafe(w: World, limit: nat, m: SubId, e: Event)
    requires Safe(w, limit) && Retirable(w, m) && m in w.client.handles && w.toClient != []
             && w.toClient[0] == Notice(m, e)
    requires w.client.handles[m].delivery.active && !Offered(w.client.handles[m].delivery, e).active
    ensures Safe(ClientReceives(w), limit)
  {
    hide LinkOk, FlowOk, ServerOk, HubOk, EventHandle, Offered, ClientReceives, HandleOk, EndHandle;
    NextEvent(w);
    HandleIsOk(w, m);
    EventOk(w.client.handles[m], e, w.server.hub[m]);
    OverflowIs(w, m, e);
    LocalCloseSafe(w, limit, m);
    var l := LocalClose(w, m);
    var h := EventHandle(w.client.handles[m], e);
    LocalCloseIs(w, m);
    PoppedLink(l);
    PoppedFlow(l, m);
    EndedOk(h, w.server.hub[m], BindingTerminal);
    var h' := if Admits(w.client) then h else EndHandle(h, BindingTerminal);
    ClosedHandleFlow(l.(toClient := l.toClient[1..]), m, h');
    SameLink(l.(toClient := l.toClient[1..]), ClientReceives(w));
  }

  lemma PoppedFlow(w: World, m: SubId)
    requires FlowOk(w) && w.toClient != [] && w.toClient[0].Notice? && w.toClient[0].sub == m
    requires w.client.live && m in w.client.subs ==> !w.client.subs[m].Live?
    ensures FlowOk(w.(toClient := w.toClient[1..]))
  {
    hide HandlesOk, ViewOk, StreamOk;
    if w.client.live { IgnoredFlow(w); }
  }

  lemma LocalCloseIs(w: World, m: SubId)
    requires Retirable(w, m)
    ensures var l := LocalClose(w, m);
            && l.toClient == w.toClient && l.server == w.server && l.up == w.up && l.log == w.log
            && (m in l.client.subs ==> !l.client.subs[m].Live?) && l.client.handles.Keys == w.client.handles.Keys
            && (l.client.live <==> Admits(w.client))
            && (Admits(w.client) ==> l.client.handles == w.client.handles)
  {
  }

  lemma OnNoticeSafe(w: World, limit: nat)
    requires Safe(w, limit) && w.client.live && w.toClient != [] && w.toClient[0].Notice?
    ensures Safe(ClientReceives(w), limit)
  {
    hide LinkOk, FlowOk, ServerOk, HubOk, HandleOk, Offered;
    var m, e := w.toClient[0].sub, w.toClient[0].event;
    HeadFits(w);
    HandleOfSub(w);
    PoppedLink(w);
    if m in w.client.subs && w.client.subs[m].Live? {
      LiveIsActive(w, m);
      var h := EventHandle(w.client.handles[m], e);
      if h.delivery.active {
        ReceivedFlow(w, h);
        SameLink(w.(toClient := w.toClient[1..]), ClientReceives(w));
      } else { OverflowSafe(w, limit, m, e); }
    } else { IgnoredFlow(w); }
  }

  lemma LiveIsActive(w: World, m: SubId)
    requires FlowOk(w) && m in w.client.subs && w.client.subs[m].Live?
    ensures m in w.client.handles && w.client.handles[m].delivery.active
  {
  }

  lemma ReceivesSafe(w: World, limit: nat)
    requires Safe(w, limit) && w.toClient != []
    ensures Safe(ClientReceives(w), limit)
  {
    hide LinkOk, FlowOk, ServerOk, HubOk, RetiringOk;
    if !w.client.live {
      PoppedLink(w);
      IdleFlow(w, w.(toClient := w.toClient[1..]));
    } else {
      match w.toClient[0]
      case Response(_, _) => OnResponseSafe(w, limit);
      case Notice(_, _) => OnNoticeSafe(w, limit);
      case Terminal(_, _) => OnTerminalSafe(w, limit);
    }
  }

  lemma IdleFlow(w: World, w': World)
    requires FlowOk(w) && !w.client.live && w'.client == w.client && w'.server == w.server
    ensures FlowOk(w')
  {
    hide HandlesOk;
  }

  /** An author's close, or the end of the handle: the server is told only if the correlation is still live. */
  lemma ClosesHandleSafe(w: World, limit: nat, m: SubId)
    requires Safe(w, limit) && m in w.client.handles && w.client.handles[m].delivery.active
    ensures Safe(LocalClose(PutHandle(w, m, EndHandle(w.client.handles[m], Closed)), m), limit)
  {
    hide LinkOk, FlowOk, ServerOk, HubOk, HandleOk, EndHandle;
    var h := EndHandle(w.client.handles[m], Closed);
    HandleOfSub(w);
    HandleIsOk(w, m);
    EndedOk(w.client.handles[m], w.server.hub[m], Closed);
    if Retirable(w, m) {
      LocalCloseSafe(w, limit, m);
      LocalCloseIs(w, m);
      var l := LocalClose(w, m);
      CloseIs(w, m);
      EndedOk(h, w.server.hub[m], BindingTerminal);
      var h' := if Admits(w.client) then h else EndHandle(h, BindingTerminal);
      ClosedHandleFlow(l, m, h');
      SameLink(l, PutHandle(l, m, h'));
    } else {
      ClosedHandleFlow(w, m, h);
      SameLink(w, PutHandle(w, m, h));
    }
  }

  lemma HandleIsOk(w: World, m: SubId)
    requires FlowOk(w) && m in w.client.handles
    ensures m in w.server.hub && HandleOk(w.client.handles[m], w.server.hub[m])
  {
  }

  lemma CloseIs(w: World, m: SubId)
    requires Retirable(w, m) && m in w.client.handles && w.client.handles[m].delivery.active
    ensures var h := EndHandle(w.client.handles[m], Closed);
            LocalClose(PutHandle(w, m, h), m) ==
              PutHandle(LocalClose(w, m), m, if Admits(w.client) then h else EndHandle(h, BindingTerminal))
  {
    hide FailClosed, EndHandle;
    if !Admits(w.client) { ClosedThenFailed(w.client, m, EndHandle(w.client.handles[m], Closed)); }
  }

  /** A client that fails with a handle just closed is the failed client with that handle closed. */
  lemma ClosedThenFailed(c: Client, m: SubId, h: Handle)
    requires c.live && m in c.subs && m in c.handles
    ensures FailClosed(c.(handles := c.handles[m := h])) ==
            FailClosed(c).(handles := FailClosed(c).handles[m := EndHandle(h, BindingTerminal)])
  {
    hide EndHandle;
    assert FailClosed(c.(handles := c.handles[m := h])).handles ==
        FailClosed(c).handles[m := EndHandle(h, BindingTerminal)];
  }

  // ----- the server's lane

  /** The hub side moved without handing anything over. */
  ghost predicate SameStreams(hub: map<SubId, HubSub>, hub': map<SubId, HubSub>) {
    && hub.Keys == hub'.Keys
    && (forall m :: m in hub ==>
       hub'[m].channels == hub[m].channels && hub'[m].delivery.delivered == hub[m].delivery.delivered)
  }

  /** Sending one frame that is not an event, with whatever became of the server. */
  lemma SentFlow(w: World, s': Server, f: Frame)
    requires FlowOk(w) && SameStreams(w.server.hub, s'.hub) && !f.Notice?
    requires w.client.live && w.up ==>
      Fits(Plays(ViewOf(w.client), w.toClient), f) && ViewBound(s', Sees(Plays(ViewOf(w.client), w.toClient), f))
    ensures FlowOk(ToClient(w.(server := s'), f))
  {
    hide HandleOk, Streams, ViewBound, Fits, Sees, Notices, Plays, AllFit;
    PlaysMore(ViewOf(w.client), w.toClient, f);
    forall m ensures Notices(m, w.toClient + [f]) == Notices(m, w.toClient) { NoticesMore(m, w.toClient, f); }
    SameStreamsHandles(w.client.handles, w.server.hub, s'.hub);
  }

  lemma SameStreamsHandles(handles: map<SubId, Handle>, hub: map<SubId, HubSub>, hub': map<SubId, HubSub>)
    requires SameStreams(hub, hub')
    ensures forall m :: m in handles && m in hub && HandleOk(handles[m], hub[m]) ==> HandleOk(handles[m], hub'[m])
  {
  }

  /** The server moved and sent nothing. */
  lemma SilentFlow(w: World, s': Server)
    requires FlowOk(w) && SameStreams(w.server.hub, s'.hub)
    requires w.client.live && w.up ==> ViewBound(s', Plays(ViewOf(w.client), w.toClient))
    ensures FlowOk(w.(server := s'))
  {
    hide HandleOk, Streams, ViewBound, Notices, Plays, AllFit;
    SameStreamsHandles(w.client.handles, w.server.hub, s'.hub);
  }

  lemma CurrentBound(w: World)
    requires FlowOk(w) && w.client.live && w.up
    ensures ViewBound(w.server, Plays(ViewOf(w.client), w.toClient))
  {
  }

  lemma RespondLink(w: World, body: Body, hub': map<SubId, HubSub>, subs': set<SubId>)
    requires LinkOk(w) && !w.server.work.Idle? && SameStreams(w.server.hub, hub')
    requires w.client.live ==>
             w.server.work.id in w.client.pending && Answers(w.client.pending[w.server.work.id], body, hub')
    ensures LinkOk(Respond(w.(server := w.server.(hub := hub', subs := subs')), w.server.work.id, body))
  {
  }

  // ----- finishing a request

  lemma ReportIs(w: World, m: SubId)
    requires m in w.server.hub && w.server.hub[m].delivery.reason.Some? && m in w.server.subs
    ensures LinkOk(w) ==>
            LinkOk(ToClient(w.(server := w.server.(subs := w.server.subs - {m})),
            Terminal(m, w.server.hub[m].delivery.reason.value)))
  {
    hide Answers;
  }

  lemma ReportsSafe(w: World, limit: nat, m: SubId)
    requires Safe(w, limit) && m in w.server.hub && w.server.hub[m].delivery.reason.Some? && m in w.server.subs
    ensures Safe(ToClient(w.(server := w.server.(subs := w.server.subs - {m})),
            Terminal(m, w.server.hub[m].delivery.reason.value)), limit)
  {
    hide LinkOk, FlowOk, HubOk, RetiringOk, Plays;
    ReportIs(w, m);
    if w.client.live && w.up { CurrentBound(w); }
    Shrinks(w.server, m);
    SentFlow(w, w.server.(subs := w.server.subs - {m}), Terminal(m, w.server.hub[m].delivery.reason.value));
  }

  lemma Shrinks(s: Server, m: SubId)
    ensures s.work.Opening? ==> |s.subs - {m} - s.work.stale| <= |s.subs - s.work.stale|
  {
    if s.work.Opening? {
      assert s.subs - {m} - s.work.stale <= s.subs - s.work.stale;
      SubsetSize(s.subs - {m} - s.work.stale, s.subs - s.work.stale);
    }
  }

  lemma {:induction false} SubsetSize<T>(a: set<T>, b: set<T>)
    requires a <= b
    ensures |a| <= |b|
  {
    if x :| x in a {
      SubsetSize(a - {x}, b - {x});
    }
  }

  ghost predicate Bounded(hub: map<SubId, HubSub>, hub': map<SubId, HubSub>) {
    && SameStreams(hub, hub')
    && (forall m :: m in hub ==>
       hub'[m].delivery.visible == hub[m].delivery.visible && (hub'[m].delivery.active ==> hub[m].delivery.active))
  }

  lemma BoundedAlive(hub: map<SubId, HubSub>, hub': map<SubId, HubSub>)
    requires Bounded(hub, hub')
    ensures Alive(hub') <= Alive(hub) && |Alive(hub')| <= |Alive(hub)|
  {
    assert Alive(hub') <= Alive(hub);
    SubsetSize(Alive(hub'), Alive(hub));
  }

  lemma SilentLink(w: World, s': Server)
    requires LinkOk(w) && SameStreams(w.server.hub, s'.hub)
    requires s'.lastRequest == w.server.lastRequest && s'.work == w.server.work && s'.nextSub == w.server.nextSub
    ensures LinkOk(w.(server := s'))
  {
    hide OrderOk;
  }

  /** The hub side ends subscriptions or queues events; nothing is handed over and nobody is told yet. */
  lemma HubMovesSafe(w: World, limit: nat, hub': map<SubId, HubSub>, log': seq<Event>)
    requires Safe(w, limit) && Bounded(w.server.hub, hub') && HubOk(hub', log')
    ensures Safe(w.(server := w.server.(hub := hub'), log := log'), limit)
  {
    hide LinkOk, FlowOk, HubOk, RetiringOk, Plays, Alive;
    var s' := w.server.(hub := hub');
    BoundedAlive(w.server.hub, hub');
    if w.client.live && w.up { CurrentBound(w); }
    SilentFlow(w, s');
    SilentLink(w, s');
    SameLink(w.(server := s'), w.(server := s', log := log'));
    SameFlow(w.(server := s'), w.(server := s', log := log'));
  }

  lemma RoutesSafe(w: World, limit: nat, e: Event)
    requires Safe(w, limit)
    ensures Safe(w.(server := w.server.(hub := Routed(w.server.hub, e)), log := w.log + [e]), limit)
  {
    hide LinkOk, FlowOk, RetiringOk, ServerOk, HubOk, Routed, Bounded;
    RoutedHub(w.server.hub, w.log, e);
    HubMovesSafe(w, limit, Routed(w.server.hub, e), w.log + [e]);
  }

  lemma RoutedHub(hub: map<SubId, HubSub>, log: seq<Event>, e: Event)
    requires HubOk(hub, log)
    ensures HubOk(Routed(hub, e), log + [e]) && Bounded(hub, Routed(hub, e))
  {
    hide Offered, Valid, Matching;
    forall m | m in hub
      ensures var d := Offered(hub[m].delivery, e);
              && Valid(d) && d.offered == hub[m].delivery.offered + [e] && d.delivered == hub[m].delivery.delivered
              && d.visible == hub[m].delivery.visible && (d.active ==> hub[m].delivery.active)
      ensures var h := Routed(hub, e)[m]; h.since <= |log + [e]| && h.delivery.offered == Due(h, log + [e])
    {
      var h := hub[m];
      MatchingMore(h.channels, log, h.since, e);
      OfferedValid(h.delivery, e);
      OfferedKeeps(h.delivery, e);
      assert h.initial + (Matching(h.channels, log[h.since..]) + [e]) == Due(h, log) + [e];
    }
  }

  lemma OfferedKeeps(d: Delivery, e: Event)
    ensures Offered(d, e).offered == d.offered + [e] && Offered(d, e).delivered == d.delivered
    ensures Offered(d, e).visible == d.visible && (Offered(d, e).active ==> d.active)
  {
  }

  /** Some subscriptions are terminated, the others untouched. */
  ghost predicate SomeEnd(hub: map<SubId, HubSub>, hub': map<SubId, HubSub>) {
    && hub.Keys == hub'.Keys
    && (forall m :: m in hub ==>
       hub'[m] == hub[m] || exists reason :: hub'[m] == hub[m].(delivery := Terminated(hub[m].delivery, reason)))
  }

  lemma TerminatedKeeps(h: HubSub, log: seq<Event>, reason: Reason)
    ensures var d := Terminated(h.delivery, reason);
            d.offered == h.delivery.offered && d.delivered == h.delivery.delivered && d.visible == h.delivery.visible
                && !d.active
    ensures Valid(h.delivery) ==> Valid(Terminated(h.delivery, reason))
    ensures h.since <= |log| ==> Due(h.(delivery := Terminated(h.delivery, reason)), log) == Due(h, log)
  {
  }

  lemma SomeEndHub(hub: map<SubId, HubSub>, hub': map<SubId, HubSub>, log: seq<Event>)
    requires HubOk(hub, log) && SomeEnd(hub, hub')
    ensures HubOk(hub', log) && Bounded(hub, hub')
  {
    hide Due, Valid, Terminated;
    forall m, reason | m in hub && hub'[m] == hub[m].(delivery := Terminated(hub[m].delivery, reason))
      ensures Valid(hub'[m].delivery) && hub'[m].delivery.offered == Due(hub'[m], log) && !hub'[m].delivery.active
      ensures hub'[m].delivery.delivered == hub[m].delivery.delivered
              && hub'[m].delivery.visible == hub[m].delivery.visible
    {
      TerminatedKeeps(hub[m], log, reason);
    }
  }

  lemma EndsSafe(w: World, limit: nat, m: SubId, reason: Reason)
    requires Safe(w, limit) && m in w.server.hub
    ensures Safe(PutHub(w, m, Terminated(w.server.hub[m].delivery, reason)), limit)
  {
    hide LinkOk, FlowOk, RetiringOk, ServerOk, HubOk, Terminated;
    var hub' := w.server.hub[m := w.server.hub[m].(delivery := Terminated(w.server.hub[m].delivery, reason))];
    SomeEndHub(w.server.hub, hub', w.log);
    HubMovesSafe(w, limit, hub', w.log);
  }

  lemma ShutdownHub(s: Server)
    ensures SomeEnd(s.hub, Shutdown(s).hub) && Alive(Shutdown(s).hub) == {}
  {
  }

  lemma ShutdownServer(s: Server, limit: nat, log: seq<Event>)
    requires ServerOk(s, limit) && HubOk(s.hub, log)
    ensures ServerOk(Shutdown(s), limit) && HubOk(Shutdown(s).hub, log) && Bounded(s.hub, Shutdown(s).hub)
  {
    hide HubOk, Alive, SomeEnd;
    ShutdownHub(s);
    SomeEndHub(s.hub, Shutdown(s).hub, log);
    assert s.work.Opening? ==> {} - s.work.stale == {};
  }

  lemma ShutdownSafe(w: World, limit: nat)
    requires Safe(w, limit)
    ensures Safe(w.(server := Shutdown(w.server)), limit)
  {
    hide LinkOk, FlowOk, RetiringOk, ServerOk, HubOk, Plays;
    ShutdownServer(w.server, limit, w.log);
    if w.client.live && w.up { CurrentBound(w); }
    SilentFlow(w, Shutdown(w.server));
    SilentLink(w, Shutdown(w.server));
  }

  // ----- events onto the lane

  ghost predicate Steps(d: Delivery, d': Delivery) {
    && Valid(d') && d'.offered == d.offered && d'.active == d.active && d'.visible == d.visible
    && (d'.delivered == d.delivered
       || (d.visible && |d'.delivered| == |d.delivered| + 1 && d'.delivered[..|d.delivered|] == d.delivered))
  }

  lemma TurnSteps(d: Delivery)
    requires Valid(d)
    ensures d.scheduled ==> Steps(d, Fired(d))
    ensures d.running ==> Steps(d, Settled(d))
  {
    if d.scheduled { FiredValid(d); }
    if d.running { SettledValid(d); }
  }

  lemma HubTurnedFlow(w: World, m: SubId, d: Delivery)
    requires FlowOk(w) && m in w.server.hub && Steps(w.server.hub[m].delivery, d)
             && |d.delivered| > |w.server.hub[m].delivery.delivered|
    ensures FlowOk(HubTurned(w, m, d))
  {
    hide ViewBound, Plays, AllFit, Notices, Streams, HandleOk;
    var v := ViewOf(w.client);
    var f := Notice(m, d.delivered[|d.delivered| - 1]);
    var w' := HubTurned(w, m, d);
    PlaysMore(v, w.toClient, f);
    if w.client.live && w.up { CurrentBound(w); StepBound(w.server, m, d, Plays(v, w.toClient)); }
    forall k ensures Notices(k, w.toClient + [f]) == if k == m then Notices(k, w.toClient) + [f.event]
        else Notices(k, w.toClient) {
      NoticesMore(k, w.toClient, f);
    }
    forall seen, coming | Streams(seen, coming, w.server.hub[m].delivery.delivered, w.up)
      ensures Streams(seen, if w.up then coming + [f.event] else coming, d.delivered, w.up)
    {
      StreamGrows(seen, coming, w.server.hub[m].delivery.delivered, d.delivered, w.up);
    }
    forall h | HandleOk(h, w.server.hub[m]) ensures HandleOk(h, w.server.hub[m].(delivery := d)) {
      HandleGrows(h, w.server.hub[m], d);
    }
  }

  lemma StepBound(s: Server, m: SubId, d: Delivery, v: View)
    requires ViewBound(s, v) && m in s.hub && Steps(s.hub[m].delivery, d) && d.delivered != s.hub[m].delivery.delivered
    ensures m <= v.highest && ViewBound(s.(hub := s.hub[m := s.hub[m].(delivery := d)]), v)
  {
  }

  lemma StreamGrows(seen: seq<Event>, coming: seq<Event>, sent: seq<Event>, sent': seq<Event>, up: bool)
    requires Streams(seen, coming, sent, up) && |sent'| == |sent| + 1 && sent'[..|sent|] == sent
    ensures Streams(seen, if up then coming + [sent'[|sent|]] else coming, sent', up)
  {
    if up { assert seen + (coming + [sent'[|sent|]]) == sent + [sent'[|sent|]] == sent'; }
  }

  lemma HandleGrows(h: Handle, hub: HubSub, d: Delivery)
    requires HandleOk(h, hub) && Steps(hub.delivery, d)
    ensures HandleOk(h, hub.(delivery := d))
  {
  }

  lemma HubTurnedLink(w: World, m: SubId, d: Delivery)
    requires LinkOk(w) && m in w.server.hub
    ensures LinkOk(HubTurned(w, m, d))
  {
    hide OrderOk;
    NoticeOrder(w,
        Notice(m, if d.delivered == [] then Event("", "", Opaque(""), "", 0) else d.delivered[|d.delivered| - 1]));
    assert w.server.hub[m := w.server.hub[m].(delivery := d)].Keys == w.server.hub.Keys;
  }

  lemma NoticeOrder(w: World, f: Frame)
    requires OrderOk(w.toServer, w.toClient, w.client.nextId, w.client.pending.Keys, w.server.lastRequest,
             w.server.work) && f.Notice?
    ensures OrderOk(w.toServer, w.toClient + [f], w.client.nextId, w.client.pending.Keys, w.server.lastRequest,
            w.server.work)
  {
  }

  lemma HubTurnedServer(s: Server, limit: nat, log: seq<Event>, m: SubId, d: Delivery)
    requires ServerOk(s, limit) && HubOk(s.hub, log) && m in s.hub && Steps(s.hub[m].delivery, d)
    ensures ServerOk(s.(hub := s.hub[m := s.hub[m].(delivery := d)]), limit)
            && HubOk(s.hub[m := s.hub[m].(delivery := d)], log)
  {
    hide Valid, Alive, Due;
    TurnedAlive(s.hub, m, d);
    TurnedDue(s.hub[m], d, log);
  }

  lemma TurnedAlive(hub: map<SubId, HubSub>, m: SubId, d: Delivery)
    requires m in hub && d.active == hub[m].delivery.active
    ensures Alive(hub[m := hub[m].(delivery := d)]) == Alive(hub)
  {
  }

  lemma TurnedDue(h: HubSub, d: Delivery, log: seq<Event>)
    requires h.since <= |log|
    ensures Due(h.(delivery := d), log) == Due(h, log)
  {
  }

  lemma HubTurnedSafe(w: World, limit: nat, m: SubId, d: Delivery)
    requires Safe(w, limit) && m in w.server.hub && Steps(w.server.hub[m].delivery, d)
    ensures Safe(HubTurned(w, m, d), limit)
  {
    hide LinkOk, FlowOk, RetiringOk, ServerOk, HubOk;
    HubTurnedLink(w, m, d);
    HubTurnedServer(w.server, limit, w.log, m, d);
    if |d.delivered| > |w.server.hub[m].delivery.delivered| { HubTurnedFlow(w, m, d); }
    else {
      var s' := w.server.(hub := w.server.hub[m := w.server.hub[m].(delivery := d)]);
      if w.client.live && w.up { CurrentBound(w); }
      SilentFlow(w, s');
    }
  }

  // ----- requests

  lemma AnsweredAtOnce(w: World, s': Server, body: Body)
    requires LinkOk(w) && w.server.work.Idle? && w.toServer != []
    requires s'.lastRequest == w.toServer[0].id && s'.work.Idle? && s'.nextSub >= w.server.nextSub
             && SameStreams(w.server.hub, s'.hub)
    requires w.client.live ==> Answers(w.toServer[0].call, body, s'.hub)
    ensures LinkOk(ToClient(w.(toServer := w.toServer[1..], server := s'), Response(w.toServer[0].id, body)))
  {
  }

  lemma TakenLink(w: World, s': Server)
    requires LinkOk(w) && w.server.work.Idle? && w.toServer != []
    requires s'.lastRequest == w.toServer[0].id && !s'.work.Idle? && s'.work.id == s'.lastRequest
             && s'.nextSub >= w.server.nextSub
    requires forall m :: m in w.server.hub ==> m in s'.hub && s'.hub[m].channels == w.server.hub[m].channels
    requires s'.work.Publishing? ==> w.toServer[0].call.Publish?
    requires s'.work.Opening? ==> s'.work.sub in s'.hub && w.toServer[0].call == Subscribe(s'.hub[s'.work.sub].channels)
    ensures LinkOk(w.(toServer := w.toServer[1..], server := s'))
  {
  }

  lemma TakenFlow(w: World, s': Server)
    requires FlowOk(w) && SameStreams(w.server.hub, s'.hub) && w.toServer != []
    requires w.client.live && w.up ==> ViewBound(s', Plays(ViewOf(w.client), w.toClient))
    ensures FlowOk(w.(toServer := w.toServer[1..], server := s'))
  {
    hide FlowOk;
    SilentFlow(w, s');
    SameFlow(w.(server := s'), w.(toServer := w.toServer[1..], server := s'));
  }

  lemma HeadIsNew(w: World)
    requires LinkOk(w) && w.toServer != []
    ensures w.toServer[0].id > w.server.lastRequest
    ensures w.toServer[0].call.Unsubscribe? ==> w.toServer[0].call.sub < w.server.nextSub
  {
  }

  /** What an unsubscribe leaves of the server. */
  function AfterRelease(s: Server, r: Request): Server
    requires r.call.Unsubscribe?
  {
    var m := r.call.sub;
    var hub := if m in s.subs && m in s.hub
        then s.hub[m := s.hub[m].(delivery := Terminated(s.hub[m].delivery, Closed))] else s.hub;
    s.(lastRequest := r.id, hub := hub, subs := s.subs - {m})
  }

  lemma ReleasedServer(s: Server, r: Request, limit: nat, log: seq<Event>)
    requires ServerOk(s, limit) && HubOk(s.hub, log) && r.call.Unsubscribe? && s.work.Idle?
    ensures ServerOk(AfterRelease(s, r), limit) && HubOk(AfterRelease(s, r).hub, log)
            && Bounded(s.hub, AfterRelease(s, r).hub)
  {
    hide HubOk, Alive, Terminated;
    var s' := AfterRelease(s, r);
    var m := r.call.sub;
    if m in s.subs && m in s.hub { assert s'.hub[m] == s.hub[m].(delivery := Terminated(s.hub[m].delivery, Closed)); }
    assert SomeEnd(s.hub, s'.hub);
    SomeEndHub(s.hub, s'.hub, log);
    BoundedAlive(s.hub, s'.hub);
  }

  lemma NotFaulty(s: Server, limit: nat)
    requires ServerOk(s, limit)
    ensures !s.fault
  {
  }

  lemma UnsubscribedSafe(w: World, limit: nat, retained: Option<Event>)
    requires Safe(w, limit) && w.server.work.Idle? && w.toServer != [] && w.toServer[0].call.Unsubscribe?
    ensures Safe(ServerTakes(w, limit, retained), limit)
  {
    hide LinkOk, FlowOk, RetiringOk, HubOk, ServerOk, Plays;
    HeadIsNew(w);
    var r := w.toServer[0];
    var s' := AfterRelease(w.server, r);
    ReleasedServer(w.server, r, limit, w.log);
    AnsweredAtOnce(w, s', Released(r.call.sub));
    if w.client.live && w.up { CurrentBound(w); }
    SameFlow(w, w.(toServer := w.toServer[1..]));
    SentFlow(w.(toServer := w.toServer[1..]), s', Response(r.id, Released(r.call.sub)));
    NotFaulty(w.server, limit);
  }

  lemma RefusedSafe(w: World, limit: nat, retained: Option<Event>)
    requires Safe(w, limit) && w.server.work.Idle? && w.toServer != [] && w.toServer[0].call.Subscribe?
    requires w.server.nextSub < MAX_SAFE_INTEGER && (!w.server.open || |Alive(w.server.hub)| >= limit)
    ensures Safe(ServerTakes(w, limit, retained), limit)
  {
    hide LinkOk, FlowOk, RetiringOk, HubOk, Plays, Alive;
    HeadIsNew(w);
    var s' := w.server.(lastRequest := w.toServer[0].id, nextSub := w.server.nextSub + 1);
    AnsweredAtOnce(w, s', Failed);
    if w.client.live && w.up { CurrentBound(w); }
    SameFlow(w, w.(toServer := w.toServer[1..]));
    SentFlow(w.(toServer := w.toServer[1..]), s', Response(w.toServer[0].id, Failed));
  }

  lemma PublishTakenSafe(w: World, limit: nat, retained: Option<Event>)
    requires Safe(w, limit) && w.server.work.Idle? && w.toServer != [] && w.toServer[0].call.Publish?
    ensures Safe(ServerTakes(w, limit, retained), limit)
  {
    hide LinkOk, FlowOk, RetiringOk, HubOk, Alive, Plays;
    HeadIsNew(w);
    var s' := w.server.(lastRequest := w.toServer[0].id, work := Publishing(w.toServer[0].id));
    TakenLink(w, s');
    if w.client.live && w.up { CurrentBound(w); }
    TakenFlow(w, s');
  }

  lemma ExhaustedSafe(w: World, limit: nat, retained: Option<Event>)
    requires Safe(w, limit) && w.server.work.Idle? && w.toServer != [] && w.toServer[0].call.Subscribe?
    requires w.server.nextSub >= MAX_SAFE_INTEGER
    ensures Safe(ServerTakes(w, limit, retained), limit)
  {
    hide LinkOk, FlowOk, RetiringOk, HubOk, ServerOk, Shutdown;
    HeadIsNew(w);
    NotFaulty(w.server, limit);
    var s' := w.server.(lastRequest := w.toServer[0].id);
    var t := w.(toServer := w.toServer[1..], server := s');
    SkippedLink(w);
    SameServer(w.server, s', limit);
    if w.client.live && w.up { CurrentBound(w); SameBound(w.server, s', Plays(ViewOf(w.client), w.toClient)); }
    TakenFlow(w, s');
    ShutdownSafe(t, limit);
  }

  lemma SameBound(s: Server, s': Server, v: View)
    requires s' == s.(lastRequest := s'.lastRequest) && ViewBound(s, v)
    ensures ViewBound(s', v)
  {
  }

  lemma SameServer(s: Server, s': Server, limit: nat)
    requires s' == s.(lastRequest := s'.lastRequest) && ServerOk(s, limit)
    ensures ServerOk(s', limit)
  {
  }

  /** A request that is taken and never answered; the server ends then. */
  lemma SkippedLink(w: World)
    requires LinkOk(w) && w.server.work.Idle? && w.toServer != []
    ensures LinkOk(w.(toServer := w.toServer[1..], server := w.server.(lastRequest := w.toServer[0].id)))
  {
    hide Answers;
  }

  /** The candidate a subscribe request installs. */
  function Candidate(channels: set<Channel>, retained: Option<Event>, since: nat): HubSub {
    var first := if retained.Some? && retained.value.channel in channels then [retained.value] else [];
    HubSub(channels, if first == [] then FRESH else Offered(FRESH, first[0]), first, since)
  }

  lemma CandidateOk(channels: set<Channel>, retained: Option<Event>, log: seq<Event>)
    ensures var h := Candidate(channels, retained, |log|);
            && Valid(h.delivery) && h.since <= |log| && h.delivery.offered == Due(h, log) && h.delivery.delivered == []
               && !h.delivery.visible
  {
    var h := Candidate(channels, retained, |log|);
    FreshValid();
    if h.initial != [] { OfferedValid(FRESH, h.initial[0]); OfferedKeeps(FRESH, h.initial[0]); }
    assert log[|log|..] == [] && h.initial + [] == h.initial;
  }

  function WithCandidate(s: Server, r: Request, h: HubSub): Server {
    s.(lastRequest := r.id, nextSub := s.nextSub + 1, hub := s.hub[s.nextSub := h],
        work := Opening(r.id, s.nextSub, s.subs - Alive(s.hub)))
  }

  lemma CandidateAlive(s: Server, r: Request, h: HubSub, limit: nat)
    requires |Alive(s.hub)| < limit && s.nextSub !in s.hub
    ensures |Alive(WithCandidate(s, r, h).hub)| <= limit
    ensures |s.subs - WithCandidate(s, r, h).work.stale| < limit
  {
    var s' := WithCandidate(s, r, h);
    assert Alive(s'.hub) <= Alive(s.hub) + {s.nextSub};
    SubsetSize(Alive(s'.hub), Alive(s.hub) + {s.nextSub});
    assert s.subs - s'.work.stale <= Alive(s.hub);
    SubsetSize(s.subs - s'.work.stale, Alive(s.hub));
  }

  lemma CandidateServer(s: Server, r: Request, h: HubSub, limit: nat)
    requires ServerOk(s, limit) && s.open && |Alive(s.hub)| < limit && !h.delivery.visible
    ensures ServerOk(WithCandidate(s, r, h), limit)
  {
    hide Alive;
    CandidateAlive(s, r, h, limit);
  }

  lemma CandidateHub(s: Server, r: Request, h: HubSub, log: seq<Event>)
    requires HubOk(s.hub, log) && Valid(h.delivery) && h.since <= |log| && h.delivery.offered == Due(h, log)
    ensures HubOk(WithCandidate(s, r, h).hub, log)
  {
    hide Valid, Due, Alive;
  }

  lemma CandidateFlow(w: World, limit: nat, r: Request, h: HubSub)
    requires FlowOk(w) && LinkOk(w) && ServerOk(w.server, limit) && h.delivery.delivered == [] && !h.delivery.visible
    ensures FlowOk(w.(server := WithCandidate(w.server, r, h)))
  {
    hide HandleOk, Plays, AllFit, Notices, Alive;
    var n := w.server.nextSub;
    assert n !in w.server.hub;
    NoNotices(n, w.toClient);
    assert Streams([], [], [], w.up);
  }

  lemma OpeningSafe(w: World, limit: nat, retained: Option<Event>)
    requires Safe(w, limit) && w.server.work.Idle? && w.toServer != [] && w.toServer[0].call.Subscribe?
    requires w.server.nextSub < MAX_SAFE_INTEGER && w.server.open && |Alive(w.server.hub)| < limit
    ensures Safe(ServerTakes(w, limit, retained), limit)
  {
    hide LinkOk, FlowOk, RetiringOk, HubOk, ServerOk, Alive, Candidate;
    HeadIsNew(w);
    NotFaulty(w.server, limit);
    var r := w.toServer[0];
    var h := Candidate(r.call.channels, retained, |w.log|);
    var s' := WithCandidate(w.server, r, h);
    CandidateOk(r.call.channels, retained, w.log);
    CandidateServer(w.server, r, h, limit);
    CandidateHub(w.server, r, h, w.log);
    CandidateFlow(w, limit, r, h);
    SameFlow(w.(server := s'), w.(toServer := w.toServer[1..], server := s'));
    NewKey(w.server, limit);
    CandidateIs(w, limit, retained);
    TakenLink(w, s');
  }

  lemma NewKey(s: Server, limit: nat)
    requires ServerOk(s, limit)
    ensures s.nextSub !in s.hub
  {
  }

  lemma CandidateIs(w: World, limit: nat, retained: Option<Event>)
    requires w.toServer != [] && w.toServer[0].call.Subscribe? && w.toServer[0].id > w.server.lastRequest
    requires w.server.nextSub < MAX_SAFE_INTEGER && w.server.open && |Alive(w.server.hub)| < limit
    ensures var r := w.toServer[0];
            var h := Candidate(r.call.channels, retained, |w.log|);
            h.channels == r.call.channels && h.since == |w.log|
            && ServerTakes(w, limit, retained) ==
               w.(toServer := w.toServer[1..], server := WithCandidate(w.server, r, h))
  {
  }

  lemma TakesSafe(w: World, limit: nat, retained: Option<Event>)
    requires Safe(w, limit) && w.server.work.Idle? && w.toServer != []
    ensures Safe(ServerTakes(w, limit, retained), limit)
  {
    hide Safe, ServerTakes, Alive;
    match w.toServer[0].call
    case Publish => PublishTakenSafe(w, limit, retained);
    case Unsubscribe(_) => UnsubscribedSafe(w, limit, retained);
    case Subscribe(_) =>
      if w.server.nextSub >= MAX_SAFE_INTEGER { ExhaustedSafe(w, limit, retained); }
      else if !w.server.open || |Alive(w.server.hub)| >= limit { RefusedSafe(w, limit, retained); }
      else { OpeningSafe(w, limit, retained); }
  }

  // ----- the end of a request

  lemma WorkIsPaired(w: World)
    requires LinkOk(w) && w.client.live
    ensures match w.server.work
            case Idle => true
            case Publishing(id) => id in w.client.pending && w.client.pending[id].Publish?
            case Opening(id, n, _) =>
              id in w.client.pending && n in w.server.hub && w.client.pending[id] == Subscribe(w.server.hub[n].channels)
  {
  }

  /** Answering without opening anything. */
  lemma ClosedEndingSafe(w: World, limit: nat, body: Body)
    requires Safe(w, limit) && !w.server.work.Idle? && (body.Failed? || (body.Done? && w.server.work.Publishing?))
    ensures Safe(Respond(w, w.server.work.id, body), limit)
  {
    hide LinkOk, FlowOk, RetiringOk, HubOk, Alive, Plays;
    if w.client.live { WorkIsPaired(w); }
    RespondLink(w, body, w.server.hub, w.server.subs);
    if w.client.live && w.up { CurrentBound(w); }
    SentFlow(w, w.server.(work := Idle), Response(w.server.work.id, body));
  }

  function AfterOpening(s: Server, n: SubId): Server
    requires n in s.hub
  {
    s.(hub := s.hub[n := s.hub[n].(delivery := Revealed(s.hub[n].delivery))], subs := s.subs + {n}, work := Idle)
  }

  lemma RevealedKeeps(h: HubSub, log: seq<Event>)
    requires h.since <= |log|
    ensures var d := Revealed(h.delivery);
            d.offered == h.delivery.offered && d.delivered == h.delivery.delivered && d.active == h.delivery.active
                && (h.delivery.active ==> d.visible)
    ensures Valid(h.delivery) ==> Valid(Revealed(h.delivery))
    ensures Due(h.(delivery := Revealed(h.delivery)), log) == Due(h, log)
  {
  }

  lemma OpenedServer(s: Server, limit: nat, log: seq<Event>)
    requires ServerOk(s, limit) && HubOk(s.hub, log) && s.work.Opening? && s.hub[s.work.sub].delivery.active
    ensures var s' := AfterOpening(s, s.work.sub);
            ServerOk(s', limit) && HubOk(s'.hub, log) && SameStreams(s.hub, s'.hub)
  {
    hide Valid, Due, Revealed;
    var n := s.work.sub;
    RevealedKeeps(s.hub[n], log);
    assert Alive(AfterOpening(s, n).hub) == Alive(s.hub);
  }

  lemma NoneStale(subs: set<SubId>, stale: set<SubId>)
    requires stale * subs == {}
    ensures subs - stale == subs
  {
    assert subs == (subs - stale) + stale * subs;
  }

  lemma OpenedBound(s: Server, v: View, limit: nat)
    requires ServerOk(s, limit) && limit <= MAX_SUBSCRIPTION_CORRELATIONS && ViewBound(s, v)
    requires s.work.Opening? && s.hub[s.work.sub].delivery.active && s.work.stale * s.subs == {}
    ensures Fits(v, Response(s.work.id, Opened(s.work.sub)))
    ensures ViewBound(AfterOpening(s, s.work.sub), Sees(v, Response(s.work.id, Opened(s.work.sub))))
  {
    hide Revealed;
    assert s.work.sub in Alive(s.hub);
    NoneStale(s.subs, s.work.stale);
    SubsetSize(v.subs, s.subs);
    var h := s.hub[s.work.sub];
    assert Revealed(h.delivery).visible || !Revealed(h.delivery).visible;
  }

  lemma OpenedSafe(w: World, limit: nat)
    requires Safe(w, limit) && limit <= MAX_SUBSCRIPTION_CORRELATIONS
    requires w.server.work.Opening? && w.server.work.stale * w.server.subs == {}
    requires w.server.work.sub in w.server.hub && w.server.hub[w.server.work.sub].delivery.active
    ensures Safe(ServerFinishes(w, true), limit)
  {
    hide LinkOk, FlowOk, RetiringOk, HubOk, ServerOk, Plays, Revealed, Fits, Sees, ViewBound;
    var s := w.server;
    var s' := AfterOpening(s, s.work.sub);
    OpenedServer(s, limit, w.log);
    if w.client.live && w.up { CurrentBound(w); OpenedBound(s, Plays(ViewOf(w.client), w.toClient), limit); }
    if w.client.live { WorkIsPaired(w); }
    RespondLink(w, Opened(s.work.sub), s'.hub, s'.subs);
    SentFlow(w, s', Response(s.work.id, Opened(s.work.sub)));
  }

  lemma FinishesSafe(w: World, limit: nat, ok: bool)
    requires Safe(w, limit) && limit <= MAX_SUBSCRIPTION_CORRELATIONS && !w.server.work.Idle?
    requires w.server.work.Opening? ==> w.server.work.stale * w.server.subs == {}
    ensures Safe(ServerFinishes(w, ok), limit)
  {
    hide Safe, Respond;
    match w.server.work
    case Publishing(_) => ClosedEndingSafe(w, limit, if ok then Done else Failed);
    case Opening(_, n, _) =>
      if n in w.server.hub && w.server.hub[n].delivery.active {
        OpenedSafe(w, limit);
      } else { ClosedEndingSafe(w, limit, Failed); }
  }

  // ----- the theorems

  lemma HandleStepSafe(w: World, limit: nat, step: Step)
    requires Safe(w, limit) && Apply(w, limit, step).Some?
    requires step.Fires? || step.Settles? || step.Passes? || step.Exposes? || step.Shuts?
    ensures Safe(Apply(w, limit, step).value, limit)
  {
    hide LinkOk, FlowOk, ServerOk, HubOk, RetiringOk, Fired, Settled;
    var m := step.sub;
    HandleIsOk(w, m);
    TurnedOk(w.client.handles[m], w.server.hub[m]);
    if step.Passes? { PassedOk(w.client.handles[m], w.server.hub[m]); }
    PutHandleSafe(w, limit, m, Apply(w, limit, step).value.client.handles[m]);
  }

  lemma StepSafe(w: World, limit: nat, step: Step)
    requires Safe(w, limit) && limit <= MAX_SUBSCRIPTION_CORRELATIONS && Apply(w, limit, step).Some?
    ensures Safe(Apply(w, limit, step).value, limit)
  {
    hide Safe, ServerTakes, ServerFinishes, ClientReceives, Ask, FailClosed, Shutdown, Routed, LocalClose, Fired,
        Settled;
    match step
    case Asks(call) => if Admits(w.client) { AskSafe(w, limit, call); }
    case ClosesHandle(m) => if w.client.handles[m].delivery.active { ClosesHandleSafe(w, limit, m); }
    case Receives => ReceivesSafe(w, limit);
    case ClientFails => FailClosedSafe(w, limit);
    case Takes(retained) => TakesSafe(w, limit, retained);
    case Finishes(ok) => FinishesSafe(w, limit, ok);
    case Reports(m) => ReportsSafe(w, limit, m);
    case Routes(e) => RoutesSafe(w, limit, e);
    case Ends(m, reason) => EndsSafe(w, limit, m, reason);
    case HubFires(m) => HubStepSafe(w, limit, m);
    case HubSettles(m) => HubStepSafe(w, limit, m);
    case ServerShuts => ShutdownSafe(w, limit);
    case LinkFails(i, j) => LinkFailsSafe(w, limit, i, j);
    case _ => HandleStepSafe(w, limit, step);
  }

  lemma HubStepSafe(w: World, limit: nat, m: SubId)
    requires Safe(w, limit) && m in w.server.hub
    ensures w.server.hub[m].delivery.scheduled ==> Safe(HubTurned(w, m, Fired(w.server.hub[m].delivery)), limit)
    ensures w.server.hub[m].delivery.running ==> Safe(HubTurned(w, m, Settled(w.server.hub[m].delivery)), limit)
  {
    hide LinkOk, FlowOk, ServerOk, RetiringOk, HubTurned, Fired, Settled;
    TurnSteps(w.server.hub[m].delivery);
    if w.server.hub[m].delivery.scheduled { HubTurnedSafe(w, limit, m, Fired(w.server.hub[m].delivery)); }
    if w.server.hub[m].delivery.running { HubTurnedSafe(w, limit, m, Settled(w.server.hub[m].delivery)); }
  }

  lemma {:induction false} RunSafe(limit: nat, steps: seq<Step>)
    requires limit <= MAX_SUBSCRIPTION_CORRELATIONS && Run(limit, steps).Some?
    ensures Safe(Run(limit, steps).value, limit)
  {
    if steps == [] {
      InitialSafe(limit);
    } else {
      RunSafe(limit, steps[..|steps| - 1]);
      StepSafe(Run(limit, steps[..|steps| - 1]).value, limit, steps[|steps| - 1]);
    }
  }

  lemma ReachableSafe(w: World, limit: nat)
    requires limit <= MAX_SUBSCRIPTION_CORRELATIONS && Reachable(w, limit)
    ensures Safe(w, limit)
  {
    hide Safe, Run;
    var steps :| Run(limit, steps) == Some(w);
    RunSafe(limit, steps);
  }
}
