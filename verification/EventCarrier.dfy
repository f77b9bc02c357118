/**
 * Session Events over a message carrier as a transition system: the client binding and the carrier
 * server (packages/session-events/src/carrier.ts), a FIFO lane in each direction, the hub's side of the
 * server's binding (hub.ts, subscription.ts) and the author-facing client (client.ts).
 *
 * Both ends check correlation identities and fail closed when one looks impossible; the model records
 * such a check firing as a `fault`. A step ends where the source waits for a message, a timer or a
 * promise. Revealing a subscription and sending the response to its subscribe request is one step, and
 * promise reactions already queued run before the next message is taken.
 */
module EventCarrier {
  import opened Base
  import opened EventDelivery

  type Channel = string
  type SubId = nat
  type ReqId = nat

  const MAX_PENDING_REQUESTS: nat := 256
  const MAX_SUBSCRIPTION_CORRELATIONS: nat := 320
  const MAX_SAFE_INTEGER: nat := 9007199254740991

  datatype Call = Publish | Subscribe(channels: set<Channel>) | Unsubscribe(sub: SubId)
  datatype Request = Request(id: ReqId, call: Call)

  /** `Done` and `Released` are both the empty result; `sub` only records which subscription was released. */
  datatype Body = Done | Released(sub: SubId) | Opened(sub: SubId) | Failed
  datatype Frame = Response(id: ReqId, body: Body) | Notice(sub: SubId, event: Event)
      | Terminal(sub: SubId, reason: Reason)

  // ----- the client binding

  datatype Correlation = Live | Retiring(request: ReqId)

  /** The exposure gate of client.ts: whether the author's listener may be called yet, or ever again. */
  datatype Gate = Hidden | Exposed | Shut

  /** A subscription handle; `inHand` is an event the delivery handed over that the gate still holds back. */
  datatype Handle = Handle(channels: set<Channel>, delivery: Delivery, gate: Gate, inHand: bool, author: seq<Event>)

  datatype Client = Client(live: bool, nextId: nat, highest: nat, pending: map<ReqId, Call>,
                           subs: map<SubId, Correlation>, handles: map<SubId, Handle>, fault: bool)

  // ----- the carrier server and its hub binding

  /** `stale` are the subscriptions that had died, unreported, when the subscribe request was taken. */
  datatype Work = Idle | Publishing(id: ReqId) | Opening(id: ReqId, sub: SubId, stale: set<SubId>)

  /** A hub subscription, the event retained for it and how many events were routed before it. */
  datatype HubSub = HubSub(channels: set<Channel>, delivery: Delivery, initial: seq<Event>, since: nat)

  datatype Server = Server(open: bool, nextSub: nat, lastRequest: nat, subs: set<SubId>,
                           hub: map<SubId, HubSub>, work: Work, fault: bool)

  /** `log` is every event the hub ever routed. */
  datatype World = World(client: Client, toServer: seq<Request>, server: Server, toClient: seq<Frame>, up: bool,
      log: seq<Event>)

  const INITIAL := World(Client(true, 1, 0, map[], map[], map[], false), [],
                         Server(true, 1, 0, {}, map[], Idle, false), [], true, [])

  // ----- lanes; a failed carrier loses what is sent

  function ToServer(w: World, r: Request): World { if w.up then w.(toServer := w.toServer + [r]) else w }
  function ToClient(w: World, f: Frame): World { if w.up then w.(toClient := w.toClient + [f]) else w }

  // ----- client

  predicate Admits(c: Client) {
    c.live && |c.pending| < MAX_PENDING_REQUESTS && c.nextId < MAX_SAFE_INTEGER
  }

  function Ask(w: World, call: Call): World {
    var c := w.client;
    ToServer(w.(client := c.(nextId := c.nextId + 1, pending := c.pending[c.nextId := call])), Request(c.nextId, call))
  }

  function EndHandle(h: Handle, reason: Reason): Handle { h.(delivery := Terminated(h.delivery, reason)) }

  function FailClosed(c: Client): Client {
    if !c.live then c
    else c.(live := false, pending := map[], subs := map[],
            handles := map m | m in c.handles :: if m in c.subs then EndHandle(c.handles[m], BindingTerminal)
                else c.handles[m])
  }

  function Faulty(w: World): World { w.(client := FailClosed(w.client).(fault := true)) }

  /** `localClose`: an author handle closed or overflowed, so the server is told once. */
  function LocalClose(w: World, m: SubId): World {
    var c := w.client;
    if !c.live || m !in c.subs || !c.subs[m].Live? then w
    else if Admits(c) then
      var w' := Ask(w, Unsubscribe(m));
      w'.(client := w'.client.(subs := w'.client.subs[m := Retiring(c.nextId)]))
    else w.(client := FailClosed(c))
  }

  function PutHandle(w: World, m: SubId, h: Handle): World {
    w.(client := w.client.(handles := w.client.handles[m := h]))
  }

  predicate EmptyResult(body: Body) { body.Done? || body.Released? }

  function OnResponse(w: World, id: ReqId, body: Body): World {
    var c := w.client;
    if id !in c.pending then Faulty(w)
    else
      var call := c.pending[id];
      var c' := c.(pending := c.pending - {id});
      if body.Failed? then w.(client := if call.Unsubscribe? then FailClosed(c') else c')
      else if call.Subscribe? then
        if !body.Opened? || body.sub <= c.highest || body.sub in c.subs || |c.subs| >= MAX_SUBSCRIPTION_CORRELATIONS
            then Faulty(w)
        else w.(client := c'.(highest := body.sub, subs := c.subs[body.sub := Live],
                              handles := c.handles[body.sub :=
                                  Handle(call.channels, Revealed(FRESH), Hidden, false, [])]))
      else if !EmptyResult(body) then Faulty(w)
      else if call.Unsubscribe? && call.sub in c.subs && c.subs[call.sub] == Retiring(id) then
        w.(client := c'.(subs := c.subs - {call.sub}))
      else w.(client := c')
  }

  function OnNotice(w: World, m: SubId, e: Event): World {
    var c := w.client;
    if m !in c.subs then (if m <= c.highest then w else Faulty(w))
    else if !c.subs[m].Live? || m !in c.handles then w
    else
      var d := Offered(c.handles[m].delivery, e);
      var w' := PutHandle(w, m, c.handles[m].(delivery := d));
      if c.handles[m].delivery.active && !d.active then LocalClose(w', m) else w'
  }

  /** The peer's terminal removes the correlation first, so that closing the handle asks for nothing. */
  function OnTerminal(w: World, m: SubId, reason: Reason): World {
    var c := w.client;
    if m !in c.subs then (if m <= c.highest then w else Faulty(w))
    else
      var c' := c.(subs := c.subs - {m});
      if c.subs[m].Live? && m in c.handles
      then w.(client := c'.(handles := c.handles[m := EndHandle(c.handles[m], reason)]))
      else w.(client := c')
  }

  function ClientReceives(w: World): World
    requires w.toClient != []
  {
    var f := w.toClient[0];
    var w := w.(toClient := w.toClient[1..]);
    if !w.client.live then w
    else match f
      case Response(id, body) => OnResponse(w, id, body)
      case Notice(m, e) => OnNotice(w, m, e)
      case Terminal(m, reason) => OnTerminal(w, m, reason)
  }

  /** One turn of a handle's drain loop: an event handed over is in hand until the gate decides. */
  function Turned(h: Handle, d: Delivery): Handle {
    h.(delivery := d, inHand := h.inHand || |d.delivered| > |h.delivery.delivered|)
  }

  function Passed(h: Handle): Handle
    requires h.delivery.delivered != []
  {
    var e := h.delivery.delivered[|h.delivery.delivered| - 1];
    h.(inHand := false, author := if h.gate.Exposed? then h.author + [e] else h.author)
  }

  // ----- server

  function Alive(hub: map<SubId, HubSub>): set<SubId> {
    set m | m in hub && hub[m].delivery.active
  }

  function PutHub(w: World, m: SubId, d: Delivery): World
    requires m in w.server.hub
  {
    w.(server := w.server.(hub := w.server.hub[m := w.server.hub[m].(delivery := d)]))
  }

  function Respond(w: World, id: ReqId, body: Body): World {
    ToClient(w.(server := w.server.(work := Idle)), Response(id, body))
  }

  /**
   * The next request. `limit` is the hub's subscriptions per client; `retained` is the lifecycle event a
   * new subscription starts with.
   */
  function ServerTakes(w: World, limit: nat, retained: Option<Event>): World
    requires w.toServer != []
  {
    var r := w.toServer[0];
    var s := w.server;
    var w := w.(toServer := w.toServer[1..]);
    if r.id <= s.lastRequest then w.(server := s.(fault := true))
    else
      var s := s.(lastRequest := r.id);
      match r.call
      case Publish => w.(server := s.(work := Publishing(r.id)))
      case Subscribe(channels) =>
        if s.nextSub >= MAX_SAFE_INTEGER then w.(server := Shutdown(s))
        else
          var n := s.nextSub;
          var s := s.(nextSub := n + 1);
          if !s.open || |Alive(s.hub)| >= limit then Respond(w.(server := s), r.id, Failed)
          else
            var first := if retained.Some? && retained.value.channel in channels then [retained.value] else [];
            var d := if first == [] then FRESH else Offered(FRESH, first[0]);
            w.(server := s.(hub := s.hub[n := HubSub(channels, d, first, |w.log|)],
                work := Opening(r.id, n, s.subs - Alive(s.hub))))
      case Unsubscribe(m) =>
        if m >= s.nextSub then w.(server := s.(fault := true))
        else
          var hub := if m in s.subs && m in s.hub
              then s.hub[m := s.hub[m].(delivery := Terminated(s.hub[m].delivery, Closed))] else s.hub;
          Respond(w.(server := s.(hub := hub, subs := s.subs - {m})), r.id, Released(m))
  }

  /** The awaited hub operation ends; `ok` is the outcome of a publish. */
  function ServerFinishes(w: World, ok: bool): World {
    match w.server.work
    case Idle => w
    case Publishing(id) => Respond(w, id, if ok then Done else Failed)
    case Opening(id, n, _) =>
      if n in w.server.hub && w.server.hub[n].delivery.active then
        var w' := PutHub(w, n, Revealed(w.server.hub[n].delivery));
        Respond(w'.(server := w'.server.(subs := w'.server.subs + {n})), id, Opened(n))
      else Respond(w, id, Failed)
  }

  /** A hub subscription's drain takes a turn; an event it hands over goes onto the lane. */
  function HubTurned(w: World, m: SubId, d: Delivery): World
    requires m in w.server.hub
  {
    var w' := PutHub(w, m, d);
    if |d.delivered| > |w.server.hub[m].delivery.delivered| then ToClient(w', Notice(m, d.delivered[|d.delivered| - 1]))
        else w'
  }

  /** Every subscription that names the event's channel is offered it. */
  function Routed(hub: map<SubId, HubSub>, e: Event): map<SubId, HubSub> {
    map m | m in hub :: if e.channel in hub[m].channels then hub[m].(delivery := Offered(hub[m].delivery, e))
        else hub[m]
  }

  function Shutdown(s: Server): Server {
    s.(open := false, subs := {},
       hub := map m | m in s.hub ::
           s.hub[m].(delivery := Terminated(s.hub[m].delivery, if m in s.subs then Closed else BindingTerminal)))
  }

  // ----- steps

  datatype Step =
    | Asks(call: Call)
    | ClosesHandle(sub: SubId)
    | Receives
    | Fires(sub: SubId)
    | Passes(sub: SubId)
    | Settles(sub: SubId)
    | Exposes(sub: SubId)
    | Shuts(sub: SubId)
    | ClientFails
    | Takes(retained: Option<Event>)
    | Finishes(ok: bool)
    | Reports(sub: SubId)
    | Routes(event: Event)
    | Ends(sub: SubId, reason: Reason)
    | HubFires(sub: SubId)
    | HubSettles(sub: SubId)
    | ServerShuts
    | LinkFails(keptToServer: nat, keptToClient: nat)

  function Apply(w: World, limit: nat, step: Step): Option<World> {
    var c, s := w.client, w.server;
    match step
    case Asks(call) =>
      if call.Unsubscribe? then None else Some(if Admits(c) then Ask(w, call) else w)
    case ClosesHandle(m) =>
      if m !in c.handles then None
      else if !c.handles[m].delivery.active then Some(w)
      else Some(LocalClose(PutHandle(w, m, EndHandle(c.handles[m], Closed)), m))
    case Receives => if w.toClient == [] then None else Some(ClientReceives(w))
    case Fires(m) =>
      if m !in c.handles || !c.handles[m].delivery.scheduled then None
      else Some(PutHandle(w, m, Turned(c.handles[m], Fired(c.handles[m].delivery))))
    case Passes(m) =>
      if m !in c.handles || !c.handles[m].inHand || c.handles[m].gate.Hidden? || c.handles[m].delivery.delivered == []
          then None
      else Some(PutHandle(w, m, Passed(c.handles[m])))
    case Settles(m) =>
      if m !in c.handles || !c.handles[m].delivery.running || c.handles[m].inHand then None
      else Some(PutHandle(w, m, Turned(c.handles[m], Settled(c.handles[m].delivery))))
    case Exposes(m) =>
      if m !in c.handles || !c.handles[m].gate.Hidden? then None
          else Some(PutHandle(w, m, c.handles[m].(gate := Exposed)))
    case Shuts(m) =>
      if m !in c.handles then None else Some(PutHandle(w, m, c.handles[m].(gate := Shut)))
    case ClientFails => Some(w.(client := FailClosed(c)))
    case Takes(retained) =>
      if !s.work.Idle? || w.toServer == [] then None else Some(ServerTakes(w, limit, retained))
    case Finishes(ok) =>
      if s.work.Idle? || (s.work.Opening? && s.work.stale * s.subs != {}) then None else Some(ServerFinishes(w, ok))
    case Reports(m) =>
      if m !in s.subs || m !in s.hub || s.hub[m].delivery.reason.None? then None
      else Some(ToClient(w.(server := s.(subs := s.subs - {m})), Terminal(m, s.hub[m].delivery.reason.value)))
    case Routes(e) => Some(w.(server := s.(hub := Routed(s.hub, e)), log := w.log + [e]))
    case Ends(m, reason) => if m !in s.hub then None else Some(PutHub(w, m, Terminated(s.hub[m].delivery, reason)))
    case HubFires(m) =>
      if m !in s.hub || !s.hub[m].delivery.scheduled then None else Some(HubTurned(w, m, Fired(s.hub[m].delivery)))
    case HubSettles(m) =>
      if m !in s.hub || !s.hub[m].delivery.running then None else Some(HubTurned(w, m, Settled(s.hub[m].delivery)))
    case ServerShuts => Some(w.(server := Shutdown(s)))
    case LinkFails(i, j) =>
      if i > |w.toServer| || j > |w.toClient| then None
      else Some(w.(up := false, toServer := w.toServer[..i], toClient := w.toClient[..j]))
  }

  function Run(limit: nat, steps: seq<Step>): Option<World> {
    if steps == [] then Some(INITIAL)
    else
      match Run(limit, steps[..|steps| - 1])
      case None => None
      case Some(w) => Apply(w, limit, steps[|steps| - 1])
  }

  /** Some run with this hub limit ends in this state. */
  ghost predicate Reachable(w: World, limit: nat) { exists steps :: Run(limit, steps) == Some(w) }
}
