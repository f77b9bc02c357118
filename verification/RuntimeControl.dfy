/**
 * Runtime control between Main and a Subsystem as a transition system: on each side a JSON-RPC
 * `Connection` (packages/runtime-control/src/runtime.ts) with its pending table, write queue and serial
 * dispatch lane, and on top of them the two status automata (main-peer.ts, subsystem-peer.ts).
 *
 * Responses are handled when they are read, calls one after the other in the dispatch lane. A promise
 * reaction (Subsystem's `connected = true`) runs before the next message is dispatched.
 */
module RuntimeControl {
  import opened Base

  type Id = nat

  datatype Method = Hello | Shutdown | MainFrame | SubFrame
  datatype Status = Awaiting | Identified | Initializing | Ready | Stopping | Failed
  datatype Verdict = Success | Recoverable | Fatal

  /** `Fault` is the error response of a protocol-fatal end, without an identity if it has none. */
  datatype Message =
    | Request(id: Id, call: Method)
    | Notify(status: Status)
    | Reply(id: Id, verdict: Verdict)
    | Fault(of: Option<Id>)

  datatype Outcome = Answered(verdict: Verdict) | TimedOut | Ended

  /** Why a side ended the protocol on the other's account. */
  datatype Cause =
    | InvalidRemoteId
    | UnsolicitedResponse
    | PeerFault
    | HelloTwice
    | RequestInState
    | StatusInState
    | InvalidNotification

  /** What the dispatch lane is at: a handler running, or its reply written and not yet accepted. */
  datatype Work = Free | Noting | Serving(id: Id, call: Method) | Replying(id: Id, call: Method, verdict: Verdict)

  /** `settles` records every settlement of a request, in order. */
  datatype Conn = Conn(ended: bool, cause: Option<Cause>, nextId: Id, remoteId: Id, pending: map<Id, Method>,
                       settles: map<Id, seq<Outcome>>, outbox: seq<Message>, lane: seq<Message>, work: Work)

  datatype Main = Main(conn: Conn, phase: Status, intent: bool)
  datatype Sub = Sub(conn: Conn, connected: bool, status: Status, mutation: bool, shutdown: bool)
  datatype World = World(main: Main, sub: Sub, toMain: seq<Message>, toSub: seq<Message>)

  const NEW_CONN := Conn(false, None, 1, 0, map[], map[], [], [], Free)

  /** The Subsystem opens by asking hello. */
  const INITIAL :=
      World(Main(NEW_CONN, Awaiting, false), Sub(Ask(NEW_CONN, Hello), false, Identified, false, false), [], [])

  // ----- connections

  function Settled(settles: map<Id, seq<Outcome>>, id: Id, outcome: Outcome): map<Id, seq<Outcome>> {
    settles[id := (if id in settles then settles[id] else []) + [outcome]]
  }

  function Ask(c: Conn, call: Method): Conn {
    c.(nextId := c.nextId + 1, pending := c.pending[c.nextId := call], outbox := c.outbox + [Request(c.nextId, call)])
  }

  /** `commit`: everything pending settles, nothing further is written. */
  function End(c: Conn, cause: Option<Cause>): Conn {
    if c.ended then c
    else
      c.(ended := true, cause := cause, pending := map[], outbox := [], lane := [],
         settles := map id | id in c.settles.Keys + c.pending.Keys ::
           (if id in c.settles then c.settles[id] else []) + (if id in c.pending then [Ended] else []))
  }

  function Answer(c: Conn, id: Id, outcome: Outcome): Conn {
    c.(pending := c.pending - {id}, settles := Settled(c.settles, id, outcome))
  }

  /** A response is read. */
  function Hear(c: Conn, m: Message): Conn {
    if c.ended then c
    else match m
      case Reply(id, verdict) =>
        if id !in c.pending then End(c, Some(UnsolicitedResponse))
        else
          var c' := Answer(c, id, Answered(verdict));
          if verdict.Fatal? then End(c', None) else c'
      case Fault(of) => End(c, Some(if of.Some? && of.value !in c.pending then UnsolicitedResponse else PeerFault))
      case _ => c.(lane := c.lane + [m])
  }

  function TimeOut(c: Conn, id: Id): Conn { End(Answer(c, id, TimedOut), None) }

  // ----- automata

  predicate Allowed(phase: Status, next: Status, intent: bool) {
    match phase
    case Identified => next.Initializing? || next.Ready? || next.Failed? || (intent && next.Stopping?)
    case Initializing => next.Ready? || next.Failed? || (intent && next.Stopping?)
    case Ready => next.Failed? || (intent && next.Stopping?)
    case Stopping => next.Failed?
    case _ => false
  }

  predicate Operating(phase: Status) { phase.Identified? || phase.Initializing? || phase.Ready? }

  /** A protocol-fatal end on a request, with the error response for it. */
  function FailMain(w: World, cause: Cause, of: Option<Option<Id>>): World {
    w.(main := w.main.(conn := End(w.main.conn, Some(cause))), toSub := if of.Some? then w.toSub + [Fault(of.value)]
        else w.toSub)
  }

  function FailSub(w: World, cause: Cause, of: Option<Option<Id>>): World {
    w.(sub := w.sub.(conn := End(w.sub.conn, Some(cause))), toMain := if of.Some? then w.toMain + [Fault(of.value)]
        else w.toMain)
  }

  /** Main's lane dispatches its first call. */
  function MainDispatches(w: World): World
    requires w.main.conn.lane != []
  {
    var m := w.main;
    var c := m.conn.(lane := m.conn.lane[1..]);
    match m.conn.lane[0]
    case Request(id, call) =>
      if id <= c.remoteId then FailMain(w, InvalidRemoteId, Some(None))
      else
        var w' := w.(main := m.(conn := c.(remoteId := id, work := Serving(id, call))));
        if call.Hello? then (if m.phase.Awaiting? then w' else FailMain(w', HelloTwice, Some(Some(id))))
        else if !call.SubFrame? || m.intent || !Operating(m.phase) then FailMain(w', RequestInState, Some(Some(id)))
        else w'
    case Notify(next) =>
      if !Allowed(m.phase, next, m.intent) then FailMain(w, StatusInState, None)
      else w.(main := m.(conn := c.(work := Noting), phase := next))
    case _ => w
  }

  function SubDispatches(w: World): World
    requires w.sub.conn.lane != []
  {
    var s := w.sub;
    var c := s.conn.(lane := s.conn.lane[1..]);
    match s.conn.lane[0]
    case Request(id, call) =>
      if id <= c.remoteId then FailSub(w, InvalidRemoteId, Some(None))
      else
        var w' := w.(sub := s.(conn := c.(remoteId := id, work := Serving(id, call))));
        if !s.connected || s.shutdown || !(call.Shutdown? || call.MainFrame?)
            then FailSub(w', RequestInState, Some(Some(id)))
        else w'.(sub := w'.sub.(shutdown := call.Shutdown?))
    case Notify(_) => FailSub(w, InvalidNotification, None)
    case _ => w
  }

  /** A handler ends with a reply; hello is accepted or refused, never fatal to the connection by itself. */
  function Finish(c: Conn, verdict: Verdict): Conn {
    match c.work
    case Noting => c.(work := Free)
    case Serving(id, call) => c.(work := Replying(id, call, verdict), outbox := c.outbox + [Reply(id, verdict)])
    case _ => c
  }

  /** The reply was accepted by the carrier; a hello's continuation identifies or refuses the Subsystem. */
  function MainAccepted(m: Main): Main {
    var free := m.(conn := m.conn.(work := Free));
    if !m.conn.work.Replying? || !m.conn.work.call.Hello? then free
    else if m.conn.work.verdict.Success? then free.(phase := Identified)
    else free.(phase := Failed, conn := End(free.conn, None))
  }

  /** Settling has its reactions: hello connects or closes the Subsystem, a frame answer ends the mutation. */
  function SubHears(s: Sub, m: Message): Sub {
    var c := Hear(s.conn, m);
    if s.conn.ended || !m.Reply? || m.id !in s.conn.pending then s.(conn := c)
    else if s.conn.pending[m.id].Hello? then
      if m.verdict.Success? then s.(conn := c, connected := true) else s.(conn := End(c, None))
    else s.(conn := c, mutation := s.mutation && m.verdict.Fatal?)
  }

  // ----- steps

  datatype Side = OnMain | OnSub

  datatype Step =
    | MainFrames
    | MainShuts
    | SubFrames
    | SubNotifies(status: Status)
    | Sends(side: Side)
    | Reads(side: Side)
    | Dispatches(side: Side)
    | Finishes(side: Side, verdict: Verdict)
    | Accepted(side: Side)
    | Deadline(side: Side, id: Id)
    | Ends(side: Side)
    | Loses(toMain: nat, toSub: nat)

  function Apply(w: World, step: Step): Option<World> {
    var m, s := w.main, w.sub;
    match step
    case MainFrames =>
      if m.conn.ended || m.intent || !Operating(m.phase) then None
          else Some(w.(main := m.(conn := Ask(m.conn, MainFrame))))
    case MainShuts =>
      if m.conn.ended || m.intent || !Operating(m.phase) then None
      else Some(w.(main := m.(conn := Ask(m.conn, Shutdown), intent := true)))
    case SubFrames =>
      if s.conn.ended || !s.connected || s.shutdown || !Operating(s.status) || s.mutation then None
      else Some(w.(sub := s.(conn := Ask(s.conn, SubFrame), mutation := true)))
    case SubNotifies(next) =>
      if s.conn.ended || !s.connected || !Allowed(s.status, next, s.shutdown) then None
      else Some(w.(sub := s.(conn := s.conn.(outbox := s.conn.outbox + [Notify(next)]), status := next)))
    case Sends(OnMain) =>
      if m.conn.outbox == [] then None
      else Some(w.(main := m.(conn := m.conn.(outbox := m.conn.outbox[1..])), toSub := w.toSub + [m.conn.outbox[0]]))
    case Sends(OnSub) =>
      if s.conn.outbox == [] then None
      else Some(w.(sub := s.(conn := s.conn.(outbox := s.conn.outbox[1..])), toMain := w.toMain + [s.conn.outbox[0]]))
    case Reads(OnMain) =>
      if w.toMain == [] then None
      else Some(w.(main := m.(conn := Hear(m.conn, w.toMain[0])), toMain := w.toMain[1..]))
    case Reads(OnSub) =>
      if w.toSub == [] then None else Some(w.(sub := SubHears(s, w.toSub[0]), toSub := w.toSub[1..]))
    case Dispatches(OnMain) =>
      if m.conn.ended || !m.conn.work.Free? || m.conn.lane == [] then None else Some(MainDispatches(w))
    case Dispatches(OnSub) =>
      if s.conn.ended || !s.conn.work.Free? || s.conn.lane == [] then None else Some(SubDispatches(w))
    case Finishes(OnMain, verdict) =>
      if m.conn.ended || (m.conn.work.Serving? && m.conn.work.call.Hello? && verdict.Fatal?) then None
      else Some(w.(main := m.(conn := Finish(m.conn, verdict))))
    case Finishes(OnSub, verdict) => if s.conn.ended then None else Some(w.(sub := s.(conn := Finish(s.conn, verdict))))
    case Accepted(OnMain) =>
      if m.conn.ended || !m.conn.work.Replying? || Reply(m.conn.work.id, m.conn.work.verdict) in m.conn.outbox then None
      else Some(w.(main := MainAccepted(m)))
    case Accepted(OnSub) =>
      if s.conn.ended || !s.conn.work.Replying? || Reply(s.conn.work.id, s.conn.work.verdict) in s.conn.outbox then None
      else Some(w.(sub := s.(conn := s.conn.(work := Free))))
    case Deadline(OnMain, id) =>
      if m.conn.ended || id !in m.conn.pending then None else Some(w.(main := m.(conn := TimeOut(m.conn, id))))
    case Deadline(OnSub, id) =>
      if s.conn.ended || id !in s.conn.pending then None else Some(w.(sub := s.(conn := TimeOut(s.conn, id))))
    case Ends(OnMain) => Some(w.(main := m.(conn := End(m.conn, None))))
    case Ends(OnSub) => Some(w.(sub := s.(conn := End(s.conn, None))))
    case Loses(i, j) =>
      if !(m.conn.ended || s.conn.ended) || i > |w.toMain| || j > |w.toSub| then None
      else Some(w.(toMain := w.toMain[..i], toSub := w.toSub[..j]))
  }

  function Run(steps: seq<Step>): Option<World> {
    if steps == [] then Some(INITIAL)
    else
      match Run(steps[..|steps| - 1])
      case None => None
      case Some(w) => Apply(w, steps[|steps| - 1])
  }

  ghost predicate Reachable(w: World) { exists steps :: Run(steps) == Some(w) }
}
