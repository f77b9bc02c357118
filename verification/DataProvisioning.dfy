/**
 * The private Data provisioning transaction of the PWA host as a transition system: the broker
 * (apps/pwa/src/data-broker.ts), the Window endpoint and the Runner endpoints it installs connections
 * on, the request tables of the two bridges, and one FIFO queue in each direction per endpoint.
 *
 * Every `await` of the source ends a step, so authority replacement, worker death, timeouts, aborts
 * and late acknowledgements may fall between any two of them. Connection and request identities
 * (random UUIDs in the source) are drawn from counters, which is what makes them fresh.
 */
module DataProvisioning {
  import opened Base

  type Key = string
  type RuntimeId = nat
  type ReqId = nat
  type ConnId = nat

  datatype Tuple = Tuple(key: Key, generation: nat, profile: string)
  datatype Entry = Entry(tuple: Tuple, runtime: RuntimeId)

  // ----- endpoints and ports

  /** What an endpoint slot holds: the Data connection installed for a tuple. */
  datatype Held = Held(tuple: Tuple, conn: ConnId)

  datatype Message = Message(req: ReqId, install: bool, tuple: Tuple, conn: ConnId)
  datatype Reply = Reply(req: ReqId, conn: ConnId, ok: bool)

  /**
   * `Stale` is a Window whose Session is no longer current: it keeps what it holds. `Shut` is a closed
   * Window: it holds nothing and still answers. `Dead` is a worker that no longer runs.
   */
  datatype Phase = Serving | Stale | Shut | Dead

  /** One end of a provisioning port. `key` is a Runner's own subsystem key, None for the Window. */
  datatype End = End(key: Option<Key>, phase: Phase, slots: map<Key, Held>, inbox: seq<Message>, outbox: seq<Reply>)

  datatype Target = ToWindow | ToRunner(runtime: RuntimeId)
  datatype Status = Pending | Resolved | Rejected
  datatype Request = Request(target: Target, install: bool, tuple: Tuple, conn: ConnId, status: Status)

  /**
   * The ends, the targets whose bridge or provisioner the broker's side has closed, and every request
   * ever made with its outcome.
   */
  datatype Net = Net(ends: map<Target, End>, severed: set<Target>, requests: map<ReqId, Request>, nextReq: ReqId)

  // ----- broker

  /** Where the asynchronous procedure working on a record is suspended. */
  datatype Stage =
    | Resting
    | AwaitRunnerInstall(req: ReqId)
    | AwaitWindowInstall(req: ReqId)
    | AwaitWindowRevoke(req: ReqId)
    | AwaitRunnerRevoke(req: ReqId)

  /** An Operation (in `cleanup`) or a Current (in `current`); `committed` is the latter's state. */
  datatype Record = Record(tuple: Tuple, runtime: RuntimeId, revision: nat, conn: ConnId, committed: bool,
                           aborted: bool, windowRevoked: bool, runnerRevoked: bool, stage: Stage)

  /** Position of the drain loop; `Idle` is the source's `running == false`. */
  datatype Drain =
    | Idle
    | Looping
    | RollingBack(undone: seq<Key>)
    | Comparing(desired: seq<Entry>, unchecked: seq<Key>)
    | Starting(todo: seq<Entry>, seen: nat)
    | Reconciled(ok: bool)
    | Finishing

  datatype Shutdown = Open | Waiting | Stopping(todo: set<Key>) | Done

  datatype Broker = Broker(
    authority: Option<seq<Entry>>, revision: nat,
    provisioners: set<RuntimeId>, terminated: set<RuntimeId>,
    current: map<Key, Record>, cleanup: map<Key, Record>,
    dirty: bool, retryArmed: bool, closed: bool, drain: Drain, shutdown: Shutdown)

  /** The composed state. `issued` and `latest` only record which connections were ever created. */
  datatype World = World(broker: Broker, net: Net, nextConn: ConnId, issued: map<ConnId, Tuple>,
      latest: map<Key, ConnId>)

  // ----- the endpoints; DataEndpoints.dfy shows that both endpoint classes act like this

  /** install refuses a closed or stale end and an occupied slot. */
  predicate Installs(e: End, tuple: Tuple) {
    e.phase.Serving? && tuple.key !in e.slots
  }

  /** revoke drops exactly the named connection and otherwise changes nothing. */
  function SlotsAfterRevoke(slots: map<Key, Held>, held: Held): map<Key, Held> {
    if held.tuple.key in slots && slots[held.tuple.key] == held then slots - {held.tuple.key} else slots
  }

  /** The end takes one message and posts its reply. */
  function Receive(e: End): End
    requires e.inbox != []
  {
    var m := e.inbox[0];
    var held := Held(m.tuple, m.conn);
    var slots := if !m.install then SlotsAfterRevoke(e.slots, held) else if Installs(e, m.tuple)
        then e.slots[m.tuple.key := held] else e.slots;
    e.(slots := slots, inbox := e.inbox[1..],
        outbox := e.outbox + [Reply(m.req, m.conn, !m.install || Installs(e, m.tuple))])
  }

  // ----- request tables

  function WithStatus(requests: map<ReqId, Request>, ids: set<ReqId>, status: Status): map<ReqId, Request> {
    map q | q in requests ::
      if q in ids && requests[q].status.Pending? then requests[q].(status := status) else requests[q]
  }

  function PendingTo(n: Net, target: Target): set<ReqId> {
    set q | q in n.requests && n.requests[q].target == target
  }

  /** What the bridge or provisioner answers synchronously; `Pending` means the message was posted. */
  function Admission(n: Net, t: Target, install: bool, tuple: Tuple, aborted: bool): Status
    requires t in n.ends
  {
    if t.ToRunner? && !install && t in n.severed then Resolved
    else if aborted || t in n.severed || (n.ends[t].key.Some? && n.ends[t].key.value != tuple.key) then Rejected
    else Pending
  }

  /** A dead worker's port loses what is posted to it. */
  function Deliver(n: Net, t: Target, m: Message): Net
    requires t in n.ends
  {
    if n.ends[t].phase.Dead? then n else n.(ends := n.ends[t := n.ends[t].(inbox := n.ends[t].inbox + [m])])
  }

  /** One request with the next fresh identity, which is `n.nextReq`. */
  function Post(n: Net, t: Target, install: bool, tuple: Tuple, conn: ConnId, aborted: bool): Net
    requires t in n.ends
  {
    var q := n.nextReq;
    var status := Admission(n, t, install, tuple, aborted);
    var n' := if status.Pending? then Deliver(n, t, Message(q, install, tuple, conn)) else n;
    n'.(requests := n.requests[q := Request(t, install, tuple, conn, status)], nextReq := q + 1)
  }

  /** A reply settles its request unless a timeout or an abort was faster. */
  function Answer(n: Net, reply: Reply): Net {
    if reply.req !in n.requests then n
    else
      var ok := reply.ok && (n.requests[reply.req].target.ToWindow? || reply.conn == n.requests[reply.req].conn);
      n.(requests := WithStatus(n.requests, {reply.req}, if ok then Resolved else Rejected))
  }

  // ----- the broker's synchronous decisions

  /** `desired()`: the entries whose runtime is not terminated; a duplicate of a kept key throws. */
  function Desired(entries: seq<Entry>, terminated: set<RuntimeId>): (d: Option<seq<Entry>>)
    decreases |entries|
  {
    if entries == [] then Some([])
    else
      var last := entries[|entries| - 1];
      match Desired(entries[..|entries| - 1], terminated)
      case None => None
      case Some(d) =>
        if FindEntry(d, last.tuple.key).Some? then None
        else if last.runtime in terminated then Some(d)
        else Some(d + [last])
  }

  /** The first entry listed for a key. */
  function FindEntry(entries: seq<Entry>, key: Key): (e: Option<Entry>)
    ensures e.Some? ==> e.value in entries && e.value.tuple.key == key
    ensures e.None? ==> forall x :: x in entries ==> x.tuple.key != key
  {
    if entries == [] then None
    else if entries[0].tuple.key == key then Some(entries[0])
    else FindEntry(entries[1..], key)
  }

  function AuthorityEntries(b: Broker): seq<Entry> {
    if b.authority.Some? then b.authority.value else []
  }

  /** Whether the authority lists exactly the record's tuple on the record's own runtime. */
  predicate Lists(entries: seq<Entry>, rec: Record) {
    FindEntry(entries, rec.tuple.key) == Some(Entry(rec.tuple, rec.runtime))
  }

  predicate StillDesired(b: Broker, op: Record) {
    && !b.closed
    && op.revision == b.revision
    && op.runtime !in b.terminated
    && Lists(AuthorityEntries(b), op)
    && op.runtime in b.provisioners
  }

  predicate KeepsCurrent(b: Broker, desired: seq<Entry>, rec: Record) {
    rec.committed && Lists(desired, rec) && rec.runtime in b.provisioners
  }

  /** `schedule()`. */
  function Schedule(b: Broker): Broker {
    if b.closed then b
    else b.(dirty := true, drain := if b.drain.Idle? then Looping else b.drain)
  }

  // ----- record procedures: provision, rollback, revokeCurrent

  /** How a record procedure stands: suspended, committed, revoked on both ends, or given up for now. */
  datatype Outcome = InProgress | Success | Revoked | Unfinished
  datatype Progress = Progress(world: World, outcome: Outcome)

  function RecordsOf(b: Broker): map<Key, Record> { b.current + b.cleanup }

  function PutRecord(w: World, k: Key, rec: Record): World {
    if k in w.broker.cleanup
    then w.(broker := w.broker.(cleanup := w.broker.cleanup[k := rec]))
    else w.(broker := w.broker.(current := w.broker.current[k := rec]))
  }

  function DropRecord(w: World, k: Key): World {
    w.(broker := w.broker.(cleanup := w.broker.cleanup - {k}, current := w.broker.current - {k}))
  }

  predicate RuntimeKnown(w: World, k: Key) {
    k in RecordsOf(w.broker) && ToWindow in w.net.ends && ToRunner(RecordsOf(w.broker)[k].runtime) in w.net.ends
  }

  /** Posts the Window revocation, or goes on to the Runner when the Window already confirmed. */
  function BeginRevocation(w: World, k: Key): Progress
    requires RuntimeKnown(w, k)
  {
    var rec := RecordsOf(w.broker)[k].(committed := false, aborted := true);
    if !rec.windowRevoked then
      var net := Post(w.net, ToWindow, false, rec.tuple, rec.conn, false);
      Progress(PutRecord(w.(net := net), k, rec.(stage := AwaitWindowRevoke(w.net.nextReq))), InProgress)
    else RevokeRunner(w, k, rec)
  }

  function RevokeRunner(w: World, k: Key, rec: Record): Progress
    requires k in RecordsOf(w.broker) && ToRunner(rec.runtime) in w.net.ends
  {
    if !rec.runnerRevoked then
      var net := Post(w.net, ToRunner(rec.runtime), false, rec.tuple, rec.conn, false);
      Progress(PutRecord(w.(net := net), k, rec.(stage := AwaitRunnerRevoke(w.net.nextReq))), InProgress)
    else EndRevocation(w, k, rec)
  }

  /** A record leaves the fence only once both ends confirmed; otherwise it stays for a retry. */
  function EndRevocation(w: World, k: Key, rec: Record): Progress
    requires k in RecordsOf(w.broker)
  {
    if rec.windowRevoked && rec.runnerRevoked then Progress(DropRecord(w, k), Revoked)
    else Progress(PutRecord(w, k, rec.(stage := Resting)), Unfinished)
  }

  function BeginProvision(w: World, e: Entry): World
    requires ToRunner(e.runtime) in w.net.ends
  {
    var conn := w.nextConn;
    var rec := Record(e.tuple, e.runtime, w.broker.revision, conn, false, false, false, false,
        AwaitRunnerInstall(w.net.nextReq));
    World(w.broker.(cleanup := w.broker.cleanup[e.tuple.key := rec]),
          Post(w.net, ToRunner(e.runtime), true, e.tuple, conn, false),
          conn + 1, w.issued[conn := e.tuple], w.latest[e.tuple.key := conn])
  }

  /** Both ends acknowledged: the operation leaves the fence and becomes the key's current connection. */
  function Committed(w: World, k: Key, rec: Record): World {
    var b := w.broker;
    w.(broker := b.(cleanup := b.cleanup - {k}, current := b.current[k := rec.(committed := true, stage := Resting)]))
  }

  predicate Settled(w: World, k: Key) {
    && k in RecordsOf(w.broker)
    && var stage := RecordsOf(w.broker)[k].stage;
       !stage.Resting? && stage.req in w.net.requests && !w.net.requests[stage.req].status.Pending?
  }

  /** The continuation after the awaited request settled. */
  function Resume(w: World, k: Key): Progress
    requires Settled(w, k) && RuntimeKnown(w, k)
  {
    var rec := RecordsOf(w.broker)[k];
    var fulfilled := w.net.requests[rec.stage.req].status.Resolved?;
    match rec.stage
    case AwaitRunnerInstall(_) =>
      if fulfilled && StillDesired(w.broker, rec) then
        var net := Post(w.net, ToWindow, true, rec.tuple, rec.conn, rec.aborted);
        Progress(PutRecord(w.(net := net), k, rec.(stage := AwaitWindowInstall(w.net.nextReq))), InProgress)
      else BeginRevocation(w, k)
    case AwaitWindowInstall(_) =>
      if fulfilled && StillDesired(w.broker, rec) then
        Progress(Committed(w, k, rec), Success)
      else BeginRevocation(w, k)
    case AwaitWindowRevoke(_) => RevokeRunner(w, k, rec.(windowRevoked := fulfilled))
    case AwaitRunnerRevoke(_) => EndRevocation(w, k, rec.(runnerRevoked := fulfilled))
    case Resting => Progress(w, InProgress)
  }

  // ----- the drain loop

  predicate IsListing(keys: seq<Key>, records: map<Key, Record>) {
    && (forall i, j :: 0 <= i < j < |keys| ==> keys[i] != keys[j])
    && (set k | k in keys) == records.Keys
  }

  function At(w: World, drain: Drain): World { w.(broker := w.broker.(drain := drain)) }

  /**
   * One segment of `drain`/`reconcile` between two awaits. `order` is the iteration order of the map
   * the segment takes a snapshot of; None means the segment is not runnable in this state. Taking the desired
   * list and skipping entries that need nothing are segments of their own, though the source does not await
   * there, so the runs of the model include all of the source's and a few more.
   */
  function DrainStep(w: World, order: seq<Key>): Option<World>
  {
    var b := w.broker;
    match b.drain
    case Idle => None
    case Looping =>
      if b.dirty && !b.closed then
        if IsListing(order, b.cleanup) then Some(At(w.(broker := b.(dirty := false)), RollingBack(order))) else None
      else Some(At(w, Finishing))
    case RollingBack(undone) =>
      if undone == [] then
        match Desired(AuthorityEntries(b), b.terminated)
        case None => Some(At(w, Reconciled(false)))
        case Some(d) => if IsListing(order, b.current) then Some(At(w, Comparing(d, order))) else None
      else
        (match Advance(w, undone[0])
        case None => None
        case Some(Progress(w', InProgress)) => Some(w')
        case Some(Progress(w', Unfinished)) => Some(At(w', Reconciled(false)))
        case Some(Progress(w', _)) => Some(At(w', RollingBack(undone[1..]))))
    case Comparing(d, unchecked) =>
      if unchecked == [] then
        if b.authority.None? || b.closed then Some(At(w, Reconciled(true)))
        else
          (match Desired(AuthorityEntries(b), b.terminated)
          case None => Some(At(w, Reconciled(false)))
          case Some(d') => Some(At(w, Starting(d', b.revision))))
      else if unchecked[0] in b.current && KeepsCurrent(b, d, b.current[unchecked[0]]) then
        Some(At(w, Comparing(d, unchecked[1..])))
      else
        (match Advance(w, unchecked[0])
        case None => None
        case Some(Progress(w', InProgress)) => Some(w')
        case Some(Progress(w', Unfinished)) => Some(At(w', Reconciled(false)))
        case Some(Progress(w', _)) => Some(At(w', Comparing(d, unchecked[1..]))))
    case Starting(todo, seen) =>
      if todo == [] then Some(At(w, Reconciled(true)))
      else if todo[0].tuple.key in b.cleanup && !b.cleanup[todo[0].tuple.key].stage.Resting? then
        (match Advance(w, todo[0].tuple.key)
        case None => None
        case Some(Progress(w', InProgress)) => Some(w')
        case Some(Progress(w', Success)) => Some(At(w', Starting(todo[1..], seen)))
        case Some(Progress(w', _)) => Some(At(w', Reconciled(false))))
      else if StartsProvision(w) then Some(BeginProvision(w, todo[0]))
      else Some(At(w, Starting(todo[1..], seen)))
    case Reconciled(ok) =>
      if ok || b.dirty then Some(At(w, Looping))
      else Some(At(w.(broker := b.(retryArmed := b.retryArmed || !b.closed)), Finishing))
    case Finishing => Some(w.(broker := if b.dirty then Schedule(b.(drain := Idle)) else b.(drain := Idle)))
  }

  /** The guard of `provision`: nothing recorded for the key, and the runtime has a provisioner. */
  predicate StartsProvision(w: World) {
    && w.broker.drain.Starting?
    && w.broker.drain.todo != []
    && var e := w.broker.drain.todo[0];
    && e.tuple.key !in RecordsOf(w.broker)
    && e.runtime in w.broker.provisioners
    && ToRunner(e.runtime) in w.net.ends
  }

  /** Runs the procedure of one record: starts a revocation if none runs, else continues it. */
  function Advance(w: World, k: Key): Option<Progress> {
    if !RuntimeKnown(w, k) then None
    else if RecordsOf(w.broker)[k].stage.Resting? then Some(BeginRevocation(w, k))
    else if Settled(w, k) then Some(Resume(w, k))
    else None
  }

  // ----- environment

  datatype Step =
    | Replace(view: Option<seq<Entry>>)
    | Register(rt: RuntimeId)
    | Terminated(rt: RuntimeId)
    | Launch(rt: RuntimeId, key: Key)
    | WorkerDies(rt: RuntimeId)
    | HostCloses(rt: RuntimeId)
    | WindowLeaves
    | WindowCloses
    | BridgeCloses
    | Receives(t: Target)
    | Answers(t: Target)
    | Timeout(req: ReqId)
    | RetryFires
    | Drains(order: seq<Key>)
    | Close
    | BeginStopping
    | Stops(key: Key)
    | EndStopping

  /** None stands for every runtime. */
  predicate Concerns(whose: Option<RuntimeId>, op: Record) {
    whose.None? || whose.value == op.runtime
  }

  /** Requests carrying the abort signal of an operation that is being installed. */
  function SignalledBy(ops: map<Key, Record>, whose: Option<RuntimeId>): set<ReqId> {
    set k | k in ops && Concerns(whose, ops[k])
        && (ops[k].stage.AwaitRunnerInstall? || ops[k].stage.AwaitWindowInstall?) :: ops[k].stage.req
  }

  /** Aborts the controllers of every fenced operation it concerns. */
  function Abort(w: World, whose: Option<RuntimeId>): World {
    var b := w.broker;
    w.(broker := b.(cleanup := map k | k in b.cleanup ::
                      if Concerns(whose, b.cleanup[k]) then b.cleanup[k].(aborted := true) else b.cleanup[k]),
       net := w.net.(requests := WithStatus(w.net.requests, SignalledBy(b.cleanup, whose), Rejected)))
  }

  function WithEnd(n: Net, t: Target, e: End): Net { n.(ends := n.ends[t := e]) }

  /** The broker's side of a bridge closes: everything pending on it is rejected. */
  function Sever(n: Net, t: Target): Net {
    n.(severed := n.severed + {t}, requests := WithStatus(n.requests, PendingTo(n, t), Rejected))
  }

  function Kill(e: End): End { e.(phase := Dead, slots := map[], inbox := []) }

  function Apply(w: World, step: Step): Option<World> {
    var b, n := w.broker, w.net;
    match step
    case Replace(view) =>
      if b.closed then Some(w)
      else
        var a := Abort(w, None);
        Some(a.(broker := Schedule(a.broker.(authority := view, revision := b.revision + 1, retryArmed := false))))
    case Register(rt) =>
      if ToRunner(rt) !in n.ends then None
      else if b.closed || rt in b.terminated then Some(w)
      else Some(w.(broker := Schedule(b.(provisioners := b.provisioners + {rt}, retryArmed := false))))
    case Terminated(rt) =>
      if rt !in b.provisioners then None
      else
        var a := Abort(w, Some(rt));
        Some(a.(broker :=
            Schedule(a.broker.(terminated := b.terminated + {rt}, provisioners := b.provisioners - {rt}))))
    case Launch(rt, key) =>
      if ToRunner(rt) in n.ends then None
      else Some(w.(net := WithEnd(n, ToRunner(rt), End(Some(key), Serving, map[], [], []))))
    case WorkerDies(rt) =>
      if ToRunner(rt) !in n.ends then None else Some(w.(net := WithEnd(n, ToRunner(rt), Kill(n.ends[ToRunner(rt)]))))
    case HostCloses(rt) =>
      if ToRunner(rt) !in n.ends then None
      else Some(w.(net := Sever(WithEnd(n, ToRunner(rt), Kill(n.ends[ToRunner(rt)])), ToRunner(rt))))
    case WindowLeaves =>
      if ToWindow !in n.ends || !n.ends[ToWindow].phase.Serving? then None
      else Some(w.(net := WithEnd(n, ToWindow, n.ends[ToWindow].(phase := Stale))))
    case WindowCloses =>
      if ToWindow !in n.ends then None
      else Some(w.(net := WithEnd(n, ToWindow, n.ends[ToWindow].(phase := Shut, slots := map[]))))
    case BridgeCloses => Some(w.(net := Sever(n, ToWindow)))
    case Receives(t) =>
      if t !in n.ends || n.ends[t].inbox == [] then None else Some(w.(net := WithEnd(n, t, Receive(n.ends[t]))))
    case Answers(t) =>
      if t !in n.ends || t in n.severed || n.ends[t].outbox == [] then None
      else
        var e := n.ends[t];
        Some(w.(net := Answer(WithEnd(n, t, e.(outbox := e.outbox[1..])), e.outbox[0])))
    case Timeout(q) => Some(w.(net := n.(requests := WithStatus(n.requests, {q}, Rejected))))
    case RetryFires => if !b.retryArmed then None else Some(w.(broker := Schedule(b.(retryArmed := false))))
    case Drains(order) => DrainStep(w, order)
    case Close =>
      if b.closed then Some(w)
      else
        var a := Abort(w, None);
        Some(a.(broker :=
            a.broker.(closed := true, authority := None, revision := b.revision + 1, retryArmed := false,
            shutdown := Waiting)))
    case BeginStopping =>
      if b.shutdown.Waiting? && b.drain.Idle? then Some(w.(broker := b.(shutdown := Stopping(RecordsOf(b).Keys))))
          else None
    case Stops(k) =>
      if !b.shutdown.Stopping? || !RuntimeKnown(w, k) then None
      else if k in b.shutdown.todo then
        var w' := BeginRevocation(w, k).world;
        Some(w'.(broker := w'.broker.(shutdown := Stopping(b.shutdown.todo - {k}))))
      else if Settled(w, k) then Some(Resume(w, k).world)
      else None
    case EndStopping =>
      if b.shutdown == Stopping({}) && (forall k :: k in RecordsOf(b) ==> RecordsOf(b)[k].stage.Resting?)
      then Some(w.(broker := b.(shutdown := Done, current := map[], cleanup := map[]))) else None
  }

  const INITIAL := World(
    Broker(None, 0, {}, {}, map[], map[], false, false, false, Idle, Open),
    Net(map[ToWindow := End(None, Serving, map[], [], [])], {}, map[], 0),
    0, map[], map[])

  /** The state after a run from the initial state, or None if some step was not possible. */
  function Run(steps: seq<Step>): Option<World> {
    if steps == [] then Some(INITIAL)
    else
      match Run(steps[..|steps| - 1])
      case None => None
      case Some(w) => Apply(w, steps[|steps| - 1])
  }

  /** Some run ends in this state. */
  ghost predicate Reachable(w: World) { exists steps :: Run(steps) == Some(w) }
}
