/** What the Data provisioning transaction guarantees in every reachable state, and where it stops short. */
module DataProvisioningResults {
  import opened Base
  import opened DataProvisioning
  import opened DataProvisioningSafety
  import opened DataProvisioningConvergence

  // ----- safety

  /** Whatever the interleaving, two ends never hold different connections for one key. */
  lemma EndsAgree(w: World, t: Target, u: Target, key: Key)
    requires Reachable(w)
    requires t in w.net.ends && u in w.net.ends && key in w.net.ends[t].slots && key in w.net.ends[u].slots
    ensures w.net.ends[t].slots[key] == w.net.ends[u].slots[key]
  {
    var steps :| Run(steps) == Some(w);
    ReachableSafe(steps);
    assert EndOwned(w, t, w.net.ends[t]) && EndOwned(w, u, w.net.ends[u]);
    assert EndOk(w.net, t, w.net.ends[t], w.issued) && EndOk(w.net, u, w.net.ends[u], w.issued);
  }

  /** A committed record: each end is gone or holds exactly the recorded connection. */
  lemma CommittedIsBacked(w: World, key: Key)
    requires Reachable(w) && key in w.broker.current && w.broker.current[key].committed
    ensures var rec := w.broker.current[key];
            && ToWindow in w.net.ends && Backs(w.net.ends[ToWindow], HeldOf(rec))
            && ToRunner(rec.runtime) in w.net.ends && Backs(w.net.ends[ToRunner(rec.runtime)], HeldOf(rec))
  {
    var steps :| Run(steps) == Some(w);
    ReachableSafe(steps);
    assert key in RecordsOf(w.broker) && RecordOk(w, key, RecordsOf(w.broker)[key]);
    assert RecordsOf(w.broker)[key] == w.broker.current[key];
  }

  lemma OnlyDrainsIssue(w: World, step: Step)
    requires Apply(w, step).Some? && Apply(w, step).value.nextConn != w.nextConn
    ensures step.Drains? && StartsProvision(w)
  {
    match step
    case Drains(order) => DrainIssues(w, order);
    case Stops(k) =>
      if RuntimeKnown(w, k) { BeginOnlyRecords(w, k); if Settled(w, k) { ResumeOnlyRecords(w, k); } }
    case _ =>
  }

  lemma DrainIssues(w: World, order: seq<Key>)
    requires DrainStep(w, order).Some? && DrainStep(w, order).value.nextConn != w.nextConn
    ensures StartsProvision(w)
  {
    hide Advance;
    match w.broker.drain
    case RollingBack(undone) => if undone != [] { AdvanceOnlyRecords(w, undone[0]); }
    case Comparing(d, unchecked) => if unchecked != [] { AdvanceOnlyRecords(w, unchecked[0]); }
    case Starting(todo, seen) => if todo != [] { AdvanceOnlyRecords(w, todo[0].tuple.key); }
    case _ =>
  }

  /** A new connection is only ever created for a key that neither end has anything of. */
  lemma ProvisionStartsClear(w: World, step: Step)
    requires Reachable(w) && Apply(w, step).Some? && Apply(w, step).value.nextConn != w.nextConn
    ensures step.Drains? && w.broker.drain.Starting? && w.broker.drain.todo != []
    ensures KeyClear(w.net, w.broker.drain.todo[0].tuple.key)
  {
    var steps :| Run(steps) == Some(w);
    ReachableSafe(steps);
    OnlyDrainsIssue(w, step);
    UnrecordedIsClear(w, w.broker.drain.todo[0].tuple.key);
  }

  // ----- every request settles once

  ghost predicate KeepsOutcomes(n: Net, n': Net) {
    forall q :: q in n.requests ==>
        q in n'.requests && (n.requests[q].status.Pending? || n'.requests[q] == n.requests[q])
  }

  lemma PostKeepsOutcomes(n: Net, t: Target, install: bool, tuple: Tuple, conn: ConnId, aborted: bool)
    requires t in n.ends && n.nextReq !in n.requests
    ensures KeepsOutcomes(n, Post(n, t, install, tuple, conn, aborted))
  {
  }

  lemma AdvanceKeepsOutcomes(w: World, k: Key)
    requires w.net.nextReq !in w.net.requests && RuntimeKnown(w, k)
    ensures KeepsOutcomes(w.net, BeginRevocation(w, k).world.net)
    ensures Settled(w, k) ==> KeepsOutcomes(w.net, Resume(w, k).world.net)
  {
    hide Post, StillDesired, KeepsOutcomes;
    var rec := RecordsOf(w.broker)[k];
    PostKeepsOutcomes(w.net, ToWindow, false, rec.tuple, rec.conn, false);
    PostKeepsOutcomes(w.net, ToRunner(rec.runtime), false, rec.tuple, rec.conn, false);
    PostKeepsOutcomes(w.net, ToWindow, true, rec.tuple, rec.conn, rec.aborted);
    SameKeepsOutcomes(w.net);
  }

  lemma SameKeepsOutcomes(n: Net)
    ensures KeepsOutcomes(n, n)
  {
  }

  lemma DrainKeepsOutcomes(w: World, order: seq<Key>)
    requires w.net.nextReq !in w.net.requests && DrainStep(w, order).Some?
    ensures KeepsOutcomes(w.net, DrainStep(w, order).value.net)
  {
    hide KeepsOutcomes, BeginRevocation, Resume, Post, Desired, KeepsCurrent;
    SameKeepsOutcomes(w.net);
    forall k | RuntimeKnown(w, k)
      ensures KeepsOutcomes(w.net, BeginRevocation(w, k).world.net)
      ensures Settled(w, k) ==> KeepsOutcomes(w.net, Resume(w, k).world.net)
    { AdvanceKeepsOutcomes(w, k); }
    if StartsProvision(w) {
      var e := w.broker.drain.todo[0];
      PostKeepsOutcomes(w.net, ToRunner(e.runtime), true, e.tuple, w.nextConn, false);
    }
  }

  /** Whatever happens after a request settled (a late reply, a timeout, an abort, a close), its outcome stays. */
  lemma OutcomeIsFinal(w: World, step: Step, q: ReqId)
    requires Reachable(w) && Apply(w, step).Some? && q in w.net.requests && !w.net.requests[q].status.Pending?
    ensures q in Apply(w, step).value.net.requests && Apply(w, step).value.net.requests[q] == w.net.requests[q]
  {
    hide DrainStep, BeginRevocation, Resume, NetOk, OwnershipOk, RecordsOk, BookOk;
    var steps :| Run(steps) == Some(w);
    ReachableSafe(steps);
    NextRequestIsFresh(w.net, w.issued);
    match step
    case Drains(order) => DrainKeepsOutcomes(w, order);
    case Stops(k) => if RuntimeKnown(w, k) { AdvanceKeepsOutcomes(w, k); }
    case _ =>
  }

  // ----- convergence

  /** The authority lists the entry, its runtime has not terminated and has a provisioner. */
  predicate Asked(b: Broker, e: Entry) {
    e in AuthorityEntries(b) && e.runtime !in b.terminated && e.runtime in b.provisioners
  }

  /**
   * Nothing is fenced, no key is asked for twice, and the connections are exactly those asked for: a key is
   * connected if and only if an entry of it is asked for, and then by a committed connection of that entry.
   */
  ghost predicate Agrees(b: Broker) {
    && b.cleanup == map[]
    && !Ambiguous(AuthorityEntries(b), b.terminated)
    && (forall key :: key in b.current <==> exists e :: Asked(b, e) && e.tuple.key == key)
    && (forall key :: key in b.current ==>
       && b.current[key].committed && b.current[key].tuple.key == key
       && Asked(b, Entry(b.current[key].tuple, b.current[key].runtime)))
  }

  /** Convergence means agreement with authority, terminations and provisioners, and nothing else does. */
  lemma ConvergedMeans(b: Broker)
    ensures Converged(b) <==> Agrees(b)
  {
    var entries := AuthorityEntries(b);
    DesiredIs(entries, b.terminated);
    DesiredIsSound(entries, b.terminated);
    if Converged(b) { ConvergedAgrees(b); }
    if Agrees(b) { AgreesConverged(b); }
  }

  lemma ConvergedAgrees(b: Broker)
    requires Converged(b)
    ensures Agrees(b)
  {
    hide Desired;
    var d := DesiredNow(b).value;
    DesiredIs(AuthorityEntries(b), b.terminated);
    forall key | key in b.current
      ensures b.current[key].committed && b.current[key].tuple.key == key
      ensures Asked(b, Entry(b.current[key].tuple, b.current[key].runtime))
    {
      assert KeepsCurrent(b, d, b.current[key]);
      assert Entry(b.current[key].tuple, b.current[key].runtime) in d;
    }
    forall key ensures key in b.current <==> exists e :: Asked(b, e) && e.tuple.key == key {
      if key in b.current { assert Asked(b, Entry(b.current[key].tuple, b.current[key].runtime)); }
      if e :| Asked(b, e) && e.tuple.key == key { assert e in d; }
    }
  }

  lemma AgreesConverged(b: Broker)
    requires Agrees(b)
    ensures Converged(b)
  {
    hide Desired;
    DesiredIs(AuthorityEntries(b), b.terminated);
    DesiredIsSound(AuthorityEntries(b), b.terminated);
    var d := DesiredNow(b).value;
    forall key | key in b.current ensures KeepsCurrent(b, d, b.current[key]) {
      var e := Entry(b.current[key].tuple, b.current[key].runtime);
      assert Asked(b, e);
      assert e in d;
      var i :| 0 <= i < |d| && d[i] == e;
      FindDistinct(d, i);
    }
    forall e | e in d && e.runtime in b.provisioners ensures e.tuple.key in b.current { assert Asked(b, e); }
  }

  /** A reconcile that succeeds with nothing new to do leaves exactly the connections asked for. */
  lemma SuccessfulReconcileConverges(w: World)
    requires Reachable(w) && w.broker.drain == Reconciled(true) && !w.broker.dirty && !w.broker.closed
    ensures Agrees(w.broker)
  {
    hide Converged, Agrees;
    var steps :| Run(steps) == Some(w);
    ReachableConverging(steps);
    ConvergedMeans(w.broker);
  }

  /** At any later time a divergence means work is pending, running, or a retry timer is armed. */
  lemma DivergenceIsNoticed(w: World)
    requires Reachable(w) && !w.broker.closed && !Agrees(w.broker)
    ensures w.broker.dirty || !w.broker.drain.Idle? || w.broker.retryArmed
  {
    hide Converged, Agrees;
    var steps :| Run(steps) == Some(w);
    ReachableConverging(steps);
    ConvergedMeans(w.broker);
  }

  /** Unless the authority was replaced since the list was taken, a provision starts for a listed entry. */
  lemma StartIsListed(w: World)
    requires Reachable(w) && StartsProvision(w)
    ensures var e := w.broker.drain.todo[0];
            && e.runtime !in w.broker.terminated
            && (w.broker.drain.seen == w.broker.revision ==> e in AuthorityEntries(w.broker))
  {
    var steps :| Run(steps) == Some(w);
    ReachableConverging(steps);
  }

  predicate NewlyCommitted(b: Broker, b': Broker, key: Key) {
    key in b'.current && b'.current[key].committed && !(key in b.current && b.current[key].committed)
  }

  lemma RevokesCommitsNothing(b: Broker, b': Broker, j: Key, outcome: Outcome, rec: Record, key: Key)
    requires j in RecordsOf(b) && Revokes(b, b', j, outcome, rec)
    ensures !NewlyCommitted(b, b', key)
  {
  }

  lemma CommitsOnlyItself(b: Broker, b': Broker, j: Key, key: Key)
    requires Commits(b, b', j) && NewlyCommitted(b, b', key)
    ensures j == key
  {
  }

  lemma SuspendedIsUncommitted(w: World, j: Key)
    requires Safe(w) && j in RecordsOf(w.broker)
    ensures !RecordsOf(w.broker)[j].stage.Resting? ==> !RecordsOf(w.broker)[j].committed
    ensures j in w.broker.current ==>
            !RecordsOf(w.broker)[j].committed || w.broker.current[j].committed || j in w.broker.cleanup
  {
    assert RecordOk(w, j, RecordsOf(w.broker)[j]);
  }

  lemma AwaitsCommitsNothing(b: Broker, b': Broker, j: Key, rec: Record, key: Key)
    requires AwaitsWindow(b, b', j, rec)
    ensures !NewlyCommitted(b, b', key)
  {
  }

  lemma AdvanceCommits(w: World, j: Key, key: Key)
    requires Safe(w) && Advance(w, j).Some?
    ensures NewlyCommitted(w.broker, Advance(w, j).value.world.broker, key) ==>
            Confirmed(w, key) && Commits(w.broker, Advance(w, j).value.world.broker, key)
  {
    hide Safe, Advance, Revokes, Commits, NewlyCommitted, AwaitsWindow, Confirmed;
    AdvanceNeeds(w, j);
    SuspendedIsUncommitted(w, j);
    var rec := AdvanceEffect(w, j);
    var p := Advance(w, j).value;
    if p.outcome.Success? {
      if NewlyCommitted(w.broker, p.world.broker, key) { CommitsOnlyItself(w.broker, p.world.broker, j, key); }
    } else if Revokes(w.broker, p.world.broker, j, p.outcome, rec) {
      RevokesCommitsNothing(w.broker, p.world.broker, j, p.outcome, rec, key);
    } else {
      AwaitsCommitsNothing(w.broker, p.world.broker, j, rec, key);
    }
  }

  lemma RollingCommits(w: World, order: seq<Key>, key: Key)
    requires Safe(w) && DrainStep(w, order).Some? && NewlyCommitted(w.broker, DrainStep(w, order).value.broker, key)
    requires w.broker.drain.RollingBack? || w.broker.drain.Comparing?
    ensures Confirmed(w, key) && Commits(w.broker, DrainStep(w, order).value.broker.(drain := w.broker.drain), key)
  {
    hide Safe, Advance, DrainStep, Confirmed, KeepsCurrent, Commits, NewlyCommitted;
    var d := w.broker.drain;
    if d.RollingBack? && d.undone != [] {
      RollingBecomes(w, order);
      AdvanceCommitsAt(w, d.undone[0], DrainStep(w, order).value.broker.drain, key);
    } else if d.Comparing? && d.unchecked != [] {
      ComparingBecomes(w, order);
      SameCommitsNothing(w.broker, DrainStep(w, order).value.broker.drain, key);
      if Advance(w, d.unchecked[0]).Some? {
        AdvanceCommitsAt(w, d.unchecked[0], DrainStep(w, order).value.broker.drain, key);
      }
    } else { PauseCommitsNothing(w, order, key); }
  }

  /** Moving the drain loop on has no part in committing. */
  lemma AdvanceCommitsAt(w: World, j: Key, drain: Drain, key: Key)
    requires Safe(w) && Advance(w, j).Some?
    ensures var b' := Advance(w, j).value.world.broker;
            && b'.(drain := drain).(drain := w.broker.drain) == b'
            && (NewlyCommitted(w.broker, b'.(drain := drain), key) ==> Confirmed(w, key) && Commits(w.broker, b', key))
  {
    hide Safe, Advance, Confirmed, Commits;
    AdvanceOnlyRecords(w, j);
    AdvanceCommits(w, j, key);
  }

  lemma SameCommitsNothing(b: Broker, drain: Drain, key: Key)
    ensures !NewlyCommitted(b, b.(drain := drain), key)
  {
  }

  lemma BeginCommitsNothing(w: World, e: Entry, key: Key)
    requires ToRunner(e.runtime) in w.net.ends
    ensures !NewlyCommitted(w.broker, BeginProvision(w, e).broker, key)
  {
  }

  lemma PauseCommitsNothing(w: World, order: seq<Key>, key: Key)
    requires DrainStep(w, order).Some? && Pauses(w.broker.drain)
    ensures !NewlyCommitted(w.broker, DrainStep(w, order).value.broker, key)
  {
    hide DrainStep;
    PauseKeepsRecords(w, order);
  }

  lemma StartingCommits(w: World, order: seq<Key>, key: Key)
    requires Safe(w) && DrainStep(w, order).Some? && NewlyCommitted(w.broker, DrainStep(w, order).value.broker, key)
    requires w.broker.drain.Starting?
    ensures Confirmed(w, key) && Commits(w.broker, DrainStep(w, order).value.broker.(drain := w.broker.drain), key)
  {
    hide Safe, Advance, DrainStep, Confirmed, Commits, NewlyCommitted, BeginProvision;
    var d := w.broker.drain;
    if d.todo == [] { PauseCommitsNothing(w, order, key); }
    else {
      StartingBecomes(w, order);
      SameCommitsNothing(w.broker, DrainStep(w, order).value.broker.drain, key);
      if StartsProvision(w) { BeginCommitsNothing(w, d.todo[0], key); }
      if Advance(w, d.todo[0].tuple.key).Some? {
        AdvanceCommitsAt(w, d.todo[0].tuple.key, DrainStep(w, order).value.broker.drain, key);
      }
    }
  }

  lemma DrainCommits(w: World, order: seq<Key>, key: Key)
    requires Safe(w) && DrainStep(w, order).Some? && NewlyCommitted(w.broker, DrainStep(w, order).value.broker, key)
    ensures Confirmed(w, key) && Commits(w.broker, DrainStep(w, order).value.broker.(drain := w.broker.drain), key)
  {
    hide Safe, DrainStep, Confirmed, Commits, NewlyCommitted;
    match w.broker.drain
    case RollingBack(_) => RollingCommits(w, order, key);
    case Comparing(_, _) => RollingCommits(w, order, key);
    case Starting(_, _) => StartingCommits(w, order, key);
    case _ => PauseCommitsNothing(w, order, key);
  }

  lemma StopsIs(w: World, k: Key)
    requires (!w.broker.shutdown.Open? <==> w.broker.closed) && Apply(w, Stops(k)).Some?
    ensures w.broker.closed && w.broker.shutdown.Stopping? && RuntimeKnown(w, k)
    ensures var b' := Apply(w, Stops(k)).value.broker;
            if k in w.broker.shutdown.todo
            then b'.current == BeginRevocation(w, k).world.broker.current
                && b'.cleanup == BeginRevocation(w, k).world.broker.cleanup
            else Advance(w, k).Some? && b' == Advance(w, k).value.world.broker
  {
    hide BeginRevocation, Resume;
    BeginOnlyRecords(w, k);
  }

  lemma StopsCommits(w: World, k: Key, key: Key)
    requires Safe(w) && Apply(w, Stops(k)).Some?
    ensures !NewlyCommitted(w.broker, Apply(w, Stops(k)).value.broker, key)
  {
    hide NetOk, OwnershipOk, RecordsOk, BeginRevocation, Apply, Advance, Revokes;
    StopsIs(w, k);
    if k in w.broker.shutdown.todo {
      var rec := BeginRevokes(w, k);
      var p := BeginRevocation(w, k);
      RevokesCommitsNothing(w.broker, p.world.broker, k, p.outcome, rec, key);
    } else {
      AdvanceCommits(w, k, key);
    }
  }

  lemma CommitComesFrom(w: World, step: Step, key: Key)
    requires Safe(w) && Apply(w, step).Some? && NewlyCommitted(w.broker, Apply(w, step).value.broker, key)
    ensures Confirmed(w, key) && Commits(w.broker, Apply(w, step).value.broker.(drain := w.broker.drain), key)
  {
    match step
    case Drains(order) => DrainCommits(w, order, key);
    case Stops(k) => StopsCommits(w, k, key);
    case _ =>
  }

  /** The entry is listed, and no earlier one has its key. */
  ghost predicate FirstListed(entries: seq<Entry>, e: Entry) {
    exists i :: 0 <= i < |entries| && entries[i] == e && forall j :: 0 <= j < i ==> entries[j].tuple.key != e.tuple.key
  }

  lemma {:induction false} FindIsFirst(entries: seq<Entry>, key: Key)
    ensures FindEntry(entries, key).Some? ==> FirstListed(entries, FindEntry(entries, key).value)
    decreases |entries|
  {
    if entries != [] && entries[0].tuple.key != key {
      var rest := entries[1..];
      FindIsFirst(rest, key);
      if FindEntry(rest, key).Some? {
        var e := FindEntry(rest, key).value;
        var i :| 0 <= i < |rest| && rest[i] == e && forall j :: 0 <= j < i ==> rest[j].tuple.key != e.tuple.key;
        forall j | 0 <= j < i + 1 ensures entries[j].tuple.key != e.tuple.key {
          if j > 0 { assert entries[j] == rest[j - 1]; }
        }
        assert entries[i + 1] == e;
      }
    }
  }

  /** Committing is never late: both ends back the connection and the current authority lists the entry. */
  lemma CommitIsListed(w: World, step: Step, key: Key)
    requires Reachable(w) && Apply(w, step).Some?
    requires NewlyCommitted(w.broker, Apply(w, step).value.broker, key)
    ensures var rec := Apply(w, step).value.broker.current[key];
            && FirstListed(AuthorityEntries(w.broker), Entry(rec.tuple, rec.runtime)) && rec.tuple.key == key
            && rec.revision == w.broker.revision
            && rec.runtime in w.broker.provisioners && rec.runtime !in w.broker.terminated && !w.broker.closed
            && ToWindow in w.net.ends && Backs(w.net.ends[ToWindow], HeldOf(rec))
            && ToRunner(rec.runtime) in w.net.ends && Backs(w.net.ends[ToRunner(rec.runtime)], HeldOf(rec))
  {
    var steps :| Run(steps) == Some(w);
    ReachableSafe(steps);
    CommitComesFrom(w, step, key);
    OutcomeMeans(w, key);
    ReachableConverging(steps);
    assert RecordOk(w, key, RecordsOf(w.broker)[key]);
    FindIsFirst(AuthorityEntries(w.broker), key);
  }

  lemma ReachableStep(w: World, step: Step)
    requires Reachable(w) && Apply(w, step).Some?
    ensures Reachable(Apply(w, step).value)
  {
    var steps :| Run(steps) == Some(w);
    var longer := steps + [step];
    assert longer[..|longer| - 1] == steps;
    assert Run(longer) == Apply(w, step);
  }

  // A run of two keys, "a" on runtime 0 and "b" on runtime 1, cut into stretches of a few steps.

  const ENTRY_A := Entry(Tuple("a", 1, "p"), 0)
  const ENTRY_B := Entry(Tuple("b", 1, "p"), 1)
  const HELD_A := Held(ENTRY_A.tuple, 0)

  function Empty(key: Option<Key>): End { End(key, Serving, map[], [], []) }

  function Operating(stage: Stage): Record { Record(ENTRY_A.tuple, 0, 1, 0, false, false, false, false, stage) }

  function Book(drain: Drain, cleanup: map<Key, Record>): Broker {
    Broker(Some([ENTRY_A, ENTRY_B]), 1, {0, 1}, {}, map[], cleanup, drain.Looping?, false, false, drain, Open)
  }

  /** Both entries are desired, "a" is being installed and awaits the request `q`. */
  function Installing(stage: Stage): Broker { Book(Starting([ENTRY_A, ENTRY_B], 1), map["a" := Operating(stage)]) }

  /** The ends of the Window and of runtime 0, and the latest request. */
  ghost predicate Wired(n: Net, window: End, a: End, latest: Option<Request>) {
    && n.severed == {}
    && ToWindow in n.ends && n.ends[ToWindow] == window
    && ToRunner(0) in n.ends && n.ends[ToRunner(0)] == a
    && ToRunner(1) in n.ends
    && match latest { case None => n.nextReq == 0 case Some(r) =>
       n.nextReq > 0 && n.nextReq - 1 in n.requests && n.requests[n.nextReq - 1] == r }
  }

  function ToInstall(t: Target, status: Status): Request { Request(t, true, ENTRY_A.tuple, 0, status) }

  lemma SceneDesires(b: Broker)
    requires AuthorityEntries(b) == [ENTRY_A, ENTRY_B] && b.terminated == {}
    ensures DesiredNow(b) == Some([ENTRY_A, ENTRY_B])
  {
    hide AuthorityEntries;
    assert [ENTRY_A, ENTRY_B][..1] == [ENTRY_A] && [ENTRY_A][..0] == [] && [] + [ENTRY_A] == [ENTRY_A];
    assert Desired([], {}) == Some([]) && FindEntry([], "a") == None;
    assert Desired([ENTRY_A], {}) == Some([ENTRY_A]) by { assert [ENTRY_A][|[ENTRY_A]| - 1] == ENTRY_A; }
    assert [ENTRY_A][1..] == [] && FindEntry([ENTRY_A], "b") == None;
    assert [ENTRY_A] + [ENTRY_B] == [ENTRY_A, ENTRY_B];
  }

  lemma Launched() returns (w: World)
    ensures Reachable(w) && w.broker == Book(Looping, map[]) && w.nextConn == 0
    ensures Wired(w.net, Empty(None), Empty(Some("a")), None)
  {
    hide DrainStep, BeginRevocation, Resume, Receive;
    assert Run([]) == Some(INITIAL);
    w := Took(INITIAL, Launch(0, "a"));
    w := Took(w, Launch(1, "b"));
    w := Took(w, Register(0));
    w := Took(w, Register(1));
    w := Took(w, Replace(Some([ENTRY_A, ENTRY_B])));
  }

  lemma Starts() returns (w: World)
    ensures Reachable(w) && w.broker == Book(Starting([ENTRY_A, ENTRY_B], 1), map[]) && w.nextConn == 0
    ensures Wired(w.net, Empty(None), Empty(Some("a")), None)
  {
    hide Wired, Advance, BeginProvision, Desired, FindEntry;
    w := Launched();
    SceneDesires(w.broker);
    w := Took(w, Drains([]));
    w := Took(w, Drains([]));
    w := Took(w, Drains([]));
  }

  lemma RunnerPosted() returns (w: World)
    ensures Reachable(w) && w.broker == Installing(AwaitRunnerInstall(0)) && w.net.nextReq == 1
    ensures Wired(w.net, Empty(None), Empty(Some("a")).(inbox := [Message(0, true, ENTRY_A.tuple, 0)]),
            Some(ToInstall(ToRunner(0), Pending)))
  {
    hide Advance, Desired;
    w := Starts();
    w := Took(w, Drains([]));
  }

  /** The end installs the connection and its reply settles the request. */
  lemma EndConfirms(w: World, t: Target, q: ReqId) returns (w': World)
    requires Reachable(w) && t in w.net.ends && w.net.severed == {} && w.net.nextReq == q + 1
    requires w.net.ends[t].phase.Serving? && w.net.ends[t].slots == map[] && w.net.ends[t].outbox == []
    requires w.net.ends[t].inbox == [Message(q, true, ENTRY_A.tuple, 0)]
    requires q in w.net.requests && w.net.requests[q] == ToInstall(t, Pending)
    ensures Reachable(w') && w'.broker == w.broker && w'.net.severed == {} && w'.net.nextReq == q + 1
    ensures w'.net.ends == w.net.ends[t := w.net.ends[t].(slots := map["a" := HELD_A], inbox := [])]
    ensures q in w'.net.requests && w'.net.requests[q] == ToInstall(t, Resolved)
  {
    hide DrainStep, BeginRevocation, Resume;
    w' := Took(w, Receives(t));
    var e := w'.net.ends[t];
    assert e.outbox == [Reply(q, 0, true)] && e.inbox == [];
    w' := Took(w', Answers(t));
    assert w'.net.ends[t] == w.net.ends[t].(slots := map["a" := HELD_A], inbox := []);
  }

  lemma RunnerConfirms() returns (w: World)
    ensures Reachable(w) && w.broker == Installing(AwaitRunnerInstall(0)) && w.net.nextReq == 1
    ensures Wired(w.net, Empty(None), Empty(Some("a")).(slots := map["a" := HELD_A]),
            Some(ToInstall(ToRunner(0), Resolved)))
  {
    w := RunnerPosted();
    w := EndConfirms(w, ToRunner(0), 0);
  }

  lemma FirstIsDesired(b: Broker, op: Record)
    requires AuthorityEntries(b) == [ENTRY_A, ENTRY_B] && b.revision == 1 && !b.closed && b.terminated == {}
             && b.provisioners == {0, 1}
    requires op.tuple == ENTRY_A.tuple && op.runtime == 0 && op.revision == 1
    ensures StillDesired(b, op)
  {
  }

  lemma WindowConfirms() returns (w: World)
    ensures Reachable(w) && w.broker == Installing(AwaitWindowInstall(1)) && w.net.nextReq == 2
    ensures ToRunner(0) in w.net.ends && ToRunner(1) in w.net.ends && ToWindow in w.net.ends
    ensures 1 in w.net.requests && w.net.requests[1] == ToInstall(ToWindow, Resolved)
  {
    hide Desired, StillDesired;
    w := RunnerConfirms();
    FirstIsDesired(w.broker, w.broker.cleanup["a"]);
    w := Took(w, Drains([]));
    w := EndConfirms(w, ToWindow, 1);
  }

  lemma FirstCommitted() returns (w: World)
    ensures Reachable(w) && ToRunner(1) in w.net.ends && !w.broker.closed && "b" !in RecordsOf(w.broker)
    ensures w.broker.drain == Starting([ENTRY_B], 1) && w.broker.provisioners == {0, 1} && w.broker.cleanup == map[]
  {
    hide Desired, StillDesired;
    w := WindowConfirms();
    FirstIsDesired(w.broker, w.broker.cleanup["a"]);
    w := Took(w, Drains([]));
    assert w.broker.cleanup == map[];
  }

  /**
   * The list of entries to provision is taken once, so a replacement that falls between a commit and
   * the next turn of the loop lets a provision start for an entry the authority no longer lists:
   * "a" and "b" are desired, "a" is committed, and the replacement drops "b".
   */
  lemma StaleStartExists()
    ensures exists w :: Reachable(w) && StartsProvision(w) && w.broker.drain.todo[0] !in AuthorityEntries(w.broker)
  {
    hide DrainStep, Desired;
    var w := FirstCommitted();
    w := Took(w, Replace(Some([ENTRY_A])));
    assert w.broker.drain.todo[0] == ENTRY_B;
  }

  lemma Took(w: World, step: Step) returns (w': World)
    requires Reachable(w) && Apply(w, step).Some?
    ensures Reachable(w') && Some(w') == Apply(w, step)
  {
    ReachableStep(w, step);
    w' := Apply(w, step).value;
  }
}
