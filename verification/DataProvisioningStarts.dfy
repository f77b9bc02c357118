/**
 * Which provisions the Data broker (apps/pwa/src/data-broker.ts) can start from a list that the authority has
 * moved away from.
 *
 * A pass takes the desired list once and works through it across many awaits, while the authority may be
 * replaced or closed at any of them. What is listed at the start of a provision is therefore a question about
 * the whole run since the list was taken. `StaleStartIff` answers it: the last replacement or close since then
 * decides, by whether an operation was fenced at that moment and by whether its view lists the entry. The two
 * halves are `ReplaceWhileFenced`, after which the pass can only end in failure, and `StartAfterReplace`, which
 * says that a replacement between two operations leaves the next start due as it was. The proofs follow the run
 * backwards to that replacement and carry what it left forward again, step by step, as long as the same list is
 * worked through.
 */
module DataProvisioningStarts {
  import opened Base
  import opened DataProvisioning
  import opened DataProvisioningSafety
  import opened DataProvisioningConvergence

  /** The step changes what the broker is asked for. */
  predicate Replaces(w: World, step: Step) { !w.broker.closed && (step.Replace? || step.Close?) }

  /** What it is asked for then. */
  function View(step: Step): seq<Entry> {
    if step.Replace? && step.view.Some? then step.view.value else []
  }

  /** Until the broker's last revocations, no operation is of a later authority than the current one. */
  ghost predicate RevisionsOk(b: Broker) {
    b.shutdown.Open? || b.shutdown.Waiting? ==> forall k :: k in b.cleanup ==> b.cleanup[k].revision <= b.revision
  }

  /** The operation of the entry at hand runs under an authority that was replaced or closed since. */
  predicate Doomed(b: Broker) {
    && b.drain.Starting? && b.drain.todo != []
    && var k := b.drain.todo[0].tuple.key;
       && k in b.cleanup && !b.cleanup[k].stage.Resting?
       && (b.closed || b.cleanup[k].revision < b.revision)
  }

  lemma DoomedStartsNothing(w: World)
    requires Doomed(w.broker)
    ensures !StartsProvision(w)
  {
  }

  // ----- one step

  lemma RollingPasses(w: World, order: seq<Key>)
    requires w.broker.drain.RollingBack? && w.broker.drain.undone != [] && DrainStep(w, order).Some?
    ensures PassMoves(w.broker, DrainStep(w, order).value.broker)
  {
    hide DrainStep, Advance;
    RollingBecomes(w, order);
    AdvanceOnlyRecords(w, w.broker.drain.undone[0]);
  }

  lemma ComparingPasses(w: World, order: seq<Key>)
    requires w.broker.drain.Comparing? && w.broker.drain.unchecked != [] && DrainStep(w, order).Some?
    ensures PassMoves(w.broker, DrainStep(w, order).value.broker)
  {
    hide DrainStep, Advance, KeepsCurrent;
    ComparingBecomes(w, order);
    AdvanceOnlyRecords(w, w.broker.drain.unchecked[0]);
  }

  lemma StartingPasses(w: World, order: seq<Key>)
    requires w.broker.drain.Starting? && w.broker.drain.todo != [] && DrainStep(w, order).Some?
    ensures PassMoves(w.broker, DrainStep(w, order).value.broker)
  {
    hide DrainStep, Advance, BeginProvision;
    StartingBecomes(w, order);
    AdvanceOnlyRecords(w, w.broker.drain.todo[0].tuple.key);
    if StartsProvision(w) { BeginLists(w, w.broker.drain.todo[0]); }
  }

  lemma DrainMoves(w: World, order: seq<Key>)
    requires DrainStep(w, order).Some?
    ensures PassMoves(w.broker, DrainStep(w, order).value.broker)
  {
    hide DrainStep, PassMoves;
    match w.broker.drain
    case RollingBack(undone) => if undone == [] { PauseKeepsRecords(w, order); } else { RollingPasses(w, order); }
    case Comparing(_, unchecked) =>
      if unchecked == [] { PauseKeepsRecords(w, order); } else { ComparingPasses(w, order); }
    case Starting(todo, _) => if todo == [] { PauseKeepsRecords(w, order); } else { StartingPasses(w, order); }
    case _ => PauseKeepsRecords(w, order);
  }

  lemma StepMoves(w: World, step: Step)
    requires Apply(w, step).Some? && !Replaces(w, step)
    ensures PassMoves(w.broker, Apply(w, step).value.broker)
  {
    hide DrainStep, BeginRevocation, Resume, Receive, Answer, Abort, PassMoves;
    match step
    case Drains(order) => DrainMoves(w, order);
    case Stops(k) => StopsMoves(w, k);
    case Terminated(rt) => AbortKeepsBook(w, Some(rt)); QuietMoves(w, step);
    case _ => QuietMoves(w, step);
  }

  lemma StopsMoves(w: World, k: Key)
    requires Apply(w, Stops(k)).Some?
    ensures PassMoves(w.broker, Apply(w, Stops(k)).value.broker)
  {
    hide BeginRevocation, Resume;
    BeginOnlyRecords(w, k);
    if Settled(w, k) { ResumeOnlyRecords(w, k); }
  }

  lemma QuietMoves(w: World, step: Step)
    requires Apply(w, step).Some? && !Replaces(w, step) && !step.Drains? && !step.Stops?
    requires step.Terminated? ==>
             Abort(w, Some(step.rt)).broker == w.broker.(cleanup := Abort(w, Some(step.rt)).broker.cleanup)
    ensures PassMoves(w.broker, Apply(w, step).value.broker)
  {
    hide DrainStep, BeginRevocation, Resume, Receive, Answer, Abort;
  }

  // ----- an operation whose authority was replaced

  /** Its procedure gives it up. */
  lemma DoomedRuns(w: World, order: seq<Key>)
    requires Safe(w) && Doomed(w.broker) && DrainStep(w, order).Some?
    ensures var b' := DrainStep(w, order).value.broker;
            b'.drain == Reconciled(false) || (Doomed(b') && b'.drain == w.broker.drain)
  {
    hide DrainStep, Advance, NetOk, OwnershipOk, RecordsOk, Revokes, Commits, AwaitsWindow, Confirmed;
    var b, todo := w.broker, w.broker.drain.todo;
    var k := todo[0].tuple.key;
    StartingBecomes(w, order);
    AdvanceOnlyRecords(w, k);
    SuspendedUncommitted(w, k);
    var p := Advance(w, k).value;
    var rec := AdvanceEffect(w, k);
    if p.outcome.Success? { DoomedCommitsNothing(b, p.world.broker, k); }
    else if p.outcome.InProgress? { DoomedWaits(b, p.world.broker, k, rec); }
  }

  lemma SuspendedUncommitted(w: World, k: Key)
    requires Safe(w) && k in w.broker.cleanup && !w.broker.cleanup[k].stage.Resting?
    ensures k in RecordsOf(w.broker) && RecordsOf(w.broker)[k] == w.broker.cleanup[k] && !w.broker.cleanup[k].committed
  {
    assert RecordOk(w, k, RecordsOf(w.broker)[k]);
  }

  lemma DoomedCommitsNothing(b: Broker, b': Broker, k: Key)
    requires Doomed(b) && k == b.drain.todo[0].tuple.key
    ensures !Commits(b, b', k)
  {
  }

  lemma DoomedWaits(b: Broker, b': Broker, k: Key, rec: Record)
    requires Doomed(b) && k == b.drain.todo[0].tuple.key && k in RecordsOf(b) && SameConnection(RecordsOf(b)[k], rec)
    requires b' == b.(current := b'.current, cleanup := b'.cleanup)
    requires Revokes(b, b', k, InProgress, rec) || AwaitsWindow(b, b', k, rec)
    ensures Doomed(b')
  {
  }

  lemma DoomedFlags(b: Broker, a: Broker, b': Broker)
    requires Doomed(b) && a == b.(cleanup := a.cleanup)
    requires a.cleanup.Keys == b.cleanup.Keys
             && forall k :: k in b.cleanup ==> SameButAborted(b.cleanup[k], a.cleanup[k])
    requires b'.cleanup == a.cleanup && b'.drain == a.drain && b'.revision >= a.revision && (a.closed ==> b'.closed)
    ensures Doomed(b')
  {
  }

  /** Until it ends in failure, the pass stays with it. */
  lemma DoomedStep(w: World, step: Step)
    requires Safe(w) && Doomed(w.broker) && Apply(w, step).Some?
    ensures var b' := Apply(w, step).value.broker;
            b'.drain == Reconciled(false) || (Doomed(b') && b'.drain == w.broker.drain)
  {
    hide DrainStep, BeginRevocation, Resume, Receive, Answer, Abort, Doomed, NetOk, OwnershipOk, RecordsOk;
    DoomedStarts(w.broker);
    var b' := Apply(w, step).value.broker;
    match step
    case Drains(order) => DoomedRuns(w, order);
    case Replace(_) =>
      if !w.broker.closed { AbortFlagsOnly(w, None); DoomedFlags(w.broker, Abort(w, None).broker, b'); }
    case Terminated(rt) => AbortFlagsOnly(w, Some(rt)); DoomedFlags(w.broker, Abort(w, Some(rt)).broker, b');
    case Close => if !w.broker.closed { AbortFlagsOnly(w, None); DoomedFlags(w.broker, Abort(w, None).broker, b'); }
    case _ => DoomedQuiet(w.broker, b');
  }

  lemma AbortFlagsOnly(w: World, whose: Option<RuntimeId>)
    ensures var a, b := Abort(w, whose).broker, w.broker;
            && a == b.(cleanup := a.cleanup) && a.cleanup.Keys == b.cleanup.Keys
            && forall k :: k in b.cleanup ==> SameButAborted(b.cleanup[k], a.cleanup[k])
  {
    AbortOnlyFlags(w, whose);
    AbortKeepsBook(w, whose);
  }

  lemma DoomedStarts(b: Broker)
    requires Doomed(b)
    ensures b.drain.Starting?
  {
  }

  lemma DoomedQuiet(b: Broker, b': Broker)
    requires Doomed(b) && b'.cleanup == b.cleanup && b'.drain == b.drain && b'.revision == b.revision
             && b'.closed == b.closed
    ensures Doomed(b')
  {
  }

  // ----- operations are never of a later authority

  lemma EffectRevisions(b: Broker, b': Broker, k: Key, outcome: Outcome, rec: Record)
    requires RevisionsOk(b) && k in RecordsOf(b) && (k in b.cleanup ==> SameConnection(b.cleanup[k], rec))
    requires b' == b.(current := b'.current, cleanup := b'.cleanup)
    requires Commits(b, b', k) || Revokes(b, b', k, outcome, rec) || AwaitsWindow(b, b', k, rec)
    ensures RevisionsOk(b')
  {
    hide StillDesired;
  }

  lemma MovedRevisions(b: Broker, b': Broker)
    requires RevisionsOk(b) && b'.cleanup == b.cleanup && b'.revision >= b.revision
    requires b'.shutdown.Open? || b'.shutdown.Waiting? ==> b.shutdown.Open? || b.shutdown.Waiting?
    ensures RevisionsOk(b')
  {
  }

  lemma FlagRevisions(b: Broker, b': Broker)
    requires RevisionsOk(b) && b' == b.(cleanup := b'.cleanup)
    requires b'.cleanup.Keys == b.cleanup.Keys
             && forall k :: k in b.cleanup ==> SameButAborted(b.cleanup[k], b'.cleanup[k])
    ensures RevisionsOk(b')
  {
    assert forall k :: k in b'.cleanup ==> b'.cleanup[k].revision == b.cleanup[k].revision;
  }

  lemma AdvanceRevisions(w: World, k: Key, drain: Drain)
    requires Safe(w) && RevisionsOk(w.broker) && Advance(w, k).Some?
    ensures RevisionsOk(Advance(w, k).value.world.broker.(drain := drain))
    ensures Advance(w, k).value.world.broker.(drain := w.broker.drain) == Advance(w, k).value.world.broker
  {
    hide Safe, Advance, RevisionsOk, Commits, Revokes, AwaitsWindow, Confirmed;
    AdvanceNeeds(w, k);
    Uncommitted(w, k);
    AdvanceOnlyRecords(w, k);
    var p := Advance(w, k).value;
    var rec := AdvanceEffect(w, k);
    CleanupFirst(w.broker, k);
    EffectRevisions(w.broker, p.world.broker, k, p.outcome, rec);
    MovedRevisions(p.world.broker, p.world.broker.(drain := drain));
  }

  lemma Uncommitted(w: World, k: Key)
    requires Safe(w) && k in RecordsOf(w.broker)
    ensures !RecordsOf(w.broker)[k].stage.Resting? ==> !RecordsOf(w.broker)[k].committed
  {
    assert RecordOk(w, k, RecordsOf(w.broker)[k]);
  }

  lemma CleanupFirst(b: Broker, k: Key)
    ensures k in b.cleanup ==> k in RecordsOf(b) && RecordsOf(b)[k] == b.cleanup[k]
  {
  }

  lemma BeginRevisions(w: World, e: Entry)
    requires RevisionsOk(w.broker) && ToRunner(e.runtime) in w.net.ends
    ensures RevisionsOk(BeginProvision(w, e).broker)
  {
  }

  lemma DrainRevisions(w: World, order: seq<Key>)
    requires Safe(w) && RevisionsOk(w.broker) && DrainStep(w, order).Some?
    ensures RevisionsOk(DrainStep(w, order).value.broker)
  {
    hide DrainStep, Safe, Advance, KeepsCurrent, BeginProvision, RevisionsOk;
    var b, b' := w.broker, DrainStep(w, order).value.broker;
    match b.drain
    case RollingBack(undone) =>
      if undone == [] { PauseRevisions(w, order); }
      else { RollingBecomes(w, order); AdvanceRevisions(w, undone[0], b'.drain); }
    case Comparing(_, unchecked) =>
      if unchecked == [] { PauseRevisions(w, order); }
      else {
        ComparingBecomes(w, order);
        if Advance(w, unchecked[0]).Some? { AdvanceRevisions(w, unchecked[0], b'.drain); }
        MovedRevisions(b, b.(drain := b'.drain));
      }
    case Starting(todo, _) =>
      if todo == [] { PauseRevisions(w, order); }
      else {
        StartingBecomes(w, order);
        if Advance(w, todo[0].tuple.key).Some? { AdvanceRevisions(w, todo[0].tuple.key, b'.drain); }
        if StartsProvision(w) { BeginRevisions(w, todo[0]); }
        MovedRevisions(b, b.(drain := b'.drain));
      }
    case _ => PauseRevisions(w, order);
  }

  lemma PauseRevisions(w: World, order: seq<Key>)
    requires RevisionsOk(w.broker) && Pauses(w.broker.drain) && DrainStep(w, order).Some?
    ensures RevisionsOk(DrainStep(w, order).value.broker)
  {
    hide DrainStep;
    PauseKeepsRecords(w, order);
    MovedRevisions(w.broker, DrainStep(w, order).value.broker);
  }

  lemma StepRevisions(w: World, step: Step)
    requires Safe(w) && RevisionsOk(w.broker) && Apply(w, step).Some?
    ensures RevisionsOk(Apply(w, step).value.broker)
  {
    hide DrainStep, BeginRevocation, Resume, Receive, Answer, Abort, RevisionsOk, NetOk, OwnershipOk, RecordsOk;
    var b, b' := w.broker, Apply(w, step).value.broker;
    match step
    case Drains(order) => DrainRevisions(w, order);
    case Replace(_) => if !b.closed { AbortRevisions(w, None); MovedRevisions(Abort(w, None).broker, b'); }
    case Terminated(rt) => AbortRevisions(w, Some(rt)); MovedRevisions(Abort(w, Some(rt)).broker, b');
    case Close => if !b.closed { AbortRevisions(w, None); MovedRevisions(Abort(w, None).broker, b'); }
    case Stops(k) => StopsRevisions(w, k);
    case EndStopping => StoppedRevisions(b');
    case _ => MovedRevisions(b, b');
  }

  lemma AbortRevisions(w: World, whose: Option<RuntimeId>)
    requires RevisionsOk(w.broker)
    ensures RevisionsOk(Abort(w, whose).broker)
            && Abort(w, whose).broker == w.broker.(cleanup := Abort(w, whose).broker.cleanup)
  {
    hide Abort, RevisionsOk;
    AbortFlagsOnly(w, whose);
    FlagRevisions(w.broker, Abort(w, whose).broker);
  }

  lemma StoppedRevisions(b: Broker)
    requires b.shutdown.Stopping? || b.shutdown.Done?
    ensures RevisionsOk(b)
  {
  }

  lemma StopsRevisions(w: World, k: Key)
    requires Apply(w, Stops(k)).Some?
    ensures RevisionsOk(Apply(w, Stops(k)).value.broker)
  {
    hide BeginRevocation, Resume;
    BeginOnlyRecords(w, k);
    if Settled(w, k) { ResumeOnlyRecords(w, k); }
  }

  // ----- replacing while an operation is fenced

  lemma {:induction false} ReachableRevisions(steps: seq<Step>)
    ensures Run(steps).Some? ==> RevisionsOk(Run(steps).value.broker)
    decreases |steps|
  {
    hide Apply, RevisionsOk, Safe;
    if steps == [] {
      InitialRevisions();
    } else if Run(steps).Some? {
      var most := steps[..|steps| - 1];
      ReachableRevisions(most);
      ReachableSafe(most);
      StepRevisions(Run(most).value, steps[|steps| - 1]);
    }
  }

  lemma InitialRevisions()
    ensures RevisionsOk(INITIAL.broker) && Run([]) == Some(INITIAL)
  {
  }

  /** An operation fenced while the list is worked through is that of the entry at hand, and runs. */
  lemma FencedRuns(b: Broker)
    requires b.drain.Starting? && StartingOk(b, b.drain.todo) && b.cleanup != map[]
    ensures b.drain.todo != []
    ensures var k := b.drain.todo[0].tuple.key; k in b.cleanup && !b.cleanup[k].stage.Resting?
  {
    var k :| k in b.cleanup;
    assert RunsFor(b.cleanup[k], b.drain.todo[0]);
  }

  lemma ReplaceDooms(w: World, step: Step)
    requires Safe(w) && RevisionsOk(w.broker) && Converging(w.broker) && w.broker.drain.Starting?
             && w.broker.cleanup != map[]
    requires Replaces(w, step) && Apply(w, step).Some?
    ensures Doomed(Apply(w, step).value.broker) && Apply(w, step).value.broker.drain == w.broker.drain
  {
    hide Abort, StartingOk, NetOk, OwnershipOk, RecordsOk;
    var b, a, b' := w.broker, Abort(w, None).broker, Apply(w, step).value.broker;
    FencedRuns(b);
    AbortFlagsOnly(w, None);
    var k := b.drain.todo[0].tuple.key;
    assert SameButAborted(b.cleanup[k], a.cleanup[k]);
    assert b'.cleanup == a.cleanup && b'.drain == b.drain;
  }

  /** The state after further steps. */
  function From(w: World, steps: seq<Step>): Option<World> {
    if steps == [] then Some(w)
    else
      match From(w, steps[..|steps| - 1])
      case None => None
      case Some(w') => Apply(w', steps[|steps| - 1])
  }

  /** The broker still works off the list, at the same entry, and starts no provision. */
  ghost predicate Stuck(w: World, w': World) {
    w'.broker.drain == w.broker.drain && !StartsProvision(w')
  }

  /** After `n` steps the pass has ended in failure, and it started no provision until then. */
  ghost predicate Fails(w: World, steps: seq<Step>, n: nat) {
    && n <= |steps| && From(w, steps[..n]).Some? && From(w, steps[..n]).value.broker.drain == Reconciled(false)
    && forall m :: 0 <= m < n ==> From(w, steps[..m]).Some? && Stuck(w, From(w, steps[..m]).value)
  }

  lemma ReachableMore(w: World, step: Step)
    requires Reachable(w) && Apply(w, step).Some?
    ensures Reachable(Apply(w, step).value)
  {
    var steps :| Run(steps) == Some(w);
    var longer := steps + [step];
    assert longer[..|longer| - 1] == steps;
    assert Run(longer) == Apply(w, step);
  }

  lemma {:induction false} DoomedPass(w: World, steps: seq<Step>)
    requires Reachable(w) && Doomed(w.broker) && From(w, steps).Some?
    ensures Reachable(From(w, steps).value)
    ensures (Doomed(From(w, steps).value.broker) && From(w, steps).value.broker.drain == w.broker.drain
             && forall m :: 0 <= m <= |steps| ==> From(w, steps[..m]).Some? && Stuck(w, From(w, steps[..m]).value))
            || exists n :: Fails(w, steps, n)
    decreases |steps|
  {
    hide Apply, Doomed, StartsProvision, Safe, Reachable;
    if steps == [] {
      DoomedStartsNothing(w);
    } else {
      var most, step := steps[..|steps| - 1], steps[|steps| - 1];
      DoomedPass(w, most);
      var w1 := From(w, most).value;
      ReachableMore(w1, step);
      if exists n :: Fails(w, most, n) {
        var n :| Fails(w, most, n);
        FailsLater(w, steps, n);
      } else {
        IsSafe(w1);
        DoomedStep(w1, step);
        assert steps[..|steps|] == steps;
        forall m | 0 <= m < |steps| ensures steps[..m] == most[..m] {}
        if From(w, steps).value.broker.drain == Reconciled(false) { assert Fails(w, steps, |steps|); }
        else { DoomedStartsNothing(From(w, steps).value); }
      }
    }
  }

  lemma IsSafe(w: World)
    requires Reachable(w)
    ensures Safe(w) && RevisionsOk(w.broker) && Converging(w.broker) && TodoListed(w.broker)
  {
    hide Safe, RevisionsOk, Converging, TodoListed, Run;
    var steps :| Run(steps) == Some(w);
    ReachableSafe(steps);
    ReachableRevisions(steps);
    ReachableConverging(steps);
  }

  lemma FailsLater(w: World, steps: seq<Step>, n: nat)
    requires steps != [] && Fails(w, steps[..|steps| - 1], n)
    ensures Fails(w, steps, n)
  {
    hide From, Stuck;
    var most := steps[..|steps| - 1];
    forall m | 0 <= m <= n ensures steps[..m] == most[..m] {}
  }

  /**
   * A replacement or close that falls while an operation is fenced is never followed by another start from
   * the list at hand: whatever comes later, the pass ends in failure before any.
   */
  lemma ReplaceWhileFenced(w: World, step: Step, later: seq<Step>)
    requires Reachable(w) && w.broker.drain.Starting? && w.broker.cleanup != map[]
    requires Replaces(w, step) && Apply(w, step).Some? && From(Apply(w, step).value, later).Some?
    ensures var w1 := Apply(w, step).value;
            || (forall m :: 0 <= m <= |later| ==> From(w1, later[..m]).Some? && Stuck(w1, From(w1, later[..m]).value))
            || exists n :: Fails(w1, later, n)
  {
    hide Apply, Doomed, Safe, Reachable, Stuck, Fails;
    IsSafe(w);
    ReplaceDooms(w, step);
    ReachableMore(w, step);
    DoomedPass(Apply(w, step).value, later);
  }

  /** Nothing is fenced when a provision is about to start. */
  lemma StartNeedsNoFence(b: Broker)
    requires b.drain.Starting? && b.drain.todo != [] && StartingOk(b, b.drain.todo)
    requires b.drain.todo[0].tuple.key !in RecordsOf(b)
    ensures b.cleanup == map[]
  {
    if b.cleanup != map[] { FencedRuns(b); }
  }

  lemma AbortKeepsEnds(w: World)
    ensures Abort(w, None).net.ends == w.net.ends
  {
  }

  /**
   * Replacing or closing the authority while the list is worked through decides nothing about the next start:
   * one was due before exactly if it is due after, for the same entry, whatever the new view lists.
   */
  lemma StartAfterReplace(w: World, step: Step)
    requires Reachable(w) && w.broker.drain.Starting? && Replaces(w, step)
    ensures Apply(w, step).Some?
    ensures var w' := Apply(w, step).value;
            && w'.broker.drain == w.broker.drain
            && (StartsProvision(w') <==> StartsProvision(w))
            && (StartsProvision(w) ==> w.broker.cleanup == map[])
  {
    hide Abort, Safe, Reachable, StartingOk, RevisionsOk;
    IsSafe(w);
    AbortFlagsOnly(w, None);
    AbortKeepsEnds(w);
    if StartsProvision(w) { StartNeedsNoFence(w.broker); }
  }

  // ----- which starts are stale

  /** The `i`-th step was the last replacement or close, and the pass has worked off its list ever since. */
  ghost predicate LastReplaced(steps: seq<Step>, i: nat) {
    && i < |steps|
    && (forall j :: i <= j < |steps| ==> Run(steps[..j]).Some? && Run(steps[..j]).value.broker.drain.Starting?)
    && Replaces(Run(steps[..i]).value, steps[i])
    && forall j :: i < j < |steps| ==> !Replaces(Run(steps[..j]).value, steps[j])
  }

  /** The list is the current authority's, or the last replacement says what the authority is. */
  ghost predicate PassOk(steps: seq<Step>, b: Broker) {
    && b.drain.Starting?
    && (b.drain.seen == b.revision || exists i: nat :: LastReplaced(steps, i))
    && forall i: nat :: LastReplaced(steps, i) ==>
         && AuthorityEntries(b) == View(steps[i])
         && (Doomed(b) || Run(steps[..i]).value.broker.cleanup == map[])
  }

  lemma ReplacedNow(w: World, step: Step)
    requires Reachable(w) && w.broker.drain.Starting? && Replaces(w, step) && Apply(w, step).Some?
    ensures var b' := Apply(w, step).value.broker;
            AuthorityEntries(b') == View(step) && (Doomed(b') || w.broker.cleanup == map[])
  {
    hide Abort, Doomed, Safe, Reachable;
    IsSafe(w);
    if w.broker.cleanup != map[] { ReplaceDooms(w, step); }
  }

  lemma ReplaceKeepsDrain(w: World, step: Step)
    requires Replaces(w, step) && Apply(w, step).Some?
    ensures var d := Apply(w, step).value.broker.drain; d.Starting? ==> d == w.broker.drain
  {
    hide Abort;
    AbortFlagsOnly(w, None);
  }

  /** One step later, the last replacement is that step or the same as before. */
  lemma LastReplacedLater(steps: seq<Step>, i: nat)
    requires steps != [] && Run(steps[..|steps| - 1]).Some?
    ensures var n := |steps| - 1; var w := Run(steps[..n]).value;
            LastReplaced(steps, i) <==>
              w.broker.drain.Starting? && if Replaces(w, steps[n]) then i == n else LastReplaced(steps[..n], i)
  {
    hide Run, Replaces;
    var n := |steps| - 1;
    var most := steps[..n];
    forall j | 0 <= j <= n ensures steps[..j] == most[..j] {}
    if LastReplaced(steps, i) { assert Run(steps[..n]).value.broker.drain.Starting?; }
  }

  lemma {:induction false} RunPassOk(steps: seq<Step>)
    requires Run(steps).Some? && Run(steps).value.broker.drain.Starting?
    ensures PassOk(steps, Run(steps).value.broker)
    decreases |steps|
  {
    hide Apply, Doomed, Reachable, Replaces, LastReplaced, View, AuthorityEntries;
    if steps == [] {
      InitialIdle();
    } else {
      var n := |steps| - 1;
      var w, w' := Run(steps[..n]).value, Run(steps).value;
      IsReachable(steps[..n], w);
      if Replaces(w, steps[n]) {
        ReplaceKeepsDrain(w, steps[n]);
        ReplacedNow(w, steps[n]);
        LastReplacedLater(steps, n);
        forall i: nat ensures LastReplaced(steps, i) ==> i == n { LastReplacedLater(steps, i); }
      } else {
        if w.broker.drain.Starting? { RunPassOk(steps[..n]); }
        PassGoesOn(steps, w, w');
      }
    }
  }

  lemma PassGoesOn(steps: seq<Step>, w: World, w': World)
    requires steps != [] && Run(steps[..|steps| - 1]) == Some(w) && Apply(w, steps[|steps| - 1]) == Some(w')
    requires Reachable(w) && !Replaces(w, steps[|steps| - 1]) && w'.broker.drain.Starting?
    requires w.broker.drain.Starting? ==> PassOk(steps[..|steps| - 1], w.broker)
    ensures PassOk(steps, w'.broker)
  {
    hide Run, Apply, Doomed, Reachable, Replaces, LastReplaced, View;
    var n := |steps| - 1;
    var most := steps[..n];
    StepMoves(w, steps[n]);
    forall i: nat ensures LastReplaced(steps, i) <==> w.broker.drain.Starting? && LastReplaced(most, i) {
      LastReplacedLater(steps, i);
    }
    forall i: nat | LastReplaced(steps, i) ensures i < n && steps[i] == most[i] && steps[..i] == most[..i] {
      LastIsBefore(most, i);
    }
    if Doomed(w.broker) { IsSafe(w); DoomedStep(w, steps[n]); }
  }

  lemma LastIsBefore(steps: seq<Step>, i: nat)
    requires LastReplaced(steps, i)
    ensures i < |steps|
  {
  }

  lemma InitialIdle()
    ensures Run([]) == Some(INITIAL) && !INITIAL.broker.drain.Starting?
  {
  }

  lemma IsReachable(steps: seq<Step>, w: World)
    requires Run(steps) == Some(w)
    ensures Reachable(w)
  {
  }

  /**
   * A provision starts for an entry that the authority does not list exactly if the authority was replaced or
   * closed since the list was taken, with no operation fenced at that moment, and its last view omits the entry.
   */
  lemma StaleStartIff(steps: seq<Step>)
    requires Run(steps).Some? && StartsProvision(Run(steps).value)
    ensures var b := Run(steps).value.broker;
            b.drain.todo[0] !in AuthorityEntries(b) <==>
              exists i: nat :: LastReplaced(steps, i) && Run(steps[..i]).value.broker.cleanup == map[]
                          && b.drain.todo[0] !in View(steps[i])
  {
    hide Run, Reachable, LastReplaced, View, AuthorityEntries;
    var w := Run(steps).value;
    IsReachable(steps, w);
    IsSafe(w);
    RunPassOk(steps);
    if Doomed(w.broker) { DoomedStartsNothing(w); }
  }
}
