/**
 * Convergence of the broker's drain loop as an invariant of every run.
 *
 * The loop works off lists it took at earlier awaits: operations to roll back, connections to compare
 * with the desired entries, entries to provision. `LoopOk` says for each position of the loop what has
 * been established so far unless the book is dirty again: first that no fenced operation is left but those
 * still to be undone, then that every connection already compared is kept for a desired entry, then that
 * every desired entry already passed has its connection or no provisioner. At rest this makes the
 * connections exactly those the current authority asks for, unless a retry is armed. Everything that can
 * change what is desired marks the book dirty, so no step breaks it. Further, what a record procedure can
 * do to the book (`Revokes`, `AwaitsWindow`, `Commits`), and which entries a provision starts for.
 */
module DataProvisioningConvergence {
  import opened Base
  import opened DataProvisioning
  import opened DataProvisioningSafety

  // ----- what the authority asks for

  ghost predicate DistinctKeys(d: seq<Entry>) {
    forall i, j :: 0 <= i < j < |d| ==> d[i].tuple.key != d[j].tuple.key
  }

  /** Every kept record is asked for, and everything asked for that can be provisioned is kept. */
  ghost predicate Matches(b: Broker, d: seq<Entry>) {
    && (forall k :: k in b.current ==> b.current[k].tuple.key == k && KeepsCurrent(b, d, b.current[k]))
    && (forall e :: e in d && e.runtime in b.provisioners ==> e.tuple.key in b.current)
  }

  function DesiredNow(b: Broker): Option<seq<Entry>> { Desired(AuthorityEntries(b), b.terminated) }

  /** `cleanup` is empty and `current` is the desired set restricted to runtimes with a provisioner. */
  ghost predicate Converged(b: Broker) {
    b.cleanup == map[] && DesiredNow(b).Some? && Matches(b, DesiredNow(b).value)
  }

  lemma {:induction false} DesiredIsSound(entries: seq<Entry>, terminated: set<RuntimeId>)
    ensures var d := Desired(entries, terminated);
            d.Some? ==> DistinctKeys(d.value) && forall e :: e in d.value ==> e in entries && e.runtime !in terminated
    decreases |entries|
  {
    if entries != [] { DesiredIsSound(entries[..|entries| - 1], terminated); }
  }

  /** Some entry repeats the key of an earlier one whose runtime still runs. */
  ghost predicate Ambiguous(entries: seq<Entry>, terminated: set<RuntimeId>) {
    exists i, j :: 0 <= i < j < |entries| && entries[i].tuple.key == entries[j].tuple.key
                   && entries[i].runtime !in terminated
  }

  /** The desired entries are exactly the listed ones whose runtime still runs; there are none if that is ambiguous. */
  lemma {:induction false} DesiredIs(entries: seq<Entry>, terminated: set<RuntimeId>)
    ensures Desired(entries, terminated).None? <==> Ambiguous(entries, terminated)
    ensures var d := Desired(entries, terminated);
            d.Some? ==> forall e :: e in d.value <==> e in entries && e.runtime !in terminated
    decreases |entries|
  {
    if entries == [] { return; }
    var most, last := entries[..|entries| - 1], entries[|entries| - 1];
    DesiredIs(most, terminated);
    assert entries == most + [last];
    if Ambiguous(most, terminated) {
      var i, j :| 0 <= i < j < |most| && most[i].tuple.key == most[j].tuple.key && most[i].runtime !in terminated;
      assert entries[i].tuple.key == entries[j].tuple.key;
      return;
    }
    var d := Desired(most, terminated).value;
    var found := FindEntry(d, last.tuple.key);
    if found.Some? {
      var i :| 0 <= i < |most| && most[i] == found.value;
      assert entries[i].tuple.key == entries[|most|].tuple.key;
    } else {
      forall i, j | 0 <= i < j < |entries| && entries[i].tuple.key == entries[j].tuple.key
        ensures entries[i].runtime in terminated
      {
        assert entries[i] == most[i];
        if j < |most| { assert most[j] == entries[j]; } else { assert most[i] !in d; }
      }
    }
  }

  /** The entry found for a key is the first listed for it. */
  lemma {:induction false} FindsFirst(entries: seq<Entry>, key: Key, i: nat)
    requires i < |entries| && entries[i].tuple.key == key
    requires forall j :: 0 <= j < i ==> entries[j].tuple.key != key
    ensures FindEntry(entries, key) == Some(entries[i])
    decreases i
  {
    if i > 0 {
      assert entries[0].tuple.key != key;
      assert forall j :: 0 <= j < i - 1 ==> entries[1..][j] == entries[j + 1];
      FindsFirst(entries[1..], key, i - 1);
    }
  }

  lemma {:induction false} FindDistinct(d: seq<Entry>, i: nat)
    requires DistinctKeys(d) && i < |d|
    ensures FindEntry(d, d[i].tuple.key) == Some(d[i])
  {
    if i > 0 {
      assert d[0].tuple.key != d[i].tuple.key;
      FindDistinct(d[1..], i - 1);
    }
  }

  // ----- the invariant of the drain loop

  predicate Unwinding(rec: Record) {
    rec.stage.Resting? || rec.stage.AwaitWindowRevoke? || rec.stage.AwaitRunnerRevoke?
  }

  ghost predicate Keyed(records: map<Key, Record>) {
    forall k :: k in records ==> records[k].tuple.key == k
  }

  ghost predicate RestingExcept(records: map<Key, Record>, keys: seq<Key>) {
    forall k :: k in records && (keys == [] || k != keys[0]) ==> records[k].stage.Resting?
  }

  ghost predicate Distinct(keys: seq<Key>) {
    forall i, j :: 0 <= i < j < |keys| ==> keys[i] != keys[j]
  }

  ghost predicate AllResting(records: map<Key, Record>) {
    forall k :: k in records ==> records[k].stage.Resting?
  }

  ghost predicate RollingOk(b: Broker, undone: seq<Key>) {
    && Distinct(undone) && (forall k :: k in undone <==> k in b.cleanup)
    && RestingExcept(b.cleanup, undone) && AllResting(b.current)
    && (forall k :: k in b.cleanup ==> Unwinding(b.cleanup[k]))
  }

  ghost predicate ComparingOk(b: Broker, d: seq<Entry>, unchecked: seq<Key>) {
    && b.cleanup == map[]
    && Distinct(unchecked) && (forall k :: k in unchecked ==> k in b.current)
    && RestingExcept(b.current, unchecked)
    && (forall k :: k in b.current ==> Unwinding(b.current[k]))
    && (!b.dirty ==>
       DesiredNow(b) == Some(d) && forall k :: k in b.current && k !in unchecked ==> KeepsCurrent(b, d, b.current[k]))
  }

  /** The operation of a provision in progress for the entry. */
  predicate RunsFor(op: Record, e: Entry) { op.tuple == e.tuple && op.runtime == e.runtime && !op.stage.Resting? }

  ghost predicate StartingOk(b: Broker, todo: seq<Entry>) {
    && AllResting(b.current)
    && (forall k :: k in b.cleanup ==> todo != [] && RunsFor(b.cleanup[k], todo[0]) && k == todo[0].tuple.key)
    && DistinctKeys(todo)
    && (!b.dirty ==> DesiredNow(b).Some? && StartedUpTo(b, DesiredNow(b).value, todo))
  }

  ghost predicate StartedUpTo(b: Broker, d: seq<Entry>, todo: seq<Entry>) {
    && |todo| <= |d| && todo == d[|d| - |todo|..]
    && (forall k :: k in b.current ==> KeepsCurrent(b, d, b.current[k]))
    && (forall i :: 0 <= i < |d| - |todo| && d[i].runtime in b.provisioners ==> d[i].tuple.key in b.current)
  }

  ghost predicate LoopOk(b: Broker) {
    match b.drain
    case Idle => AllResting(b.cleanup) && AllResting(b.current) && !b.dirty && (Converged(b) || b.retryArmed)
    case Looping => AllResting(b.cleanup) && AllResting(b.current) && (b.dirty || Converged(b))
    case RollingBack(undone) => RollingOk(b, undone)
    case Comparing(d, unchecked) => ComparingOk(b, d, unchecked)
    case Starting(todo, seen) => StartingOk(b, todo)
    case Reconciled(ok) => AllResting(b.cleanup) && AllResting(b.current) && (ok ==> b.dirty || Converged(b))
    case Finishing => AllResting(b.cleanup) && AllResting(b.current) && (b.dirty || Converged(b) || b.retryArmed)
  }

  ghost predicate Converging(b: Broker) {
    !b.closed ==> Keyed(b.current) && Keyed(b.cleanup) && b.cleanup.Keys !! b.current.Keys && LoopOk(b)
  }

  // ----- what running a record's procedure does to the records

  predicate InPlace(b: Broker, b': Broker, k: Key, rec: Record) {
    if k in b.cleanup then b'.cleanup == b.cleanup[k := rec] && b'.current == b.current
    else b'.current == b.current[k := rec] && b'.cleanup == b.cleanup
  }

  predicate Dropped(b: Broker, b': Broker, k: Key) {
    b'.cleanup == b.cleanup - {k} && b'.current == b.current - {k}
  }

  predicate SameConnection(rec: Record, rec': Record) {
    rec'.tuple == rec.tuple && rec'.runtime == rec.runtime && rec'.conn == rec.conn && rec'.revision == rec.revision
  }

  /** The effect of a revocation step: suspended, given up, or the record is gone. */
  predicate Revokes(b: Broker, b': Broker, k: Key, outcome: Outcome, rec: Record)
    requires k in RecordsOf(b)
  {
    && SameConnection(RecordsOf(b)[k], rec)
    && match outcome
       case InProgress =>
         InPlace(b, b', k, rec) && !rec.committed && (rec.stage.AwaitWindowRevoke? || rec.stage.AwaitRunnerRevoke?)
       case Unfinished => InPlace(b, b', k, rec) && !rec.committed && rec.stage.Resting?
       case Revoked => Dropped(b, b', k)
       case Success => false
  }

  lemma RevokeRunnerRevokes(w: World, k: Key, rec: Record) returns (rec': Record)
    requires k in RecordsOf(w.broker) && ToRunner(rec.runtime) in w.net.ends && !rec.committed
    requires SameConnection(RecordsOf(w.broker)[k], rec)
    ensures Revokes(w.broker, RevokeRunner(w, k, rec).world.broker, k, RevokeRunner(w, k, rec).outcome, rec')
  {
    rec' := if !rec.runnerRevoked then rec.(stage := AwaitRunnerRevoke(w.net.nextReq)) else rec.(stage := Resting);
  }

  lemma BeginRevokes(w: World, k: Key) returns (rec': Record)
    requires RuntimeKnown(w, k)
    ensures Revokes(w.broker, BeginRevocation(w, k).world.broker, k, BeginRevocation(w, k).outcome, rec')
  {
    var rec := RecordsOf(w.broker)[k].(committed := false, aborted := true);
    if rec.windowRevoked { rec' := RevokeRunnerRevokes(w, k, rec); }
    else { rec' := rec.(stage := AwaitWindowRevoke(w.net.nextReq)); }
  }

  lemma EndRevokes(w: World, k: Key, rec: Record)
    requires k in RecordsOf(w.broker) && !rec.committed && SameConnection(RecordsOf(w.broker)[k], rec)
    ensures Revokes(w.broker, EndRevocation(w, k, rec).world.broker, k, EndRevocation(w, k, rec).outcome,
            rec.(stage := Resting))
  {
  }

  /** The procedure of a record that is being unwound. */
  lemma AdvanceRevokes(w: World, k: Key) returns (rec': Record)
    requires Advance(w, k).Some? && Unwinding(RecordsOf(w.broker)[k])
    requires !RecordsOf(w.broker)[k].stage.Resting? ==> !RecordsOf(w.broker)[k].committed
    ensures Revokes(w.broker, Advance(w, k).value.world.broker, k, Advance(w, k).value.outcome, rec')
  {
    var rec := RecordsOf(w.broker)[k];
    match rec.stage
    case Resting => rec' := BeginRevokes(w, k);
    case AwaitWindowRevoke(q) =>
      rec' := RevokeRunnerRevokes(w, k, rec.(windowRevoked := w.net.requests[q].status.Resolved?));
    case AwaitRunnerRevoke(q) =>
      var r := rec.(runnerRevoked := w.net.requests[q].status.Resolved?);
      EndRevokes(w, k, r);
      rec' := r.(stage := Resting);
    case _ => rec' := rec;
  }

  /** Committed: the operation was still desired when both ends had confirmed. */
  predicate Commits(b: Broker, b': Broker, k: Key) {
    && k in RecordsOf(b) && StillDesired(b, RecordsOf(b)[k])
    && b'.cleanup == b.cleanup - {k}
    && b'.current == b.current[k := RecordsOf(b)[k].(committed := true, stage := Resting)]
  }

  predicate AwaitsWindow(b: Broker, b': Broker, k: Key, rec: Record) {
    InPlace(b, b', k, rec) && rec.stage.AwaitWindowInstall? && !rec.committed
  }

  /** The Window installation the operation waits for was acknowledged. */
  predicate Confirmed(w: World, k: Key) {
    && Settled(w, k)
    && RecordsOf(w.broker)[k].stage.AwaitWindowInstall?
    && w.net.requests[RecordsOf(w.broker)[k].stage.req].status.Resolved?
  }

  /** Any record's procedure, while a provision may be running. */
  lemma AdvanceEffect(w: World, k: Key) returns (rec': Record)
    requires Advance(w, k).Some?
    requires !RecordsOf(w.broker)[k].stage.Resting? ==> !RecordsOf(w.broker)[k].committed
    ensures SameConnection(RecordsOf(w.broker)[k], rec')
    ensures var b, b', o := w.broker, Advance(w, k).value.world.broker, Advance(w, k).value.outcome;
            if o.Success? then Confirmed(w, k) && Commits(b, b', k)
            else Revokes(b, b', k, o, rec') || (o.InProgress? && AwaitsWindow(b, b', k, rec'))
  {
    var rec := RecordsOf(w.broker)[k];
    if Unwinding(rec) { rec' := AdvanceRevokes(w, k); return; }
    if w.net.requests[rec.stage.req].status.Resolved? && StillDesired(w.broker, rec) {
      rec' := rec.(stage := AwaitWindowInstall(w.net.nextReq));
    } else {
      rec' := BeginRevokes(w, k);
    }
  }

  // ----- the drain loop keeps the invariant

  ghost predicate Booked(b: Broker) {
    && Keyed(b.current) && Keyed(b.cleanup) && b.cleanup.Keys !! b.current.Keys
    && (forall k :: k in b.current && b.current[k].committed ==> b.current[k].stage.Resting?)
    && (forall k :: k in b.cleanup && b.cleanup[k].committed ==> b.cleanup[k].stage.Resting?)
  }

  lemma SafeIsBooked(w: World)
    requires Safe(w) && Converging(w.broker) && !w.broker.closed
    ensures Booked(w.broker)
  {
    forall k | k in w.broker.current && w.broker.current[k].committed ensures w.broker.current[k].stage.Resting? {
      assert k in RecordsOf(w.broker) && RecordOk(w, k, RecordsOf(w.broker)[k]);
    }
    forall k | k in w.broker.cleanup && w.broker.cleanup[k].committed ensures w.broker.cleanup[k].stage.Resting? {
      assert k in RecordsOf(w.broker) && RecordOk(w, k, RecordsOf(w.broker)[k]);
    }
  }

  ghost predicate Placed(b: Broker) { Keyed(b.current) && Keyed(b.cleanup) && b.cleanup.Keys !! b.current.Keys }

  lemma EffectKeepsPlaced(b: Broker, b': Broker, k: Key, rec: Record)
    requires Placed(b) && k in RecordsOf(b) && SameConnection(RecordsOf(b)[k], rec)
    requires InPlace(b, b', k, rec) || Dropped(b, b', k) || Commits(b, b', k)
    ensures Placed(b')
  {
  }

  lemma TailDistinct(keys: seq<Key>)
    requires keys != [] && Distinct(keys)
    ensures Distinct(keys[1..]) && keys[0] !in keys[1..] && forall k :: k in keys <==> k == keys[0] || k in keys[1..]
  {
    assert keys == [keys[0]] + keys[1..];
  }

  lemma RollingMoves(b: Broker, b': Broker, undone: seq<Key>, outcome: Outcome, rec: Record)
    requires RollingOk(b, undone) && undone != [] && undone[0] in RecordsOf(b) && undone[0] !in b.current
    requires Revokes(b, b', undone[0], outcome, rec)
    ensures outcome.InProgress? ==> RollingOk(b', undone)
    ensures outcome.Unfinished? ==> AllResting(b'.cleanup) && AllResting(b'.current)
    ensures outcome.Revoked? ==> RollingOk(b', undone[1..])
  {
    TailDistinct(undone);
    if outcome.Revoked? {
      assert b'.current == b.current;
      assert forall k :: k in b'.cleanup <==> k in b.cleanup && k != undone[0];
    }
  }

  /** What the drain loop makes of a record procedure's outcome. */
  lemma RollingBecomes(w: World, order: seq<Key>)
    requires w.broker.drain.RollingBack? && w.broker.drain.undone != [] && DrainStep(w, order).Some?
    ensures Advance(w, w.broker.drain.undone[0]).Some?
    ensures var p, undone := Advance(w, w.broker.drain.undone[0]).value, w.broker.drain.undone;
            DrainStep(w, order).value ==
            if p.outcome.InProgress? then p.world
            else if p.outcome.Unfinished? then At(p.world, Reconciled(false))
            else At(p.world, RollingBack(undone[1..]))
  {
  }

  lemma RollingHead(b: Broker, undone: seq<Key>)
    requires Booked(b) && RollingOk(b, undone) && undone != []
    ensures Placed(b) && undone[0] in b.cleanup && undone[0] !in b.current && undone[0] in RecordsOf(b)
    ensures var rec := RecordsOf(b)[undone[0]]; Unwinding(rec) && (!rec.stage.Resting? ==> !rec.committed)
  {
  }

  lemma PlacedAt(b: Broker, drain: Drain)
    requires Placed(b)
    ensures Placed(b.(drain := drain))
  {
  }

  lemma RollingOkAt(b: Broker, undone: seq<Key>, drain: Drain)
    requires RollingOk(b, undone)
    ensures RollingOk(b.(drain := drain), undone)
  {
  }

  lemma RollingStep(w: World, order: seq<Key>)
    requires Booked(w.broker) && w.broker.drain.RollingBack? && w.broker.drain.undone != []
             && RollingOk(w.broker, w.broker.drain.undone)
    requires DrainStep(w, order).Some?
    ensures Placed(DrainStep(w, order).value.broker) && LoopOk(DrainStep(w, order).value.broker)
  {
    hide Advance, DrainStep, RollingOk, Placed, Booked, AllResting, Revokes, Unwinding;
    var b, undone := w.broker, w.broker.drain.undone;
    var k := undone[0];
    RollingHead(b, undone);
    RollingBecomes(w, order);
    var rec := AdvanceRevokes(w, k);
    var p := Advance(w, k).value;
    RevokesKeepsPlaced(b, p.world.broker, k, p.outcome, rec);
    AdvanceOnlyRecords(w, k);
    RollingMoves(b, p.world.broker, undone, p.outcome, rec);
    PlacedAt(p.world.broker, DrainStep(w, order).value.broker.drain);
    if p.outcome.Revoked? { RollingOkAt(p.world.broker, undone[1..], RollingBack(undone[1..])); }
  }

  lemma RevokesKeepsPlaced(b: Broker, b': Broker, k: Key, outcome: Outcome, rec: Record)
    requires Placed(b) && k in RecordsOf(b) && Revokes(b, b', k, outcome, rec)
    ensures Placed(b') && !outcome.Success?
  {
    EffectKeepsPlaced(b, b', k, rec);
  }

  lemma RolledBackStep(w: World, order: seq<Key>)
    requires Booked(w.broker) && w.broker.drain == RollingBack([]) && RollingOk(w.broker, [])
    requires DrainStep(w, order).Some?
    ensures Placed(DrainStep(w, order).value.broker) && LoopOk(DrainStep(w, order).value.broker)
  {
    hide Advance;
    var b := w.broker;
    assert b.cleanup == map[];
    if DesiredNow(b).Some? && IsListing(order, b.current) { ListingIsComparingOk(b, DesiredNow(b).value, order); }
  }

  lemma ListingIsComparingOk(b: Broker, d: seq<Entry>, order: seq<Key>)
    requires b.cleanup == map[] && AllResting(b.current) && IsListing(order, b.current) && DesiredNow(b) == Some(d)
    ensures ComparingOk(b.(drain := Comparing(d, order)), d, order)
  {
    assert forall k :: k in order <==> k in (set j | j in order);
  }

  lemma AdvanceNeeds(w: World, k: Key)
    requires Advance(w, k).Some?
    ensures k in RecordsOf(w.broker)
  {
  }

  lemma ComparingMoves(b: Broker, b': Broker, d: seq<Entry>, unchecked: seq<Key>, outcome: Outcome, rec: Record)
    requires ComparingOk(b, d, unchecked) && unchecked != [] && unchecked[0] in RecordsOf(b)
    requires Revokes(b, b', unchecked[0], outcome, rec) && b' == b.(current := b'.current, cleanup := b'.cleanup)
    ensures outcome.InProgress? ==> ComparingOk(b', d, unchecked)
    ensures outcome.Unfinished? ==> AllResting(b'.cleanup) && AllResting(b'.current)
    ensures outcome.Revoked? ==> ComparingOk(b', d, unchecked[1..])
  {
    TailDistinct(unchecked);
  }

  lemma ComparingBecomes(w: World, order: seq<Key>)
    requires w.broker.drain.Comparing? && w.broker.drain.unchecked != [] && DrainStep(w, order).Some?
    ensures var k, d := w.broker.drain.unchecked[0], w.broker.drain.desired;
            if k in w.broker.current && KeepsCurrent(w.broker, d, w.broker.current[k])
            then DrainStep(w, order).value == At(w, Comparing(d, w.broker.drain.unchecked[1..]))
            else
              && Advance(w, k).Some?
              && var p := Advance(w, k).value;
                 DrainStep(w, order).value ==
                 if p.outcome.InProgress? then p.world
                 else if p.outcome.Unfinished? then At(p.world, Reconciled(false))
                 else At(p.world, Comparing(d, w.broker.drain.unchecked[1..]))
  {
  }

  lemma ComparingHead(b: Broker, d: seq<Entry>, unchecked: seq<Key>)
    requires Booked(b) && ComparingOk(b, d, unchecked) && unchecked != []
    ensures Placed(b) && unchecked[0] in b.current && unchecked[0] in RecordsOf(b)
            && RecordsOf(b)[unchecked[0]] == b.current[unchecked[0]]
    ensures var rec := RecordsOf(b)[unchecked[0]]; Unwinding(rec) && (!rec.stage.Resting? ==> !rec.committed)
  {
  }

  lemma ComparingOkAt(b: Broker, d: seq<Entry>, unchecked: seq<Key>, drain: Drain)
    requires ComparingOk(b, d, unchecked)
    ensures ComparingOk(b.(drain := drain), d, unchecked)
  {
    assert forall k :: k in b.current ==>
        (KeepsCurrent(b, d, b.current[k]) <==> KeepsCurrent(b.(drain := drain), d, b.current[k]));
  }

  lemma KeptMoves(b: Broker, d: seq<Entry>, unchecked: seq<Key>)
    requires Booked(b) && ComparingOk(b, d, unchecked) && unchecked != []
    requires unchecked[0] in b.current && KeepsCurrent(b, d, b.current[unchecked[0]])
    ensures ComparingOk(b, d, unchecked[1..])
  {
    TailDistinct(unchecked);
  }

  /** The position of the loop is all that differs. */
  lemma ComparingAt(b: Broker, d: seq<Entry>, unchecked: seq<Key>)
    requires Placed(b) && ComparingOk(b, d, unchecked)
    ensures Placed(b.(drain := Comparing(d, unchecked))) && LoopOk(b.(drain := Comparing(d, unchecked)))
  {
    hide ComparingOk, Placed;
    PlacedAt(b, Comparing(d, unchecked));
    ComparingOkAt(b, d, unchecked, Comparing(d, unchecked));
  }

  lemma FailedAt(b: Broker)
    requires Placed(b) && AllResting(b.cleanup) && AllResting(b.current)
    ensures Placed(b.(drain := Reconciled(false))) && LoopOk(b.(drain := Reconciled(false)))
  {
    hide AllResting, Placed;
    PlacedAt(b, Reconciled(false));
  }

  lemma ComparingRuns(w: World, k: Key, d: seq<Entry>, unchecked: seq<Key>, p: Progress)
    requires Booked(w.broker) && ComparingOk(w.broker, d, unchecked) && unchecked != [] && k == unchecked[0]
    requires Advance(w, k) == Some(p)
    ensures Placed(p.world.broker) && OnlyRecords(w, p.world) && !p.outcome.Success?
    ensures p.outcome.InProgress? ==> ComparingOk(p.world.broker, d, unchecked)
    ensures p.outcome.Unfinished? ==> AllResting(p.world.broker.cleanup) && AllResting(p.world.broker.current)
    ensures p.outcome.Revoked? ==> ComparingOk(p.world.broker, d, unchecked[1..])
  {
    hide Advance, ComparingOk, Placed, Booked, AllResting, Revokes, Unwinding;
    ComparingHead(w.broker, d, unchecked);
    var rec := AdvanceRevokes(w, k);
    AdvanceOnlyRecords(w, k);
    RevokesKeepsPlaced(w.broker, p.world.broker, k, p.outcome, rec);
    ComparingMoves(w.broker, p.world.broker, d, unchecked, p.outcome, rec);
  }

  lemma ComparingStep(w: World, order: seq<Key>)
    requires Booked(w.broker) && w.broker.drain.Comparing? && w.broker.drain.unchecked != []
    requires ComparingOk(w.broker, w.broker.drain.desired, w.broker.drain.unchecked)
    requires DrainStep(w, order).Some?
    ensures Placed(DrainStep(w, order).value.broker) && LoopOk(DrainStep(w, order).value.broker)
  {
    hide Advance, DrainStep, KeepsCurrent, ComparingOk, LoopOk, Placed, Booked, AllResting;
    var b, d, unchecked := w.broker, w.broker.drain.desired, w.broker.drain.unchecked;
    ComparingHead(b, d, unchecked);
    ComparingBecomes(w, order);
    if KeepsCurrent(b, d, b.current[unchecked[0]]) {
      KeptMoves(b, d, unchecked);
      ComparingAt(b, d, unchecked[1..]);
    } else {
      var p := Advance(w, unchecked[0]).value;
      ComparingRuns(w, unchecked[0], d, unchecked, p);
      if p.outcome.InProgress? {
        ComparingAt(p.world.broker, d, unchecked);
        assert p.world.broker.(drain := Comparing(d, unchecked)) == p.world.broker;
      } else if p.outcome.Unfinished? {
        FailedAt(p.world.broker);
      } else {
        ComparingAt(p.world.broker, d, unchecked[1..]);
      }
    }
  }

  lemma AllChecked(b: Broker, d: seq<Entry>)
    requires ComparingOk(b, d, []) && Placed(b)
    ensures AllResting(b.current) && AllResting(b.cleanup)
    ensures !b.dirty && b.authority.None? ==> Converged(b)
    ensures DesiredNow(b).Some? ==> StartingOk(b, DesiredNow(b).value)
  {
    DesiredIsSound(AuthorityEntries(b), b.terminated);
    if DesiredNow(b).Some? { assert DesiredNow(b).value == DesiredNow(b).value[0..]; }
  }

  lemma StartingOkAt(b: Broker, todo: seq<Entry>, drain: Drain)
    requires StartingOk(b, todo)
    ensures StartingOk(b.(drain := drain), todo)
  {
    assert forall d, k :: k in b.current ==>
        (KeepsCurrent(b, d, b.current[k]) <==> KeepsCurrent(b.(drain := drain), d, b.current[k]));
  }

  lemma ConvergedAt(b: Broker, drain: Drain)
    requires Converged(b)
    ensures Converged(b.(drain := drain))
  {
    assert forall d, k :: k in b.current ==>
        (KeepsCurrent(b, d, b.current[k]) <==> KeepsCurrent(b.(drain := drain), d, b.current[k]));
  }

  lemma RolledBackBecomes(w: World, order: seq<Key>)
    requires w.broker.drain == RollingBack([]) && DrainStep(w, order).Some?
    ensures var d := DesiredNow(w.broker);
            DrainStep(w, order).value == At(w, if d.None? then Reconciled(false) else Comparing(d.value, order))
  {
    hide Advance, BeginProvision, Desired, StartsProvision, KeepsCurrent, IsListing;
  }

  lemma ComparedBecomes(w: World, order: seq<Key>)
    requires w.broker.drain.Comparing? && w.broker.drain.unchecked == [] && DrainStep(w, order).Some?
    ensures var d := DesiredNow(w.broker);
            DrainStep(w, order).value ==
            At(w, if w.broker.authority.None? || w.broker.closed then Reconciled(true)
                  else if d.None? then Reconciled(false) else Starting(d.value, w.broker.revision))
  {
    hide Advance, BeginProvision, Desired, StartsProvision, KeepsCurrent, IsListing;
  }

  lemma ComparedStep(w: World, order: seq<Key>)
    requires Booked(w.broker) && w.broker.drain.Comparing? && w.broker.drain.unchecked == [] && !w.broker.closed
    requires ComparingOk(w.broker, w.broker.drain.desired, [])
    requires DrainStep(w, order).Some?
    ensures Placed(DrainStep(w, order).value.broker) && LoopOk(DrainStep(w, order).value.broker)
  {
    hide DrainStep, ComparingOk, StartingOk, Converged, DesiredNow, Placed;
    var b := w.broker;
    BookedIsPlaced(b);
    ComparedBecomes(w, order);
    AllChecked(b, b.drain.desired);
    PlacedAt(b, DrainStep(w, order).value.broker.drain);
    if Converged(b) { ConvergedAt(b, Reconciled(true)); }
    if DesiredNow(b).Some? { StartingOkAt(b, DesiredNow(b).value, Starting(DesiredNow(b).value, b.revision)); }
  }

  // ----- provisioning the missing entries

  lemma StartingBecomes(w: World, order: seq<Key>)
    requires w.broker.drain.Starting? && w.broker.drain.todo != [] && DrainStep(w, order).Some?
    ensures var e, todo := w.broker.drain.todo[0], w.broker.drain.todo;
            var k, later := e.tuple.key, Starting(todo[1..], w.broker.drain.seen);
            if k in w.broker.cleanup && !w.broker.cleanup[k].stage.Resting? then
              && Advance(w, k).Some?
              && var p := Advance(w, k).value;
                 DrainStep(w, order).value ==
                 if p.outcome.InProgress? then p.world else if p.outcome.Success? then At(p.world, later)
                     else At(p.world, Reconciled(false))
            else DrainStep(w, order).value == if StartsProvision(w) then BeginProvision(w, e) else At(w, later)
  {
  }

  /** The committed operation is the one the desired list asks for, so it is kept. */
  lemma CommitIsKept(b: Broker, b': Broker, todo: seq<Entry>)
    requires StartingOk(b, todo) && todo != [] && todo[0].tuple.key in b.cleanup && Placed(b)
    requires Commits(b, b', todo[0].tuple.key) && b' == b.(current := b'.current, cleanup := b'.cleanup)
    ensures StartingOk(b', todo[1..])
  {
    hide StartedUpTo, StillDesired, AllResting, DistinctKeys;
    CommitEmptiesCleanup(b, b', todo);
    if !b.dirty { CommitStartsOneMore(b, b', DesiredNow(b).value, todo); }
  }

  lemma CommitEmptiesCleanup(b: Broker, b': Broker, todo: seq<Entry>)
    requires StartingOk(b, todo) && todo != [] && Commits(b, b', todo[0].tuple.key)
    ensures b'.cleanup == map[] && AllResting(b'.current) && DistinctKeys(todo[1..])
  {
    hide StartedUpTo, StillDesired;
  }

  lemma CommitStartsOneMore(b: Broker, b': Broker, d: seq<Entry>, todo: seq<Entry>)
    requires DesiredNow(b) == Some(d) && StartedUpTo(b, d, todo) && todo != [] && todo[0].tuple.key in b.cleanup
    requires RunsFor(b.cleanup[todo[0].tuple.key], todo[0]) && todo[0].tuple.key !in b.current
    requires Commits(b, b', todo[0].tuple.key) && b' == b.(current := b'.current, cleanup := b'.cleanup)
    ensures StartedUpTo(b', d, todo[1..])
  {
    var k := todo[0].tuple.key;
    DesiredIsSound(AuthorityEntries(b), b.terminated);
    FindDistinct(d, |d| - |todo|);
    assert todo[1..] == d[|d| - |todo| + 1..];
    forall j | j in b'.current ensures KeepsCurrent(b', d, b'.current[j]) {
      if j != k { assert KeepsCurrent(b, d, b.current[j]); }
    }
  }

  lemma SkipIsKept(b: Broker, todo: seq<Entry>)
    requires StartingOk(b, todo) && todo != [] && Placed(b)
    requires todo[0].tuple.key !in b.cleanup
    requires todo[0].tuple.key in b.current || todo[0].runtime !in b.provisioners
    ensures StartingOk(b, todo[1..])
  {
    assert b.cleanup == map[];
    if !b.dirty {
      var d := DesiredNow(b).value;
      assert todo[1..] == d[|d| - |todo| + 1..];
    }
  }

  lemma StartingMoves(b: Broker, b': Broker, todo: seq<Entry>, outcome: Outcome, rec: Record)
    requires StartingOk(b, todo) && todo != [] && todo[0].tuple.key in b.cleanup && Placed(b)
    requires b' == b.(current := b'.current, cleanup := b'.cleanup)
    requires SameConnection(b.cleanup[todo[0].tuple.key], rec)
    requires Revokes(b, b', todo[0].tuple.key, outcome, rec)
             || (outcome.InProgress? && AwaitsWindow(b, b', todo[0].tuple.key, rec))
    ensures outcome.InProgress? ==> StartingOk(b', todo)
    ensures !outcome.InProgress? ==> AllResting(b'.cleanup) && AllResting(b'.current)
  {
    var k := todo[0].tuple.key;
    if outcome.InProgress? { assert RunsFor(b.cleanup[k], todo[0]); assert b'.current == b.current; }
    else if outcome.Unfinished? { assert forall j :: j in b'.cleanup ==> j == k; }
    else { assert b'.current == b.current; assert b'.cleanup == map[]; }
  }

  /** Starting the provision of an entry that has no record. */
  lemma BeginIsKept(w: World, todo: seq<Entry>)
    requires StartingOk(w.broker, todo) && Placed(w.broker) && StartsProvision(w) && w.broker.drain.todo == todo
    ensures ToRunner(todo[0].runtime) in w.net.ends
    ensures StartingOk(BeginProvision(w, todo[0]).broker, todo) && Placed(BeginProvision(w, todo[0]).broker)
    ensures BeginProvision(w, todo[0]).broker.drain == w.broker.drain
  {
    var b, b' := w.broker, BeginProvision(w, todo[0]).broker;
    assert b.cleanup == map[];
    assert b'.current == b.current;
    assert forall d, k :: k in b.current ==> (KeepsCurrent(b, d, b.current[k]) <==> KeepsCurrent(b', d, b.current[k]));
  }

  lemma StartingHead(b: Broker, todo: seq<Entry>)
    requires Booked(b) && StartingOk(b, todo) && todo != []
    ensures Placed(b)
    ensures var k := todo[0].tuple.key;
            k in b.cleanup ==>
                k in RecordsOf(b) && RecordsOf(b)[k] == b.cleanup[k] && !b.cleanup[k].committed
                && !b.cleanup[k].stage.Resting?
  {
  }

  lemma StartingRuns(w: World, k: Key, todo: seq<Entry>, p: Progress)
    requires Booked(w.broker) && StartingOk(w.broker, todo) && todo != [] && k == todo[0].tuple.key
             && k in w.broker.cleanup
    requires Advance(w, k) == Some(p)
    ensures Placed(p.world.broker) && OnlyRecords(w, p.world)
    ensures p.outcome.InProgress? ==> StartingOk(p.world.broker, todo)
    ensures p.outcome.Success? ==> StartingOk(p.world.broker, todo[1..])
    ensures !p.outcome.InProgress? && !p.outcome.Success? ==>
            AllResting(p.world.broker.cleanup) && AllResting(p.world.broker.current)
  {
    hide Advance, StartingOk, Placed, Booked, AllResting, Revokes, Commits, AwaitsWindow;
    StartingHead(w.broker, todo);
    var rec := AdvanceEffect(w, k);
    AdvanceOnlyRecords(w, k);
    if p.outcome.Success? {
      CommitsKeepsPlaced(w.broker, p.world.broker, k);
      CommitIsKept(w.broker, p.world.broker, todo);
    } else {
      StartingMoves(w.broker, p.world.broker, todo, p.outcome, rec);
      if Revokes(w.broker, p.world.broker, k, p.outcome, rec) {
        RevokesKeepsPlaced(w.broker, p.world.broker, k, p.outcome, rec);
      }
      else { AwaitsKeepsPlaced(w.broker, p.world.broker, k, rec); }
    }
  }

  lemma CommitsKeepsPlaced(b: Broker, b': Broker, k: Key)
    requires Placed(b) && Commits(b, b', k)
    ensures Placed(b')
  {
  }

  lemma AwaitsKeepsPlaced(b: Broker, b': Broker, k: Key, rec: Record)
    requires Placed(b) && k in RecordsOf(b) && AwaitsWindow(b, b', k, rec) && SameConnection(RecordsOf(b)[k], rec)
    ensures Placed(b')
  {
  }

  /** The position of the loop is all that differs. */
  lemma StartingAt(b: Broker, todo: seq<Entry>, seen: nat)
    requires Placed(b) && StartingOk(b, todo)
    ensures Placed(b.(drain := Starting(todo, seen))) && LoopOk(b.(drain := Starting(todo, seen)))
  {
    hide StartingOk, Placed;
    PlacedAt(b, Starting(todo, seen));
    StartingOkAt(b, todo, Starting(todo, seen));
  }

  /** The procedure of the entry's operation goes on. */
  lemma StartingRunStep(w: World, order: seq<Key>)
    requires Booked(w.broker) && w.broker.drain.Starting? && w.broker.drain.todo != []
    requires StartingOk(w.broker, w.broker.drain.todo) && w.broker.drain.todo[0].tuple.key in w.broker.cleanup
    requires DrainStep(w, order).Some?
    ensures Placed(DrainStep(w, order).value.broker) && LoopOk(DrainStep(w, order).value.broker)
  {
    hide Advance, DrainStep, StartingOk, LoopOk, Placed, Booked, AllResting, BeginProvision;
    var todo, seen := w.broker.drain.todo, w.broker.drain.seen;
    StartingHead(w.broker, todo);
    StartingBecomes(w, order);
    var p := Advance(w, todo[0].tuple.key).value;
    StartingRuns(w, todo[0].tuple.key, todo, p);
    if p.outcome.InProgress? {
      StartingAt(p.world.broker, todo, seen);
      assert p.world.broker.(drain := Starting(todo, seen)) == p.world.broker;
    } else if p.outcome.Success? {
      StartingAt(p.world.broker, todo[1..], seen);
    } else {
      FailedAt(p.world.broker);
    }
  }

  /** No operation runs for the entry: one begins, or the entry is passed. */
  lemma StartingNextStep(w: World, order: seq<Key>)
    requires Booked(w.broker) && w.broker.drain.Starting? && w.broker.drain.todo != []
    requires StartingOk(w.broker, w.broker.drain.todo) && w.broker.drain.todo[0].tuple.key !in w.broker.cleanup
    requires DrainStep(w, order).Some? && (forall rt :: rt in w.broker.provisioners ==> ToRunner(rt) in w.net.ends)
    ensures Placed(DrainStep(w, order).value.broker) && LoopOk(DrainStep(w, order).value.broker)
  {
    hide Advance, DrainStep, StartingOk, LoopOk, Placed, Booked, BeginProvision;
    var b, todo, seen := w.broker, w.broker.drain.todo, w.broker.drain.seen;
    StartingHead(b, todo);
    StartingBecomes(w, order);
    if StartsProvision(w) {
      BeginIsKept(w, todo);
      var b' := BeginProvision(w, todo[0]).broker;
      StartingAt(b', todo, seen);
      assert b'.(drain := Starting(todo, seen)) == b';
    } else {
      SkipIsKept(b, todo);
      StartingAt(b, todo[1..], seen);
    }
  }

  lemma StartingStep(w: World, order: seq<Key>)
    requires Booked(w.broker) && w.broker.drain.Starting? && w.broker.drain.todo != []
             && StartingOk(w.broker, w.broker.drain.todo)
    requires DrainStep(w, order).Some? && (forall rt :: rt in w.broker.provisioners ==> ToRunner(rt) in w.net.ends)
    ensures Placed(DrainStep(w, order).value.broker) && LoopOk(DrainStep(w, order).value.broker)
  {
    hide DrainStep, StartingOk, LoopOk, Placed, Booked;
    if w.broker.drain.todo[0].tuple.key in w.broker.cleanup {
      StartingRunStep(w, order);
    } else { StartingNextStep(w, order); }
  }

  lemma StartedStep(w: World, order: seq<Key>)
    requires Booked(w.broker) && w.broker.drain.Starting? && w.broker.drain.todo == [] && StartingOk(w.broker, [])
    requires DrainStep(w, order).Some?
    ensures Placed(DrainStep(w, order).value.broker) && LoopOk(DrainStep(w, order).value.broker)
  {
    assert w.broker.cleanup == map[];
    var b := w.broker;
    if !b.dirty {
      var d := DesiredNow(b).value;
      forall e | e in d && e.runtime in b.provisioners ensures e.tuple.key in b.current {
        var i :| 0 <= i < |d| && d[i] == e;
      }
    }
  }

  /** Turning the loop over, ending it, or arming the retry. */
  lemma TurnStep(w: World, order: seq<Key>)
    requires Placed(w.broker) && LoopOk(w.broker) && !w.broker.closed && DrainStep(w, order).Some?
    requires w.broker.drain.Looping? || w.broker.drain.Reconciled? || w.broker.drain.Finishing?
    ensures Placed(DrainStep(w, order).value.broker) && LoopOk(DrainStep(w, order).value.broker)
  {
    hide Advance, Placed;
    var b, b' := w.broker, DrainStep(w, order).value.broker;
    SameBook(b, b');
    if b'.drain.RollingBack? { assert forall k :: k in order <==> k in (set j | j in order); }
  }

  /** Convergence only reads the authority, the provisioners and the records. */
  lemma SameBook(b: Broker, b': Broker)
    requires b'.authority == b.authority && b'.terminated == b.terminated && b'.provisioners == b.provisioners
    requires b'.current == b.current && b'.cleanup == b.cleanup
    ensures Converged(b) <==> Converged(b')
    ensures Placed(b) <==> Placed(b')
  {
    assert forall d, k :: k in b.current ==> (KeepsCurrent(b, d, b.current[k]) <==> KeepsCurrent(b', d, b.current[k]));
  }

  lemma BookedIsPlaced(b: Broker)
    requires Booked(b)
    ensures Placed(b)
  {
  }

  lemma DrainConverging(w: World, order: seq<Key>)
    requires Safe(w) && Converging(w.broker) && DrainStep(w, order).Some?
    ensures Converging(DrainStep(w, order).value.broker)
  {
    if w.broker.closed { DrainKeepsClosed(w, order); return; }
    SafeIsBooked(w);
    assert forall rt :: rt in w.broker.provisioners ==> ToRunner(rt) in w.net.ends;
    DrainOpenConverging(w, order);
  }

  lemma DrainOpenConverging(w: World, order: seq<Key>)
    requires Booked(w.broker) && LoopOk(w.broker) && !w.broker.closed && DrainStep(w, order).Some?
    requires forall rt :: rt in w.broker.provisioners ==> ToRunner(rt) in w.net.ends
    ensures Converging(DrainStep(w, order).value.broker)
  {
    hide DrainStep, Booked, RollingOk, ComparingOk, StartingOk, AllResting, Converged;
    BookedIsPlaced(w.broker);
    match w.broker.drain
    case RollingBack(undone) => if undone == [] { RolledBackStep(w, order); } else { RollingStep(w, order); }
    case Comparing(_, unchecked) => if unchecked == [] { ComparedStep(w, order); } else { ComparingStep(w, order); }
    case Starting(todo, _) => if todo == [] { StartedStep(w, order); } else { StartingStep(w, order); }
    case Idle => IdleStays(w, order);
    case _ => TurnStep(w, order);
  }

  lemma IdleStays(w: World, order: seq<Key>)
    requires w.broker.drain.Idle?
    ensures DrainStep(w, order).None?
  {
  }

  lemma DrainKeepsClosed(w: World, order: seq<Key>)
    requires w.broker.closed
    ensures DrainStep(w, order).Some? ==> DrainStep(w, order).value.broker.closed
  {
    hide Advance, BeginProvision, DrainStep;
    if DrainStep(w, order).Some? {
      match w.broker.drain
      case RollingBack(undone) =>
        if undone != [] {
          RollingBecomes(w, order);
          AdvanceOnlyRecords(w, undone[0]);
        } else { PauseKeepsRecords(w, order); }
      case Comparing(d, unchecked) =>
        if unchecked != [] {
          ComparingBecomes(w, order);
          AdvanceOnlyRecords(w, unchecked[0]);
        } else { PauseKeepsRecords(w, order); }
      case Starting(todo, seen) =>
        if todo != [] {
          StartingBecomes(w, order);
          AdvanceOnlyRecords(w, todo[0].tuple.key);
          if StartsProvision(w) { BeginLists(w, todo[0]); }
        } else { PauseKeepsRecords(w, order); }
      case _ => PauseKeepsRecords(w, order);
    }
  }

  /** Where no record procedure runs and no provision begins. */
  predicate Pauses(drain: Drain) {
    match drain
    case RollingBack(undone) => undone == []
    case Comparing(_, unchecked) => unchecked == []
    case Starting(todo, _) => todo == []
    case _ => true
  }

  /** The records and the authority stay; if a list of entries to provision is taken, it is that of the authority. */
  predicate SameRecords(b: Broker, b': Broker) {
    b'.current == b.current && b'.cleanup == b.cleanup && b'.shutdown == b.shutdown && PassMoves(b, b')
  }

  /** The authority stays; a list of entries to provision is worked off further, or taken from it. */
  predicate PassMoves(b: Broker, b': Broker) {
    && b'.closed == b.closed && b'.authority == b.authority && b'.revision == b.revision
    && (b'.drain.Starting? ==> b'.drain.seen == if b.drain.Starting? then b.drain.seen else b.revision)
  }

  lemma PauseKeepsRecords(w: World, order: seq<Key>)
    requires Pauses(w.broker.drain) && DrainStep(w, order).Some?
    ensures SameRecords(w.broker, DrainStep(w, order).value.broker)
  {
    hide DrainStep, SameRecords;
    match w.broker.drain
    case RollingBack(_) => RolledBackKeepsRecords(w, order);
    case Comparing(_, _) => ComparedKeepsRecords(w, order);
    case Starting(_, _) => StartedKeepsRecords(w, order);
    case Idle => IdleStays(w, order);
    case _ => TurnKeepsRecords(w, order);
  }

  lemma RolledBackKeepsRecords(w: World, order: seq<Key>)
    requires w.broker.drain == RollingBack([]) && DrainStep(w, order).Some?
    ensures SameRecords(w.broker, DrainStep(w, order).value.broker)
  {
    hide DrainStep;
    RolledBackBecomes(w, order);
  }

  lemma ComparedKeepsRecords(w: World, order: seq<Key>)
    requires w.broker.drain.Comparing? && w.broker.drain.unchecked == [] && DrainStep(w, order).Some?
    ensures SameRecords(w.broker, DrainStep(w, order).value.broker)
  {
    hide DrainStep;
    ComparedBecomes(w, order);
  }

  lemma TurnKeepsRecords(w: World, order: seq<Key>)
    requires w.broker.drain.Looping? || w.broker.drain.Reconciled? || w.broker.drain.Finishing?
    requires DrainStep(w, order).Some?
    ensures SameRecords(w.broker, DrainStep(w, order).value.broker)
  {
    hide Advance, BeginProvision, Desired, StartsProvision, KeepsCurrent, IsListing;
  }

  lemma StartedKeepsRecords(w: World, order: seq<Key>)
    requires w.broker.drain.Starting? && w.broker.drain.todo == [] && DrainStep(w, order).Some?
    ensures SameRecords(w.broker, DrainStep(w, order).value.broker)
  {
    hide Advance, BeginProvision, Desired, StartsProvision, KeepsCurrent, IsListing;
  }

  // ----- every other step

  /** A change of the authority, the provisioners or the terminated runtimes always marks the book dirty. */
  lemma DirtyConverging(b: Broker, b': Broker)
    requires Converging(b) && !b.closed && !b'.closed
    requires b' == Schedule(b.(authority := b'.authority, revision := b'.revision, provisioners := b'.provisioners,
                              terminated := b'.terminated, retryArmed := b'.retryArmed))
    ensures Converging(b')
  {
    assert b'.dirty;
  }

  lemma AbortConverging(w: World, whose: Option<RuntimeId>)
    requires Converging(w.broker)
    ensures Converging(Abort(w, whose).broker)
  {
    hide Converging, Abort;
    AbortKeepsBook(w, whose);
    AbortOnlyFlags(w, whose);
    FlagsConverging(w.broker, Abort(w, whose).broker);
  }

  lemma AbortOnlyFlags(w: World, whose: Option<RuntimeId>)
    ensures var a, b := Abort(w, whose).broker, w.broker;
            a.cleanup.Keys == b.cleanup.Keys
                && forall k :: k in b.cleanup ==> SameButAborted(b.cleanup[k], a.cleanup[k])
  {
  }

  lemma FlagsConverging(b: Broker, b': Broker)
    requires Converging(b) && b' == b.(cleanup := b'.cleanup)
    requires b'.cleanup.Keys == b.cleanup.Keys
             && forall k :: k in b.cleanup ==> SameButAborted(b.cleanup[k], b'.cleanup[k])
    ensures Converging(b')
  {
    hide FindEntry, Desired, KeepsCurrent, Converged;
    forall d, k | k in b.current ensures KeepsCurrent(b, d, b.current[k]) <==> KeepsCurrent(b', d, b.current[k]) {
      SameKeeps(b, b', d, b.current[k]);
    }
    if b.cleanup == map[] { assert b'.cleanup == map[]; assert b' == b; }
    else { NotConverged(b); }
  }

  lemma SameKeeps(b: Broker, b': Broker, d: seq<Entry>, rec: Record)
    requires b' == b.(cleanup := b'.cleanup)
    ensures KeepsCurrent(b, d, rec) <==> KeepsCurrent(b', d, rec)
  {
  }

  lemma NotConverged(b: Broker)
    requires b.cleanup != map[]
    ensures !Converged(b)
  {
  }

  lemma StepConverging(w: World, step: Step)
    requires Safe(w) && Converging(w.broker) && Apply(w, step).Some?
    ensures Converging(Apply(w, step).value.broker)
  {
    hide Apply;
    match step
    case Drains(order) => DrainsIs(w, order); DrainConverging(w, order);
    case Replace(_) => AbortingConverging(w, step, None);
    case Terminated(rt) => AbortingConverging(w, step, Some(rt));
    case Close => AbortingConverging(w, step, None);
    case Stops(k) => StopsKeepsClosed(w, k);
    case _ => QuietConverging(w, step);
  }

  lemma DrainsIs(w: World, order: seq<Key>)
    ensures Apply(w, Drains(order)) == DrainStep(w, order)
  {
    hide DrainStep;
  }

  lemma AbortingConverging(w: World, step: Step, whose: Option<RuntimeId>)
    requires Converging(w.broker) && Apply(w, step).Some?
    requires whose == if step.Terminated? then Some(step.rt) else None
    requires step.Replace? || step.Terminated? || step.Close?
    ensures Converging(Apply(w, step).value.broker)
  {
    hide Converging, Abort;
    var b, b' := w.broker, Apply(w, step).value.broker;
    AbortConverging(w, whose);
    AbortKeepsBook(w, whose);
    if b'.closed { ClosedConverging(b'); } else { DirtyConverging(Abort(w, whose).broker, b'); }
  }

  lemma AbortKeepsBook(w: World, whose: Option<RuntimeId>)
    ensures Abort(w, whose).broker == w.broker.(cleanup := Abort(w, whose).broker.cleanup)
  {
  }

  lemma ClosedConverging(b: Broker)
    requires b.closed
    ensures Converging(b)
  {
  }

  lemma QuietConverging(w: World, step: Step)
    requires Safe(w) && Converging(w.broker) && Apply(w, step).Some?
    requires !step.Drains? && !step.Replace? && !step.Terminated? && !step.Close? && !step.Stops?
    ensures Converging(Apply(w, step).value.broker)
  {
    hide Converging, NetOk, OwnershipOk, RecordsOk, Receive, Answer;
    var b, b' := w.broker, Apply(w, step).value.broker;
    if b'.closed { ClosedConverging(b'); }
    else if step.Register? || step.RetryFires? { if b' != b { DirtyConverging(b, b'); } }
  }

  lemma StopsKeepsClosed(w: World, k: Key)
    requires Safe(w) && Apply(w, Stops(k)).Some?
    ensures Apply(w, Stops(k)).value.broker.closed
  {
    assert w.broker.closed;
    StopsOnlyRecords(w, k);
  }

  lemma StopsOnlyRecords(w: World, k: Key)
    requires Apply(w, Stops(k)).Some?
    ensures Apply(w, Stops(k)).value.broker.closed == w.broker.closed
  {
    hide BeginRevocation, Resume;
    BeginOnlyRecords(w, k);
    if Settled(w, k) { ResumeOnlyRecords(w, k); }
  }

  // ----- which entries a provision starts for

  /** The entries still to be provisioned come from the authority of the revision they were taken at. */
  ghost predicate TodoListed(b: Broker) {
    && (b.drain.Starting? ==> b.drain.seen <= b.revision)
    && (b.drain.Starting? && b.drain.seen == b.revision ==> forall e :: e in b.drain.todo ==> e in AuthorityEntries(b))
    && b.provisioners !! b.terminated
  }

  lemma StartingTodoListed(w: World, order: seq<Key>)
    requires TodoListed(w.broker) && DrainStep(w, order).Some? && w.broker.drain.Starting? && w.broker.drain.todo != []
    ensures TodoListed(DrainStep(w, order).value.broker)
  {
    hide Advance, DrainStep, TodoListed, BeginProvision;
    var todo := w.broker.drain.todo;
    var b' := DrainStep(w, order).value.broker;
    StartingBecomes(w, order);
    if todo[0].tuple.key in w.broker.cleanup && !w.broker.cleanup[todo[0].tuple.key].stage.Resting? {
      AdvanceOnlyRecords(w, todo[0].tuple.key);
      SameListing(w.broker, b');
    } else if StartsProvision(w) {
      BeginLists(w, todo[0]);
      SameListing(w.broker, b');
    } else {
      SameListing(w.broker, b');
    }
  }

  lemma BeginLists(w: World, e: Entry)
    requires ToRunner(e.runtime) in w.net.ends
    ensures var b' := BeginProvision(w, e).broker;
            b' == w.broker.(cleanup := b'.cleanup)
  {
  }

  /** The drain loop keeps its list or goes one entry further. */
  lemma SameListing(b: Broker, b': Broker)
    requires TodoListed(b) && b.drain.Starting? && b.drain.todo != []
    requires b'.authority == b.authority && b'.revision == b.revision && b'.terminated == b.terminated
             && b'.provisioners == b.provisioners
    requires !b'.drain.Starting? || b'.drain == b.drain || b'.drain == Starting(b.drain.todo[1..], b.drain.seen)
    ensures TodoListed(b')
  {
    assert forall e :: e in b.drain.todo[1..] ==> e in b.drain.todo;
  }

  lemma UnwindingTodoListed(w: World, order: seq<Key>)
    requires TodoListed(w.broker) && DrainStep(w, order).Some?
    requires (w.broker.drain.RollingBack? && w.broker.drain.undone != [])
             || (w.broker.drain.Comparing? && w.broker.drain.unchecked != [])
    ensures TodoListed(DrainStep(w, order).value.broker)
  {
    hide Advance, DrainStep, KeepsCurrent;
    if w.broker.drain.RollingBack? {
      RollingBecomes(w, order);
      AdvanceOnlyRecords(w, w.broker.drain.undone[0]);
    } else {
      ComparingBecomes(w, order);
      AdvanceOnlyRecords(w, w.broker.drain.unchecked[0]);
    }
  }

  lemma PauseTodoListed(w: World, order: seq<Key>)
    requires TodoListed(w.broker) && DrainStep(w, order).Some? && Pauses(w.broker.drain)
    ensures TodoListed(DrainStep(w, order).value.broker)
  {
    hide DrainStep, TodoListed;
    match w.broker.drain
    case RollingBack(_) => RolledBackTodoListed(w, order);
    case Comparing(_, _) => ComparedTodoListed(w, order);
    case Idle => IdleStays(w, order);
    case _ => TurnTodoListed(w, order);
  }

  lemma RolledBackTodoListed(w: World, order: seq<Key>)
    requires TodoListed(w.broker) && w.broker.drain == RollingBack([]) && DrainStep(w, order).Some?
    ensures TodoListed(DrainStep(w, order).value.broker)
  {
    hide DrainStep, DesiredNow;
    RolledBackBecomes(w, order);
  }

  lemma ComparedTodoListed(w: World, order: seq<Key>)
    requires TodoListed(w.broker) && w.broker.drain.Comparing? && w.broker.drain.unchecked == []
             && DrainStep(w, order).Some?
    ensures TodoListed(DrainStep(w, order).value.broker)
  {
    hide DrainStep;
    ComparedBecomes(w, order);
    DesiredIsSound(AuthorityEntries(w.broker), w.broker.terminated);
  }

  lemma TurnTodoListed(w: World, order: seq<Key>)
    requires w.broker.drain.Looping? || w.broker.drain.Reconciled? || w.broker.drain.Finishing?
             || (w.broker.drain.Starting? && w.broker.drain.todo == [])
    requires TodoListed(w.broker) && DrainStep(w, order).Some?
    ensures TodoListed(DrainStep(w, order).value.broker)
  {
    hide Advance, BeginProvision, Desired, StartsProvision, KeepsCurrent, IsListing;
  }

  lemma DrainTodoListed(w: World, order: seq<Key>)
    requires TodoListed(w.broker) && DrainStep(w, order).Some?
    ensures TodoListed(DrainStep(w, order).value.broker)
  {
    hide DrainStep, TodoListed;
    match w.broker.drain
    case RollingBack(undone) => if undone != [] { UnwindingTodoListed(w, order); } else { PauseTodoListed(w, order); }
    case Comparing(_, unchecked) =>
      if unchecked != [] { UnwindingTodoListed(w, order); } else { PauseTodoListed(w, order); }
    case Starting(todo, _) => if todo != [] { StartingTodoListed(w, order); } else { PauseTodoListed(w, order); }
    case _ => PauseTodoListed(w, order);
  }

  lemma StepTodoListed(w: World, step: Step)
    requires TodoListed(w.broker) && Apply(w, step).Some?
    ensures TodoListed(Apply(w, step).value.broker)
  {
    hide BeginRevocation, Resume, DrainStep, Receive, Answer, Abort;
    match step
    case Drains(order) => DrainTodoListed(w, order);
    case Stops(k) => BeginOnlyRecords(w, k); if Settled(w, k) { ResumeOnlyRecords(w, k); }
    case Terminated(rt) => AbortKeepsBook(w, Some(rt));
    case Replace(_) => AbortKeepsBook(w, None);
    case Close => AbortKeepsBook(w, None);
    case _ =>
  }

  // ----- what holds in every run

  lemma {:induction false} ReachableConverging(steps: seq<Step>)
    ensures Run(steps).Some? ==> Converging(Run(steps).value.broker) && TodoListed(Run(steps).value.broker)
    decreases |steps|
  {
    if steps == [] {
      assert Converged(INITIAL.broker);
    } else {
      ReachableConverging(steps[..|steps| - 1]);
      ReachableSafe(steps[..|steps| - 1]);
      if Run(steps).Some? {
        StepConverging(Run(steps[..|steps| - 1]).value, steps[|steps| - 1]);
        StepTodoListed(Run(steps[..|steps| - 1]).value, steps[|steps| - 1]);
      }
    }
  }
}
