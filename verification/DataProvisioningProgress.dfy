/**
 * That a pass of the Data broker (apps/pwa/src/data-broker.ts) succeeds unless something fails it, and that
 * it gets there.
 *
 * A state is `Calm` when nothing stands in the way of a pass: the broker is open, no key is listed twice, no
 * runtime concerned has closed or died, and each has a Runner of its own key. `Fluent` is the invariant of
 * such a pass: every request a record awaits is answered well or will be, since what is ahead of it in its
 * port leaves the slot clear. From it follow that the pass never ends in failure (`PassSucceeds`) and, by a
 * measure that falls with each step taken, that steps of the broker and of the ends alone lead to its success with
 * the books as the authority asks (`CanSucceed`, `CalmConverges`). The measure counts, in this order, the
 * stages of the pass, the records still to be undone, checked or started, how far the record at hand has come,
 * and the messages in its ports. `RevokedForCause` is the other side of it: what is committed is not given up
 * without a reason.
 */
module DataProvisioningProgress {
  import opened Base
  import opened DataProvisioning
  import opened DataProvisioningSafety
  import opened DataProvisioningConvergence
  import opened DataProvisioningResults
  import opened DataProvisioningStarts

  // ----- what can go wrong, and does not

  /** The end serves, for this key if it is a Runner's. */
  predicate Serves(n: Net, t: Target, key: Key) {
    t in n.ends && n.ends[t].phase.Serving? && (n.ends[t].key.Some? ==> n.ends[t].key.value == key)
  }

  /**
   * The broker is open and lists no key twice, nothing is cut off, and the Window and every Runner that has a
   * connection or is asked for one serve, each Runner under its own key.
   */
  ghost predicate Calm(w: World) {
    var b, n := w.broker, w.net;
    && !b.closed && n.severed == {} && ToWindow in n.ends && n.ends[ToWindow].key.None?
    && n.ends[ToWindow].phase.Serving?
    && (forall i, j :: 0 <= i < j < |AuthorityEntries(b)| ==>
       AuthorityEntries(b)[i].tuple.key != AuthorityEntries(b)[j].tuple.key)
    && (forall k :: k in RecordsOf(b) ==> Serves(n, ToRunner(RecordsOf(b)[k].runtime), k))
    && (forall e :: Asked(b, e) ==> Serves(n, ToRunner(e.runtime), e.tuple.key))
  }

  /** Steps in which nothing fails and nothing new is asked for: the broker goes on, or an end does. */
  predicate Working(step: Step) { step.Drains? || step.Receives? || step.Answers? }

  // ----- a request that will be answered well

  predicate InboxHas(e: End, q: ReqId) { exists i :: 0 <= i < |e.inbox| && e.inbox[i].req == q }
  predicate OutboxHas(e: End, q: ReqId) { exists i :: 0 <= i < |e.outbox| && e.outbox[i].req == q }

  /** Nothing of the key is held or on its way. */
  predicate EndClear(e: End, key: Key) {
    key !in e.slots && forall i :: 0 <= i < |e.inbox| && e.inbox[i].install ==> e.inbox[i].tuple.key != key
  }

  /** The only installation of the key on its way is the awaited one, and then nothing of the key is held. */
  predicate SoleInstall(e: End, q: ReqId, key: Key) {
    && (forall i, j :: 0 <= i < j < |e.inbox| && e.inbox[i].install && e.inbox[j].install ==>
       !(e.inbox[i].tuple.key == key && e.inbox[j].tuple.key == key))
    && (forall i :: 0 <= i < |e.inbox| && e.inbox[i].install && e.inbox[i].tuple.key == key ==>
       e.inbox[i].req == q && key !in e.slots)
  }

  predicate Promising(n: Net, q: ReqId)
    requires q in n.requests && n.requests[q].target in n.ends
  {
    var r, e := n.requests[q], n.ends[n.requests[q].target];
    && !r.status.Rejected?
    && (forall i :: 0 <= i < |e.outbox| && e.outbox[i].req == q ==> e.outbox[i].ok)
    && (r.status.Pending? ==> InboxHas(e, q) || OutboxHas(e, q))
    && (r.install ==> SoleInstall(e, q, r.tuple.key))
  }

  /** The record's procedure waits for such a request. */
  ghost predicate Flows(n: Net, b: Broker, rec: Record) {
    && !rec.stage.Resting?
    && rec.stage.req in n.requests && n.requests[rec.stage.req].target in n.ends && ToWindow in n.ends
    && Promising(n, rec.stage.req)
    && match rec.stage
       case AwaitRunnerInstall(_) => !rec.aborted && StillDesired(b, rec) && EndClear(n.ends[ToWindow], rec.tuple.key)
       case AwaitWindowInstall(_) => !rec.aborted && StillDesired(b, rec)
       case AwaitRunnerRevoke(_) => rec.windowRevoked
       case _ => true
  }

  ghost predicate AllFlow(w: World) {
    forall k :: k in RecordsOf(w.broker) && !RecordsOf(w.broker)[k].stage.Resting? ==>
      Flows(w.net, w.broker, RecordsOf(w.broker)[k])
  }

  predicate Installing(rec: Record) { rec.stage.AwaitRunnerInstall? || rec.stage.AwaitWindowInstall? }

  /** The pass has met no failure so far, and what it waits for will be answered well. */
  ghost predicate Fluent(w: World) {
    && Calm(w) && AllFlow(w) && w.broker.drain != Reconciled(false)
    && (w.broker.drain.Starting? ==>
       w.broker.drain.seen == w.broker.revision
       && forall k :: k in w.broker.cleanup && !w.broker.cleanup[k].stage.Resting? ==> Installing(w.broker.cleanup[k]))
  }

  // ----- an end works

  lemma ReceiveMoves(e: End, q: ReqId)
    requires e.inbox != []
    ensures var e' := Receive(e);
            && (InboxHas(e, q) || OutboxHas(e, q) ==> InboxHas(e', q) || OutboxHas(e', q))
            && |e'.outbox| == |e.outbox| + 1 && e'.outbox[..|e.outbox|] == e.outbox
            && e'.outbox[|e.outbox|].req == e.inbox[0].req && e'.inbox == e.inbox[1..]
            && (e'.outbox[|e.outbox|].ok <==> !e.inbox[0].install || Installs(e, e.inbox[0].tuple))
  {
    var e' := Receive(e);
    assert forall i :: 0 <= i < |e'.inbox| ==> e'.inbox[i] == e.inbox[i + 1];
    assert forall i :: 0 <= i < |e.outbox| ==> e'.outbox[i] == e.outbox[i];
    if InboxHas(e, q) {
      var i :| 0 <= i < |e.inbox| && e.inbox[i].req == q;
      if i > 0 { assert e'.inbox[i - 1].req == q; } else { assert e'.outbox[|e.outbox|].req == q; }
    } else if OutboxHas(e, q) {
      var i :| 0 <= i < |e.outbox| && e.outbox[i].req == q;
      assert e'.outbox[i].req == q;
    }
  }

  lemma ReceiveSole(e: End, q: ReqId, key: Key)
    requires e.inbox != [] && SoleInstall(e, q, key)
    ensures SoleInstall(Receive(e), q, key)
  {
    assert forall i :: 0 <= i < |Receive(e).inbox| ==> Receive(e).inbox[i] == e.inbox[i + 1];
  }

  lemma ReceivePromising(n: Net, issued: map<ConnId, Tuple>, t: Target, q: ReqId)
    requires NetOk(n, issued) && t in n.ends && n.ends[t].inbox != []
    requires q in n.requests && n.requests[q].target in n.ends && Promising(n, q)
    requires n.requests[q].install ==> n.ends[n.requests[q].target].phase.Serving?
    ensures Promising(WithEnd(n, t, Receive(n.ends[t])), q)
  {
    hide Receive, InboxHas, OutboxHas, SoleInstall;
    var e, e', r := n.ends[t], Receive(n.ends[t]), n.requests[q];
    ReceiveMoves(e, q);
    if t == r.target {
      assert EndOk(n, t, e, issued) && MessageOk(n, t, e.inbox[0]);
      if r.install {
        ReceiveSole(e, q, r.tuple.key);
        if e.inbox[0].req == q { HeadInstalls(e, q, r.tuple.key); }
      }
      forall i | 0 <= i < |e'.outbox| && e'.outbox[i].req == q ensures e'.outbox[i].ok {
        if i < |e.outbox| { assert e'.outbox[..|e.outbox|][i] == e.outbox[i]; }
      }
    }
  }

  lemma HeadInstalls(e: End, q: ReqId, key: Key)
    requires e.inbox != [] && SoleInstall(e, q, key) && e.inbox[0].install && e.inbox[0].tuple.key == key
    requires e.phase.Serving?
    ensures Installs(e, e.inbox[0].tuple)
  {
  }

  lemma ReceiveClear(e: End, key: Key)
    requires e.inbox != [] && EndClear(e, key)
    ensures EndClear(Receive(e), key)
  {
    assert forall i :: 0 <= i < |Receive(e).inbox| ==> Receive(e).inbox[i] == e.inbox[i + 1];
  }

  lemma ShorterOutbox(e: End, q: ReqId)
    requires e.outbox != []
    ensures OutboxHas(e, q) && e.outbox[0].req != q ==> OutboxHas(e.(outbox := e.outbox[1..]), q)
    ensures (forall i :: 0 <= i < |e.outbox| && e.outbox[i].req == q ==> e.outbox[i].ok) ==>
            forall i :: 0 <= i < |e.outbox[1..]| && e.outbox[1..][i].req == q ==> e.outbox[1..][i].ok
  {
    var rest := e.outbox[1..];
    assert forall i :: 0 <= i < |rest| ==> rest[i] == e.outbox[i + 1];
    if OutboxHas(e, q) && e.outbox[0].req != q {
      var i :| 0 <= i < |e.outbox| && e.outbox[i].req == q;
      assert rest[i - 1].req == q;
    }
  }

  /** The outcome of a reply: of its own request, and of no other. */
  lemma HeardStatus(n: Net, t: Target, q: ReqId)
    requires t in n.ends && n.ends[t].outbox != [] && q in n.requests && n.requests[q].target in n.ends
    ensures var r, m := n.ends[t].outbox[0], n.requests[q];
            q in Heard(n, t).requests &&
            Heard(n, t).requests[q] ==
            if r.req == q && m.status.Pending?
            then m.(status := if r.ok && (m.target.ToWindow? || r.conn == m.conn) then Resolved else Rejected) else m
  {
  }

  lemma OutboxOnly(e: End, outbox: seq<Reply>, q: ReqId, key: Key)
    ensures InboxHas(e.(outbox := outbox), q) == InboxHas(e, q)
    ensures SoleInstall(e.(outbox := outbox), q, key) == SoleInstall(e, q, key)
  {
  }

  lemma AnswerPromising(n: Net, issued: map<ConnId, Tuple>, t: Target, q: ReqId)
    requires NetOk(n, issued) && t in n.ends && n.ends[t].outbox != []
    requires q in n.requests && n.requests[q].target in n.ends && Promising(n, q)
    ensures q in Heard(n, t).requests && Heard(n, t).requests[q].target in Heard(n, t).ends && Promising(Heard(n, t), q)
  {
    hide Heard, InboxHas, OutboxHas, SoleInstall;
    var e := n.ends[t];
    assert EndOk(n, t, e, issued) && ReplyOk(n, t, e.outbox[0]);
    HeardIs(n, t);
    HeardStatus(n, t, q);
    ShorterOutbox(e, q);
    OutboxOnly(e, e.outbox[1..], q, n.requests[q].tuple.key);
  }

  // ----- the working ends keep a pass fluent

  lemma EndsAsBefore(w: World, w': World)
    requires Calm(w) && w'.broker == w.broker && w'.net.severed == w.net.severed && w.net.ends.Keys <= w'.net.ends.Keys
    requires forall t :: t in w.net.ends ==>
             w'.net.ends[t].phase == w.net.ends[t].phase && w'.net.ends[t].key == w.net.ends[t].key
    ensures Calm(w')
  {
    forall k | k in RecordsOf(w.broker) ensures Serves(w'.net, ToRunner(RecordsOf(w.broker)[k].runtime), k) {
      assert Serves(w.net, ToRunner(RecordsOf(w.broker)[k].runtime), k);
    }
    forall e | Asked(w.broker, e) ensures Serves(w'.net, ToRunner(e.runtime), e.tuple.key) {
      assert Serves(w.net, ToRunner(e.runtime), e.tuple.key);
    }
  }

  /** What a running procedure waits for. */
  lemma AwaitedIs(w: World, k: Key)
    requires Safe(w) && k in RecordsOf(w.broker) && !RecordsOf(w.broker)[k].stage.Resting?
    ensures var rec := RecordsOf(w.broker)[k];
            && rec.tuple.key == k && rec.stage.req in w.net.requests
            && w.net.requests[rec.stage.req].install == Installing(rec)
               && w.net.requests[rec.stage.req].tuple == rec.tuple
            && (w.net.requests[rec.stage.req].target in {ToWindow, ToRunner(rec.runtime)})
  {
    assert RecordOk(w, k, RecordsOf(w.broker)[k]);
  }

  lemma TargetServes(w: World, k: Key)
    requires Safe(w) && Calm(w) && k in RecordsOf(w.broker) && !RecordsOf(w.broker)[k].stage.Resting?
    ensures var q := RecordsOf(w.broker)[k].stage.req;
            && q in w.net.requests && w.net.requests[q].target in w.net.ends
            && w.net.ends[w.net.requests[q].target].phase.Serving?
  {
    hide Safe;
    AwaitedIs(w, k);
    assert Serves(w.net, ToRunner(RecordsOf(w.broker)[k].runtime), k);
  }

  lemma SafeNet(w: World)
    requires Safe(w)
    ensures NetOk(w.net, w.issued) && ToWindow in w.net.ends
  {
  }

  lemma ReceivesFluent(w: World, t: Target)
    requires Safe(w) && Fluent(w) && t in w.net.ends && w.net.ends[t].inbox != []
    ensures Fluent(w.(net := WithEnd(w.net, t, Receive(w.net.ends[t]))))
  {
    hide Safe, Calm, Promising, EndClear, NetOk, StillDesired;
    var w' := w.(net := WithEnd(w.net, t, Receive(w.net.ends[t])));
    SafeNet(w);
    EndsAsBefore(w, w');
    forall k | k in RecordsOf(w.broker) && !RecordsOf(w.broker)[k].stage.Resting?
      ensures Flows(w'.net, w'.broker, RecordsOf(w.broker)[k])
    {
      assert Flows(w.net, w.broker, RecordsOf(w.broker)[k]);
      TargetServes(w, k);
      ReceivePromising(w.net, w.issued, t, RecordsOf(w.broker)[k].stage.req);
      if EndClear(w.net.ends[t], k) { ReceiveClear(w.net.ends[t], k); }
      AwaitedIs(w, k);
    }
  }

  lemma AnswersFluent(w: World, t: Target)
    requires Safe(w) && Fluent(w) && t in w.net.ends && w.net.ends[t].outbox != []
    ensures Fluent(w.(net := Heard(w.net, t)))
  {
    hide Safe, Calm, Promising, NetOk, StillDesired, Heard;
    var w' := w.(net := Heard(w.net, t));
    SafeNet(w);
    HeardIs(w.net, t);
    EndsAsBefore(w, w');
    forall k | k in RecordsOf(w.broker) && !RecordsOf(w.broker)[k].stage.Resting?
      ensures Flows(w'.net, w'.broker, RecordsOf(w.broker)[k])
    {
      assert Flows(w.net, w.broker, RecordsOf(w.broker)[k]);
      AnswerPromising(w.net, w.issued, t, RecordsOf(w.broker)[k].stage.req);
    }
  }

  // ----- posting

  lemma PostPromising(n: Net, issued: map<ConnId, Tuple>, t: Target, install: bool, tuple: Tuple, conn: ConnId)
    requires NetOk(n, issued) && n.severed == {} && Serves(n, t, tuple.key)
    requires install ==> EndClear(n.ends[t], tuple.key)
    ensures var n' := Post(n, t, install, tuple, conn, false);
            && n.nextReq in n'.requests && n'.requests[n.nextReq].target in n'.ends && Promising(n', n.nextReq)
  {
    var q, e := n.nextReq, n.ends[t];
    var e' := e.(inbox := e.inbox + [Message(q, install, tuple, conn)]);
    assert EndOk(n, t, e, issued);
    assert e'.inbox[|e.inbox|].req == q && forall i :: 0 <= i < |e.inbox| ==> e'.inbox[i] == e.inbox[i];
    forall i | 0 <= i < |e.outbox| ensures e.outbox[i].req != q {
      assert ReplyOk(n, t, e.outbox[i]) && RequestOk(n, e.outbox[i].req, issued);
    }
  }

  /** Posting leaves every end as it is but for the inbox of the one posted to. */
  lemma PostLeaves(n: Net, t: Target, install: bool, tuple: Tuple, conn: ConnId, aborted: bool)
    requires t in n.ends
    ensures var n' := Post(n, t, install, tuple, conn, aborted);
            && n'.severed == n.severed && n'.ends.Keys == n.ends.Keys
            && forall u :: u in n.ends ==>
               && n'.ends[u].phase == n.ends[u].phase && n'.ends[u].key == n.ends[u].key
               && n'.ends[u].slots == n.ends[u].slots && (u != t ==> n'.ends[u] == n.ends[u])
  {
  }

  ghost predicate SameEnds(n: Net, n': Net) {
    && n'.severed == n.severed && n'.ends.Keys == n.ends.Keys
    && forall u :: u in n.ends ==> n'.ends[u].phase == n.ends[u].phase && n'.ends[u].key == n.ends[u].key
  }

  /** How far a record's procedure still has to go. */
  function StageRank(rec: Record): nat {
    match rec.stage
    case Resting => 3
    case AwaitRunnerInstall(_) => 2
    case AwaitWindowInstall(_) => 1
    case AwaitWindowRevoke(_) => 2
    case AwaitRunnerRevoke(_) => 1
  }

  /** What one turn of a record's procedure leads to when nothing fails. */
  ghost predicate Advances(w: World, k: Key, p: Progress, installing: bool) {
    var b' := p.world.broker;
    && SameEnds(w.net, p.world.net) && !p.outcome.Unfinished?
    && (installing ==> p.outcome.Success? || p.outcome.InProgress?)
    && (p.outcome.InProgress? ==>
       && k in RecordsOf(b') && Flows(p.world.net, b', RecordsOf(b')[k])
       && Installing(RecordsOf(b')[k]) == installing
       && k in RecordsOf(w.broker) && StageRank(RecordsOf(b')[k]) < StageRank(RecordsOf(w.broker)[k]))
  }

  lemma StillDesiredLater(b: Broker, b': Broker, rec: Record, rec': Record)
    requires StillDesired(b, rec) && SameConnection(rec, rec')
    requires b' == b.(current := b'.current, cleanup := b'.cleanup, drain := b'.drain, dirty := b'.dirty)
    ensures StillDesired(b', rec')
  {
  }

  lemma FlowsLater(n: Net, b: Broker, b': Broker, rec: Record)
    requires Flows(n, b, rec)
    requires b' == b.(current := b'.current, cleanup := b'.cleanup, drain := b'.drain, dirty := b'.dirty)
    ensures Flows(n, b', rec)
  {
    hide StillDesired, Promising, EndClear;
    if Installing(rec) { StillDesiredLater(b, b', rec, rec); }
  }

  lemma PutBroker(w: World, k: Key, rec: Record)
    ensures var b' := PutRecord(w, k, rec).broker;
            b' == w.broker.(current := b'.current, cleanup := b'.cleanup) && PutRecord(w, k, rec).net == w.net
  {
  }

  /** The procedure goes on to wait for a request just posted. */
  lemma Suspends(w: World, n: Net, k: Key, rec: Record)
    requires k in RecordsOf(w.broker) && SameEnds(w.net, n) && Flows(n, w.broker, rec)
    requires StageRank(rec) < StageRank(RecordsOf(w.broker)[k])
    ensures Advances(w, k, Progress(PutRecord(w.(net := n), k, rec), InProgress), Installing(rec))
  {
    hide PutRecord, RecordsOf, Flows, SameEnds;
    PutRecords(w.(net := n), k, rec);
    PutBroker(w.(net := n), k, rec);
    FlowsLater(n, w.broker, PutRecord(w.(net := n), k, rec).broker, rec);
  }

  lemma RevokeRunnerAdvances(w: World, k: Key, rec: Record)
    requires Safe(w) && k in RecordsOf(w.broker) && w.net.severed == {} && rec.tuple.key == k && rec.windowRevoked
    requires Serves(w.net, ToRunner(rec.runtime), k) && StageRank(RecordsOf(w.broker)[k]) > 1
    ensures Advances(w, k, RevokeRunner(w, k, rec), false)
  {
    hide Safe, Post, NetOk, Promising, PutRecord, RecordsOf;
    SafeNet(w);
    if !rec.runnerRevoked {
      PostPromising(w.net, w.issued, ToRunner(rec.runtime), false, rec.tuple, rec.conn);
      PostLeaves(w.net, ToRunner(rec.runtime), false, rec.tuple, rec.conn, false);
      Suspends(w, Post(w.net, ToRunner(rec.runtime), false, rec.tuple, rec.conn, false), k,
               rec.(stage := AwaitRunnerRevoke(w.net.nextReq)));
    }
  }

  lemma BeginAdvances(w: World, k: Key)
    requires Safe(w) && Calm(w) && k in RecordsOf(w.broker) && RuntimeKnown(w, k)
    requires RecordsOf(w.broker)[k].stage.Resting?
    ensures Advances(w, k, BeginRevocation(w, k), false)
  {
    hide Safe, Post, NetOk, Promising, RevokeRunner, PutRecord, RecordsOf, Advances;
    SafeNet(w);
    var rec := RecordsOf(w.broker)[k].(committed := false, aborted := true);
    RecordKey(w, k);
    assert Serves(w.net, ToRunner(rec.runtime), k);
    if !rec.windowRevoked {
      PostPromising(w.net, w.issued, ToWindow, false, rec.tuple, rec.conn);
      PostLeaves(w.net, ToWindow, false, rec.tuple, rec.conn, false);
      Suspends(w, Post(w.net, ToWindow, false, rec.tuple, rec.conn, false), k,
               rec.(stage := AwaitWindowRevoke(w.net.nextReq)));
    } else {
      RevokeRunnerAdvances(w, k, rec);
    }
  }

  lemma RecordKey(w: World, k: Key)
    requires Safe(w) && k in RecordsOf(w.broker)
    ensures RecordsOf(w.broker)[k].tuple.key == k && ToRunner(RecordsOf(w.broker)[k].runtime) in w.net.ends
  {
    assert RecordOk(w, k, RecordsOf(w.broker)[k]);
  }

  lemma CalmEnds(w: World, k: Key)
    requires Calm(w) && k in RecordsOf(w.broker)
    ensures w.net.severed == {} && ToWindow in w.net.ends && Serves(w.net, ToWindow, k)
    ensures Serves(w.net, ToRunner(RecordsOf(w.broker)[k].runtime), k)
  {
  }

  lemma RunnerInstalled(w: World, k: Key)
    requires Safe(w) && Calm(w) && Settled(w, k) && Flows(w.net, w.broker, RecordsOf(w.broker)[k])
    requires RecordsOf(w.broker)[k].stage.AwaitRunnerInstall?
    ensures Advances(w, k, Resume(w, k), true)
  {
    hide Safe, Calm, Post, NetOk, RevokeRunner, BeginRevocation, StillDesired, PutRecord, RecordsOf, EndClear, Advances;
    SafeNet(w);
    RecordKey(w, k);
    CalmEnds(w, k);
    var rec := RecordsOf(w.broker)[k];
    var rec' := rec.(stage := AwaitWindowInstall(w.net.nextReq));
    PostPromising(w.net, w.issued, ToWindow, true, rec.tuple, rec.conn);
    PostLeaves(w.net, ToWindow, true, rec.tuple, rec.conn, false);
    StillDesiredLater(w.broker, w.broker, rec, rec');
    Suspends(w, Post(w.net, ToWindow, true, rec.tuple, rec.conn, false), k, rec');
  }

  lemma OthersResumed(w: World, k: Key)
    requires Safe(w) && Calm(w) && Settled(w, k) && RuntimeKnown(w, k)
    requires Flows(w.net, w.broker, RecordsOf(w.broker)[k])
    requires !RecordsOf(w.broker)[k].stage.AwaitRunnerInstall?
    ensures Advances(w, k, Resume(w, k), Installing(RecordsOf(w.broker)[k]))
  {
    hide Safe, Calm, Post, NetOk, RevokeRunner, BeginRevocation, StillDesired, PutRecord, RecordsOf, EndClear;
    RecordKey(w, k);
    CalmEnds(w, k);
    var rec := RecordsOf(w.broker)[k];
    if rec.stage.AwaitWindowRevoke? { RevokeRunnerAdvances(w, k, rec.(windowRevoked := true)); }
  }

  lemma ResumeAdvances(w: World, k: Key)
    requires Safe(w) && Calm(w) && Settled(w, k) && RuntimeKnown(w, k)
    requires Flows(w.net, w.broker, RecordsOf(w.broker)[k])
    ensures Advances(w, k, Resume(w, k), Installing(RecordsOf(w.broker)[k]))
  {
    hide Safe, Calm, Flows, Advances, Resume;
    if RecordsOf(w.broker)[k].stage.AwaitRunnerInstall? { RunnerInstalled(w, k); } else { OthersResumed(w, k); }
  }

  lemma AdvanceAdvances(w: World, k: Key)
    requires Safe(w) && Calm(w) && Advance(w, k).Some?
    requires !RecordsOf(w.broker)[k].stage.Resting? ==> Flows(w.net, w.broker, RecordsOf(w.broker)[k])
    ensures Advances(w, k, Advance(w, k).value, Installing(RecordsOf(w.broker)[k]))
  {
    hide Safe, Calm, Flows, Advances, BeginRevocation, Resume;
    if RecordsOf(w.broker)[k].stage.Resting? { BeginAdvances(w, k); } else { ResumeAdvances(w, k); }
  }

  // ----- the broker keeps a pass fluent

  /** Only the record at hand changes, and it stays on its runtime. */
  ghost predicate OnlyOne(b: Broker, b': Broker, k: Key, running: bool) {
    && (forall j :: j != k ==> (j in RecordsOf(b') <==> j in RecordsOf(b)))
    && (forall j :: j != k && j in RecordsOf(b) ==> RecordsOf(b')[j] == RecordsOf(b)[j])
    && k in RecordsOf(b)
    && (k in RecordsOf(b') ==>
       && RecordsOf(b')[k].runtime == RecordsOf(b)[k].runtime
       && (running || RecordsOf(b')[k].stage.Resting?))
  }

  lemma EffectIsOne(b: Broker, b': Broker, k: Key, outcome: Outcome, rec: Record)
    requires k in RecordsOf(b) && SameConnection(RecordsOf(b)[k], rec) && b.cleanup.Keys !! b.current.Keys
    requires if outcome.Success? then Commits(b, b', k)
             else Revokes(b, b', k, outcome, rec) || (outcome.InProgress? && AwaitsWindow(b, b', k, rec))
    ensures OnlyOne(b, b', k, outcome.InProgress?)
  {
  }

  lemma CalmLater(w: World, w': World, k: Key, running: bool)
    requires Calm(w) && SameEnds(w.net, w'.net) && OnlyOne(w.broker, w'.broker, k, running)
    requires var b := w'.broker; b == w.broker.(current := b.current, cleanup := b.cleanup, drain := b.drain)
    ensures Calm(w')
  {
    hide RecordsOf, SameEnds;
    forall j | j in RecordsOf(w'.broker) ensures Serves(w'.net, ToRunner(RecordsOf(w'.broker)[j].runtime), j) {
      assert Serves(w.net, ToRunner(RecordsOf(w.broker)[j].runtime), j);
      ServesLater(w.net, w'.net, ToRunner(RecordsOf(w.broker)[j].runtime), j);
    }
    forall e | Asked(w'.broker, e) ensures Serves(w'.net, ToRunner(e.runtime), e.tuple.key) {
      assert Asked(w.broker, e);
      ServesLater(w.net, w'.net, ToRunner(e.runtime), e.tuple.key);
    }
    WindowStays(w.net, w'.net);
    assert AuthorityEntries(w'.broker) == AuthorityEntries(w.broker) && w'.broker.closed == w.broker.closed;
  }

  lemma ServesLater(n: Net, n': Net, t: Target, key: Key)
    requires Serves(n, t, key) && SameEnds(n, n')
    ensures Serves(n', t, key)
  {
  }

  lemma WindowStays(n: Net, n': Net)
    requires SameEnds(n, n') && ToWindow in n.ends
    ensures ToWindow in n'.ends && n'.severed == n.severed
    ensures n'.ends[ToWindow].key == n.ends[ToWindow].key && n'.ends[ToWindow].phase == n.ends[ToWindow].phase
  {
  }

  /** The procedure of the record at hand took a turn while all others rest. */
  lemma AdvancedFluent(w: World, k: Key, drain: Drain)
    requires Safe(w) && Fluent(w) && Advance(w, k).Some? && drain != Reconciled(false)
    requires forall j :: j in RecordsOf(w.broker) && j != k ==> RecordsOf(w.broker)[j].stage.Resting?
    requires var inst := Installing(RecordsOf(w.broker)[k]);
             drain.Starting? ==> drain.seen == w.broker.revision && (Advance(w, k).value.outcome.InProgress? ==> inst)
    ensures Fluent(At(Advance(w, k).value.world, drain)) && !Advance(w, k).value.outcome.Unfinished?
    ensures Installing(RecordsOf(w.broker)[k]) ==>
            Advance(w, k).value.outcome.Success? || Advance(w, k).value.outcome.InProgress?
  {
    hide Safe, Calm, Flows, Advance, Revokes, Commits, AwaitsWindow, RecordsOf, OnlyOne, Confirmed, SameEnds;
    var p := Advance(w, k).value;
    var b, w' := w.broker, At(Advance(w, k).value.world, drain);
    AdvanceNeeds(w, k);
    AdvanceOnlyRecords(w, k);
    AdvanceAdvances(w, k);
    Uncommitted(w, k);
    var rec := AdvanceEffect(w, k);
    SafeApart(w);
    EffectIsOne(b, p.world.broker, k, p.outcome, rec);
    AtRecords(p.world, drain);
    SameOne(b, p.world.broker, w'.broker, k, p.outcome.InProgress?);
    CalmLater(w, w', k, p.outcome.InProgress?);
    forall j | j in RecordsOf(w'.broker) && !RecordsOf(w'.broker)[j].stage.Resting?
      ensures j == k && p.outcome.InProgress? && Flows(w'.net, w'.broker, RecordsOf(w'.broker)[j])
    {
      OneIs(b, w'.broker, k, p.outcome.InProgress?, j);
      FlowsLater(p.world.net, p.world.broker, w'.broker, RecordsOf(w'.broker)[k]);
    }
    forall j | j in w'.broker.cleanup && !w'.broker.cleanup[j].stage.Resting?
      ensures drain.Starting? ==> Installing(w'.broker.cleanup[j])
    {
      CleanupFirst(w'.broker, j);
    }
  }

  lemma OneIs(b: Broker, b': Broker, k: Key, running: bool, j: Key)
    requires OnlyOne(b, b', k, running) && j in RecordsOf(b') && !RecordsOf(b')[j].stage.Resting?
    requires forall i :: i in RecordsOf(b) && i != k ==> RecordsOf(b)[i].stage.Resting?
    ensures j == k && running
  {
    hide RecordsOf;
  }

  lemma AtRecords(w: World, drain: Drain)
    ensures RecordsOf(At(w, drain).broker) == RecordsOf(w.broker)
  {
  }

  lemma SameOne(b: Broker, b': Broker, b'': Broker, k: Key, running: bool)
    requires OnlyOne(b, b', k, running) && RecordsOf(b'') == RecordsOf(b')
    ensures OnlyOne(b, b'', k, running)
  {
    hide RecordsOf;
  }

  lemma SafeApart(w: World)
    requires Safe(w)
    ensures w.broker.cleanup.Keys !! w.broker.current.Keys
  {
  }

  lemma RollingFluent(w: World, order: seq<Key>)
    requires Safe(w) && Converging(w.broker) && Fluent(w) && DrainStep(w, order).Some?
    requires w.broker.drain.RollingBack? && w.broker.drain.undone != []
    ensures Fluent(DrainStep(w, order).value)
  {
    hide Safe, DrainStep, Advance, RollingOk, Fluent, Converging, Booked, Installing;
    var k, undone := w.broker.drain.undone[0], w.broker.drain.undone;
    RollingBecomes(w, order);
    FluentIs(w);
    RollingOthersRest(w);
    var p := Advance(w, k).value;
    var drain := if p.outcome.InProgress? then w.broker.drain else RollingBack(undone[1..]);
    AdvancedFluent(w, k, drain);
    AdvanceKeepsDrain(w, k);
  }

  lemma AdvanceKeepsDrain(w: World, k: Key)
    requires Advance(w, k).Some?
    ensures At(Advance(w, k).value.world, w.broker.drain) == Advance(w, k).value.world
  {
    hide Advance;
    AdvanceOnlyRecords(w, k);
  }

  lemma RollingOthersRest(w: World)
    requires Converging(w.broker) && !w.broker.closed && w.broker.drain.RollingBack? && w.broker.drain.undone != []
    ensures forall j :: j in RecordsOf(w.broker) && j != w.broker.drain.undone[0] ==>
            RecordsOf(w.broker)[j].stage.Resting?
  {
  }

  lemma ComparingOthersRest(w: World)
    requires Converging(w.broker) && !w.broker.closed && w.broker.drain.Comparing? && w.broker.drain.unchecked != []
    ensures forall j :: j in RecordsOf(w.broker) && j != w.broker.drain.unchecked[0] ==>
            RecordsOf(w.broker)[j].stage.Resting?
  {
  }

  lemma StartingOthersRest(w: World)
    requires Converging(w.broker) && !w.broker.closed && w.broker.drain.Starting? && w.broker.drain.todo != []
    ensures forall j :: j in RecordsOf(w.broker) && j != w.broker.drain.todo[0].tuple.key ==>
            RecordsOf(w.broker)[j].stage.Resting?
    ensures var k := w.broker.drain.todo[0].tuple.key;
            k in w.broker.cleanup ==> !w.broker.cleanup[k].stage.Resting?
  {
  }

  lemma FluentIs(w: World)
    requires Fluent(w)
    ensures Calm(w) && !w.broker.closed && w.net.severed == {}
    ensures w.broker.drain.Starting? ==> w.broker.drain.seen == w.broker.revision
  {
  }

  lemma CalmAt(w: World, drain: Drain)
    requires Calm(w)
    ensures Calm(At(w, drain))
  {
    hide Serves;
    var w' := At(w, drain);
    AtRecords(w, drain);
    forall k | k in RecordsOf(w'.broker) ensures Serves(w'.net, ToRunner(RecordsOf(w'.broker)[k].runtime), k) {
      assert Serves(w.net, ToRunner(RecordsOf(w.broker)[k].runtime), k);
    }
    forall e | Asked(w'.broker, e) ensures Serves(w'.net, ToRunner(e.runtime), e.tuple.key) {
      assert Asked(w.broker, e);
    }
    assert AuthorityEntries(w'.broker) == AuthorityEntries(w.broker);
  }

  /** Moving on over a record that is kept. */
  lemma MovedFluent(w: World, drain: Drain)
    requires Fluent(w) && drain != Reconciled(false)
    requires drain.Starting? ==>
             drain.seen == w.broker.revision
             && forall k :: k in w.broker.cleanup && !w.broker.cleanup[k].stage.Resting? ==>
                Installing(w.broker.cleanup[k])
    ensures Fluent(At(w, drain))
  {
    hide Flows, Calm, RecordsOf;
    CalmAt(w, drain);
    AtRecords(w, drain);
    forall k | k in RecordsOf(w.broker) && !RecordsOf(w.broker)[k].stage.Resting?
      ensures Flows(w.net, At(w, drain).broker, RecordsOf(w.broker)[k])
    {
      FlowsLater(w.net, w.broker, At(w, drain).broker, RecordsOf(w.broker)[k]);
    }
  }

  lemma ComparingFluent(w: World, order: seq<Key>)
    requires Safe(w) && Converging(w.broker) && Fluent(w) && DrainStep(w, order).Some?
    requires w.broker.drain.Comparing? && w.broker.drain.unchecked != []
    ensures Fluent(DrainStep(w, order).value)
  {
    hide Safe, DrainStep, Advance, ComparingOk, Fluent, Converging, Booked, Installing, KeepsCurrent;
    var k, d, unchecked := w.broker.drain.unchecked[0], w.broker.drain.desired, w.broker.drain.unchecked;
    ComparingBecomes(w, order);
    if k in w.broker.current && KeepsCurrent(w.broker, d, w.broker.current[k]) {
      MovedFluent(w, Comparing(d, unchecked[1..]));
    } else {
      FluentIs(w);
      ComparingOthersRest(w);
      var p := Advance(w, k).value;
      AdvancedFluent(w, k, if p.outcome.InProgress? then w.broker.drain else Comparing(d, unchecked[1..]));
      AdvanceKeepsDrain(w, k);
    }
  }

  /** What a provision about to start is for. */
  lemma StartIsAsked(w: World)
    requires Safe(w) && Converging(w.broker) && TodoListed(w.broker) && Fluent(w) && StartsProvision(w)
    ensures var e := w.broker.drain.todo[0];
            && Asked(w.broker, e) && w.broker.cleanup == map[] && KeyClear(w.net, e.tuple.key)
            && Serves(w.net, ToRunner(e.runtime), e.tuple.key)
            && FindEntry(AuthorityEntries(w.broker), e.tuple.key) == Some(e)
  {
    hide NetOk, OwnershipOk, RecordsOk, AllFlow, KeyClear, StartingOk;
    var e, entries := w.broker.drain.todo[0], AuthorityEntries(w.broker);
    StartNeedsNoFence(w.broker);
    assert e in entries;
    UnrecordedIsClear(w, e.tuple.key);
    var i :| 0 <= i < |entries| && entries[i] == e;
    FindsFirst(entries, e.tuple.key, i);
  }

  lemma OpenBroker(w: World)
    requires Safe(w) && !w.broker.closed
    ensures w.broker.shutdown.Open?
  {
  }

  lemma ClearEnds(n: Net, key: Key, t: Target)
    requires KeyClear(n, key) && t in n.ends
    ensures EndClear(n.ends[t], key)
  {
  }

  lemma BegunIs(w: World, e: Entry)
    requires ToRunner(e.runtime) in w.net.ends && w.broker.cleanup == map[] && e.tuple.key !in w.broker.current
    ensures var w', q := BeginProvision(w, e), w.net.nextReq;
            var rec := w'.broker.cleanup[e.tuple.key];
            && w'.net == Post(w.net, ToRunner(e.runtime), true, e.tuple, w.nextConn, false)
            && w'.broker == w.broker.(cleanup := map[e.tuple.key := rec])
            && rec.tuple == e.tuple && rec.runtime == e.runtime && rec.revision == w.broker.revision && !rec.aborted
            && rec.stage == AwaitRunnerInstall(q)
            && RecordsOf(w'.broker) == RecordsOf(w.broker)[e.tuple.key := rec]
  {
  }

  lemma BegunFluent(w: World)
    requires Safe(w) && Converging(w.broker) && TodoListed(w.broker) && Fluent(w) && StartsProvision(w)
    ensures Fluent(BeginProvision(w, w.broker.drain.todo[0]))
  {
    hide Safe, Converging, Fluent, BeginProvision, Post, RecordsOf, Promising, EndClear, KeyClear, NetOk;
    var e := w.broker.drain.todo[0];
    StartIsAsked(w);
    SafeNet(w);
    FluentIs(w);
    NotCurrent(w.broker, e.tuple.key);
    BegunIs(w, e);
    var w' := BeginProvision(w, e);
    ClearEnds(w.net, e.tuple.key, ToRunner(e.runtime));
    ClearEnds(w.net, e.tuple.key, ToWindow);
    PostPromising(w.net, w.issued, ToRunner(e.runtime), true, e.tuple, w.nextConn);
    PostLeaves(w.net, ToRunner(e.runtime), true, e.tuple, w.nextConn, false);
    var rec := w'.broker.cleanup[e.tuple.key];
    NewFlows(w'.net, w'.broker, rec, e);
    RestInCurrent(w);
    NewFluent(w, w', e, rec);
  }

  lemma NotCurrent(b: Broker, k: Key)
    requires k !in RecordsOf(b)
    ensures k !in b.current && k !in b.cleanup
  {
  }

  lemma RestInCurrent(w: World)
    requires Converging(w.broker) && !w.broker.closed && w.broker.drain.Starting? && w.broker.cleanup == map[]
    ensures forall j :: j in RecordsOf(w.broker) ==> RecordsOf(w.broker)[j].stage.Resting?
  {
  }

  lemma NewFlows(n: Net, b: Broker, rec: Record, e: Entry)
    requires Asked(b, e) && !b.closed && FindEntry(AuthorityEntries(b), e.tuple.key) == Some(e)
    requires rec.tuple == e.tuple && rec.runtime == e.runtime && rec.revision == b.revision && !rec.aborted
    requires rec.stage.AwaitRunnerInstall? && rec.stage.req in n.requests
    requires n.requests[rec.stage.req].target in n.ends && Promising(n, rec.stage.req)
    requires ToWindow in n.ends && EndClear(n.ends[ToWindow], e.tuple.key)
    ensures Flows(n, b, rec)
  {
    hide Promising, EndClear;
  }

  lemma NewFluent(w: World, w': World, e: Entry, rec: Record)
    requires Calm(w) && SameEnds(w.net, w'.net) && w.broker.drain.Starting? && w.broker.drain.seen == w.broker.revision
    requires w'.broker == w.broker.(cleanup := map[e.tuple.key := rec]) && rec.runtime == e.runtime
             && Asked(w.broker, e)
    requires RecordsOf(w'.broker) == RecordsOf(w.broker)[e.tuple.key := rec] && rec.stage.AwaitRunnerInstall?
    requires forall j :: j in RecordsOf(w.broker) ==> RecordsOf(w.broker)[j].stage.Resting?
    requires Flows(w'.net, w'.broker, rec)
    ensures Fluent(w')
  {
    hide RecordsOf, Flows, SameEnds;
    forall j | j in RecordsOf(w'.broker) ensures Serves(w'.net, ToRunner(RecordsOf(w'.broker)[j].runtime), j) {
      var rt := RecordsOf(w'.broker)[j].runtime;
      assert Serves(w.net, ToRunner(rt), j);
      ServesLater(w.net, w'.net, ToRunner(rt), j);
    }
    forall x | Asked(w'.broker, x) ensures Serves(w'.net, ToRunner(x.runtime), x.tuple.key) {
      assert Asked(w.broker, x);
      ServesLater(w.net, w'.net, ToRunner(x.runtime), x.tuple.key);
    }
    WindowStays(w.net, w'.net);
    assert AuthorityEntries(w'.broker) == AuthorityEntries(w.broker);
  }

  lemma StartingFluent(w: World, order: seq<Key>)
    requires Safe(w) && Converging(w.broker) && TodoListed(w.broker) && Fluent(w) && DrainStep(w, order).Some?
    requires w.broker.drain.Starting? && w.broker.drain.todo != []
    ensures Fluent(DrainStep(w, order).value)
  {
    hide Safe, DrainStep, Advance, StartingOk, Fluent, Converging, TodoListed, BeginProvision;
    var todo, seen := w.broker.drain.todo, w.broker.drain.seen;
    var k := todo[0].tuple.key;
    StartingBecomes(w, order);
    FluentIs(w);
    StartingOthersRest(w);
    if k in w.broker.cleanup && !w.broker.cleanup[k].stage.Resting? {
      var p := Advance(w, k).value;
      FluentInstalls(w, k);
      CleanupFirst(w.broker, k);
      AdvancedFluent(w, k, if p.outcome.InProgress? then w.broker.drain else Starting(todo[1..], seen));
      AdvanceKeepsDrain(w, k);
    } else if StartsProvision(w) {
      BegunFluent(w);
    } else {
      FluentAllInstall(w);
      MovedFluent(w, Starting(todo[1..], seen));
    }
  }

  lemma FluentInstalls(w: World, k: Key)
    requires Fluent(w) && w.broker.drain.Starting? && k in w.broker.cleanup && !w.broker.cleanup[k].stage.Resting?
    ensures Installing(w.broker.cleanup[k])
  {
  }

  lemma FluentAllInstall(w: World)
    requires Fluent(w) && w.broker.drain.Starting?
    ensures forall k :: k in w.broker.cleanup && !w.broker.cleanup[k].stage.Resting? ==> Installing(w.broker.cleanup[k])
  {
  }

  /** No key is listed twice, so there are desired entries. */
  lemma CalmDesires(w: World)
    requires Calm(w)
    ensures DesiredNow(w.broker).Some?
  {
    hide Desired, Serves;
    DesiredIs(AuthorityEntries(w.broker), w.broker.terminated);
  }

  lemma PauseFluent(w: World, order: seq<Key>)
    requires Converging(w.broker) && Fluent(w) && DrainStep(w, order).Some? && Pauses(w.broker.drain)
    ensures Fluent(DrainStep(w, order).value)
  {
    hide Converging, Fluent, DrainStep, DesiredNow;
    FluentIs(w);
    CalmDesires(w);
    match w.broker.drain
    case RollingBack(_) =>
      RolledBackBecomes(w, order);
      MovedFluent(w, DrainStep(w, order).value.broker.drain);
    case Comparing(_, _) =>
      ComparedBecomes(w, order);
      ComparedRests(w);
      MovedFluent(w, DrainStep(w, order).value.broker.drain);
    case _ => TurnFluent(w, order);
  }

  lemma ComparedRests(w: World)
    requires Converging(w.broker) && !w.broker.closed && w.broker.drain.Comparing? && w.broker.drain.unchecked == []
    ensures w.broker.cleanup == map[]
  {
  }

  /** The turns of the loop in which no record is at hand. */
  lemma TurnBecomes(w: World, order: seq<Key>)
    requires DrainStep(w, order).Some?
    ensures var b, w' := w.broker, DrainStep(w, order).value;
            match b.drain
            case Looping =>
              if b.dirty && !b.closed
              then w' == w.(broker := b.(dirty := false, drain := RollingBack(order))) && IsListing(order, b.cleanup)
              else w' == At(w, Finishing)
            case Starting(todo, _) => todo == [] ==> w' == At(w, Reconciled(true))
            case Reconciled(ok) =>
              if ok || b.dirty then w' == At(w, Looping)
              else w' == w.(broker := b.(retryArmed := b.retryArmed || !b.closed, drain := Finishing))
            case Finishing => w' == w.(broker := if b.dirty then Schedule(b.(drain := Idle)) else b.(drain := Idle))
            case Idle => false
            case _ => true
  {
    hide Advance, BeginProvision, IsListing, Desired, StartsProvision, KeepsCurrent;
  }

  lemma TurnFluent(w: World, order: seq<Key>)
    requires Fluent(w) && DrainStep(w, order).Some? && Pauses(w.broker.drain)
    requires !w.broker.drain.RollingBack? && !w.broker.drain.Comparing?
    ensures Fluent(DrainStep(w, order).value)
  {
    hide Fluent, DrainStep;
    var w' := DrainStep(w, order).value;
    TurnMoves(w, order);
    MovedFluent(w, w'.broker.drain);
    FlagsFluent(At(w, w'.broker.drain), w');
  }

  lemma TurnMoves(w: World, order: seq<Key>)
    requires Fluent(w) && DrainStep(w, order).Some? && Pauses(w.broker.drain)
    requires !w.broker.drain.RollingBack? && !w.broker.drain.Comparing?
    ensures var w' := DrainStep(w, order).value;
            && w'.broker.drain != Reconciled(false) && !w'.broker.drain.Starting? && w'.net == w.net
            && w'.broker ==
               w.broker.(drain := w'.broker.drain, dirty := w'.broker.dirty, retryArmed := w'.broker.retryArmed)
  {
    hide DrainStep, IsListing, Calm, AllFlow;
    TurnBecomes(w, order);
  }

  lemma FlagsFluent(w: World, w': World)
    requires Fluent(w) && w'.net == w.net
    requires w'.broker == w.broker.(dirty := w'.broker.dirty, retryArmed := w'.broker.retryArmed)
    ensures Fluent(w')
  {
    assert RecordsOf(w'.broker) == RecordsOf(w.broker);
    assert AuthorityEntries(w'.broker) == AuthorityEntries(w.broker);
    forall e | Asked(w'.broker, e) ensures Serves(w'.net, ToRunner(e.runtime), e.tuple.key) {
      assert Asked(w.broker, e);
    }
    forall k | k in RecordsOf(w.broker) && !RecordsOf(w.broker)[k].stage.Resting?
      ensures Flows(w'.net, w'.broker, RecordsOf(w.broker)[k])
    {
      assert Flows(w.net, w.broker, RecordsOf(w.broker)[k]);
    }
  }

  lemma DrainFluent(w: World, order: seq<Key>)
    requires Safe(w) && Converging(w.broker) && TodoListed(w.broker) && Fluent(w) && DrainStep(w, order).Some?
    ensures Fluent(DrainStep(w, order).value)
  {
    hide Safe, Converging, TodoListed, Fluent, DrainStep;
    match w.broker.drain
    case RollingBack(undone) => if undone == [] { PauseFluent(w, order); } else { RollingFluent(w, order); }
    case Comparing(_, unchecked) => if unchecked == [] { PauseFluent(w, order); } else { ComparingFluent(w, order); }
    case Starting(todo, _) => if todo == [] { PauseFluent(w, order); } else { StartingFluent(w, order); }
    case _ => PauseFluent(w, order);
  }

  lemma StepFluent(w: World, step: Step)
    requires Reachable(w) && Fluent(w) && Working(step) && Apply(w, step).Some?
    ensures Fluent(Apply(w, step).value)
  {
    hide Safe, Converging, TodoListed, Fluent, DrainStep, Reachable, Receive, Answer, RevisionsOk;
    IsSafe(w);
    match step
    case Drains(order) => DrainFluent(w, order);
    case Receives(t) => ReceivesFluent(w, t);
    case Answers(t) => AnswersFluent(w, t);
  }

  // ----- a pass that meets no failure does not fail

  lemma LoopIsFluent(w: World)
    requires Reachable(w) && Calm(w) && w.broker.drain.Looping?
    ensures Fluent(w)
  {
    hide Safe, Reachable, Calm, Flows, RevisionsOk, TodoListed;
    IsSafe(w);
    CalmIsOpen(w);
  }

  lemma CalmIsOpen(w: World)
    requires Calm(w)
    ensures !w.broker.closed
  {
  }

  /**
   * A pass that begins with a calm broker and meets no failure and no change from outside never ends in failure:
   * whatever order its ends work in, no request is refused and nothing has to be rolled back.
   */
  lemma {:induction false} PassSucceeds(w: World, steps: seq<Step>)
    requires Reachable(w) && Calm(w) && w.broker.drain.Looping?
    requires From(w, steps).Some? && forall i :: 0 <= i < |steps| ==> Working(steps[i])
    ensures Fluent(From(w, steps).value) && Reachable(From(w, steps).value)
    ensures From(w, steps).value.broker.drain != Reconciled(false)
    decreases |steps|
  {
    hide Calm, AllFlow, Reachable, Apply;
    if steps == [] {
      LoopIsFluent(w);
    } else {
      var most, step := steps[..|steps| - 1], steps[|steps| - 1];
      forall i | 0 <= i < |most| ensures Working(most[i]) { assert most[i] == steps[i]; }
      PassSucceeds(w, most);
      StepFluent(From(w, most).value, step);
      ReachableMore(From(w, most).value, step);
    }
  }

  // ----- and it gets to its end

  /** The key at hand in the loop's list. */
  function Head(b: Broker): Option<Key> {
    match b.drain
    case RollingBack(undone) => if undone == [] then None else Some(undone[0])
    case Comparing(_, unchecked) => if unchecked == [] then None else Some(unchecked[0])
    case Starting(todo, _) => if todo == [] then None else Some(todo[0].tuple.key)
    case _ => None
  }

  function Phase(b: Broker): nat {
    match b.drain
    case Looping => 7
    case RollingBack(_) => 6
    case Comparing(_, _) => 5
    case Starting(_, _) => 4
    case _ => 3
  }

  function Left(b: Broker): nat {
    match b.drain
    case RollingBack(undone) => |undone|
    case Comparing(_, unchecked) => |unchecked|
    case Starting(todo, _) => |todo|
    case _ => 0
  }

  function HeadRank(b: Broker): nat {
    if Head(b).Some? && Head(b).value in RecordsOf(b) then StageRank(RecordsOf(b)[Head(b).value]) else 3
  }

  /** Messages on their way at an end, a request counting for itself and its reply. */
  function EndTraffic(n: Net, t: Target): nat {
    if t in n.ends then 2 * |n.ends[t].inbox| + |n.ends[t].outbox| else 0
  }

  /** The end that has to answer before the loop goes on, if any. */
  function AwaitedEnd(w: World): Option<Target> {
    var b := w.broker;
    if Head(b).None? || Head(b).value !in RecordsOf(b) then None
    else
      var stage := RecordsOf(b)[Head(b).value].stage;
      if stage.Resting? || stage.req !in w.net.requests || !w.net.requests[stage.req].status.Pending? then None
      else Some(w.net.requests[stage.req].target)
  }

  function Traffic(w: World): nat { if AwaitedEnd(w).None? then 0 else EndTraffic(w.net, AwaitedEnd(w).value) }

  /** The pass is under way and nothing new has been asked for, or it is about to begin. */
  predicate InPass(b: Broker) {
    match b.drain
    case Looping => b.dirty
    case Idle => false
    case Finishing => false
    case _ => !b.dirty
  }

  lemma {:induction false} KeysListed(keys: set<Key>) returns (order: seq<Key>)
    ensures (forall i, j :: 0 <= i < j < |order| ==> order[i] != order[j]) && forall k :: k in order <==> k in keys
  {
    if keys == {} {
      order := [];
    } else {
      var k :| k in keys;
      var rest := KeysListed(keys - {k});
      order := [k] + rest;
      forall i, j | 0 <= i < j < |order| ensures order[i] != order[j] {
        if i == 0 { assert order[j] in rest; }
      }
    }
  }

  lemma Listing(records: map<Key, Record>) returns (order: seq<Key>)
    ensures IsListing(order, records)
  {
    order := KeysListed(records.Keys);
    assert (set k | k in order) == records.Keys;
  }

  /** The end that is waited for has something to do. */
  lemma AwaitedEndMoves(w: World)
    requires Reachable(w) && Fluent(w) && AwaitedEnd(w).Some?
    ensures var t := AwaitedEnd(w).value;
            t in w.net.ends && (w.net.ends[t].inbox != [] || w.net.ends[t].outbox != [])
  {
    hide Calm, Reachable, SoleInstall, EndClear, StillDesired;
    var k := Head(w.broker).value;
    assert Flows(w.net, w.broker, RecordsOf(w.broker)[k]);
  }

  lemma FromFirst(w: World, step: Step, rest: seq<Step>)
    requires Apply(w, step).Some?
    ensures From(w, [step] + rest) == From(Apply(w, step).value, rest)
    decreases |rest|
  {
    hide Apply;
    var steps := [step] + rest;
    if rest == [] {
      assert steps[..|steps| - 1] == [] && steps[|steps| - 1] == step;
    } else {
      var most := rest[..|rest| - 1];
      assert steps[..|steps| - 1] == [step] + most;
      FromFirst(w, step, most);
    }
  }

  lemma AdvancePossible(w: World, k: Key)
    requires Safe(w) && k in RecordsOf(w.broker)
    requires RecordsOf(w.broker)[k].stage.Resting?
             || (RecordsOf(w.broker)[k].stage.req in w.net.requests
                 && !w.net.requests[RecordsOf(w.broker)[k].stage.req].status.Pending?)
    ensures Advance(w, k).Some?
  {
    hide Safe, BeginRevocation, Resume;
    SafeNet(w);
    RecordKey(w, k);
  }

  /** What is awaited for the key at hand has come. */
  lemma HeadReady(w: World, k: Key)
    requires Fluent(w) && Head(w.broker) == Some(k) && k in RecordsOf(w.broker) && AwaitedEnd(w).None?
    ensures RecordsOf(w.broker)[k].stage.Resting?
            || (RecordsOf(w.broker)[k].stage.req in w.net.requests
                && !w.net.requests[RecordsOf(w.broker)[k].stage.req].status.Pending?)
  {
    hide Calm, Promising, StillDesired, EndClear;
  }

  /** If no end is waited for, the loop's own next turn is possible. */
  lemma DrainPossible(w: World) returns (order: seq<Key>)
    requires Reachable(w) && Fluent(w) && InPass(w.broker) && !w.broker.drain.Reconciled? && AwaitedEnd(w).None?
    ensures DrainStep(w, order).Some?
  {
    hide Safe, Converging, TodoListed, Fluent, Reachable, RevisionsOk, Advance, AwaitedEnd, BeginProvision, IsListing;
    hide DesiredNow, KeepsCurrent;
    IsSafe(w);
    FluentIs(w);
    order := [];
    match w.broker.drain
    case Looping => order := Listing(w.broker.cleanup);
    case RollingBack(undone) =>
      if undone == [] {
        CalmDesires(w);
        DesiredIsNow(w.broker);
        order := Listing(w.broker.current);
      } else {
        RollingHeadRecorded(w);
        HeadReady(w, undone[0]);
        AdvancePossible(w, undone[0]);
      }
    case Comparing(_, unchecked) =>
      if unchecked != [] {
        ComparingHeadRecorded(w);
        HeadReady(w, unchecked[0]);
        AdvancePossible(w, unchecked[0]);
      }
    case Starting(todo, _) =>
      if todo != [] {
        var k := todo[0].tuple.key;
        CleanupFirst(w.broker, k);
        if k in w.broker.cleanup { HeadReady(w, k); AdvancePossible(w, k); }
      }
    case _ =>
  }

  lemma DesiredIsNow(b: Broker)
    ensures DesiredNow(b) == Desired(AuthorityEntries(b), b.terminated)
  {
  }

  lemma RollingHeadRecorded(w: World)
    requires Converging(w.broker) && !w.broker.closed && w.broker.drain.RollingBack? && w.broker.drain.undone != []
    ensures w.broker.drain.undone[0] in RecordsOf(w.broker)
  {
  }

  lemma ComparingHeadRecorded(w: World)
    requires Converging(w.broker) && !w.broker.closed && w.broker.drain.Comparing? && w.broker.drain.unchecked != []
    ensures w.broker.drain.unchecked[0] in w.broker.current && w.broker.drain.unchecked[0] in RecordsOf(w.broker)
  {
  }

  // ----- each turn is progress

  /** Further on in the pass, its list or the procedure at hand. */
  predicate Further(b: Broker, b': Broker) {
    || Phase(b') < Phase(b)
    || (Phase(b') == Phase(b) && (Left(b') < Left(b) || (Left(b') == Left(b) && HeadRank(b') < HeadRank(b))))
  }

  lemma AdvanceDescends(w: World, k: Key)
    requires Safe(w) && Fluent(w) && Advance(w, k).Some? && Advance(w, k).value.outcome.InProgress?
    ensures k in RecordsOf(w.broker) && k in RecordsOf(Advance(w, k).value.world.broker)
    ensures StageRank(RecordsOf(Advance(w, k).value.world.broker)[k]) < StageRank(RecordsOf(w.broker)[k])
  {
    hide Safe, Calm, Flows, Advance, StageRank, RecordsOf;
    AdvanceNeeds(w, k);
    AdvanceAdvances(w, k);
  }

  lemma RollingDescends(w: World, order: seq<Key>)
    requires Safe(w) && Converging(w.broker) && Fluent(w) && DrainStep(w, order).Some? && !w.broker.dirty
    requires w.broker.drain.RollingBack?
    ensures Further(w.broker, DrainStep(w, order).value.broker) && InPass(DrainStep(w, order).value.broker)
  {
    hide Safe, Converging, Fluent, DrainStep, Advance, RecordsOf, StageRank, DesiredNow, Installing;
    var undone := w.broker.drain.undone;
    if undone == [] {
      RolledBackBecomes(w, order);
    } else {
      var k := undone[0];
      FluentIs(w);
      RollingBecomes(w, order);
      RollingOthersRest(w);
      var p := Advance(w, k).value;
      AdvanceOnlyRecords(w, k);
      AdvancedFluent(w, k, RollingBack(undone));
      if p.outcome.InProgress? { AdvanceDescends(w, k); }
    }
  }

  lemma ComparingDescends(w: World, order: seq<Key>)
    requires Safe(w) && Converging(w.broker) && Fluent(w) && DrainStep(w, order).Some? && !w.broker.dirty
    requires w.broker.drain.Comparing?
    ensures Further(w.broker, DrainStep(w, order).value.broker) && InPass(DrainStep(w, order).value.broker)
  {
    hide Safe, Converging, Fluent, DrainStep, Advance, RecordsOf, StageRank, DesiredNow, Installing, KeepsCurrent;
    var d, unchecked := w.broker.drain.desired, w.broker.drain.unchecked;
    if unchecked == [] {
      ComparedBecomes(w, order);
    } else {
      var k := unchecked[0];
      FluentIs(w);
      ComparingBecomes(w, order);
      if !(k in w.broker.current && KeepsCurrent(w.broker, d, w.broker.current[k])) {
        ComparingOthersRest(w);
        var p := Advance(w, k).value;
        AdvanceOnlyRecords(w, k);
        AdvancedFluent(w, k, Comparing(d, unchecked));
        if p.outcome.InProgress? { AdvanceDescends(w, k); }
      }
    }
  }

  lemma StartingDescends(w: World, order: seq<Key>)
    requires Safe(w) && Converging(w.broker) && Fluent(w) && DrainStep(w, order).Some? && !w.broker.dirty
    requires w.broker.drain.Starting?
    ensures Further(w.broker, DrainStep(w, order).value.broker) && InPass(DrainStep(w, order).value.broker)
  {
    hide Safe, Converging, Fluent, DrainStep, Advance, RecordsOf, Installing, BeginProvision;
    var todo, seen := w.broker.drain.todo, w.broker.drain.seen;
    if todo == [] {
      TurnBecomes(w, order);
    } else {
      var k := todo[0].tuple.key;
      FluentIs(w);
      StartingBecomes(w, order);
      StartingOthersRest(w);
      if k in w.broker.cleanup {
        var p := Advance(w, k).value;
        AdvanceOnlyRecords(w, k);
        FluentInstalls(w, k);
        CleanupFirst(w.broker, k);
        AdvancedFluent(w, k, w.broker.drain);
        if p.outcome.InProgress? { AdvanceDescends(w, k); }
      } else if StartsProvision(w) {
        StartNeedsNoFenceHere(w);
        NotCurrent(w.broker, k);
        BegunIs(w, todo[0]);
      }
    }
  }

  lemma StartNeedsNoFenceHere(w: World)
    requires Converging(w.broker) && !w.broker.closed && StartsProvision(w)
    ensures w.broker.cleanup == map[]
  {
    hide StartingOk;
    StartNeedsNoFence(w.broker);
  }

  lemma DrainDescends(w: World, order: seq<Key>)
    requires Safe(w) && Converging(w.broker) && Fluent(w) && InPass(w.broker) && DrainStep(w, order).Some?
    requires !w.broker.drain.Reconciled?
    ensures Further(w.broker, DrainStep(w, order).value.broker) && InPass(DrainStep(w, order).value.broker)
  {
    hide Safe, Converging, Fluent, DrainStep, RecordsOf, IsListing;
    match w.broker.drain
    case RollingBack(_) => RollingDescends(w, order);
    case Comparing(_, _) => ComparingDescends(w, order);
    case Starting(_, _) => StartingDescends(w, order);
    case _ => FluentIs(w); TurnBecomes(w, order);
  }

  /** The end that is waited for takes a message or hands over a reply. */
  function EndStep(n: Net, t: Target): Step
    requires t in n.ends
  {
    if n.ends[t].outbox != [] then Answers(t) else Receives(t)
  }

  lemma EndStepDescends(w: World, t: Target)
    requires Reachable(w) && Fluent(w) && AwaitedEnd(w) == Some(t)
    ensures t in w.net.ends && Apply(w, EndStep(w.net, t)).Some?
    ensures var w' := Apply(w, EndStep(w.net, t)).value; w'.broker == w.broker && Traffic(w') < Traffic(w)
  {
    hide Fluent, Reachable, Head, Receive;
    AwaitedEndMoves(w);
    FluentIs(w);
    var e := w.net.ends[t];
    if e.outbox != [] { HeardIs(w.net, t); } else { ReceiveMoves(e, 0); }
  }

  /**
   * From every reachable state in which a calm broker is about to reconcile or in the middle of it, its own turns
   * and those of the ends lead to a successful end, with the connections exactly those the authority asks for.
   */
  lemma {:induction false} CanSucceed(w: World) returns (steps: seq<Step>)
    requires Reachable(w) && Fluent(w) && InPass(w.broker)
    ensures forall i :: 0 <= i < |steps| ==> Working(steps[i])
    ensures From(w, steps).Some?
    ensures var b := From(w, steps).value.broker; b.drain == Reconciled(true) && !b.dirty && Agrees(b)
    decreases Phase(w.broker), Left(w.broker), HeadRank(w.broker), Traffic(w)
  {
    hide Reachable, Fluent, Agrees, Apply, Traffic, AwaitedEnd, HeadRank, Phase, Left, Safe, Converging, TodoListed,
        RevisionsOk, EndStep;
    if w.broker.drain.Reconciled? {
      ReconciledAgrees(w);
      return [];
    }
    var step;
    if AwaitedEnd(w).Some? {
      EndStepDescends(w, AwaitedEnd(w).value);
      step := EndStep(w.net, AwaitedEnd(w).value);
      EndStepWorks(w.net, AwaitedEnd(w).value);
    } else {
      var order := DrainPossible(w);
      IsSafe(w);
      DrainDescends(w, order);
      DrainsIs(w, order);
      step := Drains(order);
    }
    StepFluent(w, step);
    ReachableMore(w, step);
    var rest := CanSucceed(Apply(w, step).value);
    FromFirst(w, step, rest);
    steps := [step] + rest;
  }

  lemma EndStepWorks(n: Net, t: Target)
    requires t in n.ends
    ensures Working(EndStep(n, t))
  {
  }

  lemma DrainsIs(w: World, order: seq<Key>)
    ensures Apply(w, Drains(order)) == DrainStep(w, order)
  {
  }

  lemma ReconciledAgrees(w: World)
    requires Reachable(w) && Fluent(w) && InPass(w.broker) && w.broker.drain.Reconciled?
    ensures w.broker.drain == Reconciled(true) && !w.broker.dirty && Agrees(w.broker) && From(w, []) == Some(w)
  {
    hide Agrees, Reachable, Calm, AllFlow;
    FluentIs(w);
    SuccessfulReconcileConverges(w);
  }

  /** Whenever a calm broker begins to reconcile, it can come to agree with its authority. */
  lemma CalmConverges(w: World) returns (steps: seq<Step>)
    requires Reachable(w) && Calm(w) && w.broker.drain.Looping? && w.broker.dirty
    ensures forall i :: 0 <= i < |steps| ==> Working(steps[i])
    ensures From(w, steps).Some?
    ensures var b := From(w, steps).value.broker; b.drain == Reconciled(true) && !b.dirty && Agrees(b)
  {
    hide Reachable, Calm, AllFlow, Agrees;
    LoopIsFluent(w);
    steps := CanSucceed(w);
  }

  // ----- a good connection is left alone

  lemma RevokesOnlyOne(b: Broker, b': Broker, k: Key, outcome: Outcome, rec: Record, key: Key)
    requires k in RecordsOf(b) && key in b.current && key != k && b.cleanup.Keys !! b.current.Keys
    requires Commits(b, b', k) || Revokes(b, b', k, outcome, rec) || AwaitsWindow(b, b', k, rec)
    ensures key in b'.current && b'.current[key] == b.current[key]
  {
  }

  lemma AdvanceLeaves(w: World, k: Key, key: Key)
    requires Safe(w) && Advance(w, k).Some? && key in w.broker.current && key != k
    ensures var b' := Advance(w, k).value.world.broker;
            key in b'.current && b'.current[key] == w.broker.current[key]
  {
    hide Safe, Advance, Revokes, Commits, AwaitsWindow, Confirmed, RecordsOf;
    AdvanceNeeds(w, k);
    Uncommitted(w, k);
    SafeApart(w);
    var rec := AdvanceEffect(w, k);
    RevokesOnlyOne(w.broker, Advance(w, k).value.world.broker, k, Advance(w, k).value.outcome, rec, key);
  }

  lemma AskedIsKept(b: Broker, d: seq<Entry>, unchecked: seq<Key>, key: Key)
    requires ComparingOk(b, d, unchecked) && !b.dirty && key in b.current && b.current[key].committed
    requires Asked(b, Entry(b.current[key].tuple, b.current[key].runtime))
    ensures KeepsCurrent(b, d, b.current[key])
  {
    hide Desired;
    var e, entries := Entry(b.current[key].tuple, b.current[key].runtime), AuthorityEntries(b);
    DesiredIs(entries, b.terminated);
    DesiredIsSound(entries, b.terminated);
    assert e in d;
    var i :| 0 <= i < |d| && d[i] == e;
    FindDistinct(d, i);
  }

  lemma UncheckedIsOther(w: World, key: Key)
    requires Converging(w.broker) && !w.broker.closed && w.broker.drain.Comparing? && w.broker.drain.unchecked != []
    requires !w.broker.dirty && key in w.broker.current && w.broker.current[key].committed
    requires Asked(w.broker, Entry(w.broker.current[key].tuple, w.broker.current[key].runtime))
    requires w.broker.drain.unchecked[0] == key
    ensures KeepsCurrent(w.broker, w.broker.drain.desired, w.broker.current[key])
  {
    AskedIsKept(w.broker, w.broker.drain.desired, w.broker.drain.unchecked, key);
  }

  lemma DrainLeaves(w: World, order: seq<Key>, key: Key)
    requires Safe(w) && Converging(w.broker) && !w.broker.closed && DrainStep(w, order).Some?
    requires key in w.broker.current && w.broker.current[key].committed && !w.broker.dirty
    requires Asked(w.broker, Entry(w.broker.current[key].tuple, w.broker.current[key].runtime))
    ensures var b' := DrainStep(w, order).value.broker;
            key in b'.current && b'.current[key] == w.broker.current[key]
  {
    hide Safe, Converging, DrainStep, Advance, KeepsCurrent, BeginProvision, RecordsOf, Asked;
    SafeApart(w);
    match w.broker.drain
    case RollingBack(undone) =>
      if undone == [] { PauseKeepsRecords(w, order); }
      else {
        RollingBecomes(w, order);
        RollingHeadFenced(w);
        AdvanceLeaves(w, undone[0], key);
      }
    case Comparing(_, unchecked) =>
      if unchecked == [] { PauseKeepsRecords(w, order); }
      else {
        ComparingBecomes(w, order);
        if unchecked[0] == key { UncheckedIsOther(w, key); }
        else if Advance(w, unchecked[0]).Some? { AdvanceLeaves(w, unchecked[0], key); }
      }
    case Starting(todo, _) =>
      if todo == [] { PauseKeepsRecords(w, order); }
      else {
        StartingBecomes(w, order);
        if Advance(w, todo[0].tuple.key).Some? && todo[0].tuple.key in w.broker.cleanup {
          AdvanceLeaves(w, todo[0].tuple.key, key);
        }
        if StartsProvision(w) { BeginLists(w, todo[0]); }
      }
    case _ => PauseKeepsRecords(w, order);
  }

  lemma RollingHeadFenced(w: World)
    requires Converging(w.broker) && !w.broker.closed && w.broker.drain.RollingBack? && w.broker.drain.undone != []
    ensures w.broker.drain.undone[0] in w.broker.cleanup
  {
  }

  /**
   * While the broker is open, a committed connection is only given up by a reconcile that still has changes to take
   * in, or because its entry is not listed any more, its runtime has terminated or has no provisioner.
   */
  lemma RevokedForCause(w: World, step: Step, key: Key)
    requires Reachable(w) && Apply(w, step).Some? && !w.broker.closed
    requires key in w.broker.current && w.broker.current[key].committed
    requires var b' := Apply(w, step).value.broker; !(key in b'.current && b'.current[key] == w.broker.current[key])
    ensures step.Drains?
    ensures w.broker.dirty || !Asked(w.broker, Entry(w.broker.current[key].tuple, w.broker.current[key].runtime))
  {
    hide Safe, Converging, TodoListed, RevisionsOk, Reachable, DrainStep, BeginRevocation, Resume, Receive, Answer,
        Abort,
        Asked;
    IsSafe(w);
    match step
    case Drains(order) =>
      if !w.broker.dirty && Asked(w.broker, Entry(w.broker.current[key].tuple, w.broker.current[key].runtime)) {
        DrainLeaves(w, order, key);
      }
    case Replace(_) => AbortKeepsBook(w, None);
    case Close => AbortKeepsBook(w, None);
    case Terminated(rt) => AbortKeepsBook(w, Some(rt));
    case Stops(_) => OpenBroker(w);
    case EndStopping => OpenBroker(w);
    case _ =>
  }
}
