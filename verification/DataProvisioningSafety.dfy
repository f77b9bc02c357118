/**
 * Safety of the Data provisioning transaction as an invariant of every run. `Safe` has four parts:
 *
 * - `NetOk`: messages and replies under way belong to requests that were made; an accepted revocation
 *   left its end clear of the connection, and an accepted installation is backed by its end until a
 *   revocation of the connection is posted.
 * - `OwnershipOk`: whatever an end holds, or will hold once its inbox is worked off, is the latest
 *   connection of its key, and the broker still has a record of it that does not count that end as revoked.
 * - `RecordsOk`: a suspended record procedure waits for a request of its own connection and of the right
 *   kind; a committed record rests and is backed by both ends.
 * - `BookOk`: the two maps of the broker never have a key in common.
 */
module DataProvisioningSafety {
  import opened Base
  import opened DataProvisioning

  // ----- what the ends hold

  /** The end is gone or holds exactly this connection. */
  predicate Backs(e: End, held: Held) {
    e.phase.Shut? || e.phase.Dead? || (held.tuple.key in e.slots && e.slots[held.tuple.key] == held)
  }

  /** Neither held by the end nor on its way to it. */
  ghost predicate Clear(e: End, conn: ConnId) {
    && (forall key :: key in e.slots ==> e.slots[key].conn != conn)
    && (forall m :: m in e.inbox && m.install ==> m.conn != conn)
  }

  ghost predicate RevokeFree(n: Net, conn: ConnId) {
    forall q :: q in n.requests && n.requests[q].conn == conn ==> n.requests[q].install
  }

  /** The end accepted the request, whether or not the broker has heard of it. */
  predicate Accepted(n: Net, q: ReqId)
    requires q in n.requests && n.requests[q].target in n.ends
  {
    n.requests[q].status.Resolved? || Reply(q, n.requests[q].conn, true) in n.ends[n.requests[q].target].outbox
  }

  // ----- the invariant of ports, endpoints and request tables

  predicate RequestOk(n: Net, q: ReqId, issued: map<ConnId, Tuple>)
    requires q in n.requests
  {
    && q < n.nextReq
    && n.requests[q].conn in issued && issued[n.requests[q].conn] == n.requests[q].tuple
    && n.requests[q].target in n.ends
  }

  predicate MessageOk(n: Net, t: Target, m: Message) {
    && m.req in n.requests
    && n.requests[m.req] == Request(t, m.install, m.tuple, m.conn, n.requests[m.req].status)
  }

  predicate ReplyOk(n: Net, t: Target, r: Reply) {
    r.req in n.requests && n.requests[r.req].target == t && n.requests[r.req].conn == r.conn
  }

  ghost predicate EndOk(n: Net, t: Target, e: End, issued: map<ConnId, Tuple>) {
    && (forall i :: 0 <= i < |e.inbox| ==> MessageOk(n, t, e.inbox[i]))
    && (forall i, j :: 0 <= i < j < |e.inbox| && !e.inbox[i].install && e.inbox[j].install ==>
       e.inbox[i].conn != e.inbox[j].conn)
    && (forall i :: 0 <= i < |e.outbox| ==> ReplyOk(n, t, e.outbox[i]))
    && (forall key :: key in e.slots ==>
          e.slots[key].tuple.key == key && e.slots[key].conn in issued
              && issued[e.slots[key].conn] == e.slots[key].tuple)
    && (t.ToRunner? && t in n.severed ==> e.phase.Dead?)
    && (e.phase.Shut? || e.phase.Dead? ==> e.slots == map[])
    && (e.phase.Dead? ==> e.inbox == [] && t.ToRunner?)
  }

  /** An accepted revocation left the end clear; an accepted installation is backed until a revocation. */
  ghost predicate Effective(n: Net, q: ReqId)
    requires q in n.requests && n.requests[q].target in n.ends
  {
    var r := n.requests[q];
    Accepted(n, q) ==>
      if r.install then RevokeFree(n, r.conn) ==> Backs(n.ends[r.target], Held(r.tuple, r.conn))
      else Clear(n.ends[r.target], r.conn)
  }

  ghost predicate NetOk(n: Net, issued: map<ConnId, Tuple>) {
    && ToWindow in n.ends
    && (forall t :: t in n.severed ==> t in n.ends)
    && (forall q :: q in n.requests ==> RequestOk(n, q, issued))
    && (forall t :: t in n.ends ==> EndOk(n, t, n.ends[t], issued))
    && (forall q :: q in n.requests ==> Effective(n, q))
  }

  // ----- ownership: whatever an end has or will get is the latest connection of its key, still fenced

  predicate Owned(w: World, t: Target, held: Held) {
    && held.tuple.key in w.latest && w.latest[held.tuple.key] == held.conn
    && (w.broker.shutdown.Done? ||
        (&& held.tuple.key in RecordsOf(w.broker)
         && var rec := RecordsOf(w.broker)[held.tuple.key];
            && rec.conn == held.conn && rec.tuple == held.tuple
            && match t
               case ToWindow => !rec.windowRevoked
               case ToRunner(rt) => rec.runtime == rt && !rec.runnerRevoked))
  }

  ghost predicate EndOwned(w: World, t: Target, e: End) {
    && (forall key :: key in e.slots ==> Owned(w, t, e.slots[key]))
    && (forall i :: 0 <= i < |e.inbox| && e.inbox[i].install ==> Owned(w, t, Held(e.inbox[i].tuple, e.inbox[i].conn)))
  }

  ghost predicate OwnershipOk(w: World) {
    forall t :: t in w.net.ends ==> EndOwned(w, t, w.net.ends[t])
  }

  // ----- records

  function HeldOf(rec: Record): Held { Held(rec.tuple, rec.conn) }

  predicate Awaits(n: Net, q: ReqId, t: Target, install: bool, rec: Record) {
    && q in n.requests
    && n.requests[q] == Request(t, install, rec.tuple, rec.conn, n.requests[q].status)
  }

  ghost predicate StageOk(n: Net, rec: Record)
    requires ToWindow in n.ends && ToRunner(rec.runtime) in n.ends
  {
    match rec.stage
    case Resting =>
      rec.committed ==>
        && RevokeFree(n, rec.conn)
        && Backs(n.ends[ToWindow], HeldOf(rec)) && Backs(n.ends[ToRunner(rec.runtime)], HeldOf(rec))
    case AwaitRunnerInstall(q) => Awaits(n, q, ToRunner(rec.runtime), true, rec) && RevokeFree(n, rec.conn)
    case AwaitWindowInstall(q) =>
      && Awaits(n, q, ToWindow, true, rec) && RevokeFree(n, rec.conn)
      && Backs(n.ends[ToRunner(rec.runtime)], HeldOf(rec))
    case AwaitWindowRevoke(q) => Awaits(n, q, ToWindow, false, rec) && !rec.windowRevoked
    case AwaitRunnerRevoke(q) => Awaits(n, q, ToRunner(rec.runtime), false, rec) && !rec.runnerRevoked
  }

  ghost predicate RecordOk(w: World, k: Key, rec: Record)
    requires ToWindow in w.net.ends
  {
    && rec.tuple.key == k
    && rec.conn in w.issued && w.issued[rec.conn] == rec.tuple
    && k in w.latest && w.latest[k] == rec.conn
    && ToRunner(rec.runtime) in w.net.ends
    && (rec.committed ==> rec.stage.Resting?)
    && ((rec.windowRevoked || rec.runnerRevoked) ==>
       !rec.committed && !rec.stage.AwaitRunnerInstall? && !rec.stage.AwaitWindowInstall?)
    && StageOk(w.net, rec)
  }

  ghost predicate RecordsOk(w: World)
    requires ToWindow in w.net.ends
  {
    forall k :: k in RecordsOf(w.broker) ==> RecordOk(w, k, RecordsOf(w.broker)[k])
  }

  ghost predicate BookOk(w: World) {
    && w.broker.cleanup.Keys !! w.broker.current.Keys
    && (forall c :: c in w.issued ==> c < w.nextConn)
    && (forall rt :: rt in w.broker.provisioners ==> ToRunner(rt) in w.net.ends)
    && (w.broker.shutdown.Done? ==> w.broker.cleanup == map[] && w.broker.current == map[])
    && (w.broker.shutdown.Stopping? || w.broker.shutdown.Done? ==> w.broker.drain.Idle?)
    && (!w.broker.shutdown.Open? <==> w.broker.closed)
  }

  ghost predicate Safe(w: World) {
    NetOk(w.net, w.issued) && OwnershipOk(w) && RecordsOk(w) && BookOk(w)
  }

  lemma InitialSafe()
    ensures Safe(INITIAL)
  {
  }

  // ----- outcomes

  /** The same requests, up to their outcomes. */
  ghost predicate SameRequests(n: Net, n': Net) {
    && n.requests.Keys == n'.requests.Keys
    && n.nextReq == n'.nextReq
    && (forall q :: q in n.requests ==> n.requests[q].(status := Pending) == n'.requests[q].(status := Pending))
  }

  lemma SameRequestsRevokeFree(n: Net, n': Net, c: ConnId)
    requires SameRequests(n, n') && RevokeFree(n, c)
    ensures RevokeFree(n', c)
  {
    forall q | q in n'.requests && n'.requests[q].conn == c
      ensures n'.requests[q].install
    {
      assert q in n.requests && n.requests[q].(status := Pending) == n'.requests[q].(status := Pending);
    }
  }

  /** Every request of `n` is still there with the same meaning. */
  ghost predicate KnowsAll(n: Net, n': Net) {
    forall q :: q in n.requests ==>
        q in n'.requests && n.requests[q].(status := Pending) == n'.requests[q].(status := Pending)
  }

  lemma KnowsAllKeepsEnd(n: Net, n': Net, t: Target, e: End, issued: map<ConnId, Tuple>)
    requires EndOk(n, t, e, issued) && KnowsAll(n, n')
    requires t.ToRunner? && t in n'.severed ==> e.phase.Dead?
    ensures EndOk(n', t, e, issued)
  {
    forall i | 0 <= i < |e.inbox| ensures MessageOk(n', t, e.inbox[i]) { assert MessageOk(n, t, e.inbox[i]); }
    forall i | 0 <= i < |e.outbox| ensures ReplyOk(n', t, e.outbox[i]) { assert ReplyOk(n, t, e.outbox[i]); }
  }

  lemma KnowsAllReflectsRevokeFree(n: Net, n': Net, c: ConnId)
    requires KnowsAll(n, n') && RevokeFree(n', c)
    ensures RevokeFree(n, c)
  {
    forall q | q in n.requests && n.requests[q].conn == c ensures n.requests[q].install { assert q in n'.requests; }
  }

  /** A request stays effective when nothing new is accepted and its end loses nothing it backs. */
  lemma EffectiveKept(n: Net, n': Net, q: ReqId)
    requires q in n.requests && n.requests[q].target in n.ends && n.requests[q].target in n'.ends
    requires KnowsAll(n, n') && Effective(n, q)
    requires Accepted(n', q) ==> Accepted(n, q)
    requires var r := n.requests[q];
             if r.install then Backs(n.ends[r.target], Held(r.tuple, r.conn)) ==>
                 Backs(n'.ends[r.target], Held(r.tuple, r.conn))
             else Clear(n.ends[r.target], r.conn) ==> Clear(n'.ends[r.target], r.conn)
    ensures Effective(n', q)
  {
    var r := n.requests[q];
    if Accepted(n', q) && r.install && RevokeFree(n', r.conn) { KnowsAllReflectsRevokeFree(n, n', r.conn); }
  }

  lemma RejectionKeepsNet(n: Net, issued: map<ConnId, Tuple>, ids: set<ReqId>)
    requires NetOk(n, issued)
    ensures NetOk(n.(requests := WithStatus(n.requests, ids, Rejected)), issued)
  {
    var n' := n.(requests := WithStatus(n.requests, ids, Rejected));
    assert KnowsAll(n, n');
    forall q | q in n'.requests ensures RequestOk(n', q, issued) && Effective(n', q) {
      assert RequestOk(n, q, issued) && Effective(n, q);
      EffectiveKept(n, n', q);
    }
    forall t | t in n'.ends ensures EndOk(n', t, n'.ends[t], issued) { KnowsAllKeepsEnd(n, n', t, n.ends[t], issued); }
  }

  // ----- steps that post nothing

  /** What the end holds and gets next was already held or on its way. */
  ghost predicate Narrows(e: End, e': End) {
    && (forall key :: key in e'.slots ==>
          (key in e.slots && e'.slots[key] == e.slots[key])
          || exists i ::
             0 <= i < |e.inbox| && e.inbox[i].install && e'.slots[key] == Held(e.inbox[i].tuple, e.inbox[i].conn))
    && (forall i :: 0 <= i < |e'.inbox| ==> e'.inbox[i] in e.inbox)
  }

  ghost predicate StillBacks(n: Net, e: End, e': End) {
    forall held: Held :: RevokeFree(n, held.conn) && Backs(e, held) ==> Backs(e', held)
  }

  /** A net step in which no request is made. */
  ghost predicate Quiet(n: Net, n': Net) {
    && SameRequests(n, n')
    && n.ends.Keys <= n'.ends.Keys
    && (forall t :: t in n.ends ==> Narrows(n.ends[t], n'.ends[t]) && StillBacks(n, n.ends[t], n'.ends[t]))
    && (forall t :: t in n'.ends && t !in n.ends ==> n'.ends[t].slots == map[] && n'.ends[t].inbox == [])
  }

  lemma QuietKeepsOwnership(w: World, n': Net)
    requires OwnershipOk(w) && Quiet(w.net, n')
    ensures OwnershipOk(w.(net := n'))
  {
    var w' := w.(net := n');
    forall t | t in n'.ends ensures EndOwned(w', t, n'.ends[t]) {
      if t in w.net.ends {
        assert EndOwned(w, t, w.net.ends[t]) && Narrows(w.net.ends[t], n'.ends[t]);
        forall i | 0 <= i < |n'.ends[t].inbox| && n'.ends[t].inbox[i].install
          ensures Owned(w', t, Held(n'.ends[t].inbox[i].tuple, n'.ends[t].inbox[i].conn))
        {
          var j :| 0 <= j < |w.net.ends[t].inbox| && w.net.ends[t].inbox[j] == n'.ends[t].inbox[i];
          assert Owned(w, t, Held(w.net.ends[t].inbox[j].tuple, w.net.ends[t].inbox[j].conn));
        }
        forall key | key in n'.ends[t].slots ensures Owned(w', t, n'.ends[t].slots[key]) {
          assert Owned(w, t, n'.ends[t].slots[key]);
        }
      }
    }
  }

  lemma QuietKeepsRecord(n: Net, n': Net, rec: Record)
    requires ToWindow in n.ends && ToRunner(rec.runtime) in n.ends
    requires Quiet(n, n') && StageOk(n, rec)
    ensures StageOk(n', rec)
  {
    if RevokeFree(n, rec.conn) { SameRequestsRevokeFree(n, n', rec.conn); }
    assert StillBacks(n, n.ends[ToWindow], n'.ends[ToWindow]);
    assert StillBacks(n, n.ends[ToRunner(rec.runtime)], n'.ends[ToRunner(rec.runtime)]);
    if !rec.stage.Resting? {
      assert n.requests[rec.stage.req].(status := Pending) == n'.requests[rec.stage.req].(status := Pending);
    }
  }

  lemma QuietKeepsSafe(w: World, n': Net)
    requires Safe(w) && Quiet(w.net, n') && NetOk(n', w.issued)
    ensures Safe(w.(net := n'))
  {
    QuietKeepsOwnership(w, n');
    forall k | k in RecordsOf(w.broker) ensures RecordOk(w.(net := n'), k, RecordsOf(w.broker)[k]) {
      assert RecordOk(w, k, RecordsOf(w.broker)[k]);
      QuietKeepsRecord(w.net, n', RecordsOf(w.broker)[k]);
    }
  }

  lemma ReceiveKeepsNet(n: Net, issued: map<ConnId, Tuple>, t: Target)
    requires NetOk(n, issued) && t in n.ends && n.ends[t].inbox != []
    ensures NetOk(WithEnd(n, t, Receive(n.ends[t])), issued)
  {
    hide Effective, EndOk, RequestOk, Receive;
    var e, e' := n.ends[t], Receive(n.ends[t]);
    var n' := WithEnd(n, t, e');
    forall q | q in n'.requests ensures RequestOk(n', q, issued) { SameRequestsRequestOk(n, n', issued, q); }
    ReceivedEndOk(n, issued, t);
    forall u | u in n'.ends ensures EndOk(n', u, n'.ends[u], issued) {
      if u != t { SeveredDead(n, issued, u); KnowsAllKeepsEnd(n, n', u, n.ends[u], issued); }
    }
    forall q | q in n'.requests ensures n'.requests[q].target in n'.ends && Effective(n', q) {
      TargetIsEnd(n, issued, q);
      ReceiveKeepsEffective(n, issued, t, q);
    }
  }

  lemma SeveredDead(n: Net, issued: map<ConnId, Tuple>, t: Target)
    requires NetOk(n, issued) && t in n.ends
    ensures t.ToRunner? && t in n.severed ==> n.ends[t].phase.Dead?
  {
    hide Effective, RequestOk;
  }

  lemma TargetIsEnd(n: Net, issued: map<ConnId, Tuple>, q: ReqId)
    requires NetOk(n, issued) && q in n.requests
    ensures n.requests[q].target in n.ends
  {
    hide EndOk, Effective;
    assert RequestOk(n, q, issued);
  }

  lemma SameRequestsRequestOk(n: Net, n': Net, issued: map<ConnId, Tuple>, q: ReqId)
    requires n'.requests == n.requests && n'.nextReq == n.nextReq && n'.ends.Keys == n.ends.Keys && q in n.requests
             && RequestOk(n, q, issued)
    ensures RequestOk(n', q, issued)
  {
  }

  lemma ReceivedEndOk(n: Net, issued: map<ConnId, Tuple>, t: Target)
    requires NetOk(n, issued) && t in n.ends && n.ends[t].inbox != []
    ensures EndOk(WithEnd(n, t, Receive(n.ends[t])), t, Receive(n.ends[t]), issued)
  {
    hide Effective;
    var e, e' := n.ends[t], Receive(n.ends[t]);
    var n' := WithEnd(n, t, e');
    var m := e.inbox[0];
    assert EndOk(n, t, e, issued) && MessageOk(n, t, m) && RequestOk(n, m.req, issued);
    forall i | 0 <= i < |e'.outbox| ensures ReplyOk(n', t, e'.outbox[i]) {
      if i < |e.outbox| { assert ReplyOk(n, t, e.outbox[i]); }
    }
    forall i | 0 <= i < |e'.inbox| ensures MessageOk(n', t, e'.inbox[i]) { assert MessageOk(n, t, e.inbox[i + 1]); }
  }

  lemma ReceiveIsQuiet(n: Net, issued: map<ConnId, Tuple>, t: Target)
    requires NetOk(n, issued) && t in n.ends && n.ends[t].inbox != []
    ensures Quiet(n, WithEnd(n, t, Receive(n.ends[t])))
  {
    hide Effective;
    var e, e' := n.ends[t], Receive(n.ends[t]);
    var n' := WithEnd(n, t, e');
    var m := e.inbox[0];
    assert EndOk(n, t, e, issued) && MessageOk(n, t, m) && RequestOk(n, m.req, issued);
    assert SameRequests(n, n');
    assert Narrows(e, e');
    assert StillBacks(n, e, e');
    forall u | u in n.ends ensures Narrows(n.ends[u], n'.ends[u]) && StillBacks(n, n.ends[u], n'.ends[u]) {}
  }

  lemma ReceiveKeepsEffective(n: Net, issued: map<ConnId, Tuple>, t: Target, q: ReqId)
    requires NetOk(n, issued) && t in n.ends && n.ends[t].inbox != [] && q in n.requests
    ensures Effective(WithEnd(n, t, Receive(n.ends[t])), q)
  {
    var e, e' := n.ends[t], Receive(n.ends[t]);
    var n' := WithEnd(n, t, e');
    var m := e.inbox[0];
    assert EndOk(n, t, e, issued) && MessageOk(n, t, m) && Effective(n, q) && RequestOk(n, q, issued)
        && RequestOk(n, m.req, issued);
    if RevokeFree(n', n.requests[q].conn) { SameRequestsRevokeFree(n', n, n.requests[q].conn); }
  }

  /** Only one end changes, and it narrows. */
  lemma OneEndIsQuiet(n: Net, n': Net, t: Target, e': End)
    requires SameRequests(n, n') && t in n.ends && n'.ends == n.ends[t := e']
    requires Narrows(n.ends[t], e') && StillBacks(n, n.ends[t], e')
    ensures Quiet(n, n')
  {
    forall u | u in n.ends ensures Narrows(n.ends[u], n'.ends[u]) && StillBacks(n, n.ends[u], n'.ends[u]) {}
  }

  lemma RejectionIsQuiet(n: Net, ids: set<ReqId>)
    ensures Quiet(n, n.(requests := WithStatus(n.requests, ids, Rejected)))
  {
  }

  /** Taking a reply off an outbox and recording its outcome. */
  function Heard(n: Net, t: Target): Net
    requires t in n.ends && n.ends[t].outbox != []
  {
    Answer(WithEnd(n, t, n.ends[t].(outbox := n.ends[t].outbox[1..])), n.ends[t].outbox[0])
  }

  lemma HeardIsQuiet(n: Net, t: Target)
    requires t in n.ends && n.ends[t].outbox != []
    ensures Quiet(n, Heard(n, t))
  {
    var e' := n.ends[t].(outbox := n.ends[t].outbox[1..]);
    assert Narrows(n.ends[t], e') && StillBacks(n, n.ends[t], e');
    OneEndIsQuiet(n, Heard(n, t), t, e');
  }

  lemma HeardAccepted(n: Net, issued: map<ConnId, Tuple>, t: Target, q: ReqId)
    requires NetOk(n, issued) && t in n.ends && n.ends[t].outbox != [] && q in n.requests
    ensures n.requests[q].target in n.ends
    ensures Accepted(Heard(n, t), q) ==> Accepted(n, q)
  {
    hide Effective;
    var e, r := n.ends[t], n.ends[t].outbox[0];
    assert RequestOk(n, q, issued);
    assert EndOk(n, t, e, issued) && ReplyOk(n, t, r) && r in e.outbox;
  }

  lemma HeardKeepsNet(n: Net, issued: map<ConnId, Tuple>, t: Target)
    requires NetOk(n, issued) && t in n.ends && n.ends[t].outbox != []
    ensures NetOk(Heard(n, t), issued)
  {
    hide EndOk, RequestOk, Effective, Heard, Accepted;
    var n' := Heard(n, t);
    HeardIs(n, t);
    forall u | u in n'.ends ensures EndOk(n', u, n'.ends[u], issued) {
      SeveredDead(n, issued, u);
      KnowsAllKeepsEnd(n, n', u, n.ends[u], issued);
      if u == t { ShorterOutboxOk(n', t, n.ends[t], issued); }
    }
    forall q | q in n'.requests
        ensures RequestOk(n', q, issued) && n'.requests[q].target in n'.ends && Effective(n', q) {
      TargetIsEnd(n, issued, q);
      HeardRequest(n, issued, t, q);
    }
  }

  lemma HeardIs(n: Net, t: Target)
    requires t in n.ends && n.ends[t].outbox != []
    ensures var n' := Heard(n, t);
            && KnowsAll(n, n') && n'.requests.Keys == n.requests.Keys && n'.severed == n.severed
            && n'.ends == n.ends[t := n.ends[t].(outbox := n.ends[t].outbox[1..])]
            && (forall q :: q in n.requests ==> n'.requests[q].target == n.requests[q].target)
  {
  }

  lemma HeardRequest(n: Net, issued: map<ConnId, Tuple>, t: Target, q: ReqId)
    requires NetOk(n, issued) && t in n.ends && n.ends[t].outbox != [] && q in n.requests
             && n.requests[q].target in n.ends
    ensures q in Heard(n, t).requests && RequestOk(Heard(n, t), q, issued) && Effective(Heard(n, t), q)
  {
    hide EndOk, Effective;
    assert RequestOk(n, q, issued) && Effective(n, q);
    HeardAccepted(n, issued, t, q);
    HeardIs(n, t);
    EffectiveKept(n, Heard(n, t), q);
  }

  lemma ShorterOutboxOk(n: Net, t: Target, e: End, issued: map<ConnId, Tuple>)
    requires EndOk(n, t, e, issued) && e.outbox != []
    ensures EndOk(n, t, e.(outbox := e.outbox[1..]), issued)
  {
    forall i | 0 <= i < |e.outbox[1..]| ensures ReplyOk(n, t, e.outbox[1..][i]) {
      assert ReplyOk(n, t, e.outbox[i + 1]);
    }
  }

  /** An end that stops serving, is closed, or dies. */
  predicate Downgrade(t: Target, e: End, e': End) {
    || (e' == Kill(e) && t.ToRunner?)
    || (e' == e.(phase := Shut, slots := map[]) && t.ToWindow?)
    || (e' == e.(phase := Stale) && e.phase.Serving?)
  }

  lemma EndStopsKeepsNet(n: Net, issued: map<ConnId, Tuple>, t: Target, e': End)
    requires NetOk(n, issued) && t in n.ends && Downgrade(t, n.ends[t], e')
    ensures NetOk(WithEnd(n, t, e'), issued)
  {
    var n' := WithEnd(n, t, e');
    assert KnowsAll(n, n');
    forall u | u in n'.ends ensures EndOk(n', u, n'.ends[u], issued) {
      assert EndOk(n, u, n.ends[u], issued);
      KnowsAllKeepsEnd(n, n', u, n.ends[u], issued);
    }
    forall q | q in n'.requests ensures RequestOk(n', q, issued) && Effective(n', q) {
      assert RequestOk(n, q, issued) && Effective(n, q);
      EffectiveKept(n, n', q);
    }
  }

  lemma EndStopsIsQuiet(n: Net, t: Target, e': End)
    requires t in n.ends && Downgrade(t, n.ends[t], e')
    ensures Quiet(n, WithEnd(n, t, e'))
  {
    assert Narrows(n.ends[t], e') && StillBacks(n, n.ends[t], e');
    OneEndIsQuiet(n, WithEnd(n, t, e'), t, e');
  }

  lemma SeverKnowsAll(n: Net, t: Target)
    ensures KnowsAll(n, Sever(n, t)) && Sever(n, t).ends == n.ends
  {
  }

  lemma SeverKeepsEnd(n: Net, issued: map<ConnId, Tuple>, t: Target, u: Target)
    requires u in n.ends && EndOk(n, u, n.ends[u], issued)
    requires t in n.ends && (t.ToRunner? ==> n.ends[t].phase.Dead?)
    ensures EndOk(Sever(n, t), u, n.ends[u], issued)
  {
    SeverKnowsAll(n, t);
    KnowsAllKeepsEnd(n, Sever(n, t), u, n.ends[u], issued);
  }

  lemma SeverKeepsRequest(n: Net, issued: map<ConnId, Tuple>, t: Target, q: ReqId)
    requires NetOk(n, issued) && t in n.ends && q in n.requests
    ensures q in Sever(n, t).requests && RequestOk(Sever(n, t), q, issued)
    ensures Sever(n, t).requests[q].target in Sever(n, t).ends && Effective(Sever(n, t), q)
  {
    hide EndOk;
    SeverKnowsAll(n, t);
    assert RequestOk(n, q, issued) && Effective(n, q);
    EffectiveKept(n, Sever(n, t), q);
  }

  lemma SeverKeepsNet(n: Net, issued: map<ConnId, Tuple>, t: Target)
    requires NetOk(n, issued)
    requires t in n.ends && (t.ToRunner? ==> n.ends[t].phase.Dead?)
    ensures NetOk(Sever(n, t), issued) && Quiet(n, Sever(n, t))
  {
    hide EndOk, RequestOk, Effective, Quiet;
    var n' := Sever(n, t);
    SeverIsQuiet(n, t);
    forall u | u in n'.ends ensures EndOk(n', u, n'.ends[u], issued) { SeverKeepsEnd(n, issued, t, u); }
    forall q | q in n'.requests
        ensures RequestOk(n', q, issued) && n'.requests[q].target in n'.ends && Effective(n', q) {
      SeverKeepsRequest(n, issued, t, q);
    }
  }

  lemma SeverIsQuiet(n: Net, t: Target)
    requires t in n.ends
    ensures Quiet(n, Sever(n, t))
  {
  }

  lemma LaunchKeepsNet(n: Net, issued: map<ConnId, Tuple>, t: Target, key: Key)
    requires NetOk(n, issued) && t !in n.ends
    ensures var n' := WithEnd(n, t, End(Some(key), Serving, map[], [], []));
            NetOk(n', issued)
  {
    var n' := WithEnd(n, t, End(Some(key), Serving, map[], [], []));
    assert KnowsAll(n, n');
    forall u | u in n'.ends && u != t ensures EndOk(n', u, n'.ends[u], issued) {
      assert EndOk(n, u, n.ends[u], issued);
      KnowsAllKeepsEnd(n, n', u, n.ends[u], issued);
    }
    forall q | q in n'.requests ensures RequestOk(n', q, issued) && Effective(n', q) {
      assert RequestOk(n, q, issued) && Effective(n, q);
      EffectiveKept(n, n', q);
    }
  }

  lemma LaunchIsQuiet(n: Net, t: Target, key: Key)
    requires t !in n.ends
    ensures Quiet(n, WithEnd(n, t, End(Some(key), Serving, map[], [], [])))
  {
    var n' := WithEnd(n, t, End(Some(key), Serving, map[], [], []));
    forall u | u in n.ends ensures Narrows(n.ends[u], n'.ends[u]) && StillBacks(n, n.ends[u], n'.ends[u]) {}
  }

  // ----- posting a request

  /**
   * An installation may only be posted while its connection was never revoked. Everything else the
   * net promises then survives the new request.
   */
  lemma PostKeepsNet(n: Net, issued: map<ConnId, Tuple>, t: Target, install: bool, tuple: Tuple, conn: ConnId,
      aborted: bool)
    requires NetOk(n, issued) && t in n.ends
    requires conn in issued && issued[conn] == tuple
    requires install ==> RevokeFree(n, conn)
    ensures NetOk(Post(n, t, install, tuple, conn, aborted), issued)
    ensures KnowsAll(n, Post(n, t, install, tuple, conn, aborted))
  {
    var q0 := n.nextReq;
    var n' := Post(n, t, install, tuple, conn, aborted);
    forall q | q in n.requests ensures q != q0 { assert RequestOk(n, q, issued); }
    assert KnowsAll(n, n');
    forall q | q in n'.requests ensures RequestOk(n', q, issued) { if q != q0 { assert RequestOk(n, q, issued); } }
    forall u | u in n'.ends ensures EndOk(n', u, n'.ends[u], issued) {
      assert EndOk(n, u, n.ends[u], issued);
      KnowsAllKeepsEnd(n, n', u, n.ends[u], issued);
      if n'.ends[u] != n.ends[u] { LongerInboxOk(n', t, n.ends[t], Message(q0, install, tuple, conn), issued); }
    }
    forall q | q in n'.requests ensures Effective(n', q) {
      PostKeepsEffective(n, issued, t, install, tuple, conn, aborted, q);
    }
  }

  lemma LongerInboxOk(n: Net, t: Target, e: End, m: Message, issued: map<ConnId, Tuple>)
    requires EndOk(n, t, e, issued) && MessageOk(n, t, m) && !e.phase.Dead?
    requires m.install ==> RevokeFree(n, m.conn)
    ensures EndOk(n, t, e.(inbox := e.inbox + [m]), issued)
  {
    var e' := e.(inbox := e.inbox + [m]);
    forall i | 0 <= i < |e'.inbox| ensures MessageOk(n, t, e'.inbox[i]) {}
    forall i, j | 0 <= i < j < |e'.inbox| && !e'.inbox[i].install && e'.inbox[j].install
      ensures e'.inbox[i].conn != e'.inbox[j].conn
    {
      assert MessageOk(n, t, e.inbox[i]);
    }
  }

  lemma PostKeepsEffective(n: Net, issued: map<ConnId, Tuple>, t: Target, install: bool, tuple: Tuple, conn: ConnId,
      aborted: bool, q: ReqId)
    requires NetOk(n, issued) && t in n.ends
    requires install ==> RevokeFree(n, conn)
    requires KnowsAll(n, Post(n, t, install, tuple, conn, aborted))
    requires q in Post(n, t, install, tuple, conn, aborted).requests
    ensures Post(n, t, install, tuple, conn, aborted).requests[q].target in n.ends
    ensures Effective(Post(n, t, install, tuple, conn, aborted), q)
  {
    var n' := Post(n, t, install, tuple, conn, aborted);
    assert EndOk(n, t, n.ends[t], issued);
    if q == n.nextReq {
      FreshRequestUnanswered(n, issued, t, Reply(q, conn, true));
    } else {
      assert RequestOk(n, q, issued) && Effective(n, q);
      var r := n.requests[q];
      if install && !r.install { assert r.conn != conn; }
      EffectiveKept(n, n', q);
    }
  }

  lemma FreshRequestUnanswered(n: Net, issued: map<ConnId, Tuple>, t: Target, r: Reply)
    requires NetOk(n, issued) && t in n.ends && r.req == n.nextReq
    ensures r !in n.ends[t].outbox
  {
    assert EndOk(n, t, n.ends[t], issued);
    forall i | 0 <= i < |n.ends[t].outbox| ensures n.ends[t].outbox[i] != r {
      assert ReplyOk(n, t, n.ends[t].outbox[i]);
      assert RequestOk(n, n.ends[t].outbox[i].req, issued);
    }
  }

  // ----- changing one record

  /** The same connection of the same tuple; an end newly marked revoked is clear of it. */
  ghost predicate Updates(w: World, k: Key, rec: Record)
    requires ToWindow in w.net.ends
  {
    && k in RecordsOf(w.broker)
    && var old0 := RecordsOf(w.broker)[k];
       && rec.tuple == old0.tuple && rec.runtime == old0.runtime && rec.conn == old0.conn
       && ToRunner(rec.runtime) in w.net.ends
       && (rec.windowRevoked && !old0.windowRevoked ==> Clear(w.net.ends[ToWindow], rec.conn))
       && (rec.runnerRevoked && !old0.runnerRevoked ==> Clear(w.net.ends[ToRunner(rec.runtime)], rec.conn))
  }

  lemma PutRecords(w: World, k: Key, rec: Record)
    requires k in RecordsOf(w.broker)
    ensures RecordsOf(PutRecord(w, k, rec).broker) == RecordsOf(w.broker)[k := rec]
  {
  }

  lemma PutTwice(w: World, n: Net, k: Key, first: Record, second: Record)
    requires k in RecordsOf(w.broker)
    ensures PutRecord(PutRecord(w, k, first).(net := n), k, second) == PutRecord(w.(net := n), k, second)
  {
    var b := w.broker;
    if k in b.cleanup { assert b.cleanup[k := first][k := second] == b.cleanup[k := second]; }
    else { assert b.current[k := first][k := second] == b.current[k := second]; }
  }

  lemma PutThenDrop(w: World, k: Key, rec: Record)
    requires k in RecordsOf(w.broker)
    ensures DropRecord(PutRecord(w, k, rec), k) == DropRecord(w, k)
  {
    var b := w.broker;
    assert b.cleanup[k := rec] - {k} == b.cleanup - {k};
    assert b.current[k := rec] - {k} == b.current - {k};
  }

  lemma DropRecords(w: World, k: Key)
    ensures RecordsOf(DropRecord(w, k).broker) == RecordsOf(w.broker) - {k}
  {
  }

  lemma CommitRecords(b: Broker, k: Key, rec: Record)
    requires b.cleanup.Keys !! b.current.Keys
    ensures RecordsOf(b.(cleanup := b.cleanup - {k}, current := b.current[k := rec])) == RecordsOf(b)[k := rec]
  {
  }

  lemma PutKeepsOwned(w: World, k: Key, rec: Record, t: Target, held: Held)
    requires ToWindow in w.net.ends && Updates(w, k, rec) && t in w.net.ends && Owned(w, t, held)
    requires !Clear(w.net.ends[t], held.conn)
    ensures Owned(PutRecord(w, k, rec), t, held)
  {
    PutRecords(w, k, rec);
  }

  lemma PutKeepsOwnership(w: World, k: Key, rec: Record)
    requires ToWindow in w.net.ends && OwnershipOk(w) && Updates(w, k, rec)
    ensures OwnershipOk(PutRecord(w, k, rec))
  {
    var w' := PutRecord(w, k, rec);
    forall t | t in w'.net.ends ensures EndOwned(w', t, w'.net.ends[t]) {
      var e := w.net.ends[t];
      assert EndOwned(w, t, e);
      forall key | key in e.slots ensures Owned(w', t, e.slots[key]) { PutKeepsOwned(w, k, rec, t, e.slots[key]); }
      forall i | 0 <= i < |e.inbox| && e.inbox[i].install
          ensures Owned(w', t, Held(e.inbox[i].tuple, e.inbox[i].conn)) {
        assert e.inbox[i] in e.inbox;
        PutKeepsOwned(w, k, rec, t, Held(e.inbox[i].tuple, e.inbox[i].conn));
      }
    }
  }

  lemma PutKeepsRecords(w: World, k: Key, rec: Record)
    requires ToWindow in w.net.ends && RecordsOk(w) && k in RecordsOf(w.broker) && RecordOk(w, k, rec)
    ensures RecordsOk(PutRecord(w, k, rec))
  {
    hide StageOk;
    var w' := PutRecord(w, k, rec);
    PutRecords(w, k, rec);
    forall k' | k' in RecordsOf(w'.broker) ensures RecordOk(w', k', RecordsOf(w'.broker)[k']) {
      if k' != k { assert RecordOk(w, k', RecordsOf(w.broker)[k']); }
    }
  }

  lemma PutKeepsBook(w: World, k: Key, rec: Record)
    requires BookOk(w) && k in RecordsOf(w.broker)
    ensures BookOk(PutRecord(w, k, rec))
  {
  }

  lemma PutSafe(w: World, k: Key, rec: Record)
    requires Safe(w) && Updates(w, k, rec) && RecordOk(w, k, rec)
    ensures Safe(PutRecord(w, k, rec))
  {
    hide NetOk, OwnershipOk, RecordsOk, RecordOk, BookOk;
    assert ToWindow in w.net.ends by { SafeHasWindow(w); }
    PutKeepsOwnership(w, k, rec);
    PutKeepsRecords(w, k, rec);
    PutKeepsBook(w, k, rec);
  }

  lemma PostKeepsStage(n: Net, issued: map<ConnId, Tuple>, t: Target, install: bool, tuple: Tuple, conn: ConnId,
      rec: Record, aborted: bool)
    requires ToWindow in n.ends && t in n.ends && ToRunner(rec.runtime) in n.ends
    requires n.nextReq !in n.requests
    requires StageOk(n, rec) && (rec.conn != conn || (rec.stage.Resting? && !rec.committed))
    ensures StageOk(Post(n, t, install, tuple, conn, aborted), rec)
  {
    var n' := Post(n, t, install, tuple, conn, aborted);
    if RevokeFree(n, rec.conn) && rec.conn != conn {
      forall q | q in n'.requests && n'.requests[q].conn == rec.conn ensures n'.requests[q].install {
        assert q != n.nextReq;
        assert q in n.requests && n.requests[q] == n'.requests[q];
      }
    }
  }

  lemma NextRequestIsFresh(n: Net, issued: map<ConnId, Tuple>)
    requires NetOk(n, issued)
    ensures n.nextReq !in n.requests
  {
    forall q | q in n.requests ensures q != n.nextReq { assert RequestOk(n, q, issued); }
  }

  lemma PostKeepsOwnership(w: World, t: Target, install: bool, tuple: Tuple, conn: ConnId, aborted: bool)
    requires OwnershipOk(w) && t in w.net.ends
    requires install ==> Owned(w, t, Held(tuple, conn))
    ensures OwnershipOk(w.(net := Post(w.net, t, install, tuple, conn, aborted)))
  {
    var w' := w.(net := Post(w.net, t, install, tuple, conn, aborted));
    forall u | u in w'.net.ends ensures EndOwned(w', u, w'.net.ends[u]) {
      var e, e' := w.net.ends[u], w'.net.ends[u];
      assert EndOwned(w, u, e);
      forall i | 0 <= i < |e'.inbox| && e'.inbox[i].install
          ensures Owned(w', u, Held(e'.inbox[i].tuple, e'.inbox[i].conn)) {
        if i < |e.inbox| { assert Owned(w, u, Held(e.inbox[i].tuple, e.inbox[i].conn)); }
      }
    }
  }

  lemma PostKeepsEnds(n: Net, t: Target, install: bool, tuple: Tuple, conn: ConnId, aborted: bool)
    requires t in n.ends
    ensures Post(n, t, install, tuple, conn, aborted).ends.Keys == n.ends.Keys
  {
  }

  /** Posting for a record that rests uncommitted. */
  lemma PostSafe(w: World, k: Key, t: Target, install: bool, aborted: bool)
    requires Safe(w) && k in RecordsOf(w.broker) && t in w.net.ends
    requires var rec := RecordsOf(w.broker)[k];
             && rec.stage.Resting? && !rec.committed
             && (install ==> RevokeFree(w.net, rec.conn) && Owned(w, t, HeldOf(rec)))
    ensures var rec := RecordsOf(w.broker)[k];
            Safe(w.(net := Post(w.net, t, install, rec.tuple, rec.conn, aborted)))
  {
    hide NetOk, OwnershipOk, StageOk, Post, Owned, RevokeFree;
    var rec := RecordsOf(w.broker)[k];
    assert ToWindow in w.net.ends by { SafeHasWindow(w); }
    assert RecordOk(w, k, rec);
    NextRequestIsFresh(w.net, w.issued);
    PostKeepsNet(w.net, w.issued, t, install, rec.tuple, rec.conn, aborted);
    PostKeepsOwnership(w, t, install, rec.tuple, rec.conn, aborted);
    PostKeepsEnds(w.net, t, install, rec.tuple, rec.conn, aborted);
    var w' := w.(net := Post(w.net, t, install, rec.tuple, rec.conn, aborted));
    forall k' | k' in RecordsOf(w.broker) ensures RecordOk(w', k', RecordsOf(w.broker)[k']) {
      assert RecordOk(w, k', RecordsOf(w.broker)[k']);
      PostKeepsStage(w.net, w.issued, t, install, rec.tuple, rec.conn, RecordsOf(w.broker)[k'], aborted);
    }
  }

  // ----- record procedures

  /** A change of the record's own bookkeeping while a revocation runs. */
  ghost predicate Revoking(w: World, k: Key, rec: Record)
    requires ToWindow in w.net.ends
  {
    Updates(w, k, rec) && !rec.committed
  }

  /** Putting the record down, posting for it, and suspending on the answer. */
  lemma SuspendSafe(w: World, k: Key, rec: Record, t: Target, install: bool, aborted: bool, stage: Stage)
    requires ToWindow in w.net.ends && t in w.net.ends && Revoking(w, k, rec) && Safe(w)
    requires install ==> RevokeFree(w.net, rec.conn) && Owned(PutRecord(w, k, rec.(stage := Resting)), t, HeldOf(rec))
    requires var n' := Post(w.net, t, install, rec.tuple, rec.conn, aborted);
             ToWindow in n'.ends && ToRunner(rec.runtime) in n'.ends && StageOk(n', rec.(stage := stage))
    requires (rec.windowRevoked || rec.runnerRevoked) ==> !stage.AwaitRunnerInstall? && !stage.AwaitWindowInstall?
    ensures Safe(PutRecord(w.(net := Post(w.net, t, install, rec.tuple, rec.conn, aborted)), k, rec.(stage := stage)))
  {
    hide NetOk, OwnershipOk, RecordsOk;
    var n' := Post(w.net, t, install, rec.tuple, rec.conn, aborted);
    var w1 := Rest(w, k, rec);
    PostSafe(w1, k, t, install, aborted);
    PutSafe(w1.(net := n'), k, rec.(stage := stage));
    PutTwice(w, n', k, rec.(stage := Resting), rec.(stage := stage));
  }

  lemma Rest(w: World, k: Key, rec: Record) returns (w1: World)
    requires Safe(w) && Revoking(w, k, rec)
    ensures w1 == PutRecord(w, k, rec.(stage := Resting)) && Safe(w1)
    ensures k in RecordsOf(w1.broker) && RecordsOf(w1.broker)[k] == rec.(stage := Resting)
    ensures ToWindow in w1.net.ends && RecordOk(w1, k, rec.(stage := Resting))
  {
    hide NetOk, OwnershipOk, BookOk;
    assert ToWindow in w.net.ends by { SafeHasWindow(w); }
    assert RecordOk(w, k, RecordsOf(w.broker)[k]);
    PutSafe(w, k, rec.(stage := Resting));
    PutRecords(w, k, rec.(stage := Resting));
    w1 := PutRecord(w, k, rec.(stage := Resting));
  }

  lemma RevokingKnows(w: World, k: Key, rec: Record)
    requires Safe(w) && Revoking(w, k, rec)
    ensures ToWindow in w.net.ends && ToRunner(rec.runtime) in w.net.ends
  {
    hide NetOk, OwnershipOk, BookOk;
    SafeHasWindow(w);
    assert RecordOk(w, k, RecordsOf(w.broker)[k]);
  }

  /** A posted revocation is what the record then awaits. */
  lemma PostRevokeStage(n: Net, rec: Record)
    requires ToWindow in n.ends && ToRunner(rec.runtime) in n.ends
    ensures var n' := Post(n, ToRunner(rec.runtime), false, rec.tuple, rec.conn, false);
            ToWindow in n'.ends && ToRunner(rec.runtime) in n'.ends
                && (!rec.runnerRevoked ==> StageOk(n', rec.(stage := AwaitRunnerRevoke(n.nextReq))))
    ensures var n' := Post(n, ToWindow, false, rec.tuple, rec.conn, false);
            ToWindow in n'.ends && ToRunner(rec.runtime) in n'.ends
                && (!rec.windowRevoked ==> StageOk(n', rec.(stage := AwaitWindowRevoke(n.nextReq))))
  {
  }

  lemma RevokeRunnerSafe(w: World, k: Key, rec: Record)
    requires Safe(w) && Revoking(w, k, rec)
    ensures Safe(RevokeRunner(w, k, rec).world)
  {
    hide Safe, PutRecord, Post, EndRevocation, StageOk;
    RevokingKnows(w, k, rec);
    PostRevokeStage(w.net, rec);
    if !rec.runnerRevoked {
      SuspendSafe(w, k, rec, ToRunner(rec.runtime), false, false, AwaitRunnerRevoke(w.net.nextReq));
    } else {
      EndRevocationSafe(w, k, rec);
    }
  }

  lemma EndRevocationSafe(w: World, k: Key, rec: Record)
    requires Safe(w) && Revoking(w, k, rec)
    ensures Safe(EndRevocation(w, k, rec).world)
  {
    hide Safe;
    var w1 := Rest(w, k, rec);
    if rec.windowRevoked && rec.runnerRevoked {
      DropSafe(w1, k);
      PutThenDrop(w, k, rec.(stage := Resting));
    }
  }

  lemma DropKeepsOwnership(w: World, k: Key)
    requires OwnershipOk(w) && k in RecordsOf(w.broker)
    requires RecordsOf(w.broker)[k].windowRevoked && RecordsOf(w.broker)[k].runnerRevoked
    requires RecordsOf(DropRecord(w, k).broker) == RecordsOf(w.broker) - {k}
    ensures OwnershipOk(DropRecord(w, k))
  {
    var w' := DropRecord(w, k);
    forall t | t in w'.net.ends ensures EndOwned(w', t, w'.net.ends[t]) { assert EndOwned(w, t, w.net.ends[t]); }
  }

  /** The key is free again only because neither end has anything of it. */
  lemma DropSafe(w: World, k: Key)
    requires Safe(w) && k in RecordsOf(w.broker)
    requires RecordsOf(w.broker)[k].windowRevoked && RecordsOf(w.broker)[k].runnerRevoked
    ensures Safe(DropRecord(w, k))
  {
    var w' := DropRecord(w, k);
    DropRecords(w, k);
    DropKeepsOwnership(w, k);
    forall k' | k' in RecordsOf(w'.broker) ensures RecordOk(w', k', RecordsOf(w'.broker)[k']) {
      assert RecordOk(w, k', RecordsOf(w.broker)[k']);
    }
  }

  lemma RevokedOutright(w: World, k: Key, rec: Record)
    requires Safe(w) && k in RecordsOf(w.broker) && rec == RecordsOf(w.broker)[k].(committed := false, aborted := true)
    ensures Revoking(w, k, rec)
  {
    hide NetOk, OwnershipOk;
    SafeHasWindow(w);
    assert RecordOk(w, k, RecordsOf(w.broker)[k]);
  }

  lemma BeginRevocationSafe(w: World, k: Key)
    requires Safe(w) && RuntimeKnown(w, k)
    ensures Safe(BeginRevocation(w, k).world)
  {
    hide Safe, PutRecord, Post, RevokeRunner, StageOk;
    var rec := RecordsOf(w.broker)[k].(committed := false, aborted := true);
    RevokedOutright(w, k, rec);
    RevokingKnows(w, k, rec);
    PostRevokeStage(w.net, rec);
    if !rec.windowRevoked {
      SuspendSafe(w, k, rec, ToWindow, false, false, AwaitWindowRevoke(w.net.nextReq));
    } else {
      RevokeRunnerSafe(w, k, rec);
    }
  }

  // ----- continuations

  /** What the awaited outcome says about the ends. */
  lemma OutcomeMeans(w: World, k: Key)
    requires Safe(w) && k in RecordsOf(w.broker) && Settled(w, k)
    ensures ToWindow in w.net.ends
    ensures var rec := RecordsOf(w.broker)[k];
            && ToRunner(rec.runtime) in w.net.ends
            && (w.net.requests[rec.stage.req].status.Resolved? ==>
                  match rec.stage
                  case AwaitRunnerInstall(_) => Backs(w.net.ends[ToRunner(rec.runtime)], HeldOf(rec))
                  case AwaitWindowInstall(_) => Backs(w.net.ends[ToWindow], HeldOf(rec))
                  case AwaitWindowRevoke(_) => Clear(w.net.ends[ToWindow], rec.conn)
                  case AwaitRunnerRevoke(_) => Clear(w.net.ends[ToRunner(rec.runtime)], rec.conn)
                  case Resting => true)
  {
    var rec := RecordsOf(w.broker)[k];
    assert RecordOk(w, k, rec);
    assert Effective(w.net, rec.stage.req);
  }

  lemma ResumeSafe(w: World, k: Key)
    requires Safe(w) && RuntimeKnown(w, k) && Settled(w, k)
    ensures Safe(Resume(w, k).world)
  {
    var rec := RecordsOf(w.broker)[k];
    var fulfilled := w.net.requests[rec.stage.req].status.Resolved?;
    OutcomeMeans(w, k);
    assert RecordOk(w, k, rec);
    match rec.stage
    case AwaitRunnerInstall(_) =>
      if fulfilled && StillDesired(w.broker, rec) { PostInstallSafe(w, k, rec); } else { BeginRevocationSafe(w, k); }
    case AwaitWindowInstall(_) =>
      if fulfilled && StillDesired(w.broker, rec) { CommitSafe(w, k, rec); } else { BeginRevocationSafe(w, k); }
    case AwaitWindowRevoke(_) => RevokeRunnerSafe(w, k, rec.(windowRevoked := fulfilled));
    case AwaitRunnerRevoke(_) => EndRevocationSafe(w, k, rec.(runnerRevoked := fulfilled));
    case Resting =>
  }

  lemma PostInstallSafe(w: World, k: Key, rec: Record)
    requires Safe(w) && k in RecordsOf(w.broker) && RecordsOf(w.broker)[k] == rec && RecordOk(w, k, rec)
    requires ToWindow in w.net.ends && !w.broker.shutdown.Done?
    requires rec.stage.AwaitRunnerInstall? && Backs(w.net.ends[ToRunner(rec.runtime)], HeldOf(rec))
    ensures Safe(PutRecord(w.(net := Post(w.net, ToWindow, true, rec.tuple, rec.conn, rec.aborted)), k,
            rec.(stage := AwaitWindowInstall(w.net.nextReq))))
  {
    hide Safe;
    PostInstallStage(w.net, rec);
    PutRecords(w, k, rec.(stage := Resting));
    SuspendSafe(w, k, rec, ToWindow, true, rec.aborted, AwaitWindowInstall(w.net.nextReq));
  }

  lemma PostInstallStage(n: Net, rec: Record)
    requires ToWindow in n.ends && ToRunner(rec.runtime) in n.ends
    requires RevokeFree(n, rec.conn) && Backs(n.ends[ToRunner(rec.runtime)], HeldOf(rec))
    ensures StageOk(Post(n, ToWindow, true, rec.tuple, rec.conn, rec.aborted),
            rec.(stage := AwaitWindowInstall(n.nextReq)))
  {
    PostKeepsRevokeFree(n, ToWindow, rec.tuple, rec.conn, rec.aborted);
  }

  lemma PostKeepsRevokeFree(n: Net, t: Target, tuple: Tuple, conn: ConnId, aborted: bool)
    requires t in n.ends && RevokeFree(n, conn)
    ensures RevokeFree(Post(n, t, true, tuple, conn, aborted), conn)
  {
  }

  lemma CommitSafe(w: World, k: Key, rec: Record)
    requires Safe(w) && BookOk(w) && k in RecordsOf(w.broker) && RecordsOf(w.broker)[k] == rec && RecordOk(w, k, rec)
    requires rec.stage.AwaitWindowInstall? && Backs(w.net.ends[ToWindow], HeldOf(rec))
    ensures Safe(Committed(w, k, rec))
  {
    hide Safe, BookOk;
    var rec' := rec.(committed := true, stage := Resting);
    CommitBookOk(w, k, rec');
    PutRecords(w, k, rec');
    CommitRecords(w.broker, k, rec');
    PutSafe(w, k, rec');
    SameRecordsSafe(PutRecord(w, k, rec'), Committed(w, k, rec));
  }

  lemma CommitBookOk(w: World, k: Key, rec: Record)
    requires BookOk(w) && k in RecordsOf(w.broker)
    ensures var b := w.broker;
            b.cleanup.Keys !! b.current.Keys
                && BookOk(w.(broker := b.(cleanup := b.cleanup - {k}, current := b.current[k := rec])))
  {
  }

  /** Safety only reads which records exist, not which of the two maps has them. */
  lemma SameRecordsSafe(w: World, w': World)
    requires Safe(w) && BookOk(w')
    requires w'.net == w.net && w'.issued == w.issued && w'.latest == w.latest
    requires RecordsOf(w'.broker) == RecordsOf(w.broker) && (w.broker.shutdown.Done? ==> w'.broker.shutdown.Done?)
    ensures Safe(w')
  {
    forall t | t in w'.net.ends ensures EndOwned(w', t, w'.net.ends[t]) { assert EndOwned(w, t, w.net.ends[t]); }
    forall k | k in RecordsOf(w'.broker) ensures RecordOk(w', k, RecordsOf(w'.broker)[k]) {
      assert RecordOk(w, k, RecordsOf(w.broker)[k]);
    }
  }

  // ----- starting a provision

  /** Nothing of the key is held by an end or on its way to one. */
  ghost predicate KeyClear(n: Net, key: Key) {
    forall t :: t in n.ends ==>
      && key !in n.ends[t].slots
      && (forall i :: 0 <= i < |n.ends[t].inbox| && n.ends[t].inbox[i].install ==> n.ends[t].inbox[i].tuple.key != key)
  }

  lemma UnrecordedIsClear(w: World, key: Key)
    requires Safe(w) && key !in RecordsOf(w.broker) && !w.broker.shutdown.Done?
    ensures KeyClear(w.net, key)
  {
    forall t | t in w.net.ends
      ensures key !in w.net.ends[t].slots
      ensures forall i :: 0 <= i < |w.net.ends[t].inbox| && w.net.ends[t].inbox[i].install ==>
              w.net.ends[t].inbox[i].tuple.key != key
    {
      assert EndOwned(w, t, w.net.ends[t]) && EndOk(w.net, t, w.net.ends[t], w.issued);
    }
  }

  /** The world with a fresh connection on record for the entry, before anything is posted for it. */
  function Enrolled(w: World, e: Entry): World {
    var rec := Record(e.tuple, e.runtime, w.broker.revision, w.nextConn, false, false, false, false, Resting);
    w.(broker := w.broker.(cleanup := w.broker.cleanup[e.tuple.key := rec]),
       nextConn := w.nextConn + 1, issued := w.issued[w.nextConn := e.tuple],
           latest := w.latest[e.tuple.key := w.nextConn])
  }

  lemma EnrolledNet(w: World, e: Entry)
    requires NetOk(w.net, w.issued) && BookOk(w)
    ensures NetOk(w.net, Enrolled(w, e).issued)
    ensures RevokeFree(w.net, w.nextConn)
  {
    var issued' := Enrolled(w, e).issued;
    forall q | q in w.net.requests ensures RequestOk(w.net, q, issued') && w.net.requests[q].conn != w.nextConn {
      assert RequestOk(w.net, q, w.issued);
    }
    forall t | t in w.net.ends ensures EndOk(w.net, t, w.net.ends[t], issued') {
      assert EndOk(w.net, t, w.net.ends[t], w.issued);
    }
  }

  lemma EnrolledOwnership(w: World, e: Entry)
    requires OwnershipOk(w) && KeyClear(w.net, e.tuple.key)
    requires forall t, key :: t in w.net.ends && key in w.net.ends[t].slots ==>
             w.net.ends[t].slots[key].tuple.key == key
    ensures OwnershipOk(Enrolled(w, e))
  {
    hide Owned;
    var w' := Enrolled(w, e);
    forall t | t in w'.net.ends ensures EndOwned(w', t, w'.net.ends[t]) {
      assert EndOwned(w, t, w.net.ends[t]);
      forall held: Held | held.tuple.key != e.tuple.key && Owned(w, t, held) ensures Owned(w', t, held) {
        EnrolledOwned(w, e, t, held);
      }
    }
  }

  lemma EnrolledOwned(w: World, e: Entry, t: Target, held: Held)
    requires Owned(w, t, held) && held.tuple.key != e.tuple.key
    ensures Owned(Enrolled(w, e), t, held)
  {
  }

  lemma EnrolledRecords(w: World, e: Entry)
    requires ToWindow in w.net.ends && RecordsOk(w) && BookOk(w) && ToRunner(e.runtime) in w.net.ends
    requires e.tuple.key !in RecordsOf(w.broker) && !w.broker.shutdown.Done?
    ensures RecordsOk(Enrolled(w, e)) && BookOk(Enrolled(w, e))
  {
    var w' := Enrolled(w, e);
    forall k | k in RecordsOf(w'.broker) ensures RecordOk(w', k, RecordsOf(w'.broker)[k]) {
      if k != e.tuple.key { assert RecordOk(w, k, RecordsOf(w.broker)[k]); }
    }
  }

  lemma EnrolledSafe(w: World, e: Entry)
    requires Safe(w) && ToRunner(e.runtime) in w.net.ends
    requires e.tuple.key !in RecordsOf(w.broker) && !w.broker.shutdown.Done?
    ensures Safe(Enrolled(w, e)) && RevokeFree(w.net, w.nextConn)
  {
    UnrecordedIsClear(w, e.tuple.key);
    EnrolledNet(w, e);
    forall t, key | t in w.net.ends && key in w.net.ends[t].slots ensures w.net.ends[t].slots[key].tuple.key == key {
      assert EndOk(w.net, t, w.net.ends[t], w.issued);
    }
    EnrolledOwnership(w, e);
    EnrolledRecords(w, e);
  }

  lemma BeginProvisionSuspends(w: World, e: Entry, rec: Record)
    requires ToRunner(e.runtime) in w.net.ends
    requires rec == Record(e.tuple, e.runtime, w.broker.revision, w.nextConn, false, false, false, false, Resting)
    ensures BeginProvision(w, e) ==
            PutRecord(Enrolled(w, e).(net := Post(w.net, ToRunner(e.runtime), true, e.tuple, rec.conn, false)),
                e.tuple.key,
                      rec.(stage := AwaitRunnerInstall(w.net.nextReq)))
  {
  }

  lemma PostRunnerInstallStage(n: Net, rec: Record)
    requires ToWindow in n.ends && ToRunner(rec.runtime) in n.ends && RevokeFree(n, rec.conn)
    ensures StageOk(Post(n, ToRunner(rec.runtime), true, rec.tuple, rec.conn, false),
            rec.(stage := AwaitRunnerInstall(n.nextReq)))
  {
    PostKeepsRevokeFree(n, ToRunner(rec.runtime), rec.tuple, rec.conn, false);
  }

  lemma BeginProvisionSafe(w: World, e: Entry)
    requires Safe(w) && ToWindow in w.net.ends && ToRunner(e.runtime) in w.net.ends
    requires e.tuple.key !in RecordsOf(w.broker) && !w.broker.shutdown.Done?
    ensures Safe(BeginProvision(w, e))
  {
    hide Safe, StageOk;
    EnrolledSafe(w, e);
    var rec := Record(e.tuple, e.runtime, w.broker.revision, w.nextConn, false, false, false, false, Resting);
    PostRunnerInstallStage(w.net, rec);
    BeginProvisionSuspends(w, e, rec);
    SuspendSafe(Enrolled(w, e), e.tuple.key, rec, ToRunner(e.runtime), true, false, AwaitRunnerInstall(w.net.nextReq));
  }

  // ----- steps

  /** Records that differ at most in their abort flag. */
  predicate SameButAborted(rec: Record, rec': Record) { rec' == rec.(aborted := rec'.aborted) }

  ghost predicate Reflagged(w: World, w': World) {
    && w' == w.(broker := w'.broker) && w'.broker.shutdown == w.broker.shutdown
    && RecordsOf(w'.broker).Keys == RecordsOf(w.broker).Keys
    && (forall k :: k in RecordsOf(w.broker) ==> SameButAborted(RecordsOf(w.broker)[k], RecordsOf(w'.broker)[k]))
  }

  lemma ReflaggedOwned(w: World, w': World, t: Target, held: Held)
    requires Reflagged(w, w') && Owned(w, t, held)
    ensures Owned(w', t, held)
  {
    if held.tuple.key in RecordsOf(w.broker) {
      assert SameButAborted(RecordsOf(w.broker)[held.tuple.key], RecordsOf(w'.broker)[held.tuple.key]);
    }
  }

  lemma ReflaggedOwnership(w: World, w': World)
    requires OwnershipOk(w) && Reflagged(w, w')
    ensures OwnershipOk(w')
  {
    hide Reflagged, Owned;
    assert w'.net == w.net by { ReflaggedNet(w, w'); }
    forall t | t in w'.net.ends ensures EndOwned(w', t, w'.net.ends[t]) {
      var e := w.net.ends[t];
      assert EndOwned(w, t, e);
      forall key | key in e.slots ensures Owned(w', t, e.slots[key]) { ReflaggedOwned(w, w', t, e.slots[key]); }
      forall i | 0 <= i < |e.inbox| && e.inbox[i].install
          ensures Owned(w', t, Held(e.inbox[i].tuple, e.inbox[i].conn)) {
        ReflaggedOwned(w, w', t, Held(e.inbox[i].tuple, e.inbox[i].conn));
      }
    }
  }

  lemma ReflaggedNet(w: World, w': World)
    requires Reflagged(w, w')
    ensures w'.net == w.net && w'.issued == w.issued
  {
  }

  lemma ReflaggedRecords(w: World, w': World)
    requires ToWindow in w.net.ends && RecordsOk(w) && Reflagged(w, w')
    ensures RecordsOk(w')
  {
    forall k | k in RecordsOf(w'.broker) ensures RecordOk(w', k, RecordsOf(w'.broker)[k]) {
      assert RecordOk(w, k, RecordsOf(w.broker)[k]) && SameButAborted(RecordsOf(w.broker)[k], RecordsOf(w'.broker)[k]);
    }
  }

  lemma AbortFlagsSafe(w: World, w': World)
    requires Safe(w) && BookOk(w') && Reflagged(w, w')
    ensures Safe(w')
  {
    hide NetOk, OwnershipOk, RecordsOk, Reflagged;
    assert ToWindow in w.net.ends by { SafeHasWindow(w); }
    ReflaggedOwnership(w, w');
    ReflaggedRecords(w, w');
    ReflaggedNet(w, w');
  }

  lemma SafeHasWindow(w: World)
    requires Safe(w)
    ensures ToWindow in w.net.ends
  {
  }

  lemma AbortReflags(w: World, whose: Option<RuntimeId>)
    ensures var n := w.net.(requests := WithStatus(w.net.requests, SignalledBy(w.broker.cleanup, whose), Rejected));
            Reflagged(w.(net := n), Abort(w, whose))
  {
    hide WithStatus, SignalledBy;
  }

  lemma AbortSafe(w: World, whose: Option<RuntimeId>)
    requires Safe(w)
    ensures Safe(Abort(w, whose))
  {
    hide NetOk, OwnershipOk, RecordsOk;
    var ids := SignalledBy(w.broker.cleanup, whose);
    var w1 := w.(net := w.net.(requests := WithStatus(w.net.requests, ids, Rejected)));
    RejectionKeepsNet(w.net, w.issued, ids);
    RejectionIsQuiet(w.net, ids);
    QuietKeepsSafe(w, w1.net);
    AbortReflags(w, whose);
    AbortFlagsSafe(w1, Abort(w, whose));
  }

  /** Only fields no end and no record depends on differ. */
  lemma BrokerSafe(w: World, w': World)
    requires Safe(w) && w' == w.(broker := w'.broker) && BookOk(w')
    requires w'.broker.current == w.broker.current && w'.broker.cleanup == w.broker.cleanup
    requires w.broker.shutdown.Done? ==> w'.broker.shutdown.Done?
    ensures Safe(w')
  {
    SameRecordsSafe(w, w');
  }

  lemma ReceiveSafe(w: World, t: Target)
    requires Safe(w) && t in w.net.ends && w.net.ends[t].inbox != []
    ensures Safe(w.(net := WithEnd(w.net, t, Receive(w.net.ends[t]))))
  {
    hide NetOk, OwnershipOk, RecordsOk, BookOk, Quiet, Receive;
    ReceiveKeepsNet(w.net, w.issued, t);
    ReceiveIsQuiet(w.net, w.issued, t);
    QuietKeepsSafe(w, WithEnd(w.net, t, Receive(w.net.ends[t])));
  }

  lemma HeardSafe(w: World, t: Target)
    requires Safe(w) && t in w.net.ends && w.net.ends[t].outbox != []
    ensures Safe(w.(net := Heard(w.net, t)))
  {
    hide NetOk, OwnershipOk, RecordsOk, BookOk, Quiet, Heard;
    HeardKeepsNet(w.net, w.issued, t);
    HeardIsQuiet(w.net, t);
    QuietKeepsSafe(w, Heard(w.net, t));
  }

  lemma NetStepSafe(w: World, w': World, t: Target)
    requires Safe(w) && (Apply(w, Receives(t)) == Some(w') || Apply(w, Answers(t)) == Some(w'))
    ensures Safe(w')
  {
    hide Safe, Receive, Answer;
    if Apply(w, Receives(t)) == Some(w') { ReceiveSafe(w, t); } else { HeardSafe(w, t); }
  }

  lemma EndStopsSafe(w: World, t: Target, e': End)
    requires Safe(w) && t in w.net.ends && Downgrade(t, w.net.ends[t], e')
    ensures Safe(w.(net := WithEnd(w.net, t, e')))
  {
    EndStopsKeepsNet(w.net, w.issued, t, e');
    EndStopsIsQuiet(w.net, t, e');
    QuietKeepsSafe(w, WithEnd(w.net, t, e'));
  }

  lemma SeverSafe(w: World, t: Target)
    requires Safe(w) && t in w.net.ends && (t.ToRunner? ==> w.net.ends[t].phase.Dead?)
    ensures Safe(w.(net := Sever(w.net, t)))
  {
    SeverKeepsNet(w.net, w.issued, t);
    QuietKeepsSafe(w, Sever(w.net, t));
  }

  lemma LaunchSafe(w: World, t: Target, key: Key)
    requires Safe(w) && t !in w.net.ends
    ensures Safe(w.(net := WithEnd(w.net, t, End(Some(key), Serving, map[], [], []))))
  {
    LaunchKeepsNet(w.net, w.issued, t, key);
    LaunchIsQuiet(w.net, t, key);
    QuietKeepsSafe(w, WithEnd(w.net, t, End(Some(key), Serving, map[], [], [])));
  }

  lemma TimeoutSafe(w: World, q: ReqId)
    requires Safe(w)
    ensures Safe(w.(net := w.net.(requests := WithStatus(w.net.requests, {q}, Rejected))))
  {
    RejectionKeepsNet(w.net, w.issued, {q});
    RejectionIsQuiet(w.net, {q});
    QuietKeepsSafe(w, w.net.(requests := WithStatus(w.net.requests, {q}, Rejected)));
  }

  lemma AdvanceSafe(w: World, k: Key)
    requires Safe(w)
    ensures Advance(w, k).Some? ==> Safe(Advance(w, k).value.world)
  {
    if RuntimeKnown(w, k) {
      if RecordsOf(w.broker)[k].stage.Resting? {
        BeginRevocationSafe(w, k);
      } else if Settled(w, k) { ResumeSafe(w, k); }
    }
  }

  lemma AtSafe(w: World, drain: Drain)
    requires Safe(w) && !w.broker.shutdown.Stopping? && !w.broker.shutdown.Done?
    ensures Safe(At(w, drain))
  {
    BrokerSafe(w, At(w, drain));
  }

  /** A record procedure changes records and posts; it leaves everything else of the broker alone. */
  predicate OnlyRecords(w: World, w': World) {
    && w'.broker == w.broker.(current := w'.broker.current, cleanup := w'.broker.cleanup)
    && w'.nextConn == w.nextConn && w'.issued == w.issued && w'.latest == w.latest
    && w'.net.ends.Keys == w.net.ends.Keys
  }

  lemma RevocationOnlyRecords(w: World, k: Key, rec: Record)
    requires k in RecordsOf(w.broker) && ToRunner(rec.runtime) in w.net.ends
    ensures OnlyRecords(w, RevokeRunner(w, k, rec).world)
  {
  }

  lemma BeginOnlyRecords(w: World, k: Key)
    requires RuntimeKnown(w, k)
    ensures OnlyRecords(w, BeginRevocation(w, k).world)
  {
    RevocationOnlyRecords(w, k, RecordsOf(w.broker)[k].(committed := false, aborted := true));
  }

  lemma ResumeOnlyRecords(w: World, k: Key)
    requires RuntimeKnown(w, k) && Settled(w, k)
    ensures OnlyRecords(w, Resume(w, k).world)
  {
    hide BeginRevocation, RevokeRunner;
    var rec := RecordsOf(w.broker)[k];
    BeginOnlyRecords(w, k);
    RevocationOnlyRecords(w, k, rec.(windowRevoked := w.net.requests[rec.stage.req].status.Resolved?));
  }

  lemma AdvanceOnlyRecords(w: World, k: Key)
    ensures Advance(w, k).Some? ==> OnlyRecords(w, Advance(w, k).value.world)
  {
    hide BeginRevocation, Resume;
    if RuntimeKnown(w, k) {
      BeginOnlyRecords(w, k);
      if Settled(w, k) { ResumeOnlyRecords(w, k); }
    }
  }

  /** Running a record's procedure and moving the drain loop on. */
  lemma AdvanceAtSafe(w: World, k: Key)
    requires Safe(w) && !w.broker.shutdown.Stopping? && !w.broker.shutdown.Done?
    ensures Advance(w, k).Some? ==>
            Safe(Advance(w, k).value.world) && forall d :: Safe(At(Advance(w, k).value.world, d))
  {
    hide Safe, Advance;
    AdvanceSafe(w, k);
    AdvanceOnlyRecords(w, k);
    if Advance(w, k).Some? { forall d { AtSafe(Advance(w, k).value.world, d); } }
  }

  lemma DrainLoopSafe(w: World, order: seq<Key>)
    requires Safe(w) && (w.broker.drain.Looping? || w.broker.drain.Reconciled? || w.broker.drain.Finishing?)
    ensures DrainStep(w, order).Some? ==> Safe(DrainStep(w, order).value)
  {
    hide NetOk, OwnershipOk, RecordsOk, Advance, BeginProvision, Desired, KeepsCurrent;
    if DrainStep(w, order).Some? { BrokerSafe(w, DrainStep(w, order).value); }
  }

  lemma DrainRecordsSafe(w: World, order: seq<Key>)
    requires Safe(w) && !w.broker.shutdown.Stopping? && !w.broker.shutdown.Done?
    requires w.broker.drain.RollingBack? || w.broker.drain.Comparing?
    ensures DrainStep(w, order).Some? ==> Safe(DrainStep(w, order).value)
  {
    hide Safe, Advance;
    forall d { AtSafe(w, d); }
    if w.broker.drain.RollingBack? && w.broker.drain.undone != [] { AdvanceAtSafe(w, w.broker.drain.undone[0]); }
    if w.broker.drain.Comparing? && w.broker.drain.unchecked != [] { AdvanceAtSafe(w, w.broker.drain.unchecked[0]); }
  }

  lemma DrainStartingSafe(w: World, order: seq<Key>)
    requires Safe(w) && !w.broker.shutdown.Stopping? && !w.broker.shutdown.Done? && ToWindow in w.net.ends
    requires w.broker.drain.Starting?
    ensures DrainStep(w, order).Some? ==> Safe(DrainStep(w, order).value)
  {
    hide Safe, Advance, BeginProvision;
    forall d { AtSafe(w, d); }
    if w.broker.drain.todo != [] {
      AdvanceAtSafe(w, w.broker.drain.todo[0].tuple.key);
      if StartsProvision(w) { BeginProvisionSafe(w, w.broker.drain.todo[0]); }
    }
  }

  lemma DrainSafe(w: World, order: seq<Key>)
    requires Safe(w)
    ensures DrainStep(w, order).Some? ==> Safe(DrainStep(w, order).value)
  {
    match w.broker.drain
    case Idle =>
    case RollingBack(_) => DrainRecordsSafe(w, order);
    case Comparing(_, _) => DrainRecordsSafe(w, order);
    case Starting(_, _) => DrainStartingSafe(w, order);
    case _ => DrainLoopSafe(w, order);
  }

  lemma StopsSafe(w: World, k: Key)
    requires Safe(w)
    ensures Apply(w, Stops(k)).Some? ==> Safe(Apply(w, Stops(k)).value)
  {
    if Apply(w, Stops(k)).Some? {
      if k in w.broker.shutdown.todo {
        BeginRevocationSafe(w, k);
        BeginOnlyRecords(w, k);
        BrokerSafe(BeginRevocation(w, k).world, Apply(w, Stops(k)).value);
      } else {
        ResumeSafe(w, k);
      }
    }
  }

  lemma EndStoppingSafe(w: World)
    requires Safe(w)
    ensures Apply(w, EndStopping).Some? ==> Safe(Apply(w, EndStopping).value)
  {
    if Apply(w, EndStopping).Some? {
      var w' := Apply(w, EndStopping).value;
      forall t | t in w'.net.ends ensures EndOwned(w', t, w'.net.ends[t]) { assert EndOwned(w, t, w.net.ends[t]); }
    }
  }

  lemma BrokerStepSafe(w: World, step: Step)
    requires Safe(w)
    requires step.Replace? || step.Register? || step.Terminated? || step.RetryFires? || step.Close?
             || step.BeginStopping?
    ensures Apply(w, step).Some? ==> Safe(Apply(w, step).value)
  {
    hide NetOk, OwnershipOk, RecordsOk;
    if Apply(w, step).Some? {
      var w' := Apply(w, step).value;
      match step
      case Replace(_) => AbortSafe(w, None); if !w.broker.closed { BrokerSafe(Abort(w, None), w'); }
      case Terminated(rt) => AbortSafe(w, Some(rt)); BrokerSafe(Abort(w, Some(rt)), w');
      case Close => AbortSafe(w, None); if !w.broker.closed { BrokerSafe(Abort(w, None), w'); }
      case _ => BrokerSafe(w, w');
    }
  }

  /** Every step of every party keeps the invariant. */
  lemma StepSafe(w: World, step: Step)
    requires Safe(w)
    ensures Apply(w, step).Some? ==> Safe(Apply(w, step).value)
  {
    hide NetOk, OwnershipOk, RecordsOk, BookOk, DrainStep, BeginRevocation, Resume, Receive, Answer, Abort, Schedule;
    if Apply(w, step).None? { return; }
    SafeHasWindow(w);
    var n := w.net;
    match step
    case Launch(rt, key) => LaunchSafe(w, ToRunner(rt), key);
    case WorkerDies(rt) => EndStopsSafe(w, ToRunner(rt), Kill(n.ends[ToRunner(rt)]));
    case HostCloses(rt) =>
      EndStopsSafe(w, ToRunner(rt), Kill(n.ends[ToRunner(rt)]));
      SeverSafe(w.(net := WithEnd(n, ToRunner(rt), Kill(n.ends[ToRunner(rt)]))), ToRunner(rt));
    case WindowLeaves => EndStopsSafe(w, ToWindow, n.ends[ToWindow].(phase := Stale));
    case WindowCloses => EndStopsSafe(w, ToWindow, n.ends[ToWindow].(phase := Shut, slots := map[]));
    case BridgeCloses => SeverSafe(w, ToWindow);
    case Receives(t) => NetStepSafe(w, Apply(w, step).value, t);
    case Answers(t) => NetStepSafe(w, Apply(w, step).value, t);
    case Timeout(q) => TimeoutSafe(w, q);
    case Drains(order) => DrainSafe(w, order);
    case Stops(k) => StopsSafe(w, k);
    case EndStopping => EndStoppingSafe(w);
    case _ => BrokerStepSafe(w, step);
  }

  // ----- what holds in every run

  lemma {:induction false} ReachableSafe(steps: seq<Step>)
    ensures Run(steps).Some? ==> Safe(Run(steps).value)
    decreases |steps|
  {
    if steps == [] {
      InitialSafe();
    } else {
      ReachableSafe(steps[..|steps| - 1]);
      if Run(steps[..|steps| - 1]).Some? { StepSafe(Run(steps[..|steps| - 1]).value, steps[|steps| - 1]); }
    }
  }
}
