/**
 * The latest-wins senders: Main's snapshot publisher (packages/renderer-control/src/main-peer.ts) with the
 * Renderer's regression check (renderer-peer.ts), and the viewport sender of a Data peer
 * (packages/data/src/viewport-sender.ts). Each has one send in flight and remembers only the latest value
 * asked for meanwhile.
 */
module LatestWins {
  import opened Base

  // ----- what a latest-wins sender owes

  /** Positions in a list of requests, each once and in order. */
  ghost predicate Picks(picks: seq<nat>, n: nat) {
    && (forall i :: 0 <= i < |picks| ==> picks[i] < n)
    && (forall i, j :: 0 <= i < j < |picks| ==> picks[i] < picks[j])
  }

  function Picked<T>(requested: seq<T>, picks: seq<nat>): seq<T>
    requires forall i :: 0 <= i < |picks| ==> picks[i] < |requested|
  {
    seq(|picks|, i requires 0 <= i < |picks| => requested[picks[i]])
  }

  function LastPick(picks: seq<nat>): int { if picks == [] then -1 else picks[|picks| - 1] }

  // ----- Main's publisher

  datatype Snapshot = Snapshot(session: string, revision: int, content: string)
  datatype HelloState = HelloPending | HelloSending | Current

  class MainPeer {
    var hello: HelloState
    var inFlight: bool
    var pendingLatest: Option<Snapshot>
    var terminal: bool
    /** Every accepted publish, and which of them the carrier was given. */
    ghost var requested: seq<Snapshot>
    ghost var picks: seq<nat>

    /**
     * What is sent is a subsequence of what was published, in order; a publish that is neither sent nor
     * pending was superseded by a later one; once idle the last sent is the last published.
     */
    ghost predicate Valid()
      reads this
    {
      && Picks(picks, |requested|)
      && (!hello.Current? ==> picks == [] && !inFlight)
      && (!terminal ==>
            if pendingLatest.Some?
                then requested != [] && pendingLatest.value == requested[|requested| - 1]
                && LastPick(picks) < |requested| - 1
            else LastPick(picks) == |requested| - 1)
      && (!terminal && hello.Current? && !inFlight ==> pendingLatest.None?)
    }

    constructor ()
      ensures Valid() && requested == [] && picks == [] && !terminal && hello == HelloPending
    {
      hello, inFlight, pendingLatest, terminal, requested, picks := HelloPending, false, None, false, [], [];
    }

    method Publish(snapshot: Snapshot, prepares: bool) returns (accepted: bool)
      requires Valid()
      modifies this
      ensures Valid() && accepted == !old(terminal) && hello == old(hello)
      ensures requested == if accepted then old(requested) + [snapshot] else old(requested)
      ensures var sends := accepted && hello.Current? && !old(inFlight);
              && picks == (if sends && prepares then old(picks) + [|requested| - 1] else old(picks))
              && terminal == (old(terminal) || (sends && !prepares))
      ensures picks != old(picks) ==> Picked(requested, picks) == Picked(old(requested), old(picks)) + [snapshot]
    {
      if terminal { return false; }
      ghost var was, before := requested, picks;
      requested := requested + [snapshot];
      if !hello.Current? || inFlight {
        pendingLatest := Some(snapshot);
        return true;
      }
      StartStateSend(snapshot, prepares);
      return true;
    }

    /** `prepares` says whether the snapshot can be encoded; if not, the peer ends. */
    method StartStateSend(snapshot: Snapshot, prepares: bool)
      requires Picks(picks, |requested|) && !terminal && hello.Current? && !inFlight && pendingLatest.None?
      requires requested != [] && snapshot == requested[|requested| - 1] && LastPick(picks) < |requested| - 1
      modifies this`inFlight, this`terminal, this`pendingLatest, this`picks
      ensures Valid() && terminal == !prepares
      ensures picks == if prepares then old(picks) + [|requested| - 1] else old(picks)
    {
      if !prepares {
        Commit();
        return;
      }
      inFlight := true;
      picks := picks + [|requested| - 1];
    }

    method Commit()
      requires Picks(picks, |requested|) && (!hello.Current? ==> picks == [] && !inFlight)
      modifies this`terminal, this`pendingLatest
      ensures Valid() && terminal && (!old(terminal) ==> pendingLatest.None?)
    {
      if terminal { return; }
      terminal, pendingLatest := true, None;
    }

    /** The hello response is on its way. */
    method HelloAccepted()
      requires Valid() && !terminal && hello.HelloPending?
      modifies this`hello
      ensures Valid() && hello == HelloSending
    {
      hello := HelloSending;
    }

    /** The hello response was sent: the latest publish so far, if any, follows it. */
    method HelloSent(prepares: bool)
      requires Valid() && !terminal && hello.HelloSending?
      modifies this
      ensures Valid() && hello == Current && requested == old(requested)
      ensures picks == if requested != [] && prepares then [|requested| - 1] else []
      ensures terminal == (requested != [] && !prepares)
    {
      hello := Current;
      var pending := pendingLatest;
      pendingLatest := None;
      if pending.Some? { StartStateSend(pending.value, prepares); }
    }

    /** A state send ended; a failure ends the peer. */
    method SendEnds(ok: bool, prepares: bool)
      requires Valid() && inFlight
      modifies this
      ensures Valid() && requested == old(requested) && hello == old(hello)
      ensures picks == if ok && !old(terminal) && old(pendingLatest).Some? && prepares
              then old(picks) + [|requested| - 1] else old(picks)
      ensures terminal == (old(terminal) || !ok || (old(pendingLatest).Some? && !prepares))
    {
      inFlight := false;
      if !ok {
        Commit();
        return;
      }
      if terminal { return; }
      var pending := pendingLatest;
      pendingLatest := None;
      if pending.Some? { StartStateSend(pending.value, prepares); }
    }
  }

  // ----- the Renderer's check

  ghost predicate Increasing(from: int, snapshots: seq<Snapshot>, session: string) {
    && (forall i :: 0 <= i < |snapshots| ==> snapshots[i].session == session && snapshots[i].revision > from)
    && (forall i, j :: 0 <= i < j < |snapshots| ==> snapshots[i].revision < snapshots[j].revision)
  }

  class RendererPeer {
    const session: string
    var lastRevision: int
    var regressed: bool
    ghost const first: int
    ghost var received: seq<Snapshot>

    ghost predicate Valid()
      reads this
    {
      && (!regressed ==> Increasing(first, received, session))
      && lastRevision == (if received == [] then first else received[|received| - 1].revision)
    }

    constructor (session: string, revision: int)
      ensures Valid() && !regressed && received == [] && first == revision && this.session == session
    {
      this.session, lastRevision, regressed, first, received := session, revision, false, revision, [];
    }

    /** One state; a regression of revision or session is protocol-fatal and the state is not handed on. */
    method OnState(snapshot: Snapshot) returns (handed: bool)
      requires Valid() && !regressed
      modifies this
      ensures Valid() && handed == !regressed
      ensures handed <==> Increasing(first, old(received) + [snapshot], session)
      ensures received == if handed then old(received) + [snapshot] else old(received)
    {
      IncreasingMore(first, received, snapshot, session);
      if snapshot.session != session || snapshot.revision <= lastRevision {
        regressed := true;
        return false;
      }
      lastRevision, received := snapshot.revision, received + [snapshot];
      return true;
    }
  }

  lemma IncreasingMore(from: int, snapshots: seq<Snapshot>, x: Snapshot, session: string)
    requires Increasing(from, snapshots, session)
    ensures Increasing(from, snapshots + [x], session) <==>
            x.session == session && x.revision > (if snapshots == [] then from else snapshots[|snapshots| - 1].revision)
  {
    var more := snapshots + [x];
    assert more[|snapshots|] == x && (snapshots != [] ==> more[|snapshots| - 1] == snapshots[|snapshots| - 1]);
  }

  /** What the check hands on of a whole stream before it fires, if it does. */
  function Handed(last: int, session: string, stream: seq<Snapshot>): (n: nat)
    ensures n <= |stream|
    decreases |stream|
  {
    if stream == [] || stream[0].session != session || stream[0].revision <= last then 0
    else 1 + Handed(stream[0].revision, session, stream[1..])
  }

  /** The check never fires exactly when the stream increases from the hello snapshot on in its session. */
  lemma {:induction false} NeverFires(last: int, session: string, stream: seq<Snapshot>)
    ensures Handed(last, session, stream) == |stream| <==> Increasing(last, stream, session)
    decreases |stream|
  {
    if stream != [] {
      var x, rest := stream[0], stream[1..];
      NeverFires(x.revision, session, rest);
      if Increasing(last, stream, session) {
        forall i | 0 <= i < |rest| ensures rest[i].session == session && rest[i].revision > x.revision {
          assert rest[i] == stream[i + 1];
        }
        forall i, j | 0 <= i < j < |rest| ensures rest[i].revision < rest[j].revision {
          assert rest[i] == stream[i + 1] && rest[j] == stream[j + 1];
        }
        assert Increasing(x.revision, rest, session);
      }
      if x.session == session && x.revision > last && Increasing(x.revision, rest, session) {
        forall i | 0 <= i < |stream| ensures stream[i].session == session && stream[i].revision > last {
          if i > 0 { assert stream[i] == rest[i - 1]; }
        }
        forall i, j | 0 <= i < j < |stream| ensures stream[i].revision < stream[j].revision {
          assert stream[j] == rest[j - 1];
          if i > 0 { assert stream[i] == rest[i - 1]; }
        }
      }
    }
  }

  /** If Main's publishes increase past the hello snapshot, whatever of them is sent passes the check. */
  lemma IncreasingPublishesPass(last: int, session: string, requested: seq<Snapshot>, picks: seq<nat>)
    requires Increasing(last, requested, session) && Picks(picks, |requested|)
    ensures Handed(last, session, Picked(requested, picks)) == |picks|
  {
    var sent := Picked(requested, picks);
    assert Increasing(last, sent, session);
    NeverFires(last, session, sent);
  }

  /**
   * If publishes only increase among themselves, the check fires exactly when the first one sent is not
   * newer than the hello snapshot: one stored before the hello was answered, and not refreshed since.
   */
  lemma FiresOnlyOnFirst(last: int, session: string, requested: seq<Snapshot>, picks: seq<nat>)
    requires Picks(picks, |requested|) && picks != []
    requires forall i :: 0 <= i < |requested| ==> requested[i].session == session
    requires forall i, j :: 0 <= i < j < |requested| ==> requested[i].revision < requested[j].revision
    ensures Handed(last, session, Picked(requested, picks)) == |picks| <==> requested[picks[0]].revision > last
  {
    var sent := Picked(requested, picks);
    NeverFires(last, session, sent);
    assert sent[0] == requested[picks[0]];
    if sent[0].revision > last {
      forall i | 0 <= i < |sent| ensures sent[i].session == session && sent[i].revision > last {
        if i > 0 { assert picks[0] < picks[i]; }
      }
      assert Increasing(last, sent, session);
    }
  }

  /**
   * Main's owner publishes a snapshot before the hello is accepted; it is what is sent first after the hello,
   * and it is a regression exactly if it is not newer than the hello's snapshot of revision `hello`.
   */
  method PublishedBeforeHello(x: Snapshot, hello: int) returns (main: MainPeer, renderer: RendererPeer)
    ensures main.Valid() && renderer.Valid() && !main.terminal && main.hello.Current?
    ensures main.requested == [x] && main.picks == [0] && renderer.session == x.session && renderer.first == hello
    ensures renderer.regressed <==> x.revision <= hello
  {
    main := new MainPeer();
    var accepted := main.Publish(x, true);
    main.HelloAccepted();
    main.HelloSent(true);
    renderer := new RendererPeer(x.session, hello);
    var handed := renderer.OnState(x);
  }

  // ----- the viewport sender

  datatype Size = Size(width: int, height: int)
  datatype Outcome = Sent | Ended
  /** `Passed` is a size that does not validate: the runtime gets it, and refuses it, past the sender. */
  datatype Answer = Now(outcome: Outcome) | WithFlight | Waits(waiter: nat) | Passed

  /** Waiters are settled together, by one outcome. */
  datatype Settlement = Settlement(waiter: nat, outcome: Outcome)

  function SettleAll(waiters: seq<nat>, outcome: Outcome): seq<Settlement> {
    seq(|waiters|, i requires 0 <= i < |waiters| => Settlement(waiters[i], outcome))
  }

  ghost predicate Partition(waiters: seq<nat>, followers: seq<nat>, settled: seq<Settlement>, next: nat) {
    && |waiters| + |followers| + |settled| == next
    && (forall i :: 0 <= i < |waiters| ==> waiters[i] < next)
    && (forall i :: 0 <= i < |followers| ==> followers[i] < next)
    && (forall i :: 0 <= i < |settled| ==> settled[i].waiter < next)
    && (forall i, j :: 0 <= i < j < |waiters| ==> waiters[i] != waiters[j])
    && (forall i, j :: 0 <= i < j < |followers| ==> followers[i] != followers[j])
    && (forall i, j :: 0 <= i < j < |settled| ==> settled[i].waiter != settled[j].waiter)
    && (forall i, j :: 0 <= i < |waiters| && 0 <= j < |followers| ==> waiters[i] != followers[j])
    && (forall i, j :: 0 <= i < |waiters| && 0 <= j < |settled| ==> waiters[i] != settled[j].waiter)
    && (forall i, j :: 0 <= i < |followers| && 0 <= j < |settled| ==> followers[i] != settled[j].waiter)
  }

  lemma WaitersSettle(waiters: seq<nat>, followers: seq<nat>, settled: seq<Settlement>, next: nat, outcome: Outcome)
    requires Partition(waiters, followers, settled, next)
    ensures Partition([], followers, settled + SettleAll(waiters, outcome), next)
    ensures Partition(waiters, [], settled + SettleAll(followers, outcome), next)
  {
  }

  function Last(requested: seq<Size>): Option<Size> {
    if requested == [] then None else Some(requested[|requested| - 1])
  }

  /** What was given to the runtime is a subsequence of the requests that never repeats itself. */
  ghost predicate Chosen(picks: seq<nat>, requested: seq<Size>) {
    && Picks(picks, |requested|)
    && (forall i :: 0 <= i < |picks| - 1 ==> requested[picks[i]] != requested[picks[i + 1]])
  }

  /** The last size admitted or waiting is the last one asked for, however many were skipped. */
  ghost predicate Latest(picks: seq<nat>, requested: seq<Size>, pending: Option<Size>, lastAdmitted: Option<Size>,
      inFlight: bool)
  {
    && LastPick(picks) < |requested|
    && lastAdmitted == (if picks == [] || LastPick(picks) < 0 then None else Some(requested[LastPick(picks)]))
    && Last(requested) == (if pending.Some? then pending else lastAdmitted)
    && (pending.Some? ==> inFlight && LastPick(picks) < |requested| - 1)
  }

  /** One more request: given to the runtime at once, remembered, or already what was given last. */
  lemma Requested(picks: seq<nat>, requested: seq<Size>, pending: Option<Size>, lastAdmitted: Option<Size>,
      inFlight: bool, size: Size)
    requires Chosen(picks, requested) && Latest(picks, requested, pending, lastAdmitted, inFlight)
    ensures Chosen(picks, requested + [size]) && (!inFlight ==> pending.None?)
    ensures inFlight ==> Latest(picks, requested + [size], Some(size), lastAdmitted, true)
    ensures pending.None? && lastAdmitted == Some(size) ==>
            Latest(picks, requested + [size], None, lastAdmitted, inFlight)
    ensures lastAdmitted != Some(size) ==> Chosen(picks + [|requested|], requested + [size])
    ensures Latest(picks + [|requested|], requested + [size], None, Some(size), true)
  {
    var more := requested + [size];
    forall i | 0 <= i < |picks| ensures more[picks[i]] == requested[picks[i]] {}
  }

  /** The send in flight ended and the size waiting, if it differs, is given to the runtime. */
  lemma Flown(picks: seq<nat>, requested: seq<Size>, pending: Option<Size>, lastAdmitted: Option<Size>)
    requires Chosen(picks, requested) && Latest(picks, requested, pending, lastAdmitted, true)
    ensures pending.None? || pending == lastAdmitted ==> Latest(picks, requested, None, lastAdmitted, false)
    ensures pending.Some? && pending != lastAdmitted ==>
      Chosen(picks + [|requested| - 1], requested) && Latest(picks + [|requested| - 1], requested, None, pending, true)
  {
  }

  lemma LatestIs(picks: seq<nat>, requested: seq<Size>, pending: Option<Size>, lastAdmitted: Option<Size>)
    requires Latest(picks, requested, pending, lastAdmitted, true)
    ensures Last(requested) == if pending.Some? then pending else lastAdmitted
    ensures pending.Some? ==> requested != []
  {
  }

  /**
   * A peer's terminal is only noticed when looked at, so `ended` is a parameter of each call: whether the
   * runtime has ended by then.
   */
  class ViewportLatestSender {
    var inFlight: bool
    var pending: Option<Size>
    var lastAdmitted: Option<Size>
    var waiters: seq<nat>
    var closed: bool
    var nextWaiter: nat
    /** Waiters that share the outcome of the send in flight, and those settled so far. */
    var followers: seq<nat>
    ghost var settled: seq<Settlement>
    /** Every size asked for before the end, and which of them were given to the runtime. */
    ghost var requested: seq<Size>
    ghost var picks: seq<nat>

    /** Every waiting call is settled once, and only while a send is in flight does anyone wait. */
    ghost predicate Valid()
      reads this
    {
      && Chosen(picks, requested)
      && (!closed ==> Latest(picks, requested, pending, lastAdmitted, inFlight))
      && Partition(waiters, followers, settled, nextWaiter)
      && (!inFlight ==> waiters == [] && followers == [])
      && (closed ==> waiters == [] && pending.None?)
    }

    constructor ()
      ensures Valid() && !closed && !inFlight && requested == []
    {
      inFlight, pending, lastAdmitted, waiters, closed, nextWaiter, followers := false, None, None, [], false, 0, [];
      settled, requested, picks := [], [], [];
    }

    method Close()
      requires Partition(waiters, followers, settled, nextWaiter) && Chosen(picks, requested)
               && (!inFlight ==> followers == [])
      modifies this`closed, this`lastAdmitted, this`pending, this`waiters, this`settled
      ensures Valid() && closed && settled == old(settled) + SettleAll(old(waiters), Ended)
    {
      hide Partition;
      WaitersSettle(waiters, followers, settled, nextWaiter, Ended);
      settled := settled + SettleAll(waiters, Ended);
      closed, lastAdmitted, pending, waiters := true, None, None, [];
    }

    method NoteTerminal()
      requires Valid()
      modifies this`closed, this`lastAdmitted, this`pending, this`waiters, this`settled
      ensures Valid() && closed
      ensures settled == if old(closed) then old(settled) else old(settled) + SettleAll(old(waiters), Ended)
      ensures old(settled) <= settled && |settled| == |old(settled)| + |old(waiters)|
      ensures forall i :: 0 <= i < |old(waiters)| ==>
              settled[|old(settled)| + i] == Settlement(old(waiters)[i], Ended)
    {
      if closed { return; }
      Close();
    }

    method Admit(size: Size)
      requires requested != []
      modifies this`inFlight, this`lastAdmitted, this`picks
      ensures inFlight && lastAdmitted == Some(size) && picks == old(picks) + [|requested| - 1]
    {
      inFlight, lastAdmitted := true, Some(size);
      picks := picks + [|requested| - 1];
    }

    method SendState(size: Size, validates: bool, ended: bool) returns (answer: Answer)
      requires Valid()
      modifies this
      ensures Valid() && old(picks) <= picks
      ensures old(closed) || ended ==> answer == Now(Ended) && requested == old(requested) && picks == old(picks)
      ensures !(old(closed) || ended) && !validates ==> answer.Passed? && unchanged(this)
      ensures !(old(closed) || ended) && validates ==>
        && !answer.Passed? && requested == old(requested) + [size]
        && (answer.Now? <==> !old(inFlight) && old(lastAdmitted) == Some(size))
           && (answer.Now? ==> answer.outcome == Sent)
        && (answer.Waits? <==> old(inFlight) && !(old(pending).None? && old(lastAdmitted) == Some(size)))
        && picks == if old(inFlight) || old(lastAdmitted) == Some(size) then old(picks)
           else old(picks) + [|requested| - 1]
      ensures settled == if old(closed) || ended then old(settled) + SettleAll(old(waiters), Ended) else old(settled)
      ensures old(closed) || ended ==> forall i :: 0 <= i < |old(waiters)| ==>
              settled[|old(settled)| + i] == Settlement(old(waiters)[i], Ended)
      ensures answer.Waits? ==> waiters == old(waiters) + [answer.waiter] && answer.waiter == old(nextWaiter)
    {
      hide Partition, Chosen, Latest;
      if closed || ended {
        Close();
        return Now(Ended);
      }
      if !validates { return Passed; }
      Requested(picks, requested, pending, lastAdmitted, inFlight, size);
      requested := requested + [size];
      if inFlight {
        if pending.None? && lastAdmitted == Some(size) { return WithFlight; }
        pending := Some(size);
        OneMoreWaits(waiters, followers, settled, nextWaiter);
        waiters, nextWaiter := waiters + [nextWaiter], nextWaiter + 1;
        return Waits(nextWaiter - 1);
      }
      if lastAdmitted == Some(size) { return Now(Sent); }
      Admit(size);
      return WithFlight;
    }

    method Land(outcome: Outcome)
      requires Partition(waiters, followers, settled, nextWaiter)
      modifies this`followers, this`inFlight, this`settled
      ensures Partition(waiters, followers, settled, nextWaiter)
      ensures followers == [] && !inFlight && settled == old(settled) + SettleAll(old(followers), outcome)
    {
      hide Partition, Chosen, Latest;
      WaitersSettle(waiters, followers, settled, nextWaiter, outcome);
      settled := settled + SettleAll(followers, outcome);
      followers, inFlight := [], false;
    }

    /** The send in flight ended; a newer size that differs from it follows, taking the waiters along. */
    method FlightEnds(outcome: Outcome, ended: bool)
      requires Valid() && inFlight
      modifies this
      ensures Valid() && requested == old(requested) && old(settled) <= settled
      ensures !closed ==>
              Last(requested) == lastAdmitted && pending.None? && (!inFlight ==> waiters == [] && followers == [])
      ensures picks == if !closed && inFlight then old(picks) + [|requested| - 1] else old(picks)
      ensures inFlight <==> !closed && old(pending).Some? && old(pending) != old(lastAdmitted)
      ensures closed <==> old(closed) || ended || outcome.Ended?
      ensures followers == if inFlight then old(waiters) else []
      ensures settled == old(settled) + SettleAll(old(followers), outcome) +
                         (if inFlight then [] else SettleAll(old(waiters), if closed then Ended else outcome))
      ensures forall i :: 0 <= i < |old(followers)| ==>
              settled[|old(settled)| + i] == Settlement(old(followers)[i], outcome)
      ensures !inFlight ==> forall i :: 0 <= i < |old(waiters)| ==>
              settled[|old(settled)| + |old(followers)| + i]
              == Settlement(old(waiters)[i], if closed then Ended else outcome)
    {
      hide Partition, Chosen, Latest;
      Land(outcome);
      var latest, calls := pending, waiters;
      if !closed { Flown(picks, requested, pending, lastAdmitted); LatestIs(picks, requested, pending, lastAdmitted); }
      if closed || ended || outcome.Ended? {
        Close();
        return;
      }
      pending := None;
      if latest.Some? && latest != lastAdmitted {
        Admit(latest.value);
        Follow(calls, settled, nextWaiter);
        followers, waiters := calls, [];
        return;
      }
      WaitersSettle(waiters, followers, settled, nextWaiter, outcome);
      settled, waiters := settled + SettleAll(waiters, outcome), [];
    }
  }

  lemma OneMoreWaits(waiters: seq<nat>, followers: seq<nat>, settled: seq<Settlement>, next: nat)
    requires Partition(waiters, followers, settled, next)
    ensures Partition(waiters + [next], followers, settled, next + 1)
  {
  }

  lemma Follow(waiters: seq<nat>, settled: seq<Settlement>, next: nat)
    requires Partition(waiters, [], settled, next)
    ensures Partition([], waiters, settled, next)
  {
  }
}
