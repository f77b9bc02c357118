/**
 * What every run of runtime control keeps: each request settles once and only while pending, identities
 * never surprise either side, every status the Subsystem lets out is one Main accepts, and no request of
 * Main reaches a Subsystem that was told to shut down.
 */
module RuntimeControlSafety {
  import opened Base
  import opened RuntimeControl

  // ----- what is on its way, by kind

  predicate IsCall(m: Message) { m.Request? || m.Notify? }

  function Only(ms: seq<Message>, calls: bool): seq<Message> {
    if ms == [] then []
    else if IsCall(ms[0]) == calls then [ms[0]] + Only(ms[1..], calls)
    else Only(ms[1..], calls)
  }

  function Calls(ms: seq<Message>): seq<Message> { Only(ms, true) }
  function Replies(ms: seq<Message>): seq<Message> { Only(ms, false) }

  lemma {:induction false} OnlyMore(a: seq<Message>, b: seq<Message>, calls: bool)
    ensures Only(a + b, calls) == Only(a, calls) + Only(b, calls)
  {
    if a == [] {
      assert a + b == b;
    } else {
      OnlyMore(a[1..], b, calls);
      assert (a + b)[1..] == a[1..] + b && (a + b)[0] == a[0];
      if IsCall(a[0]) == calls {
        assert [a[0]] + (Only(a[1..], calls) + Only(b, calls)) == ([a[0]] + Only(a[1..], calls)) + Only(b, calls);
      }
    }
  }

  lemma SplitLast(ms: seq<Message>, m: Message)
    ensures Calls(ms + [m]) == if IsCall(m) then Calls(ms) + [m] else Calls(ms)
    ensures Replies(ms + [m]) == if IsCall(m) then Replies(ms) else Replies(ms) + [m]
  {
    OnlyMore(ms, [m], true);
    OnlyMore(ms, [m], false);
    assert [m][1..] == [] && Only([m], true) == (if IsCall(m) then [m] else [])
        && Only([m], false) == (if IsCall(m) then [] else [m]);
  }

  lemma SplitFirst(ms: seq<Message>)
    requires ms != []
    ensures IsCall(ms[0]) ==> Calls(ms) == [ms[0]] + Calls(ms[1..]) && Replies(ms) == Replies(ms[1..])
    ensures !IsCall(ms[0]) ==> Replies(ms) == [ms[0]] + Replies(ms[1..]) && Calls(ms) == Calls(ms[1..])
  {
  }

  lemma SplitPrefix(ms: seq<Message>, n: nat)
    requires n <= |ms|
    ensures Calls(ms[..n]) <= Calls(ms) && Replies(ms[..n]) <= Replies(ms)
  {
    hide Only;
    OnlyMore(ms[..n], ms[n..], true);
    OnlyMore(ms[..n], ms[n..], false);
    assert ms == ms[..n] + ms[n..];
  }

  // ----- one direction of the connection

  function ReplyId(m: Message): Option<Id> {
    match m
    case Reply(id, _) => Some(id)
    case Fault(of) => of
    case _ => None
  }

  /** Requests come numbered upwards, above what was dispatched and below what will be asked. */
  ghost predicate Numbered(calls: seq<Message>, remote: Id, next: Id) {
    && remote < next
    && (forall i :: 0 <= i < |calls| && calls[i].Request? ==> remote < calls[i].id < next)
    && (forall i, j :: 0 <= i < j < |calls| && calls[i].Request? && calls[j].Request? ==> calls[i].id < calls[j].id)
  }

  /** Replies come in the order of dispatch, each to a request still pending. */
  ghost predicate Awaited(replies: seq<Message>, pending: map<Id, Method>, sender: Conn) {
    && (forall i :: 0 <= i < |replies| && ReplyId(replies[i]).Some? ==>
          ReplyId(replies[i]).value in pending && ReplyId(replies[i]).value <= sender.remoteId
          && (sender.work.Serving? && !sender.ended ==> ReplyId(replies[i]).value < sender.work.id))
    && (forall i, j :: 0 <= i < j < |replies| && ReplyId(replies[i]).Some? && ReplyId(replies[j]).Some? ==>
          ReplyId(replies[i]).value < ReplyId(replies[j]).value)
  }

  ghost predicate Backed(calls: seq<Message>, work: Work, pending: map<Id, Method>) {
    && (forall i :: 0 <= i < |calls| && calls[i].Request? ==>
       calls[i].id in pending && pending[calls[i].id] == calls[i].call)
    && (work.Serving? ==> work.id in pending && pending[work.id] == work.call)
  }

  ghost predicate OwnOk(c: Conn) {
    && (c.work.Serving? ==> c.work.id == c.remoteId)
    && (forall i :: 0 <= i < |c.lane| ==> c.lane[i].Request? || c.lane[i].Notify?)
    && (c.ended ==> c.outbox == [] && c.lane == [])
  }

  /** What `to` will still read from `from`, whose unread messages and outbox are `coming`. */
  ghost predicate Incoming(to: Conn, from: Conn, coming: seq<Message>) {
    && OwnOk(to)
    && (!to.ended ==>
       Numbered(to.lane + Calls(coming), to.remoteId, from.nextId) && Awaited(Replies(coming), to.pending, from))
    && (!to.ended && !from.ended ==> Backed(to.lane + Calls(coming), to.work, from.pending))
  }

  ghost predicate Link(a: Conn, b: Conn, toA: seq<Message>, toB: seq<Message>) {
    Incoming(a, b, toA) && Incoming(b, a, toB)
  }

  /** Every request ever made is pending or settled exactly once; nothing is pending at the end. */
  ghost predicate SettlesOk(c: Conn) {
    && (forall id :: id in c.pending ==> id !in c.settles)
    && (forall id :: id in c.settles ==> |c.settles[id]| == 1)
    && (forall id :: 1 <= id < c.nextId <==> id in c.pending || id in c.settles)
    && (c.ended ==> c.pending == map[])
  }

  function ToMain(w: World): seq<Message> { w.toMain + w.sub.conn.outbox }
  function ToSub(w: World): seq<Message> { w.toSub + w.main.conn.outbox }

  // ----- steps of a connection

  lemma AskSettles(c: Conn, call: Method)
    requires SettlesOk(c) && !c.ended && c.nextId >= 1
    ensures SettlesOk(Ask(c, call))
  {
    assert c.nextId !in c.pending && c.nextId !in c.settles;
  }

  lemma EndSettles(c: Conn, cause: Option<Cause>)
    requires SettlesOk(c)
    ensures SettlesOk(End(c, cause))
  {
  }

  lemma AnswerSettles(c: Conn, id: Id, outcome: Outcome)
    requires SettlesOk(c) && id in c.pending
    ensures SettlesOk(Answer(c, id, outcome)) || c.ended
  {
  }

  lemma AskLink(a: Conn, b: Conn, toA: seq<Message>, toB: seq<Message>, call: Method)
    requires Link(a, b, toA, toB) && !a.ended && a.nextId !in a.pending
    ensures Link(Ask(a, call), b, toA, toB + [Request(a.nextId, call)])
  {
    SplitLast(toB, Request(a.nextId, call));
    assert b.lane + (Calls(toB) + [Request(a.nextId, call)]) == (b.lane + Calls(toB)) + [Request(a.nextId, call)];
  }

  /** A notification is written. */
  lemma NotifyLink(a: Conn, b: Conn, toA: seq<Message>, toB: seq<Message>, status: Status)
    requires Link(a, b, toA, toB) && !a.ended
    ensures Link(a.(outbox := a.outbox + [Notify(status)]), b, toA, toB + [Notify(status)])
  {
    SplitLast(toB, Notify(status));
    assert b.lane + (Calls(toB) + [Notify(status)]) == (b.lane + Calls(toB)) + [Notify(status)];
  }

  lemma SendLink(a: Conn, b: Conn, toA: seq<Message>, toB: seq<Message>)
    requires Link(a, b, toA, toB) && a.outbox != []
    ensures Link(a.(outbox := a.outbox[1..]), b, toA, toB)
  {
  }

  lemma EndLink(a: Conn, b: Conn, toA: seq<Message>, toB: seq<Message>, kept: seq<Message>, cause: Option<Cause>)
    requires Link(a, b, toA, toB) && kept <= toB
    ensures Link(End(a, cause), b, toA, if a.ended then toB else kept)
  {
    if !a.ended {
      SplitPrefix(toB, |kept|);
      assert kept == toB[..|kept|];
      assert b.lane + Calls(kept) <= b.lane + Calls(toB);
      PrefixNumbered(b.lane + Calls(toB), b.lane + Calls(kept), b.remoteId, a.nextId);
    }
  }

  lemma PrefixNumbered(calls: seq<Message>, some: seq<Message>, remote: Id, next: Id)
    requires some <= calls
    ensures Numbered(calls, remote, next) ==> Numbered(some, remote, next)
    ensures forall work, pending :: Backed(calls, work, pending) ==> Backed(some, work, pending)
  {
    forall i | 0 <= i < |some| ensures some[i] == calls[i] {}
  }

  lemma HearReply(a: Conn, b: Conn, toA: seq<Message>, toB: seq<Message>)
    requires Link(a, b, toA, toB) && !a.ended && toA != [] && toA[0].Reply?
    ensures toA[0].id in a.pending
    ensures Link(Answer(a, toA[0].id, Answered(toA[0].verdict)), b, toA[1..], toB)
  {
    hide Only;
    SplitFirst(toA);
    var replies := Replies(toA);
    assert replies[0] == toA[0] && replies[1..] == Replies(toA[1..]);
    forall i | 0 <= i < |replies[1..]| ensures replies[1..][i] == replies[i + 1] {}
  }

  lemma HearCall(a: Conn, b: Conn, toA: seq<Message>, toB: seq<Message>)
    requires Link(a, b, toA, toB) && !a.ended && toA != [] && IsCall(toA[0])
    ensures Link(a.(lane := a.lane + [toA[0]]), b, toA[1..], toB)
  {
    hide Only, Numbered, Awaited, Backed;
    SplitFirst(toA);
    assert (a.lane + [toA[0]]) + Calls(toA[1..]) == a.lane + ([toA[0]] + Calls(toA[1..]));
    SameWork(b, a, a.(lane := a.lane + [toA[0]]), toB);
  }

  /** The sender's lane does not matter to what it sent. */
  lemma SameWork(to: Conn, from: Conn, from': Conn, coming: seq<Message>)
    requires from' == from.(lane := from'.lane)
    ensures Incoming(to, from, coming) ==> Incoming(to, from', coming)
  {
  }

  lemma SkipLink(a: Conn, b: Conn, toA: seq<Message>, toB: seq<Message>, toA': seq<Message>)
    requires Link(a, b, toA, toB) && a.ended
    ensures Link(a, b, toA', toB)
  {
  }

  /** Reading never meets an unsolicited response; if it ends this side, only `kept` of its messages remain. */
  lemma HearLink(a: Conn, b: Conn, toA: seq<Message>, toB: seq<Message>, kept: seq<Message>)
    requires Link(a, b, toA, toB) && toA != [] && kept <= toB
    ensures var a' := Hear(a, toA[0]);
            && Link(a', b, toA[1..], if a'.ended && !a.ended then kept else toB)
            && (a'.cause == a.cause || (!a.ended && toA[0].Fault? && a'.cause == Some(PeerFault))
               || (!a.ended && a'.cause.None?))
  {
    hide Link;
    if a.ended { SkipLink(a, b, toA, toB, toA[1..]); }
    else {
      match toA[0]
      case Reply(id, verdict) =>
        HearReply(a, b, toA, toB);
        EndLink(Answer(a, id, Answered(verdict)), b, toA[1..], toB, kept, None);
      case Fault(of) =>
        if of.Some? { FaultIsKnown(a, b, toA, toB); }
        EndLink(a, b, toA, toB, kept, Some(PeerFault));
        SkipLink(End(a, Some(PeerFault)), b, toA, kept, toA[1..]);
      case _ => HearCall(a, b, toA, toB);
    }
  }

  lemma FaultIsKnown(a: Conn, b: Conn, toA: seq<Message>, toB: seq<Message>)
    requires Link(a, b, toA, toB) && !a.ended && toA != [] && toA[0].Fault? && toA[0].of.Some?
    ensures toA[0].of.value in a.pending
  {
    hide Only;
    SplitFirst(toA);
    assert Replies(toA)[0] == toA[0];
  }

  lemma DispatchLink(a: Conn, b: Conn, toA: seq<Message>, toB: seq<Message>)
    requires Link(a, b, toA, toB) && !a.ended && a.work.Free? && a.lane != []
    ensures a.lane[0].Notify? ==> Link(a.(lane := a.lane[1..], work := Noting), b, toA, toB)
    ensures a.lane[0].Request? ==> a.lane[0].id > a.remoteId
    ensures a.lane[0].Request? ==>
            Link(a.(lane := a.lane[1..], remoteId := a.lane[0].id, work := Serving(a.lane[0].id, a.lane[0].call)), b,
            toA, toB)
  {
    hide Only;
    var calls := a.lane + Calls(toA);
    assert calls[0] == a.lane[0] && calls[1..] == a.lane[1..] + Calls(toA);
    forall i | 0 <= i < |calls[1..]| ensures calls[1..][i] == calls[i + 1] {}
  }

  /** Writing a reply, or a fault, for the request being served. */
  lemma ReplyLink(a: Conn, b: Conn, toA: seq<Message>, toB: seq<Message>, m: Message, work: Work, outbox: seq<Message>)
    requires Link(a, b, toA, toB) && !a.ended && a.work.Serving? && ReplyId(m) == Some(a.work.id) && !work.Serving?
    ensures Link(a.(work := work, outbox := outbox), b, toA, toB + [m])
  {
    hide Only;
    SplitLast(toB, m);
  }

  lemma FreeLink(a: Conn, b: Conn, toA: seq<Message>, toB: seq<Message>)
    requires Link(a, b, toA, toB)
    ensures Link(a.(work := Free), b, toA, toB)
  {
    hide Only;
  }

  lemma LoseLink(a: Conn, b: Conn, toA: seq<Message>, toB: seq<Message>, i: nat)
    requires Link(a, b, toA, toB) && i <= |toA|
    ensures Link(a, b, toA[..i], toB)
  {
    hide Only;
    SplitPrefix(toA, i);
    assert a.lane + Calls(toA[..i]) <= a.lane + Calls(toA);
    PrefixNumbered(a.lane + Calls(toA), a.lane + Calls(toA[..i]), a.remoteId, b.nextId);
    if !a.ended { PrefixAwaited(Replies(toA), Replies(toA[..i]), a.pending, b); }
  }

  lemma PrefixAwaited(replies: seq<Message>, some: seq<Message>, pending: map<Id, Method>, sender: Conn)
    requires some <= replies && Awaited(replies, pending, sender)
    ensures Awaited(some, pending, sender)
  {
    forall i | 0 <= i < |some| ensures some[i] == replies[i] {}
  }

  // ----- the automata

  /** What Main makes of a status or a Subsystem request on its way, and the phase it leaves. */
  function After(phase: Status, calls: seq<Message>): Status
    decreases |calls|
  {
    if calls == [] then phase
    else
      var before := After(phase, calls[..|calls| - 1]);
      if calls[|calls| - 1].Notify? then calls[|calls| - 1].status else before
  }

  predicate Takes(phase: Status, m: Message, intent: bool) {
    match m
    case Notify(next) => Allowed(phase, next, intent)
    case Request(_, call) => call.SubFrame? && Operating(phase)
    case _ => false
  }

  /** Main will take everything on its way, one after the other. */
  ghost predicate FlowOk(phase: Status, calls: seq<Message>, intent: bool) {
    forall i :: 0 <= i < |calls| ==> Takes(After(phase, calls[..i]), calls[i], intent)
  }

  lemma FlowMore(phase: Status, calls: seq<Message>, m: Message, intent: bool)
    requires FlowOk(phase, calls, intent) && Takes(After(phase, calls), m, intent)
    ensures FlowOk(phase, calls + [m], intent)
    ensures After(phase, calls + [m]) == if m.Notify? then m.status else After(phase, calls)
  {
    hide After, Takes;
    forall i | 0 <= i < |calls| ensures (calls + [m])[..i] == calls[..i] {}
    assert (calls + [m])[..|calls|] == calls;
    AfterLast(phase, calls, m);
  }

  lemma AfterLast(phase: Status, calls: seq<Message>, m: Message)
    ensures After(phase, calls + [m]) == if m.Notify? then m.status else After(phase, calls)
  {
    assert (calls + [m])[..|calls|] == calls;
  }

  lemma {:induction false} AfterFirst(phase: Status, calls: seq<Message>)
    requires calls != []
    ensures After(phase, calls) == After(if calls[0].Notify? then calls[0].status else phase, calls[1..])
    decreases |calls|
  {
    if |calls| == 1 {
      assert calls[..0] == [] && calls[1..] == [];
    } else {
      var most := calls[..|calls| - 1];
      AfterFirst(phase, most);
      assert most[1..] == calls[1..][..|calls| - 2];
    }
  }

  lemma FlowFirst(phase: Status, calls: seq<Message>, intent: bool)
    requires FlowOk(phase, calls, intent) && calls != []
    ensures Takes(phase, calls[0], intent)
    ensures FlowOk(if calls[0].Notify? then calls[0].status else phase, calls[1..], intent)
  {
    hide Takes;
    assert calls[..0] == [] && After(phase, calls[..0]) == phase;
    var next := if calls[0].Notify? then calls[0].status else phase;
    forall i | 0 <= i < |calls[1..]| ensures Takes(After(next, calls[1..][..i]), calls[1..][i], intent) {
      AfterFirst(phase, calls[..i + 1]);
      assert calls[..i + 1][1..] == calls[1..][..i];
    }
  }

  lemma FlowPrefix(phase: Status, calls: seq<Message>, some: seq<Message>, intent: bool)
    requires FlowOk(phase, calls, intent) && some <= calls
    ensures FlowOk(phase, some, intent) && FlowOk(phase, some, true)
  {
    hide After;
    forall i | 0 <= i < |some| ensures some[..i] == calls[..i] && some[i] == calls[i] {}
  }

  /** The phase Main is in once an accepted hello has had its continuation. */
  function Effective(m: Main): Status {
    if m.conn.work.Replying? && m.conn.work.call.Hello? && m.conn.work.verdict.Success? then Identified else m.phase
  }

  predicate AboutHello(work: Work) { (work.Serving? || work.Replying?) && work.call.Hello? }

  /** Main: hello is one-shot, and afterwards all that comes is taken. */
  ghost predicate MainOk(m: Main, coming: seq<Message>) {
    var calls := m.conn.lane + Calls(coming);
    if m.phase.Awaiting? then
      || (m.conn.work.Free? && (calls == [] || calls == [Request(1, Hello)]))
      || (m.conn.work == Serving(1, Hello) && calls == [])
      || (m.conn.work.Replying? && m.conn.work.call.Hello? && m.conn.work.id == 1 && !m.conn.work.verdict.Fatal?
          && if m.conn.work.verdict.Success? then FlowOk(Identified, calls, m.intent) else calls == [])
    else FlowOk(m.phase, calls, m.intent) && !AboutHello(m.conn.work)
  }

  /** Subsystem: only frame requests come, and after a shutdown nothing. */
  ghost predicate SubOk(s: Sub, intent: bool, coming: seq<Message>) {
    var calls := s.conn.lane + Calls(coming);
    && (forall i :: 0 <= i < |calls| ==> calls[i].Request? && (calls[i].call.MainFrame? || calls[i].call.Shutdown?))
    && (forall i :: 0 <= i < |calls| && calls[i].call.Shutdown? ==> i == |calls| - 1 && intent)
    && (s.shutdown ==> calls == [] && intent)
    && (!s.connected ==>
       s.conn.lane == [] && s.conn.pending == map[1 := Hello]
       && (Calls(coming) != [] ==> coming[0] == Reply(1, Success)))
  }

  /** Both: before hello is answered Main has sent nothing else; afterwards Main's phase follows the status. */
  ghost predicate InStep(m: Main, s: Sub, toMain: seq<Message>, toSub: seq<Message>) {
    var calls := m.conn.lane + Calls(toMain);
    if s.connected then !Effective(m).Awaiting? && After(Effective(m), calls) == s.status
    else
      && s.status.Identified?
      && match m.conn.work
         case Replying(_, Hello, verdict) => m.phase.Awaiting? && toSub == [Reply(1, verdict)] && calls == []
         case _ =>
           if m.phase.Awaiting? then toSub == []
           else toSub != [] && toSub[0] == Reply(1, Success) && calls == [] && m.phase.Identified?
  }

  ghost predicate NoFaults(ms: seq<Message>) { forall m :: m in ms ==> !m.Fault? }

  ghost predicate Connected(w: World) {
    && Link(w.main.conn, w.sub.conn, ToMain(w), ToSub(w))
    && SettlesOk(w.main.conn) && SettlesOk(w.sub.conn)
    && w.main.conn.nextId >= 1 && w.sub.conn.nextId >= 1
  }

  ghost predicate Causes(w: World) {
    && w.main.conn.cause in {None, Some(RequestInState)}
    && w.sub.conn.cause in {None, Some(PeerFault)}
    && (!w.main.conn.ended ==> w.main.conn.cause.None?)
    && (!w.sub.conn.ended ==> w.sub.conn.cause.None?)
  }

  ghost predicate Automata(w: World) {
    && NoFaults(ToMain(w))
    && (!w.main.conn.ended ==> MainOk(w.main, ToMain(w)))
    && (!w.sub.conn.ended ==> SubOk(w.sub, w.main.intent, ToSub(w)))
    && (!w.main.conn.ended && !w.sub.conn.ended ==> InStep(w.main, w.sub, ToMain(w), ToSub(w)))
  }

  ghost predicate Safe(w: World) { Connected(w) && Causes(w) && Automata(w) }

  lemma InitialSafe()
    ensures Safe(INITIAL)
  {
    var hello := Request(1, Hello);
    assert INITIAL.sub.conn.outbox == [hello];
    assert ToMain(INITIAL) == [hello] && ToSub(INITIAL) == [];
    SplitLast([], hello);
    assert [] + [hello] == [hello];
    assert Calls([]) == [] && Replies([]) == [];
    assert INITIAL.main.conn.lane + Calls(ToMain(INITIAL)) == [hello];
  }

  // ----- the steps of the connection layer, for the whole

  lemma Swap(a: Conn, b: Conn, toA: seq<Message>, toB: seq<Message>)
    ensures Link(a, b, toA, toB) <==> Link(b, a, toB, toA)
  {
  }

  lemma Later(channel: seq<Message>, outbox: seq<Message>, m: Message)
    ensures channel + (outbox + [m]) == (channel + outbox) + [m]
  {
  }

  lemma Flushed(channel: seq<Message>, outbox: seq<Message>)
    requires outbox != []
    ensures (channel + [outbox[0]]) + outbox[1..] == channel + outbox
  {
  }

  lemma Shorter(channel: seq<Message>, outbox: seq<Message>)
    requires channel != []
    ensures (channel + outbox)[0] == channel[0] && (channel + outbox)[1..] == channel[1..] + outbox
  {
  }

  lemma AsksConnected(w: World, w': World, call: Method)
    requires Connected(w)
    requires || (!w.main.conn.ended && w'.main.conn == Ask(w.main.conn, call) && w'.sub.conn == w.sub.conn)
             || (!w.sub.conn.ended && w'.sub.conn == Ask(w.sub.conn, call) && w'.main.conn == w.main.conn)
    requires w'.toMain == w.toMain && w'.toSub == w.toSub
    ensures Connected(w')
  {
    hide Link, Only;
    var m, s := w.main.conn, w.sub.conn;
    if w'.main.conn != m {
      AskSettles(m, call);
      NextIsNew(m);
      AskLink(m, s, ToMain(w), ToSub(w), call);
      Later(w.toSub, m.outbox, Request(m.nextId, call));
    } else {
      AskSettles(s, call);
      NextIsNew(s);
      Swap(m, s, ToMain(w), ToSub(w));
      AskLink(s, m, ToSub(w), ToMain(w), call);
      Later(w.toMain, s.outbox, Request(s.nextId, call));
      Swap(m, w'.sub.conn, ToMain(w'), ToSub(w'));
    }
  }

  lemma NextIsNew(c: Conn)
    requires SettlesOk(c) && c.nextId >= 1
    ensures c.nextId !in c.pending
  {
  }

  lemma NotifiesConnected(w: World, next: Status)
    requires Connected(w) && !w.sub.conn.ended
    ensures Connected(w.(sub := w.sub.(conn := w.sub.conn.(outbox := w.sub.conn.outbox + [Notify(next)]))))
  {
    hide Link, Only;
    Swap(w.main.conn, w.sub.conn, ToMain(w), ToSub(w));
    NotifyLink(w.sub.conn, w.main.conn, ToSub(w), ToMain(w), next);
    Later(w.toMain, w.sub.conn.outbox, Notify(next));
    Swap(w.main.conn, w.sub.conn.(outbox := w.sub.conn.outbox + [Notify(next)]),
        w.toMain + (w.sub.conn.outbox + [Notify(next)]), ToSub(w));
  }

  lemma SendsSafe(w: World, side: Side)
    requires Safe(w) && Apply(w, Sends(side)).Some?
    ensures Safe(Apply(w, Sends(side)).value)
  {
    hide Connected, FlowOk, Only, After, NoFaults;
    SendsConnected(w, side);
    if side.OnMain? { Flushed(w.toSub, w.main.conn.outbox); } else { Flushed(w.toMain, w.sub.conn.outbox); }
  }

  lemma SendsConnected(w: World, side: Side)
    requires Connected(w) && Apply(w, Sends(side)).Some?
    ensures Connected(Apply(w, Sends(side)).value)
  {
    hide Link, Only;
    var m, s := w.main.conn, w.sub.conn;
    if side.OnMain? {
      SendLink(m, s, ToMain(w), ToSub(w));
      Flushed(w.toSub, m.outbox);
    } else {
      Swap(m, s, ToMain(w), ToSub(w));
      SendLink(s, m, ToSub(w), ToMain(w));
      Flushed(w.toMain, s.outbox);
      Swap(m, s.(outbox := s.outbox[1..]), ToMain(w), ToSub(w));
    }
  }

  /** One side ends: what it had not sent is gone. */
  lemma EndsConnected(w: World, cause: Option<Cause>)
    requires Connected(w)
    ensures Connected(w.(main := w.main.(conn := End(w.main.conn, cause))))
    ensures Connected(w.(sub := w.sub.(conn := End(w.sub.conn, cause))))
  {
    hide Link, Only, SettlesOk;
    var m, s := w.main.conn, w.sub.conn;
    EndSettles(m, cause);
    EndSettles(s, cause);
    assert w.toSub + [] == w.toSub && w.toMain + [] == w.toMain;
    EndLink(m, s, ToMain(w), ToSub(w), w.toSub, cause);
    Swap(m, s, ToMain(w), ToSub(w));
    EndLink(s, m, ToSub(w), ToMain(w), w.toMain, cause);
    Swap(m, End(s, cause), w.toMain, ToSub(w));
    Swap(m, End(s, cause), ToMain(w), ToSub(w));
  }

  lemma ReadsMainConnected(w: World)
    requires Connected(w) && w.toMain != []
    ensures Connected(w.(main := w.main.(conn := Hear(w.main.conn, w.toMain[0])), toMain := w.toMain[1..]))
    ensures !w.main.conn.ended && w.toMain[0].Reply? ==> w.toMain[0].id in w.main.conn.pending
  {
    hide Link, Only;
    var m, s := w.main.conn, w.sub.conn;
    Shorter(w.toMain, s.outbox);
    assert w.toSub <= ToSub(w) && w.toSub + [] == w.toSub;
    HearLink(m, s, ToMain(w), ToSub(w), w.toSub);
    if !m.ended && w.toMain[0].Reply? { HearReply(m, s, ToMain(w), ToSub(w)); }
    HearSettles(m, w.toMain[0]);
  }

  lemma ReadsSubConnected(w: World)
    requires Connected(w) && w.toSub != []
    ensures Connected(w.(sub := w.sub.(conn := Hear(w.sub.conn, w.toSub[0])), toSub := w.toSub[1..]))
    ensures !w.sub.conn.ended && w.toSub[0].Reply? ==> w.toSub[0].id in w.sub.conn.pending
  {
    hide Link, Only;
    var m, s := w.main.conn, w.sub.conn;
    Shorter(w.toSub, m.outbox);
    assert w.toMain <= ToMain(w) && w.toMain + [] == w.toMain;
    Swap(m, s, ToMain(w), ToSub(w));
    HearLink(s, m, ToSub(w), ToMain(w), w.toMain);
    if !s.ended && w.toSub[0].Reply? { HearReply(s, m, ToSub(w), ToMain(w)); }
    HearSettles(s, w.toSub[0]);
    var s' := Hear(s, w.toSub[0]);
    Swap(m, s', if s'.ended && !s.ended then w.toMain else ToMain(w), ToSub(w)[1..]);
    assert s.ended || !s'.ended ==> s'.outbox == s.outbox;
  }

  lemma HearSettles(c: Conn, m: Message)
    requires SettlesOk(c) && (!c.ended && m.Reply? ==> m.id in c.pending)
    ensures SettlesOk(Hear(c, m)) && Hear(c, m).nextId == c.nextId
    ensures !Hear(c, m).ended || c.ended ==> Hear(c, m).outbox == c.outbox
    ensures Hear(c, m).ended && !c.ended ==> Hear(c, m).outbox == []
  {
    if !c.ended && m.Reply? {
      AnswerSettles(c, m.id, Answered(m.verdict));
      EndSettles(Answer(c, m.id, Answered(m.verdict)), None);
    }
    EndSettles(c, Some(PeerFault));
    EndSettles(c, Some(UnsolicitedResponse));
  }

  lemma FaultLink(a: Conn, b: Conn, toA: seq<Message>, toB: seq<Message>, kept: seq<Message>, m: Message, cause: Cause)
    requires Link(a, b, toA, toB) && !a.ended && a.work.Serving? && ReplyId(m) == Some(a.work.id) && m.Fault?
             && kept <= toB
    ensures Link(End(a, Some(cause)), b, toA, kept + [m])
  {
    hide Only;
    SplitPrefix(toB, |kept|);
    assert kept == toB[..|kept|];
    SplitLast(kept, m);
    assert b.lane + Calls(kept) <= b.lane + Calls(toB);
    PrefixNumbered(b.lane + Calls(toB), b.lane + Calls(kept), b.remoteId, a.nextId);
    if !b.ended { PrefixAwaited(Replies(toB), Replies(kept), b.pending, a); }
  }

  lemma WorkConnected(w: World, m': Main)
    requires Connected(w) && m'.conn == w.main.conn.(work := Free)
    ensures Connected(w.(main := m'))
  {
    hide Link, Only;
    FreeLink(w.main.conn, w.sub.conn, ToMain(w), ToSub(w));
  }

  lemma SubWorkConnected(w: World)
    requires Connected(w)
    ensures Connected(w.(sub := w.sub.(conn := w.sub.conn.(work := Free))))
  {
    hide Link, Only;
    Swap(w.main.conn, w.sub.conn, ToMain(w), ToSub(w));
    FreeLink(w.sub.conn, w.main.conn, ToSub(w), ToMain(w));
    Swap(w.main.conn, w.sub.conn.(work := Free), ToMain(w), ToSub(w));
  }

  lemma FinishesConnected(w: World, verdict: Verdict)
    requires Connected(w)
    ensures !w.main.conn.ended ==> Connected(w.(main := w.main.(conn := Finish(w.main.conn, verdict))))
    ensures !w.sub.conn.ended ==> Connected(w.(sub := w.sub.(conn := Finish(w.sub.conn, verdict))))
  {
    hide Link, Only;
    var m, s := w.main.conn, w.sub.conn;
    FreeLink(m, s, ToMain(w), ToSub(w));
    SubWorkConnected(w);
    if !m.ended && m.work.Serving? {
      var r := Reply(m.work.id, verdict);
      ReplyLink(m, s, ToMain(w), ToSub(w), r, Replying(m.work.id, m.work.call, verdict), m.outbox + [r]);
      Later(w.toSub, m.outbox, r);
    }
    if !s.ended && s.work.Serving? {
      var r := Reply(s.work.id, verdict);
      Swap(m, s, ToMain(w), ToSub(w));
      ReplyLink(s, m, ToSub(w), ToMain(w), r, Replying(s.work.id, s.work.call, verdict), s.outbox + [r]);
      Later(w.toMain, s.outbox, r);
      Swap(m, Finish(s, verdict), ToMain(w) + [r], ToSub(w));
    }
  }

  lemma DeadlineConnected(w: World, id: Id)
    requires Connected(w)
    ensures !w.main.conn.ended && id in w.main.conn.pending ==>
            Connected(w.(main := w.main.(conn := TimeOut(w.main.conn, id))))
    ensures !w.sub.conn.ended && id in w.sub.conn.pending ==>
            Connected(w.(sub := w.sub.(conn := TimeOut(w.sub.conn, id))))
  {
    hide Link, Only;
    EndsConnected(w, None);
    if !w.main.conn.ended && id in w.main.conn.pending {
      AnswerSettles(w.main.conn, id, TimedOut);
      EndSettles(Answer(w.main.conn, id, TimedOut), None);
      EndedAlike(End(w.main.conn, None), TimeOut(w.main.conn, id), w.sub.conn, ToMain(w), w.toSub + []);
    }
    if !w.sub.conn.ended && id in w.sub.conn.pending {
      AnswerSettles(w.sub.conn, id, TimedOut);
      EndSettles(Answer(w.sub.conn, id, TimedOut), None);
      Swap(w.main.conn, End(w.sub.conn, None), w.toMain + [], ToSub(w));
      EndedAlike(End(w.sub.conn, None), TimeOut(w.sub.conn, id), w.main.conn, ToSub(w), w.toMain + []);
      Swap(w.main.conn, TimeOut(w.sub.conn, id), w.toMain + [], ToSub(w));
    }
  }

  lemma EndedAlike(a: Conn, a': Conn, b: Conn, toA: seq<Message>, toB: seq<Message>)
    requires Link(a, b, toA, toB) && a.ended && a' == a.(settles := a'.settles)
    ensures Link(a', b, toA, toB)
  {
  }

  lemma LosesConnected(w: World, i: nat, j: nat)
    requires Connected(w) && (w.main.conn.ended || w.sub.conn.ended) && i <= |w.toMain| && j <= |w.toSub|
    ensures Connected(w.(toMain := w.toMain[..i], toSub := w.toSub[..j]))
  {
    hide Link, Only;
    var m, s := w.main.conn, w.sub.conn;
    Owned(m, s, ToMain(w), ToSub(w));
    var w1 := w.(toMain := w.toMain[..i]);
    if m.ended { SkipLink(m, s, ToMain(w), ToSub(w), ToMain(w1)); }
    else {
      assert ToMain(w1) == ToMain(w)[..i];
      LoseLink(m, s, ToMain(w), ToSub(w), i);
    }
    Swap(m, s, ToMain(w1), ToSub(w));
    if s.ended { SkipLink(s, m, ToSub(w), ToMain(w1), w.toSub[..j] + m.outbox); }
    else {
      assert w.toSub[..j] + m.outbox == ToSub(w)[..j];
      LoseLink(s, m, ToSub(w), ToMain(w1), j);
    }
    Swap(m, s, ToMain(w1), w.toSub[..j] + m.outbox);
  }

  lemma Owned(a: Conn, b: Conn, toA: seq<Message>, toB: seq<Message>)
    requires Link(a, b, toA, toB)
    ensures (a.ended ==> a.outbox == []) && (b.ended ==> b.outbox == [])
  {
  }

  // ----- the automata step by step

  /** Nothing of what the automata look at changes for Main. */
  lemma SameMainOk(m: Main, m': Main, coming: seq<Message>, coming': seq<Message>)
    requires MainOk(m, coming) && m' == m.(conn := m'.conn) && m'.conn.work == m.conn.work
    requires m'.conn.lane + Calls(coming') == m.conn.lane + Calls(coming)
    ensures MainOk(m', coming')
  {
    hide FlowOk, Only;
  }

  lemma FewerSubOk(s: Sub, intent: bool, coming: seq<Message>, kept: seq<Message>)
    requires SubOk(s, intent, coming) && kept <= coming
    ensures SubOk(s, intent, kept)
  {
    hide Only;
    SplitPrefix(coming, |kept|);
    assert kept == coming[..|kept|];
    var calls, some := s.conn.lane + Calls(coming), s.conn.lane + Calls(kept);
    assert some <= calls;
    forall i | 0 <= i < |some| ensures some[i] == calls[i] {}
    if Calls(kept) != [] { NonEmpty(kept); assert kept[0] == coming[0]; }
  }

  lemma NonEmpty(ms: seq<Message>)
    requires Calls(ms) != []
    ensures ms != []
  {
  }

  lemma FewerMainOk(m: Main, coming: seq<Message>, kept: seq<Message>)
    requires MainOk(m, coming) && kept <= coming
    ensures MainOk(m, kept)
  {
    hide Only, FlowOk;
    SplitPrefix(coming, |kept|);
    assert kept == coming[..|kept|];
    var calls, some := m.conn.lane + Calls(coming), m.conn.lane + Calls(kept);
    assert some <= calls;
    if FlowOk(m.phase, calls, m.intent) { FlowPrefix(m.phase, calls, some, m.intent); }
    if FlowOk(Identified, calls, m.intent) { FlowPrefix(Identified, calls, some, m.intent); }
  }

  lemma FewerFaults(ms: seq<Message>, kept: seq<Message>)
    requires NoFaults(ms) && kept <= ms
    ensures NoFaults(kept)
  {
  }

  /** An end on either side keeps the automata of the other. */
  lemma EndsAutomata(w: World, m': Conn, s': Conn)
    requires Automata(w)
    ensures m'.ended && m'.outbox == [] ==> Automata(w.(main := w.main.(conn := m')))
    ensures s'.ended && s'.outbox == [] ==> Automata(w.(sub := w.sub.(conn := s')))
  {
    hide MainOk, SubOk, InStep, NoFaults, Only;
    assert w.toSub + [] == w.toSub && w.toMain + [] == w.toMain;
    if !w.sub.conn.ended { FewerSubOk(w.sub, w.main.intent, ToSub(w), w.toSub); }
    if !w.main.conn.ended { FewerMainOk(w.main, ToMain(w), w.toMain); }
    FewerFaults(ToMain(w), w.toMain);
  }

  lemma EndsSafe(w: World)
    requires Safe(w)
    ensures Safe(w.(main := w.main.(conn := End(w.main.conn, None))))
            && Safe(w.(sub := w.sub.(conn := End(w.sub.conn, None))))
  {
    hide Connected, Automata;
    EndsConnected(w, None);
    EndsAutomata(w, End(w.main.conn, None), End(w.sub.conn, None));
    EndedOutbox(w);
  }

  lemma EndedOutbox(w: World)
    requires Connected(w)
    ensures (w.main.conn.ended ==> w.main.conn.outbox == []) && (w.sub.conn.ended ==> w.sub.conn.outbox == [])
  {
    hide Only, Numbered, Awaited, Backed;
  }

  lemma DeadlineSafe(w: World, side: Side, id: Id)
    requires Safe(w) && Apply(w, Deadline(side, id)).Some?
    ensures Safe(Apply(w, Deadline(side, id)).value)
  {
    hide Connected, Automata;
    DeadlineConnected(w, id);
    EndsAutomata(w, TimeOut(w.main.conn, id), TimeOut(w.sub.conn, id));
  }

  lemma LosesSafe(w: World, i: nat, j: nat)
    requires Safe(w) && Apply(w, Loses(i, j)).Some?
    ensures Safe(Apply(w, Loses(i, j)).value)
  {
    hide Connected, MainOk, SubOk, InStep, Only;
    LosesConnected(w, i, j);
    EndedOutbox(w);
    var w' := Apply(w, Loses(i, j)).value;
    if !w.main.conn.ended { FewerMainOk(w.main, ToMain(w), ToMain(w')); }
    if !w.sub.conn.ended { FewerSubOk(w.sub, w.main.intent, ToSub(w), ToSub(w')); }
    forall x | x in ToMain(w') ensures x in ToMain(w) {}
    assert NoFaults(ToMain(w'));
  }

  // Main's own steps

  lemma MainAsksSafe(w: World, call: Method)
    requires Safe(w) && !w.main.conn.ended && !w.main.intent && Operating(w.main.phase)
             && (call.MainFrame? || call.Shutdown?)
    ensures Safe(w.(main := w.main.(conn := Ask(w.main.conn, call), intent := call.Shutdown?)))
  {
    hide Connected, SubOk, MainOk, FlowOk, Only;
    var w' := w.(main := w.main.(conn := Ask(w.main.conn, call), intent := call.Shutdown?));
    AsksConnected(w, w', call);
    var r := Request(w.main.conn.nextId, call);
    Later(w.toSub, w.main.conn.outbox, r);
    AskedMainOk(w.main, w'.main, ToMain(w));
    if !w.sub.conn.ended { AskedSubOk(w.sub, ToSub(w), r, call.Shutdown?, w.main, ToMain(w)); }
  }

  lemma AskedMainOk(m: Main, m': Main, coming: seq<Message>)
    requires MainOk(m, coming) && Operating(m.phase) && m'.phase == m.phase && m'.conn.work == m.conn.work
             && m'.conn.lane == m.conn.lane
    requires m.intent ==> m'.intent
    ensures MainOk(m', coming)
  {
    hide Only, After;
    var calls := m.conn.lane + Calls(coming);
    forall i | 0 <= i < |calls| ensures Takes(After(m.phase, calls[..i]), calls[i], m'.intent) {}
  }

  lemma AskedSubOk(s: Sub, coming: seq<Message>, r: Message, shuts: bool, m: Main, toMain: seq<Message>)
    requires SubOk(s, false, coming) && r.Request? && (if shuts then r.call.Shutdown? else r.call.MainFrame?)
    requires InStep(m, s, toMain, coming) && Operating(m.phase)
    ensures SubOk(s, shuts, coming + [r])
  {
    hide Only, After;
    SplitLast(coming, r);
    assert s.conn.lane + (Calls(coming) + [r]) == (s.conn.lane + Calls(coming)) + [r];
  }

  // the Subsystem's own steps

  lemma FlowsMainOk(m: Main, coming: seq<Message>, x: Message)
    requires MainOk(m, coming) && !Effective(m).Awaiting? && IsCall(x)
             && Takes(After(Effective(m), m.conn.lane + Calls(coming)), x, m.intent)
    ensures MainOk(m, coming + [x])
    ensures After(Effective(m), m.conn.lane + Calls(coming + [x])) ==
            if x.Notify? then x.status else After(Effective(m), m.conn.lane + Calls(coming))
  {
    hide Only, After, FlowOk, Takes;
    SplitLast(coming, x);
    assert m.conn.lane + (Calls(coming) + [x]) == (m.conn.lane + Calls(coming)) + [x];
    FlowMore(Effective(m), m.conn.lane + Calls(coming), x, m.intent);
  }

  lemma SubFramesSafe(w: World)
    requires Safe(w) && Apply(w, SubFrames).Some?
    ensures Safe(Apply(w, SubFrames).value)
  {
    hide Connected, MainOk, Only, After;
    var w' := Apply(w, SubFrames).value;
    AsksConnected(w, w', SubFrame);
    var r := Request(w.sub.conn.nextId, SubFrame);
    Later(w.toMain, w.sub.conn.outbox, r);
    if !w.main.conn.ended { FlowsMainOk(w.main, ToMain(w), r); }
  }

  lemma SubNotifiesSafe(w: World, next: Status)
    requires Safe(w) && Apply(w, SubNotifies(next)).Some?
    ensures Safe(Apply(w, SubNotifies(next)).value)
  {
    hide Connected, MainOk, Only, After;
    NotifiesConnected(w, next);
    SameConnected(w.(sub := w.sub.(conn := w.sub.conn.(outbox := w.sub.conn.outbox + [Notify(next)]))),
        Apply(w, SubNotifies(next)).value);
    Later(w.toMain, w.sub.conn.outbox, Notify(next));
    if !w.main.conn.ended { FlowsMainOk(w.main, ToMain(w), Notify(next)); }
  }

  lemma SameConnected(w: World, w': World)
    requires Connected(w) && w'.main.conn == w.main.conn && w'.sub.conn == w.sub.conn && w'.toMain == w.toMain
             && w'.toSub == w.toSub
    ensures Connected(w')
  {
    hide Link;
  }

  // reading

  lemma ReadsMainSafe(w: World)
    requires Safe(w) && w.toMain != []
    ensures Safe(Apply(w, Reads(OnMain)).value)
  {
    hide Connected, MainOk, SubOk, InStep, Only;
    var w' := Apply(w, Reads(OnMain)).value;
    var m := w.toMain[0];
    ReadsMainConnected(w);
    Shorter(w.toMain, w.sub.conn.outbox);
    assert ToMain(w)[0] in ToMain(w);
    forall x | x in ToMain(w') ensures x in ToMain(w) {}
    assert NoFaults(ToMain(w'));
    if !w.main.conn.ended {
      SplitFirst(ToMain(w));
      if w'.main.conn.ended {
        assert w.toSub + [] == w.toSub;
        if !w.sub.conn.ended { FewerSubOk(w.sub, w.main.intent, ToSub(w), w.toSub); }
      } else {
        assert w.main.conn.lane + ([m] + Calls(ToMain(w'))) == (w.main.conn.lane + [m]) + Calls(ToMain(w'));
        SameMainOk(w.main, w'.main, ToMain(w), ToMain(w'));
        SameInStep(w.main, w'.main, w.sub, ToMain(w), ToMain(w'), ToSub(w));
      }
    }
  }

  lemma SameInStep(m: Main, m': Main, s: Sub, toMain: seq<Message>, toMain': seq<Message>, toSub: seq<Message>)
    requires m' == m.(conn := m'.conn) && m'.conn.work == m.conn.work
    requires m'.conn.lane + Calls(toMain') == m.conn.lane + Calls(toMain)
    ensures InStep(m, s, toMain, toSub) ==> InStep(m', s, toMain', toSub)
  {
    hide Only, After;
  }

  lemma ReadsSubSafe(w: World)
    requires Safe(w) && w.toSub != []
    ensures Safe(Apply(w, Reads(OnSub)).value)
  {
    hide Connected, MainOk, Only, After;
    var w' := Apply(w, Reads(OnSub)).value;
    var m := w.toSub[0];
    ReadsSubConnected(w);
    Shorter(w.toSub, w.main.conn.outbox);
    SplitFirst(ToSub(w));
    if w.sub.conn.ended {
      SameConnected(w.(sub := w.sub.(conn := Hear(w.sub.conn, m)), toSub := w.toSub[1..]), w');
    } else {
      HearsConnected(w);
      if w'.sub.conn.ended {
        assert w.toMain + [] == w.toMain;
        FewerFaults(ToMain(w), w.toMain);
        if !w.main.conn.ended { FewerMainOk(w.main, ToMain(w), w.toMain); }
      } else if IsCall(m) {
        assert w.sub.conn.lane + ([m] + Calls(ToSub(w'))) == (w.sub.conn.lane + [m]) + Calls(ToSub(w'));
      } else if m.Reply? {
        ReadsSubConnectedId(w);
        AnsweredSubOk(w.sub, w'.sub, w.main.intent, ToSub(w));
        if !w.main.conn.ended { AnsweredInStep(w.main, w.sub, w'.sub, w.main.intent, ToMain(w), ToSub(w)); }
      }
    }
  }

  lemma ReadsSubConnectedId(w: World)
    requires Connected(w) && w.toSub != [] && !w.sub.conn.ended && w.toSub[0].Reply?
    ensures w.toSub[0].id in w.sub.conn.pending
  {
    ReadsSubConnected(w);
  }

  lemma AnsweredSubOk(s: Sub, s': Sub, intent: bool, coming: seq<Message>)
    requires SubOk(s, intent, coming) && !s.conn.ended && coming != [] && coming[0].Reply?
             && coming[0].id in s.conn.pending
    requires s' == SubHears(s, coming[0]) && !s'.conn.ended
    ensures SubOk(s', intent, coming[1..]) && s'.connected && s'.status == s.status
  {
    hide Only;
    SplitFirst(coming);
  }

  lemma AnsweredInStep(m: Main, s: Sub, s': Sub, intent: bool, toMain: seq<Message>, coming: seq<Message>)
    requires InStep(m, s, toMain, coming) && SubOk(s, intent, coming) && !s.conn.ended
    requires coming != [] && coming[0].Reply? && coming[0].id in s.conn.pending
    requires s' == SubHears(s, coming[0]) && !s'.conn.ended && s'.connected && s'.status == s.status
    ensures InStep(m, s', toMain, coming[1..])
  {
    hide Only;
  }

  lemma HearsConnected(w: World)
    requires Connected(w) && w.toSub != [] && !w.sub.conn.ended
    ensures Connected(Apply(w, Reads(OnSub)).value)
    ensures var s' := Apply(w, Reads(OnSub)).value.sub.conn;
            (s'.ended ==> s'.outbox == []) && (s'.cause in {None, Some(PeerFault), w.sub.conn.cause})
                && (!s'.ended ==> s'.cause == w.sub.conn.cause)
  {
    hide Link, Only;
    var w' := Apply(w, Reads(OnSub)).value;
    var h := w.(sub := w.sub.(conn := Hear(w.sub.conn, w.toSub[0])), toSub := w.toSub[1..]);
    ReadsSubConnected(w);
    HearCause(w);
    EndsConnected(h, None);
    EndedOutbox(h);
    if w'.sub.conn == h.sub.conn { SameConnected(h, w'); }
    else { SameConnected(h.(sub := h.sub.(conn := End(h.sub.conn, None))), w'); }
  }

  lemma HearCause(w: World)
    requires Connected(w) && w.toSub != [] && !w.sub.conn.ended
    ensures var s' := Hear(w.sub.conn, w.toSub[0]);
            (s'.cause in {None, Some(PeerFault), w.sub.conn.cause}) && (!s'.ended ==> s'.cause == w.sub.conn.cause)
  {
    hide Link, Only;
    var m, s := w.main.conn, w.sub.conn;
    Shorter(w.toSub, m.outbox);
    Swap(m, s, ToMain(w), ToSub(w));
    HearLink(s, m, ToSub(w), ToMain(w), ToMain(w));
    if w.toSub[0].Reply? { HearReply(s, m, ToSub(w), ToMain(w)); }
  }

  // dispatching

  lemma Tail(lane: seq<Message>, calls: seq<Message>)
    requires lane != []
    ensures (lane + calls)[0] == lane[0] && (lane + calls)[1..] == lane[1..] + calls
  {
  }

  /** Hello comes first and once; every other call is taken, except a frame request after the shutdown intent. */
  lemma MainTakes(m: Main, coming: seq<Message>)
    requires MainOk(m, coming) && m.conn.work.Free? && m.conn.lane != []
    ensures m.phase.Awaiting? ==> m.conn.lane == [Request(1, Hello)] && Calls(coming) == []
    ensures !m.phase.Awaiting? ==> Takes(m.phase, m.conn.lane[0], m.intent)
    ensures !m.phase.Awaiting? ==>
      FlowOk(if m.conn.lane[0].Notify? then m.conn.lane[0].status
          else m.phase, m.conn.lane[1..] + Calls(coming), m.intent)
  {
    hide Only, FlowOk, After, Takes;
    Tail(m.conn.lane, Calls(coming));
    if !m.phase.Awaiting? { FlowFirst(m.phase, m.conn.lane + Calls(coming), m.intent); }
  }

  lemma MainDispatchAutomata(w: World)
    requires Automata(w) && !w.main.conn.ended && w.main.conn.work.Free? && w.main.conn.lane != []
             && IsCall(w.main.conn.lane[0])
    requires w.main.conn.lane[0].Request? ==> w.main.conn.lane[0].id > w.main.conn.remoteId
    requires !(w.main.conn.lane[0].Request? && w.main.conn.lane[0].call.SubFrame? && w.main.intent)
    ensures Automata(MainDispatches(w)) && !MainDispatches(w).main.conn.ended
    ensures ToMain(MainDispatches(w)) == ToMain(w) && ToSub(MainDispatches(w)) == ToSub(w)
    ensures var m, m' := w.main.conn, MainDispatches(w).main.conn;
            m' == if m.lane[0].Notify? then m.(lane := m.lane[1..], work := Noting)
                  else m.(lane := m.lane[1..], remoteId := m.lane[0].id, work := Serving(m.lane[0].id, m.lane[0].call))
    ensures MainDispatches(w).sub == w.sub && MainDispatches(w).main.intent == w.main.intent
  {
    hide SubOk, Only, FlowOk, After;
    MainTakes(w.main, ToMain(w));
    Tail(w.main.conn.lane, Calls(ToMain(w)));
    AfterFirst(w.main.phase, w.main.conn.lane + Calls(ToMain(w)));
  }

  lemma MainDispatchesSafe(w: World)
    requires Safe(w) && Apply(w, Dispatches(OnMain)).Some?
    ensures Safe(Apply(w, Dispatches(OnMain)).value)
  {
    hide Link, Automata, Only, SettlesOk;
    var m := w.main.conn;
    DispatchLink(m, w.sub.conn, ToMain(w), ToSub(w));
    if m.lane[0].Request? && m.lane[0].call.SubFrame? && w.main.intent {
      RacedSafe(w);
    } else {
      LaneIsCalls(w);
      MainDispatchAutomata(w);
      KeepsSettles(m, MainDispatches(w).main.conn);
    }
  }

  lemma KeepsSettles(c: Conn, c': Conn)
    requires SettlesOk(c) && c'.pending == c.pending && c'.settles == c.settles && c'.nextId == c.nextId
             && c'.ended == c.ended
    ensures SettlesOk(c')
  {
  }

  lemma LaneIsCalls(w: World)
    requires Link(w.main.conn, w.sub.conn, ToMain(w), ToSub(w))
    ensures w.main.conn.lane != [] ==> IsCall(w.main.conn.lane[0])
    ensures w.sub.conn.lane != [] ==> IsCall(w.sub.conn.lane[0])
  {
    hide Only;
  }

  /** The race: a frame request the Subsystem made before it heard of the shutdown ends the protocol. */
  lemma RacedSafe(w: World)
    requires Safe(w) && !w.main.conn.ended && w.main.conn.work.Free? && w.main.conn.lane != []
    requires w.main.conn.lane[0].Request? && w.main.conn.lane[0].call.SubFrame? && w.main.intent
    ensures Safe(MainDispatches(w)) && MainDispatches(w).main.conn.cause == Some(RequestInState)
  {
    hide Link, MainOk, SubOk, InStep, Only;
    var m, s := w.main.conn, w.sub.conn;
    var id := m.lane[0].id;
    DispatchLink(m, s, ToMain(w), ToSub(w));
    var serving := m.(lane := m.lane[1..], remoteId := id, work := Serving(id, SubFrame));
    assert w.toSub <= ToSub(w) && (w.toSub + [Fault(Some(id))]) + [] == w.toSub + [Fault(Some(id))];
    FaultLink(serving, s, ToMain(w), ToSub(w), w.toSub, Fault(Some(id)), RequestInState);
    EndSettles(serving, Some(RequestInState));
    if !s.ended {
      FewerSubOk(w.sub, w.main.intent, ToSub(w), w.toSub);
      FaultedSubOk(w.sub, w.main.intent, w.toSub, id);
    }
  }

  lemma FaultedSubOk(s: Sub, intent: bool, coming: seq<Message>, id: Id)
    requires SubOk(s, intent, coming)
    ensures SubOk(s, intent, coming + [Fault(Some(id))])
  {
    hide Only;
    SplitLast(coming, Fault(Some(id)));
    if Calls(coming) != [] { NonEmpty(coming); }
  }

  /** No request of Main reaches a Subsystem that is not connected or was told to shut down. */
  lemma SubTakes(s: Sub, intent: bool, coming: seq<Message>)
    requires SubOk(s, intent, coming) && s.conn.lane != []
    ensures s.connected && !s.shutdown && s.conn.lane[0].Request?
            && (s.conn.lane[0].call.Shutdown? || s.conn.lane[0].call.MainFrame?)
  {
    hide Only;
    assert (s.conn.lane + Calls(coming))[0] == s.conn.lane[0];
  }

  lemma SubDispatchedOk(s: Sub, s': Sub, intent: bool, coming: seq<Message>)
    requires SubOk(s, intent, coming) && s.conn.lane != [] && s.connected
    requires s.conn.lane[0].Request?
    requires s'.connected && s'.conn.lane == s.conn.lane[1..] && s'.shutdown == s.conn.lane[0].call.Shutdown?
    ensures SubOk(s', intent, coming)
  {
    hide Only;
    var calls := s.conn.lane + Calls(coming);
    Tail(s.conn.lane, Calls(coming));
    forall i | 0 <= i < |calls[1..]| ensures calls[1..][i] == calls[i + 1] {}
    assert calls[0] == s.conn.lane[0];
  }

  lemma SubDispatchesSafe(w: World)
    requires Safe(w) && Apply(w, Dispatches(OnSub)).Some?
    ensures Safe(Apply(w, Dispatches(OnSub)).value)
  {
    hide Link, MainOk, SubOk, Only, SettlesOk, After;
    var s := w.sub.conn;
    Swap(w.main.conn, s, ToMain(w), ToSub(w));
    DispatchLink(s, w.main.conn, ToSub(w), ToMain(w));
    SubTakes(w.sub, w.main.intent, ToSub(w));
    var w' := SubDispatches(w);
    SubDispatchedOk(w.sub, w'.sub, w.main.intent, ToSub(w));
    Swap(w.main.conn, w'.sub.conn, ToMain(w), ToSub(w));
    KeepsSettles(s, w'.sub.conn);
  }

  // finishing and being accepted

  lemma FinishesMainSafe(w: World, verdict: Verdict)
    requires Safe(w) && Apply(w, Finishes(OnMain, verdict)).Some?
    ensures Safe(Apply(w, Finishes(OnMain, verdict)).value)
  {
    hide Connected, SubOk, Only, After;
    var m := w.main.conn;
    FinishesConnected(w, verdict);
    if m.work.Serving? {
      var r := Reply(m.work.id, verdict);
      Later(w.toSub, m.outbox, r);
      if !w.sub.conn.ended { RepliedSubOk(w.sub, w.main.intent, ToSub(w), r); }
    }
  }

  lemma RepliedSubOk(s: Sub, intent: bool, coming: seq<Message>, r: Message)
    requires SubOk(s, intent, coming) && !IsCall(r)
    ensures SubOk(s, intent, coming + [r])
  {
    hide Only;
    SplitLast(coming, r);
    if Calls(coming) != [] { NonEmpty(coming); }
  }

  lemma FinishesSubSafe(w: World, verdict: Verdict)
    requires Safe(w) && Apply(w, Finishes(OnSub, verdict)).Some?
    ensures Safe(Apply(w, Finishes(OnSub, verdict)).value)
  {
    hide Connected, MainOk, Only, After;
    var s := w.sub.conn;
    FinishesConnected(w, verdict);
    if s.work.Serving? {
      var r := Reply(s.work.id, verdict);
      Later(w.toMain, s.outbox, r);
      SplitLast(ToMain(w), r);
      if !w.main.conn.ended {
        SameMainOk(w.main, w.main, ToMain(w), ToMain(w) + [r]);
        SameInStep(w.main, w.main, w.sub, ToMain(w), ToMain(w) + [r], ToSub(w));
      }
    }
  }

  lemma AcceptedSafe(w: World, side: Side)
    requires Safe(w) && Apply(w, Accepted(side)).Some?
    ensures Safe(Apply(w, Accepted(side)).value)
  {
    hide Connected, SubOk, Only, After, FlowOk;
    if side.OnSub? {
      SubWorkConnected(w);
      if !w.sub.conn.ended { FreedSubOk(w.sub, w.main.intent, ToSub(w)); }
    } else {
      var m := w.main;
      var free := w.(main := m.(conn := m.conn.(work := Free)));
      WorkConnected(w, free.main);
      EndsConnected(free, None);
      EndedOutbox(free.(main := free.main.(conn := End(free.main.conn, None))));
      if m.conn.work.call.Hello? && !m.conn.work.verdict.Success? {
        SameConnected(free.(main := free.main.(conn := End(free.main.conn, None))), w.(main := MainAccepted(m)));
        assert w.toSub + [] == w.toSub;
        if !w.sub.conn.ended { FewerSubOk(w.sub, w.main.intent, ToSub(w), w.toSub); }
      } else {
        SameConnected(free, w.(main := MainAccepted(m)));
      }
    }
  }

  lemma FreedSubOk(s: Sub, intent: bool, coming: seq<Message>)
    requires SubOk(s, intent, coming)
    ensures SubOk(s.(conn := s.conn.(work := Free)), intent, coming)
  {
  }

  // ----- the theorems

  lemma StepSafe(w: World, step: Step)
    requires Safe(w) && Apply(w, step).Some?
    ensures Safe(Apply(w, step).value)
  {
    match step
    case MainFrames => MainAsks(w, MainFrame);
    case MainShuts => MainAsks(w, Shutdown);
    case SubFrames => SubFramesSafe(w);
    case SubNotifies(next) => SubNotifiesSafe(w, next);
    case Sends(side) => SendsSafe(w, side);
    case Reads(OnMain) => ReadsMainSafe(w);
    case Reads(OnSub) => ReadsSubSafe(w);
    case Dispatches(OnMain) => MainDispatchesSafe(w);
    case Dispatches(OnSub) => SubDispatchesSafe(w);
    case Finishes(OnMain, verdict) => FinishesMainSafe(w, verdict);
    case Finishes(OnSub, verdict) => FinishesSubSafe(w, verdict);
    case Accepted(side) => AcceptedSafe(w, side);
    case Deadline(side, id) => DeadlineSafe(w, side, id);
    case Ends(_) => EndsSafe(w);
    case Loses(i, j) => LosesSafe(w, i, j);
  }

  lemma MainAsks(w: World, call: Method)
    requires Safe(w) && !w.main.conn.ended && !w.main.intent && Operating(w.main.phase)
             && (call.MainFrame? || call.Shutdown?)
    ensures Safe(w.(main := w.main.(conn := Ask(w.main.conn, call), intent := call.Shutdown?)))
  {
    hide Safe;
    MainAsksSafe(w, call);
  }

  lemma {:induction false} ReachableSafe(steps: seq<Step>)
    requires Run(steps).Some?
    ensures Safe(Run(steps).value)
  {
    hide Safe, Apply;
    if steps == [] {
      InitialSafe();
    } else {
      ReachableSafe(steps[..|steps| - 1]);
      StepSafe(Run(steps[..|steps| - 1]).value, steps[|steps| - 1]);
    }
  }

  /**
   * Neither side ever meets an invalid request identity or an unsolicited response, Main accepts every
   * status, hello comes once, and the Subsystem is never asked anything in a wrong state: the only end a
   * side owes to the other's message is Main's on a frame request, and then the Subsystem's in turn.
   */
  lemma OnlyFrameRequestsFail(w: World)
    requires Reachable(w)
    ensures w.main.conn.cause in {None, Some(RequestInState)} && w.sub.conn.cause in {None, Some(PeerFault)}
  {
    var steps :| Run(steps) == Some(w);
    hide Run;
    ReachableSafe(steps);
  }

  /** And a dispatched frame request fails exactly when Main has already decided to shut the Subsystem down. */
  lemma FrameRequestFailsIffIntent(w: World)
    requires Reachable(w) && Apply(w, Dispatches(OnMain)).Some? && w.main.conn.lane[0].Request?
             && w.main.conn.lane[0].call.SubFrame?
    ensures Apply(w, Dispatches(OnMain)).value.main.conn.cause == Some(RequestInState) <==> w.main.intent
  {
    var steps :| Run(steps) == Some(w);
    hide Run, Connected;
    ReachableSafe(steps);
    if w.main.intent { RacedSafe(w); }
    else { FrameTaken(w); }
  }

  lemma FrameTaken(w: World)
    requires Safe(w) && Apply(w, Dispatches(OnMain)).Some? && w.main.conn.lane[0].Request?
             && w.main.conn.lane[0].call.SubFrame? && !w.main.intent
    ensures Apply(w, Dispatches(OnMain)).value.main.conn.cause == None
  {
    hide Link, Automata;
    DispatchLink(w.main.conn, w.sub.conn, ToMain(w), ToSub(w));
    LaneIsCalls(w);
    MainDispatchAutomata(w);
  }

  /** Whatever a live Subsystem is about to dispatch, it is connected and was not told to shut down. */
  lemma NothingAfterShutdown(w: World)
    requires Reachable(w) && !w.sub.conn.ended && w.sub.conn.lane != []
    ensures w.sub.connected && !w.sub.shutdown
  {
    var steps :| Run(steps) == Some(w);
    hide Run, Connected;
    ReachableSafe(steps);
    SubTakes(w.sub, w.main.intent, ToSub(w));
  }

  // The race happens: the Subsystem asks for a frame while Main's shutdown is on its way.

  lemma Took(w: World, step: Step) returns (w': World)
    requires Reachable(w) && Apply(w, step).Some?
    ensures Reachable(w') && Some(w') == Apply(w, step)
  {
    var steps :| Run(steps) == Some(w);
    var longer := steps + [step];
    assert longer[..|longer| - 1] == steps;
    assert Run(longer) == Apply(w, step);
    w' := Apply(w, step).value;
  }

  lemma HelloServed() returns (w: World)
    ensures Reachable(w) && w.main == Main(NEW_CONN.(remoteId := 1, work := Serving(1, Hello)), Awaiting, false)
    ensures w.sub == Sub(Ask(NEW_CONN, Hello).(outbox := []), false, Identified, false, false) && w.toMain == []
            && w.toSub == []
  {
    assert Run([]) == Some(INITIAL);
    w := Took(INITIAL, Sends(OnSub));
    assert w.sub.conn.outbox == [] && w.toMain == [Request(1, Hello)];
    w := Took(w, Reads(OnMain));
    assert w.toMain == [] && w.main.conn.lane == [Request(1, Hello)];
    w := Took(w, Dispatches(OnMain));
    assert w.main.conn.lane == [];
  }

  lemma HelloReplied() returns (w: World)
    ensures Reachable(w)
            && w.main == Main(NEW_CONN.(remoteId := 1, work := Replying(1, Hello, Success)), Awaiting, false)
    ensures w.sub == Sub(Ask(NEW_CONN, Hello).(outbox := []), false, Identified, false, false) && w.toMain == []
    ensures w.toSub == [Reply(1, Success)]
  {
    w := HelloServed();
    w := Took(w, Finishes(OnMain, Success));
    assert w.main.conn.outbox == [Reply(1, Success)];
    w := Took(w, Sends(OnMain));
    assert w.main.conn.outbox == [] && w.toSub == [Reply(1, Success)];
  }

  lemma HelloAccepted() returns (w: World)
    ensures Reachable(w) && w.main == Main(NEW_CONN.(remoteId := 1), Identified, false)
    ensures w.sub.connected && !w.sub.conn.ended && w.sub.status == Identified && !w.sub.mutation && !w.sub.shutdown
    ensures w.sub.conn.outbox == [] && w.sub.conn.nextId == 2 && w.toMain == [] && w.toSub == []
  {
    w := HelloReplied();
    w := Took(w, Accepted(OnMain));
    w := Took(w, Reads(OnSub));
    assert w.toSub == [];
  }

  lemma RaceExists()
    ensures exists w :: Reachable(w) && w.main.conn.cause == Some(RequestInState)
  {
    var w := HelloAccepted();
    w := Took(w, SubFrames);
    assert w.sub.conn.outbox == [Request(2, SubFrame)];
    w := Took(w, MainShuts);
    w := Took(w, Sends(OnSub));
    assert w.toMain == [Request(2, SubFrame)];
    w := Took(w, Reads(OnMain));
    assert w.main.conn.lane == [Request(2, SubFrame)];
    w := Took(w, Dispatches(OnMain));
  }
}
