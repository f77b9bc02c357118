/** Which outcome each request of runtime control settles with, told from the steps of the run alone. */
module RuntimeControlOutcomes {
  import opened Base
  import opened RuntimeControl
  import opened RuntimeControlSafety

  function ConnOf(w: World, side: Side): Conn { if side.OnMain? then w.main.conn else w.sub.conn }

  /** What the side reads next. */
  function Unread(w: World, side: Side): seq<Message> { if side.OnMain? then w.toMain else w.toSub }

  function Other(side: Side): Side { if side.OnMain? then OnSub else OnMain }

  predicate ReadsReply(w: World, step: Step, side: Side, id: Id) {
    step == Reads(side) && Unread(w, side) != [] && Unread(w, side)[0].Reply? && Unread(w, side)[0].id == id
  }

  /**
   * What became of request `id` of a side over a run: the first of these that happened while it was pending,
   * its reply was read, its deadline passed, or the side ended.
   */
  function Fate(steps: seq<Step>, side: Side, id: Id): Option<Outcome>
    requires Run(steps).Some?
    decreases |steps|
  {
    if steps == [] then None
    else
      var most, step := steps[..|steps| - 1], steps[|steps| - 1];
      var w, before := Run(most).value, Fate(most, side, id);
      if before.Some? || id !in ConnOf(w, side).pending then before
      else if ReadsReply(w, step, side, id) then Some(Answered(Unread(w, side)[0].verdict))
      else if step == Deadline(side, id) then Some(TimedOut)
      else if ConnOf(Run(steps).value, side).ended then Some(Ended)
      else None
  }

  /** One step settles a pending request with this outcome, or with none, and no other request of its kind. */
  ghost predicate Moves(c: Conn, c': Conn, id: Id, outcome: Option<Outcome>) {
    if id in c.pending then
      if outcome.None? then id in c'.pending && id !in c'.settles
      else id !in c'.pending && id in c'.settles && c'.settles[id] == [outcome.value]
    else
      && (id in c'.pending ==> id == c.nextId && !c'.ended)
      && (id in c'.settles <==> id in c.settles) && (id in c.settles ==> c'.settles[id] == c.settles[id])
  }

  // ----- one step

  lemma SameMoves(c: Conn, c': Conn, id: Id)
    requires SettlesOk(c) && c'.pending == c.pending && c'.settles == c.settles
    ensures Moves(c, c', id, None)
  {
  }

  lemma AskMoves(c: Conn, call: Method, id: Id)
    requires SettlesOk(c) && !c.ended && c.nextId >= 1
    ensures Moves(c, Ask(c, call), id, None)
  {
    assert c.nextId !in c.pending && c.nextId !in c.settles;
  }

  lemma EndMoves(c: Conn, cause: Option<Cause>, id: Id)
    requires SettlesOk(c)
    ensures Moves(c, End(c, cause), id, if id in c.pending then Some(Ended) else None)
  {
  }

  lemma HearMoves(c: Conn, m: Message, id: Id)
    requires SettlesOk(c)
    ensures Moves(c, Hear(c, m), id,
                  if id !in c.pending then None
                  else if m.Reply? && m.id == id then Some(Answered(m.verdict))
                  else if Hear(c, m).ended then Some(Ended) else None)
  {
  }

  lemma TimeOutMoves(c: Conn, late: Id, id: Id)
    requires SettlesOk(c) && !c.ended && late in c.pending
    ensures Moves(c, TimeOut(c, late), id,
                  if id !in c.pending then None else if id == late then Some(TimedOut) else Some(Ended))
  {
  }

  /** The outcome of a step for one request of one side. */
  function Now(w: World, step: Step, side: Side, id: Id): Option<Outcome>
    requires Apply(w, step).Some?
  {
    if id !in ConnOf(w, side).pending then None
    else if ReadsReply(w, step, side, id) then Some(Answered(Unread(w, side)[0].verdict))
    else if step == Deadline(side, id) then Some(TimedOut)
    else if ConnOf(Apply(w, step).value, side).ended then Some(Ended)
    else None
  }

  lemma SubReadMoves(w: World, id: Id)
    requires SettlesOk(w.sub.conn) && w.toSub != []
    ensures Moves(w.sub.conn, SubHears(w.sub, w.toSub[0]).conn, id, Now(w, Reads(OnSub), OnSub, id))
  {
    var c, m := w.sub.conn, w.toSub[0];
    var heard, c' := Hear(c, m), SubHears(w.sub, m).conn;
    HearMoves(c, m, id);
    if c' != heard {
      assert c' == End(heard, None) || c' == End(c, None);
      HearKeepsSettles(c, m);
      EndMoves(heard, None, id);
    }
  }

  lemma HearKeepsSettles(c: Conn, m: Message)
    requires SettlesOk(c)
    ensures m.Reply? && m.id in c.pending ==> SettlesOk(Hear(c, m))
  {
  }

  /** The side's own books are as before, or the side ends. */
  ghost predicate KeepsOrEnds(c: Conn, c': Conn) {
    || (c'.pending == c.pending && c'.settles == c.settles && c'.ended == c.ended)
    || exists c1: Conn, cause ::
         c1.pending == c.pending && c1.settles == c.settles && c1.ended == c.ended && c' == End(c1, cause)
  }

  lemma KeepsOrEndsMoves(c: Conn, c': Conn, id: Id)
    requires SettlesOk(c) && KeepsOrEnds(c, c')
    ensures Moves(c, c', id, if id in c.pending && c'.ended then Some(Ended) else None)
  {
    if c'.pending == c.pending && c'.settles == c.settles && c'.ended == c.ended {
      SameMoves(c, c', id);
    } else {
      var c1: Conn, cause :|
        c1.pending == c.pending && c1.settles == c.settles && c1.ended == c.ended && c' == End(c1, cause);
    }
  }

  lemma MainDispatchKeeps(w: World)
    requires w.main.conn.lane != []
    ensures KeepsOrEnds(w.main.conn, MainDispatches(w).main.conn)
  {
    hide End;
    var c := w.main.conn;
    var c0 := c.(lane := c.lane[1..]);
    if c.lane[0].Request? {
      var c1 := c0.(remoteId := c.lane[0].id, work := Serving(c.lane[0].id, c.lane[0].call));
      assert KeepsOrEnds(c, End(c1, Some(HelloTwice))) && KeepsOrEnds(c, End(c1, Some(RequestInState)));
    }
  }

  lemma SubDispatchKeeps(w: World)
    requires w.sub.conn.lane != []
    ensures KeepsOrEnds(w.sub.conn, SubDispatches(w).sub.conn)
  {
    hide End;
    var c := w.sub.conn;
    var c0 := c.(lane := c.lane[1..]);
    if c.lane[0].Request? {
      var c1 := c0.(remoteId := c.lane[0].id, work := Serving(c.lane[0].id, c.lane[0].call));
      assert KeepsOrEnds(c, End(c1, Some(RequestInState)));
    }
  }

  lemma AcceptedKeeps(m: Main)
    ensures KeepsOrEnds(m.conn, MainAccepted(m).conn)
  {
    hide End;
    assert KeepsOrEnds(m.conn, End(m.conn.(work := Free), None));
  }

  lemma MainKeeps(w: World, step: Step)
    requires Apply(w, step).Some? && !step.MainFrames? && !step.MainShuts? && step != Reads(OnMain)
    requires step.Deadline? ==> step.side.OnSub?
    ensures KeepsOrEnds(w.main.conn, Apply(w, step).value.main.conn)
  {
    hide End, Hear, Ask, TimeOut, MainDispatches, MainAccepted, SubHears, SubDispatches;
    match step
    case Dispatches(OnMain) => MainDispatchKeeps(w);
    case Dispatches(OnSub) => SubDispatchKeepsMain(w);
    case Accepted(OnMain) => AcceptedKeeps(w.main);
    case Ends(OnMain) => assert KeepsOrEnds(w.main.conn, End(w.main.conn, None));
    case _ =>
  }

  lemma SubKeeps(w: World, step: Step)
    requires Apply(w, step).Some? && !step.SubFrames? && step != Reads(OnSub)
    requires step.Deadline? ==> step.side.OnMain?
    ensures KeepsOrEnds(w.sub.conn, Apply(w, step).value.sub.conn)
  {
    hide End, Hear, Ask, TimeOut, MainDispatches, MainAccepted, SubHears, SubDispatches;
    match step
    case Dispatches(OnSub) => SubDispatchKeeps(w);
    case Dispatches(OnMain) => MainDispatchKeepsSub(w);
    case Ends(OnSub) => assert KeepsOrEnds(w.sub.conn, End(w.sub.conn, None));
    case _ =>
  }

  lemma MainMoves(w: World, step: Step, id: Id)
    requires Apply(w, step).Some? && SettlesOk(w.main.conn) && w.main.conn.nextId >= 1
    ensures Moves(w.main.conn, Apply(w, step).value.main.conn, id, Now(w, step, OnMain, id))
  {
    var c := w.main.conn;
    match step
    case MainFrames => AskMoves(c, MainFrame, id); AskStays(c, MainFrame);
    case MainShuts => AskMoves(c, Shutdown, id); AskStays(c, Shutdown);
    case Reads(OnMain) => HearMoves(c, w.toMain[0], id);
    case Deadline(OnMain, late) => TimeOutMoves(c, late, id); TimeOutEnds(c, late);
    case _ =>
      hide Apply, KeepsOrEnds, Moves;
      MainKeeps(w, step);
      KeepsOrEndsMoves(c, Apply(w, step).value.main.conn, id);
  }

  lemma SubMoves(w: World, step: Step, id: Id)
    requires Apply(w, step).Some? && SettlesOk(w.sub.conn) && w.sub.conn.nextId >= 1
    ensures Moves(w.sub.conn, Apply(w, step).value.sub.conn, id, Now(w, step, OnSub, id))
  {
    var c := w.sub.conn;
    match step
    case SubFrames => AskMoves(c, SubFrame, id); AskStays(c, SubFrame);
    case Reads(OnSub) => SubReadMoves(w, id);
    case Deadline(OnSub, late) => TimeOutMoves(c, late, id); TimeOutEnds(c, late);
    case _ =>
      hide Apply, KeepsOrEnds, Moves;
      SubKeeps(w, step);
      KeepsOrEndsMoves(c, Apply(w, step).value.sub.conn, id);
  }

  lemma MainDispatchKeepsSub(w: World)
    requires w.main.conn.lane != []
    ensures MainDispatches(w).sub == w.sub
  {
  }

  lemma SubDispatchKeepsMain(w: World)
    requires w.sub.conn.lane != []
    ensures SubDispatches(w).main == w.main
  {
  }

  lemma AskStays(c: Conn, call: Method)
    ensures Ask(c, call).ended == c.ended
  {
  }

  lemma TimeOutEnds(c: Conn, id: Id)
    ensures TimeOut(c, id).ended
  {
  }

  lemma StepMoves(w: World, step: Step, side: Side, id: Id)
    requires Apply(w, step).Some? && SettlesOk(ConnOf(w, side)) && ConnOf(w, side).nextId >= 1
    ensures Moves(ConnOf(w, side), ConnOf(Apply(w, step).value, side), id, Now(w, step, side, id))
  {
    hide Apply, Moves, Now;
    match side
    case OnMain => MainMoves(w, step, id);
    case OnSub => SubMoves(w, step, id);
  }

  // ----- the whole run

  /**
   * In every run a request of either side settles exactly once, when it leaves the pending table: as answered,
   * with the verdict of its reply, if the reply was read while it was pending; as timed out if its deadline
   * passed first; as ended if the side ended first. Nothing is pending at the end.
   */
  lemma {:induction false} SettlesOnce(steps: seq<Step>, side: Side, id: Id)
    requires Run(steps).Some?
    ensures var c := ConnOf(Run(steps).value, side);
            if id in c.pending then id !in c.settles && Fate(steps, side, id) == None
            else if 1 <= id < c.nextId then
              id in c.settles && Fate(steps, side, id).Some? && c.settles[id] == [Fate(steps, side, id).value]
            else id !in c.settles && Fate(steps, side, id) == None
    ensures ConnOf(Run(steps).value, side).ended ==> ConnOf(Run(steps).value, side).pending == map[]
    decreases |steps|
  {
    hide Apply, Safe, Moves;
    ReachableSafe(steps);
    SettledBooks(Run(steps).value, side);
    if steps != [] {
      var most, step := steps[..|steps| - 1], steps[|steps| - 1];
      var w := Run(most).value;
      SettlesOnce(most, side, id);
      ReachableSafe(most);
      SettledBooks(w, side);
      StepMoves(w, step, side, id);
      FateMoves(ConnOf(w, side), ConnOf(Run(steps).value, side), id, Now(w, step, side, id));
    }
  }

  lemma SettledBooks(w: World, side: Side)
    requires Safe(w)
    ensures SettlesOk(ConnOf(w, side)) && ConnOf(w, side).nextId >= 1
  {
  }

  /** What a step does to a request that was not pending, and to one that was. */
  lemma FateMoves(c: Conn, c': Conn, id: Id, outcome: Option<Outcome>)
    requires SettlesOk(c) && SettlesOk(c') && Moves(c, c', id, outcome)
    ensures id in c.pending ==>
            if outcome.None? then id in c'.pending
                else id !in c'.pending && id in c'.settles && c'.settles[id] == [outcome.value]
    ensures id !in c.pending && id in c.settles ==>
            id !in c'.pending && id in c'.settles && c'.settles[id] == c.settles[id]
    ensures id !in c.pending && id !in c.settles ==> id !in c'.settles
  {
  }

  // ----- a reply is what the other side's handler came to

  predicate OnItsWay(w: World, side: Side, m: Message) {
    m in Unread(w, side) || m in ConnOf(w, Other(side)).outbox
  }

  predicate Finishing(w: World, step: Step, side: Side, id: Id, verdict: Verdict) {
    && step == Finishes(Other(side), verdict)
    && ConnOf(w, Other(side)).work.Serving? && ConnOf(w, Other(side)).work.id == id
  }

  /** Nothing but notices of its own and requests is written. */
  ghost predicate WritesNoReply(c: Conn, c': Conn) {
    forall m :: m in c'.outbox && m.Reply? ==> m in c.outbox
  }

  lemma OutboxFromMain(w: World, step: Step, m: Message)
    requires Apply(w, step).Some? && m.Reply? && m in Apply(w, step).value.main.conn.outbox
    ensures m in w.main.conn.outbox || Finishing(w, step, OnSub, m.id, m.verdict)
  {
    hide SubHears, SubDispatches, MainDispatches, MainAccepted, TimeOut, Hear, End, Ask;
    var c := w.main.conn;
    match step
    case MainFrames => AskWrites(c, MainFrame);
    case MainShuts => AskWrites(c, Shutdown);
    case Reads(OnMain) => HearWrites(c, w.toMain[0]);
    case Dispatches(OnMain) => MainDispatchWrites(w);
    case Dispatches(OnSub) => SubDispatchKeepsMain(w);
    case Accepted(OnMain) => AcceptedWrites(w.main);
    case Deadline(OnMain, late) => TimeOutWrites(c, late);
    case Ends(OnMain) => EndWrites(c, None);
    case _ =>
  }

  lemma OutboxFromSub(w: World, step: Step, m: Message)
    requires Apply(w, step).Some? && m.Reply? && m in Apply(w, step).value.sub.conn.outbox
    ensures m in w.sub.conn.outbox || Finishing(w, step, OnMain, m.id, m.verdict)
  {
    hide SubHears, SubDispatches, MainDispatches, MainAccepted, TimeOut, Hear, End, Ask;
    var c := w.sub.conn;
    match step
    case SubFrames => AskWrites(c, SubFrame);
    case Reads(OnSub) => SubHearsWrites(w.sub, w.toSub[0]);
    case Dispatches(OnSub) => SubDispatchWrites(w);
    case Dispatches(OnMain) => MainDispatchKeepsSub(w);
    case Deadline(OnSub, late) => TimeOutWrites(c, late);
    case Ends(OnSub) => EndWrites(c, None);
    case _ =>
  }

  lemma AskWrites(c: Conn, call: Method)
    ensures WritesNoReply(c, Ask(c, call))
  {
  }

  lemma EndWrites(c: Conn, cause: Option<Cause>)
    ensures WritesNoReply(c, End(c, cause))
  {
  }

  lemma HearWrites(c: Conn, m: Message)
    ensures WritesNoReply(c, Hear(c, m))
  {
  }

  lemma SubHearsWrites(s: Sub, m: Message)
    ensures WritesNoReply(s.conn, SubHears(s, m).conn)
  {
    HearWrites(s.conn, m);
  }

  lemma MainDispatchWrites(w: World)
    requires w.main.conn.lane != []
    ensures WritesNoReply(w.main.conn, MainDispatches(w).main.conn)
  {
  }

  lemma SubDispatchWrites(w: World)
    requires w.sub.conn.lane != []
    ensures WritesNoReply(w.sub.conn, SubDispatches(w).sub.conn)
  {
  }

  lemma AcceptedWrites(m: Main)
    ensures WritesNoReply(m.conn, MainAccepted(m).conn)
  {
  }

  lemma TimeOutWrites(c: Conn, id: Id)
    ensures WritesNoReply(c, TimeOut(c, id))
  {
  }

  lemma UnreadFrom(w: World, step: Step, side: Side, m: Message)
    requires Apply(w, step).Some? && m.Reply? && m in Unread(Apply(w, step).value, side)
    ensures OnItsWay(w, side, m)
  {
    hide Hear, SubHears, MainAccepted, TimeOut, End, Ask, Finish;
  }

  lemma ReplyFrom(w: World, step: Step, side: Side, m: Message)
    requires Apply(w, step).Some? && m.Reply? && OnItsWay(Apply(w, step).value, side, m)
    ensures OnItsWay(w, side, m) || Finishing(w, step, side, m.id, m.verdict)
  {
    hide Apply;
    if m in Unread(Apply(w, step).value, side) { UnreadFrom(w, step, side, m); }
    else if side.OnMain? { OutboxFromSub(w, step, m); }
    else { OutboxFromMain(w, step, m); }
  }

  /** At some step of the run the other side's handler of the request ended with this verdict. */
  ghost predicate Served(steps: seq<Step>, side: Side, id: Id, verdict: Verdict) {
    exists j :: 0 <= j < |steps| && Run(steps[..j]).Some?
                && Finishing(Run(steps[..j]).value, steps[j], side, id, verdict)
  }

  lemma ServedLater(steps: seq<Step>, side: Side, id: Id, verdict: Verdict)
    requires steps != [] && Served(steps[..|steps| - 1], side, id, verdict)
    ensures Served(steps, side, id, verdict)
  {
    var most := steps[..|steps| - 1];
    var j :| 0 <= j < |most| && Run(most[..j]).Some? && Finishing(Run(most[..j]).value, most[j], side, id, verdict);
    assert steps[..j] == most[..j] && steps[j] == most[j];
  }

  lemma {:induction false} RepliesAreServed(steps: seq<Step>, side: Side, m: Message)
    requires Run(steps).Some? && m.Reply? && OnItsWay(Run(steps).value, side, m)
    ensures Served(steps, side, m.id, m.verdict)
    decreases |steps|
  {
    hide Apply;
    if steps != [] {
      var most, step := steps[..|steps| - 1], steps[|steps| - 1];
      ReplyFrom(Run(most).value, step, side, m);
      if OnItsWay(Run(most).value, side, m) {
        RepliesAreServed(most, side, m);
        ServedLater(steps, side, m.id, m.verdict);
      } else {
        assert steps[..|most|] == most;
      }
    }
  }

  /** What a caller is answered is the verdict the other side's handler of that very request ended with. */
  lemma {:induction false} AnswersAreVerdicts(steps: seq<Step>, side: Side, id: Id)
    requires Run(steps).Some? && Fate(steps, side, id).Some? && Fate(steps, side, id).value.Answered?
    ensures Served(steps, side, id, Fate(steps, side, id).value.verdict)
    decreases |steps|
  {
    hide Apply;
    var most, step := steps[..|steps| - 1], steps[|steps| - 1];
    var w := Run(most).value;
    if Fate(most, side, id).Some? {
      AnswersAreVerdicts(most, side, id);
      ServedLater(steps, side, id, Fate(steps, side, id).value.verdict);
    } else {
      var m := Unread(w, side)[0];
      RepliesAreServed(most, side, m);
      ServedLater(steps, side, id, m.verdict);
    }
  }

  // ----- no request is forgotten

  predicate Asks(m: Message, id: Id) { m.Request? && m.id == id }
  predicate Answers(m: Message, id: Id) { m.Reply? && m.id == id }

  ghost predicate Waits(ms: seq<Message>, id: Id) { exists i :: 0 <= i < |ms| && Asks(ms[i], id) }
  ghost predicate Returns(ms: seq<Message>, id: Id) { exists i :: 0 <= i < |ms| && Answers(ms[i], id) }

  /** The side has the request to be dispatched or is serving it. */
  ghost predicate Has(c: Conn, id: Id) { Waits(c.lane, id) || (c.work.Serving? && c.work.id == id) }

  /** The request is on its way to the other side, being served there, or its reply is on its way back. */
  ghost predicate UnderWay(c: Conn, other: Conn, there: seq<Message>, back: seq<Message>, id: Id) {
    || Waits(c.outbox, id) || Waits(there, id) || Has(other, id) || Returns(other.outbox, id) || Returns(back, id)
  }

  lemma Longer(ms: seq<Message>, m: Message, id: Id)
    ensures Waits(ms + [m], id) <==> Waits(ms, id) || Asks(m, id)
    ensures Returns(ms + [m], id) <==> Returns(ms, id) || Answers(m, id)
  {
    var more := ms + [m];
    assert more[|ms|] == m;
    forall i | 0 <= i < |ms| ensures more[i] == ms[i] {}
  }

  lemma Shorter(ms: seq<Message>, id: Id)
    requires ms != []
    ensures Waits(ms, id) ==> Waits(ms[1..], id) || Asks(ms[0], id)
    ensures Returns(ms, id) ==> Returns(ms[1..], id) || Answers(ms[0], id)
  {
    var rest := ms[1..];
    forall i | 0 < i < |ms| ensures ms[i] == rest[i - 1] {}
    if i :| 0 <= i < |ms| && Asks(ms[i], id) { if i > 0 { assert Asks(rest[i - 1], id); } }
    if i :| 0 <= i < |ms| && Answers(ms[i], id) { if i > 0 { assert Answers(rest[i - 1], id); } }
  }

  /** How a live connection may change without a request of the other side, or its own, getting lost. */
  ghost predicate Passes(c: Conn, c': Conn, incoming: Option<Message>) {
    && (forall id :: Waits(c.outbox, id) ==> Waits(c'.outbox, id))
    && (forall id :: Returns(c.outbox, id) ==> Returns(c'.outbox, id))
    && (forall id :: Has(c, id) || (incoming.Some? && Asks(incoming.value, id)) ==>
       Has(c', id) || Returns(c'.outbox, id))
  }

  lemma SamePasses(c: Conn, c': Conn)
    requires c'.outbox == c.outbox && c'.lane == c.lane && (c.work.Serving? ==> c'.work == c.work)
    ensures Passes(c, c', None)
  {
  }

  lemma AskPasses(c: Conn, call: Method)
    ensures Passes(c, Ask(c, call), None) && Waits(Ask(c, call).outbox, c.nextId)
  {
    var m := Request(c.nextId, call);
    forall id ensures Waits(c.outbox + [m], id) <==> Waits(c.outbox, id) || Asks(m, id) { Longer(c.outbox, m, id); }
    forall id ensures Returns(c.outbox + [m], id) <==> Returns(c.outbox, id) { Longer(c.outbox, m, id); }
    assert Asks(m, c.nextId);
  }

  lemma NotifyPasses(c: Conn, m: Message)
    requires m.Notify?
    ensures Passes(c, c.(outbox := c.outbox + [m]), None)
  {
    forall id ensures Waits(c.outbox + [m], id) <==> Waits(c.outbox, id) { Longer(c.outbox, m, id); }
    forall id ensures Returns(c.outbox + [m], id) <==> Returns(c.outbox, id) { Longer(c.outbox, m, id); }
  }

  lemma FinishPasses(c: Conn, verdict: Verdict)
    ensures Passes(c, Finish(c, verdict), None)
  {
    if c.work.Serving? {
      var m := Reply(c.work.id, verdict);
      forall id ensures Waits(c.outbox + [m], id) <==> Waits(c.outbox, id) { Longer(c.outbox, m, id); }
      forall id ensures Returns(c.outbox + [m], id) <==> Returns(c.outbox, id) || Answers(m, id) {
        Longer(c.outbox, m, id);
      }
    }
  }

  lemma HearPasses(c: Conn, m: Message)
    requires !Hear(c, m).ended
    ensures Passes(c, Hear(c, m), Some(m))
  {
    if !m.Reply? && !m.Fault? {
      forall id ensures Waits(c.lane + [m], id) <==> Waits(c.lane, id) || Asks(m, id) { Longer(c.lane, m, id); }
    }
  }

  /** The first call of the lane is taken up by a live side that was free. */
  lemma DispatchPasses(c: Conn, c': Conn)
    requires c.lane != [] && !c.work.Serving? && c'.outbox == c.outbox && c'.lane == c.lane[1..]
    requires c.lane[0].Request? ==> c'.work == Serving(c.lane[0].id, c.lane[0].call)
    ensures Passes(c, c', None)
  {
    forall id | Waits(c.lane, id) ensures Waits(c'.lane, id) || Asks(c.lane[0], id) { Shorter(c.lane, id); }
  }

  lemma MainPasses(w: World, step: Step)
    requires Apply(w, step).Some? && !Apply(w, step).value.main.conn.ended && step != Sends(OnMain)
    requires w.main.conn.lane != [] ==> IsCall(w.main.conn.lane[0])
    ensures Passes(w.main.conn, Apply(w, step).value.main.conn, if step == Reads(OnMain) then Some(w.toMain[0])
            else None)
  {
    hide Passes, SubHears, SubDispatches, MainAccepted, Ask, Finish;
    var c, c' := w.main.conn, Apply(w, step).value.main.conn;
    match step
    case MainFrames => AskPasses(c, MainFrame);
    case MainShuts => AskPasses(c, Shutdown);
    case Reads(OnMain) => HearPasses(c, w.toMain[0]);
    case Dispatches(OnMain) => DispatchPasses(c, c');
    case Finishes(OnMain, verdict) => FinishPasses(c, verdict);
    case _ => MainStays(w, step); SamePasses(c, c');
  }

  lemma MainStays(w: World, step: Step)
    requires Apply(w, step).Some? && !Apply(w, step).value.main.conn.ended && step != Sends(OnMain)
    requires !step.MainFrames? && !step.MainShuts? && !(step.Finishes? && step.side.OnMain?)
    requires step != Reads(OnMain) && step != Dispatches(OnMain)
    ensures var c, c' := w.main.conn, Apply(w, step).value.main.conn;
            c'.outbox == c.outbox && c'.lane == c.lane && (c.work.Serving? ==> c'.work == c.work)
  {
    hide SubHears, SubDispatches, Ask, Hear, Finish;
    if step == Dispatches(OnSub) { SubDispatchKeepsMain(w); }
  }

  lemma SubHearsPasses(s: Sub, m: Message)
    requires !SubHears(s, m).conn.ended
    ensures Passes(s.conn, SubHears(s, m).conn, Some(m))
  {
    hide Passes;
    HearPasses(s.conn, m);
  }

  lemma SubPasses(w: World, step: Step)
    requires Apply(w, step).Some? && !Apply(w, step).value.sub.conn.ended && step != Sends(OnSub)
    requires w.sub.conn.lane != [] ==> IsCall(w.sub.conn.lane[0])
    ensures Passes(w.sub.conn, Apply(w, step).value.sub.conn, if step == Reads(OnSub) then Some(w.toSub[0]) else None)
  {
    hide Passes, MainDispatches, MainAccepted, Ask, Finish, SubHears, Hear;
    var c, c' := w.sub.conn, Apply(w, step).value.sub.conn;
    match step
    case SubFrames => AskPasses(c, SubFrame);
    case SubNotifies(next) => NotifyPasses(c, Notify(next));
    case Reads(OnSub) => SubHearsPasses(w.sub, w.toSub[0]);
    case Dispatches(OnSub) => DispatchPasses(c, c');
    case Finishes(OnSub, verdict) => FinishPasses(c, verdict);
    case _ => SubStays(w, step); SamePasses(c, c');
  }

  lemma SubStays(w: World, step: Step)
    requires Apply(w, step).Some? && !Apply(w, step).value.sub.conn.ended && step != Sends(OnSub)
    requires !step.SubFrames? && !step.SubNotifies? && !(step.Finishes? && step.side.OnSub?)
    requires step != Reads(OnSub) && step != Dispatches(OnSub)
    ensures var c, c' := w.sub.conn, Apply(w, step).value.sub.conn;
            c'.outbox == c.outbox && c'.lane == c.lane && (c.work.Serving? ==> c'.work == c.work)
  {
    hide MainDispatches, MainAccepted, Ask, Hear, Finish, SubHears, SubDispatches;
    if step == Dispatches(OnMain) { MainDispatchKeepsSub(w); }
  }

  /** A message moves from one queue to the next, and the connections lose nothing. */
  lemma UnderWayLater(c: Conn, other: Conn, there: seq<Message>, back: seq<Message>, c': Conn, other': Conn, id: Id)
    requires UnderWay(c, other, there, back, id)
    ensures Passes(c, c', None) && Passes(other, other', None) ==> UnderWay(c', other', there, back, id)
    ensures c.outbox != [] && c' == c.(outbox := c.outbox[1..]) ==>
            UnderWay(c', other, there + [c.outbox[0]], back, id)
    ensures other.outbox != [] && other' == other.(outbox := other.outbox[1..]) ==>
            UnderWay(c, other', there, back + [other.outbox[0]], id)
    ensures there != [] && Passes(other, other', Some(there[0])) ==> UnderWay(c, other', there[1..], back, id)
    ensures back != [] && Passes(c, c', Some(back[0])) && !Answers(back[0], id) ==>
            UnderWay(c', other, there, back[1..], id)
  {
    hide Waits, Returns, Asks, Answers;
    if c.outbox != [] { Shorter(c.outbox, id); Longer(there, c.outbox[0], id); }
    if other.outbox != [] { Shorter(other.outbox, id); Longer(back, other.outbox[0], id); }
    if there != [] { Shorter(there, id); }
    if back != [] { Shorter(back, id); }
  }

  lemma SendPasses(w: World, side: Side)
    requires Apply(w, Sends(side)).Some?
    ensures var w' := Apply(w, Sends(side)).value;
            && ConnOf(w, side).outbox != []
            && ConnOf(w', side) == ConnOf(w, side).(outbox := ConnOf(w, side).outbox[1..])
            && ConnOf(w', Other(side)) == ConnOf(w, Other(side))
            && Unread(w', Other(side)) == Unread(w, Other(side)) + [ConnOf(w, side).outbox[0]]
            && Unread(w', side) == Unread(w, side)
  {
  }

  /** Only calls wait in the dispatch lanes. */
  predicate LanesOk(w: World) {
    && (w.main.conn.lane != [] ==> IsCall(w.main.conn.lane[0]))
    && (w.sub.conn.lane != [] ==> IsCall(w.sub.conn.lane[0]))
  }

  lemma SafeLanes(w: World)
    requires Safe(w)
    ensures LanesOk(w)
  {
    assert OwnOk(w.main.conn) && OwnOk(w.sub.conn);
  }

  lemma LivePasses(w: World, step: Step, side: Side)
    requires Apply(w, step).Some? && !ConnOf(Apply(w, step).value, side).ended && step != Sends(side) && LanesOk(w)
    ensures step == Reads(side) ==> Unread(w, side) != []
    ensures Passes(ConnOf(w, side), ConnOf(Apply(w, step).value, side),
                   if step == Reads(side) then Some(Unread(w, side)[0]) else None)
  {
    hide Passes;
    if side.OnMain? { MainPasses(w, step); } else { SubPasses(w, step); }
  }

  /** Only sending and reading move what is between the sides, while both live. */
  lemma BetweenStays(w: World, step: Step, side: Side)
    requires Apply(w, step).Some? && step != Sends(Other(side)) && step != Reads(side)
    requires !Apply(w, step).value.main.conn.ended && !Apply(w, step).value.sub.conn.ended
    ensures Unread(Apply(w, step).value, side) == Unread(w, side)
  {
    hide SubHears, Hear, Ask, Finish;
  }

  lemma ReadShortens(w: World, side: Side)
    requires Apply(w, Reads(side)).Some?
    ensures Unread(w, side) != [] && Unread(Apply(w, Reads(side)).value, side) == Unread(w, side)[1..]
    ensures ConnOf(Apply(w, Reads(side)).value, Other(side)) == ConnOf(w, Other(side))
  {
  }

  ghost predicate OnTheWay(w: World, side: Side, id: Id) {
    UnderWay(ConnOf(w, side), ConnOf(w, Other(side)), Unread(w, Other(side)), Unread(w, side), id)
  }

  lemma StepUnderWay(w: World, step: Step, side: Side, id: Id)
    requires Apply(w, step).Some? && OnTheWay(w, side, id) && LanesOk(w)
    requires var w' := Apply(w, step).value; !w'.main.conn.ended && !w'.sub.conn.ended
    requires !ReadsReply(w, step, side, id)
    ensures OnTheWay(Apply(w, step).value, side, id)
  {
    hide Apply, UnderWay, Passes;
    var w' := Apply(w, step).value;
    UnderWayLater(ConnOf(w, side), ConnOf(w, Other(side)), Unread(w, Other(side)), Unread(w, side),
                  ConnOf(w', side), ConnOf(w', Other(side)), id);
    if step == Sends(side) { SendPasses(w, side); }
    else if step == Sends(Other(side)) { SendPasses(w, Other(side)); }
    else {
      LivePasses(w, step, side);
      LivePasses(w, step, Other(side));
      if step == Reads(side) { ReadShortens(w, side); } else { BetweenStays(w, step, side); }
      if step == Reads(Other(side)) { ReadShortens(w, Other(side)); } else { BetweenStays(w, step, Other(side)); }
    }
  }

  lemma KeepsPending(c: Conn, c': Conn)
    requires KeepsOrEnds(c, c') && !c'.ended
    ensures c'.pending == c.pending
  {
  }

  lemma HearPending(c: Conn, m: Message)
    ensures Hear(c, m).pending.Keys <= c.pending.Keys
  {
  }

  lemma SubHearsPending(s: Sub, m: Message)
    ensures SubHears(s, m).conn.pending.Keys <= s.conn.pending.Keys
  {
    HearPending(s.conn, m);
  }

  lemma NewOfMain(w: World, step: Step, id: Id)
    requires Apply(w, step).Some? && !Apply(w, step).value.main.conn.ended
    requires id !in w.main.conn.pending && id in Apply(w, step).value.main.conn.pending
    ensures Waits(Apply(w, step).value.main.conn.outbox, id)
  {
    var c, c' := w.main.conn, Apply(w, step).value.main.conn;
    match step
    case MainFrames => AskPasses(c, MainFrame);
    case MainShuts => AskPasses(c, Shutdown);
    case Reads(OnMain) => HearPending(c, w.toMain[0]);
    case Deadline(OnMain, late) => TimeOutEnds(c, late);
    case _ =>
      hide Apply, KeepsOrEnds;
      MainKeeps(w, step);
      KeepsPending(c, c');
  }

  lemma NewOfSub(w: World, step: Step, id: Id)
    requires Apply(w, step).Some? && !Apply(w, step).value.sub.conn.ended
    requires id !in w.sub.conn.pending && id in Apply(w, step).value.sub.conn.pending
    ensures Waits(Apply(w, step).value.sub.conn.outbox, id)
  {
    var c, c' := w.sub.conn, Apply(w, step).value.sub.conn;
    match step
    case SubFrames => AskPasses(c, SubFrame);
    case Reads(OnSub) => SubHearsPending(w.sub, w.toSub[0]);
    case Deadline(OnSub, late) => TimeOutEnds(c, late);
    case _ =>
      hide Apply, KeepsOrEnds;
      SubKeeps(w, step);
      KeepsPending(c, c');
  }

  /** A request just made is in the outbox. */
  lemma NewIsUnderWay(w: World, step: Step, side: Side, id: Id)
    requires Apply(w, step).Some? && !ConnOf(Apply(w, step).value, side).ended
    requires id !in ConnOf(w, side).pending && id in ConnOf(Apply(w, step).value, side).pending
    ensures Waits(ConnOf(Apply(w, step).value, side).outbox, id)
  {
    hide Apply;
    if side.OnMain? { NewOfMain(w, step, id); } else { NewOfSub(w, step, id); }
  }

  lemma LiveBefore(w: World, step: Step)
    requires Apply(w, step).Some? && !Apply(w, step).value.main.conn.ended && !Apply(w, step).value.sub.conn.ended
    ensures !w.main.conn.ended && !w.sub.conn.ended
  {
  }

  /**
   * While both sides live, every pending request is on its way, waiting or being served on the other side, or
   * its reply is on its way back.
   */
  lemma {:induction false} NothingIsForgotten(steps: seq<Step>, side: Side, id: Id)
    requires Run(steps).Some? && id in ConnOf(Run(steps).value, side).pending
    requires !Run(steps).value.main.conn.ended && !Run(steps).value.sub.conn.ended
    ensures OnTheWay(Run(steps).value, side, id)
    decreases |steps|
  {
    hide Apply, Safe, Moves;
    if steps == [] {
      assert Asks(Request(1, Hello), 1) && INITIAL.sub.conn.outbox[0] == Request(1, Hello);
      assert id == 1 && side.OnSub?;
    } else {
      var most, step := steps[..|steps| - 1], steps[|steps| - 1];
      var w := Run(most).value;
      LiveBefore(w, step);
      ReachableSafe(most);
      SettledBooks(w, side);
      SafeLanes(w);
      if id in ConnOf(w, side).pending {
        NothingIsForgotten(most, side, id);
        StepMoves(w, step, side, id);
        StillPending(ConnOf(w, side), ConnOf(Run(steps).value, side), id, Now(w, step, side, id));
        StepUnderWay(w, step, side, id);
      } else {
        NewIsUnderWay(w, step, side, id);
      }
    }
  }

  lemma StillPending(c: Conn, c': Conn, id: Id, outcome: Option<Outcome>)
    requires Moves(c, c', id, outcome) && id in c.pending && id in c'.pending
    ensures outcome == None
  {
  }

  /** Once nothing is between two live sides and neither is at work, every request has been answered. */
  lemma AtRestAllIsAnswered(steps: seq<Step>, side: Side)
    requires Run(steps).Some? && !Run(steps).value.main.conn.ended && !Run(steps).value.sub.conn.ended
    requires var w := Run(steps).value;
             && w.toMain == [] && w.toSub == [] && w.main.conn.work.Free? && w.sub.conn.work.Free?
             && w.main.conn.outbox == [] && w.sub.conn.outbox == [] && w.main.conn.lane == [] && w.sub.conn.lane == []
    ensures ConnOf(Run(steps).value, side).pending == map[]
  {
    hide Run;
    forall id | id in ConnOf(Run(steps).value, side).pending ensures false { NothingIsForgotten(steps, side, id); }
  }

  /** The side has a handler running, which may end. */
  predicate Handling(w: World, side: Side) { ConnOf(w, side).work.Noting? || ConnOf(w, side).work.Serving? }

  /** While a request of a live pair is pending something can go on, and its deadline can always pass. */
  lemma NeverStuck(steps: seq<Step>, side: Side)
    requires Run(steps).Some? && !Run(steps).value.main.conn.ended && !Run(steps).value.sub.conn.ended
    requires ConnOf(Run(steps).value, side).pending != map[]
    ensures var w := Run(steps).value;
            || (exists s: Side :: Handling(w, s) && Apply(w, Finishes(s, Success)).Some?)
            || exists s: Side :: Apply(w, Sends(s)).Some? || Apply(w, Reads(s)).Some? || Apply(w, Dispatches(s)).Some?
                                 || Apply(w, Accepted(s)).Some?
    ensures forall id :: id in ConnOf(Run(steps).value, side).pending ==>
            Apply(Run(steps).value, Deadline(side, id)).Some?
  {
    hide Run, MainDispatches, SubDispatches, SubHears, Hear, MainAccepted, Finish, TimeOut;
    var w := Run(steps).value;
    if w.main.conn.outbox != [] { assert Apply(w, Sends(OnMain)).Some?; }
    if w.sub.conn.outbox != [] { assert Apply(w, Sends(OnSub)).Some?; }
    if w.toMain != [] { assert Apply(w, Reads(OnMain)).Some?; }
    if w.toSub != [] { assert Apply(w, Reads(OnSub)).Some?; }
    if w.main.conn.lane != [] && w.main.conn.work.Free? { assert Apply(w, Dispatches(OnMain)).Some?; }
    if w.sub.conn.lane != [] && w.sub.conn.work.Free? { assert Apply(w, Dispatches(OnSub)).Some?; }
    if !w.main.conn.work.Free? { Proceeds(w, OnMain); }
    if !w.sub.conn.work.Free? { Proceeds(w, OnSub); }
    if w.toMain == [] && w.toSub == [] && w.main.conn.work.Free? && w.sub.conn.work.Free?
       && w.main.conn.outbox == [] && w.sub.conn.outbox == [] && w.main.conn.lane == [] && w.sub.conn.lane == []
    {
      AtRestAllIsAnswered(steps, side);
    }
  }

  lemma Proceeds(w: World, side: Side)
    requires !ConnOf(w, side).ended && !ConnOf(w, side).work.Free?
    ensures || (Handling(w, side) && Apply(w, Finishes(side, Success)).Some?)
            || Apply(w, Accepted(side)).Some? || Apply(w, Sends(side)).Some?
  {
    hide MainAccepted, Finish;
  }

  /** When a side may ask, and that it then does, with the next identity. */
  lemma AskedWhen(w: World)
    ensures Apply(w, MainFrames).Some? <==>
            !w.main.conn.ended && !w.main.intent && w.main.phase in {Identified, Initializing, Ready}
    ensures Apply(w, MainShuts).Some? <==> Apply(w, MainFrames).Some?
    ensures Apply(w, SubFrames).Some? <==>
            !w.sub.conn.ended && w.sub.connected && !w.sub.shutdown && !w.sub.mutation
            && w.sub.status in {Identified, Initializing, Ready}
    ensures Apply(w, MainFrames).Some? ==>
      var c, c' := w.main.conn, Apply(w, MainFrames).value.main.conn;
      c'.outbox == c.outbox + [Request(c.nextId, MainFrame)] && c'.pending == c.pending[c.nextId := MainFrame]
      && c'.nextId == c.nextId + 1
    ensures Apply(w, MainShuts).Some? ==>
      var c, m' := w.main.conn, Apply(w, MainShuts).value.main;
      m'.conn.outbox == c.outbox + [Request(c.nextId, Shutdown)] && m'.conn.pending == c.pending[c.nextId := Shutdown]
      && m'.conn.nextId == c.nextId + 1 && m'.intent
    ensures Apply(w, SubFrames).Some? ==>
      var c, s' := w.sub.conn, Apply(w, SubFrames).value.sub;
      s'.conn.outbox == c.outbox + [Request(c.nextId, SubFrame)] && s'.conn.pending == c.pending[c.nextId := SubFrame]
      && s'.conn.nextId == c.nextId + 1 && s'.mutation
  {
    hide MainDispatches, SubDispatches, SubHears, Hear;
  }

  // ----- the statuses

  /** Statuses in the order a Subsystem may go through them. */
  function Place(status: Status): nat {
    match status
    case Awaiting => 0 case Identified => 1 case Initializing => 2 case Ready => 3 case Stopping => 4 case Failed => 5
  }

  /** An accepted status only moves forward, from the first accepted hello on, and stops only when it was asked to. */
  lemma StatusMovesForward(phase: Status, next: Status, intent: bool)
    ensures Allowed(phase, next, intent) <==>
            1 <= Place(phase) < Place(next) && (next.Stopping? ==> intent)
    ensures Operating(phase) <==> 1 <= Place(phase) < Place(Stopping)
  {
  }

  lemma DispatchPhase(w: World)
    requires w.main.conn.lane != []
    ensures var next := MainDispatches(w).main.phase;
            next == w.main.phase || (Allowed(w.main.phase, next, w.main.intent) && w.main.conn.lane[0] == Notify(next))
  {
  }

  /** What Main believes of the Subsystem's status never goes back over a run. */
  lemma PhaseMovesForward(w: World, step: Step)
    requires Reachable(w) && Apply(w, step).Some?
    ensures Place(w.main.phase) <= Place(Apply(w, step).value.main.phase)
    ensures Apply(w, step).value.main.phase != w.main.phase ==> step == Dispatches(OnMain) || step == Accepted(OnMain)
  {
    hide MainDispatches, SubDispatches, SubHears, Hear, TimeOut, End, Ask, Finish, Allowed, Run;
    if step == Dispatches(OnMain) {
      DispatchPhase(w);
      StatusMovesForward(w.main.phase, Apply(w, step).value.main.phase, w.main.intent);
    } else if step == Dispatches(OnSub) {
      SubDispatchKeepsMain(w);
    } else if step == Accepted(OnMain) {
      var steps :| Run(steps) == Some(w);
      ReachableSafe(steps);
      if w.main.conn.work.call.Hello? { HelloIsAwaited(w); }
    }
  }

  lemma HelloIsAwaited(w: World)
    requires Safe(w) && !w.main.conn.ended && w.main.conn.work.Replying? && w.main.conn.work.call.Hello?
    ensures w.main.phase.Awaiting?
  {
  }
}
