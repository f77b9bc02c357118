/**
 * The send queue of a Data peer (packages/data/src/runtime.ts): an array with a head index that is
 * compacted as it empties, one physical send at a time, and a terminal that settles whatever waits.
 */
module SendQueue {
  import opened Base

  datatype Record = Record(id: nat, text: string)
  datatype Outcome = Sent | Terminal
  datatype Settlement = Settlement(id: nat, outcome: Outcome)

  /** The records still in the array, in order. */
  function Live(queue: seq<Option<Record>>, head: nat): seq<Record>
    requires head <= |queue| && forall i :: head <= i < |queue| ==> queue[i].Some?
  {
    seq(|queue| - head, i requires 0 <= i < |queue| - head => queue[head + i].value)
  }

  /** Everything before the head is gone, everything from it on is there, and at least half is there. */
  ghost predicate Shape(queue: seq<Option<Record>>, head: nat) {
    && head <= |queue|
    && (forall i :: head <= i < |queue| ==> queue[i].Some?)
    && |queue| <= 2 * (|queue| - head)
  }

  /** Each call so far is settled once, in flight, or waiting. */
  ghost predicate EachOnce(settled: seq<Settlement>, calls: nat, flying: Option<Record>, live: seq<Record>) {
    && (forall i, j :: 0 <= i < j < |settled| ==> settled[i].id != settled[j].id)
    && (forall i :: 0 <= i < |settled| ==> settled[i].id < calls && (flying.Some? ==> settled[i].id != flying.value.id))
    && (forall i, j :: 0 <= i < |settled| && 0 <= j < |live| ==> settled[i].id != live[j].id)
    && calls == |settled| + (if flying.Some? then 1 else 0) + |live|
  }

  /** The calls from number `from` on, as records. */
  function From(asked: seq<string>, from: nat): seq<Record>
    requires from <= |asked|
  {
    seq(|asked| - from, i requires 0 <= i < |asked| - from => Record(from + i, asked[from + i]))
  }

  /**
   * The FIFO queue: the carrier was given the first calls in call order, the last of them may be in
   * flight, and until the end the rest waits in call order.
   */
  ghost predicate Fifo(asked: seq<string>, given: seq<string>, settled: seq<Settlement>, flying: Option<Record>,
      live: seq<Record>, terminal: bool)
  {
    && given <= asked
    && (flying.Some? ==> |given| > 0 && flying.value.id == |given| - 1)
    && live == (if terminal then [] else From(asked, |given|))
    && EachOnce(settled, |asked|, flying, live)
  }

  lemma Gives(asked: seq<string>, given: seq<string>, settled: seq<Settlement>, live: seq<Record>)
    requires Fifo(asked, given, settled, None, live, false) && live != []
    ensures Fifo(asked, given + [live[0].text], settled, Some(live[0]), live[1..], false)
  {
    assert live[0] == Record(|given|, asked[|given|]);
    assert given + [asked[|given|]] == asked[..|given| + 1];
    assert live[1..] == From(asked, |given| + 1);
  }

  lemma Asks(asked: seq<string>, given: seq<string>, settled: seq<Settlement>, flying: Option<Record>,
      live: seq<Record>, text: string)
    requires Fifo(asked, given, settled, flying, live, false)
    ensures Fifo(asked + [text], given, settled, flying, live + [Record(|asked|, text)], false)
  {
    assert live + [Record(|asked|, text)] == From(asked + [text], |given|);
  }

  lemma Lands(asked: seq<string>, given: seq<string>, settled: seq<Settlement>, flying: Record, live: seq<Record>,
      terminal: bool, outcome: Outcome)
    requires Fifo(asked, given, settled, Some(flying), live, terminal)
    ensures Fifo(asked, given, settled + [Settlement(flying.id, outcome)], None, live, terminal)
  {
    forall j | 0 <= j < |live| ensures live[j].id != flying.id {}
  }

  function Ended(records: seq<Record>): seq<Settlement> {
    seq(|records|, i requires 0 <= i < |records| => Settlement(records[i].id, Terminal))
  }

  lemma EndedMore(records: seq<Record>, r: Record)
    ensures Ended(records + [r]) == Ended(records) + [Settlement(r.id, Terminal)]
  {
  }

  lemma Finishes(asked: seq<string>, given: seq<string>, settled: seq<Settlement>, flying: Option<Record>,
      live: seq<Record>)
    requires Fifo(asked, given, settled, flying, live, false)
    ensures Fifo(asked, given, settled + Ended(live), flying, [], true)
  {
    var all := settled + Ended(live);
    forall i | |settled| <= i < |all| ensures all[i].id == |given| + (i - |settled|) {
      assert all[i] == Ended(live)[i - |settled|];
    }
  }

  class DataRuntime {
    var sendQueue: seq<Option<Record>>
    var sendHead: nat
    var sending: Option<Record>
    var terminal: bool
    /** How many sends were asked for, the texts of all of them, and those the carrier was given. */
    var calls: nat
    ghost var asked: seq<string>
    ghost var given: seq<string>
    ghost var settled: seq<Settlement>
    /** Elements moved by compaction and records taken out. */
    ghost var copied: nat
    ghost var taken: nat

    ghost function Waiting(): seq<Record>
      requires Shape(sendQueue, sendHead)
      reads this
    {
      Live(sendQueue, sendHead)
    }

    /** The array refines the FIFO queue, and compaction is paid for by the records taken out. */
    ghost predicate Valid()
      reads this
    {
      && Shape(sendQueue, sendHead)
      && calls == |asked|
      && Fifo(asked, given, settled, sending, Waiting(), terminal)
      && copied + sendHead <= taken
    }

    /** Nothing waits while the carrier is free. */
    ghost predicate Busy()
      reads this
    {
      Shape(sendQueue, sendHead) && (sending.None? ==> Waiting() == [])
    }

    constructor ()
      ensures Valid() && Busy() && asked == [] && given == [] && !terminal
    {
      sendQueue, sendHead, sending, terminal, calls := [], 0, None, false, 0;
      asked, given, settled, copied, taken := [], [], [], 0, 0;
    }

    /**
     * Takes the first waiting record; a half-empty array is compacted, an empty one dropped. The source
     * loops past missing records; none is ever missing, so its first turn returns.
     */
    method Dequeue() returns (r: Option<Record>)
      requires Shape(sendQueue, sendHead) && copied + sendHead <= taken
      modifies this`sendQueue, this`sendHead, this`copied, this`taken
      ensures Shape(sendQueue, sendHead) && copied + sendHead <= taken
      ensures r.None? ==> old(Waiting()) == [] && Waiting() == []
      ensures r.Some? ==> old(Waiting()) == [r.value] + Waiting()
    {
      ghost var was := Live(sendQueue, sendHead);
      if sendHead < |sendQueue| {
        var record := sendQueue[sendHead];
        sendQueue := sendQueue[sendHead := None];
        sendHead, taken := sendHead + 1, taken + 1;
        if sendHead == |sendQueue| {
          sendQueue, sendHead := [], 0;
        } else if sendHead * 2 >= |sendQueue| {
          copied := copied + (|sendQueue| - sendHead);
          sendQueue, sendHead := sendQueue[sendHead..], 0;
        }
        assert was == [record.value] + Live(sendQueue, sendHead);
        return record;
      }
      sendQueue, sendHead := [], 0;
      return None;
    }

    /** Gives the carrier the next record unless it is busy or the peer has ended. */
    method Drain()
      requires Valid()
      modifies this`sendQueue, this`sendHead, this`copied, this`taken, this`sending, this`given
      ensures Valid() && Busy()
      ensures old(sending).None? && !terminal && old(Waiting()) != [] ==>
        given == old(given) + [old(Waiting())[0].text] && Waiting() == old(Waiting())[1..]
      ensures !(old(sending).None? && !terminal && old(Waiting()) != []) ==>
              given == old(given) && Waiting() == old(Waiting()) && sending == old(sending)
    {
      hide Fifo;
      if terminal { NoneWaits(asked, given, settled, sending, Live(sendQueue, sendHead)); }
      if sending.Some? || terminal { return; }
      ghost var was := Live(sendQueue, sendHead);
      var record := Dequeue();
      if record.None? { return; }
      Gives(asked, given, settled, was);
      assert was[1..] == Live(sendQueue, sendHead);
      sending := record;
      given := given + [record.value.text];
    }

    /** A send: refused at once after the end, a caller's error if it cannot be encoded, else queued. */
    method Send(text: string, encodes: bool) returns (id: Option<nat>)
      requires Valid() && Busy()
      modifies this
      ensures Valid() && Busy() && terminal == old(terminal)
      ensures id == if old(terminal) || !encodes then None else Some(old(calls))
      ensures asked == if id.Some? then old(asked) + [text] else old(asked)
      ensures settled == old(settled) && old(given) <= given
    {
      hide Fifo;
      if terminal || !encodes { return None; }
      var record := Record(calls, text);
      ghost var was := Live(sendQueue, sendHead);
      sendQueue := sendQueue + [Some(record)];
      Asks(asked, given, settled, sending, was, text);
      calls, asked := calls + 1, asked + [text];
      assert Live(sendQueue, sendHead) == was + [record];
      Drain();
      return Some(calls - 1);
    }

    /** The physical send succeeded: it settles as sent even after the end, and the next one starts. */
    method SendSucceeds()
      requires Valid() && Busy() && sending.Some?
      modifies this
      ensures Valid() && Busy() && asked == old(asked) && terminal == old(terminal)
      ensures settled == old(settled) + [Settlement(old(sending).value.id, Sent)]
      ensures old(given) <= given
    {
      hide Fifo;
      var record := sending.value;
      Lands(asked, given, settled, record, Live(sendQueue, sendHead), terminal, Sent);
      sending := None;
      settled := settled + [Settlement(record.id, Sent)];
      Drain();
    }

    /** The physical send failed: the peer ends, unless it had, and whatever waits is settled. */
    method SendFails()
      requires Valid() && Busy() && sending.Some?
      modifies this
      ensures Valid() && Busy() && terminal && asked == old(asked) && given == old(given)
      ensures settled ==
              old(settled) + (if old(terminal) then [] else Ended(old(Waiting())))
              + [Settlement(old(sending).value.id, Terminal)]
      ensures !old(terminal) ==>
        && |settled| == |old(settled)| + |old(Waiting())| + 1
        && forall i :: 0 <= i < |old(Waiting())| ==>
          settled[|old(settled)| + i] == Settlement(old(Waiting())[i].id, Terminal)
    {
      hide Fifo;
      var record := sending.value;
      Commit();
      NoneWaits(asked, given, settled, sending, Live(sendQueue, sendHead));
      Lands(asked, given, settled, record, [], true, Terminal);
      sending := None;
      settled := settled + [Settlement(record.id, Terminal)];
    }

    /** The peer ends once; every waiting record is settled then, in order. */
    method Commit()
      requires Valid()
      modifies this
      ensures Valid() && Busy() && terminal && asked == old(asked) && given == old(given) && sending == old(sending)
      ensures old(terminal) ==> settled == old(settled)
      ensures !old(terminal) ==> settled == old(settled) + Ended(old(Waiting()))
      ensures !old(terminal) ==>
        && old(settled) <= settled && |settled| == |old(settled)| + |old(Waiting())|
        && forall i :: 0 <= i < |old(Waiting())| ==>
          settled[|old(settled)| + i] == Settlement(old(Waiting())[i].id, Terminal)
    {
      hide Fifo;
      if terminal {
        NoneWaits(asked, given, settled, sending, Live(sendQueue, sendHead));
        return;
      }
      ghost var was, before := Live(sendQueue, sendHead), settled;
      Finishes(asked, given, settled, sending, was);
      SettleQueued(was);
      terminal := true;
    }

    /** Takes out and settles every waiting record. */
    method SettleQueued(ghost was: seq<Record>)
      requires Shape(sendQueue, sendHead) && copied + sendHead <= taken && Waiting() == was
      modifies this`sendQueue, this`sendHead, this`copied, this`taken, this`settled
      ensures Shape(sendQueue, sendHead) && copied + sendHead <= taken && Waiting() == []
              && settled == old(settled) + Ended(was)
    {
      ghost var n := 0;
      var record := Dequeue();
      assert was[..0] == [];
      while record.Some?
        invariant Shape(sendQueue, sendHead) && copied + sendHead <= taken
        invariant n <= |was| && settled == old(settled) + Ended(was[..n])
        invariant if record.None? then n == |was| && Waiting() == []
                  else n < |was| && was[n..] == [record.value] + Waiting()
        decreases |was| - n
      {
        assert was[n] == record.value && was[..n + 1] == was[..n] + [was[n]];
        EndedMore(was[..n], was[n]);
        settled := settled + [Settlement(record.value.id, Terminal)];
        assert was[n + 1..] == Waiting() by { assert was[n..][1..] == was[n + 1..]; }
        n := n + 1;
        record := Dequeue();
      }
      assert was[..n] == was;
    }
  }

  lemma NoneWaits(asked: seq<string>, given: seq<string>, settled: seq<Settlement>, flying: Option<Record>,
      live: seq<Record>)
    requires Fifo(asked, given, settled, flying, live, true)
    ensures live == []
  {
  }
}
