/**
 * The multi-source controls machine and the directional tracker fed by it
 * (game-libs/game-common-controls/src/controls-machine.ts, directional-controls.ts).
 */
module Controls {
  import opened Base

  datatype Button =
    | Up | Down | Left | Right
    | South | East | West | North
    | LeftBumper | RightBumper | LeftTrigger | RightTrigger
    | Start | Select

  const BUTTONS: seq<Button> :=
    [Up, Down, Left, Right, South, East, West, North, LeftBumper, RightBumper, LeftTrigger, RightTrigger, Start, Select]

  datatype Action = Press | Release
  datatype Edge = Edge(action: Action, button: Button, repeat: bool)

  /** What a call publishes: a new state if any, and events. */
  datatype Publication = Publication(state: Option<seq<Button>>, events: seq<Edge>)

  const NONE := Publication(None, [])

  datatype Sample = Sample(index: int, pressed: seq<Button>)

  // ----- sets of buttons in button order

  lemma EveryButton(b: Button)
    ensures b in BUTTONS
  {
    match b
    case Up => assert BUTTONS[0] == b;
    case Down => assert BUTTONS[1] == b;
    case Left => assert BUTTONS[2] == b;
    case Right => assert BUTTONS[3] == b;
    case South => assert BUTTONS[4] == b;
    case East => assert BUTTONS[5] == b;
    case West => assert BUTTONS[6] == b;
    case North => assert BUTTONS[7] == b;
    case LeftBumper => assert BUTTONS[8] == b;
    case RightBumper => assert BUTTONS[9] == b;
    case LeftTrigger => assert BUTTONS[10] == b;
    case RightTrigger => assert BUTTONS[11] == b;
    case Start => assert BUTTONS[12] == b;
    case Select => assert BUTTONS[13] == b;
  }

  /** The place of a button in button order. */
  function Rank(b: Button): nat {
    match b
    case Up => 0 case Down => 1 case Left => 2 case Right => 3
    case South => 4 case East => 5 case West => 6 case North => 7
    case LeftBumper => 8 case RightBumper => 9 case LeftTrigger => 10 case RightTrigger => 11
    case Start => 12 case Select => 13
  }

  ghost predicate InOrder(buttons: seq<Button>) {
    forall i, j :: 0 <= i < j < |buttons| ==> Rank(buttons[i]) < Rank(buttons[j])
  }

  lemma ButtonsInOrder()
    ensures InOrder(BUTTONS)
  {
    forall i | 0 <= i < |BUTTONS| ensures Rank(BUTTONS[i]) == i {
      if i < 5 { assert i == 0 || i == 1 || i == 2 || i == 3 || i == 4; }
      else if i < 10 { assert i == 5 || i == 6 || i == 7 || i == 8 || i == 9; }
      else { assert i == 10 || i == 11 || i == 12 || i == 13; }
    }
  }

  function Among(buttons: seq<Button>, s: set<Button>): seq<Button> {
    if buttons == [] then []
    else if buttons[0] in s then [buttons[0]] + Among(buttons[1..], s)
    else Among(buttons[1..], s)
  }

  /** The members of a set, as a state lists them. */
  function Listed(s: set<Button>): seq<Button> { Among(BUTTONS, s) }

  function SetOf(buttons: seq<Button>): set<Button> { set b | b in buttons }

  lemma {:induction false} AmongHas(buttons: seq<Button>, s: set<Button>, b: Button)
    ensures b in Among(buttons, s) <==> b in buttons && b in s
  {
    if buttons != [] {
      AmongHas(buttons[1..], s, b);
      assert buttons == [buttons[0]] + buttons[1..];
    }
  }

  /** A state says exactly which set it lists, so equal lists are equal sets. */
  lemma ListedIs(s: set<Button>)
    ensures SetOf(Listed(s)) == s
  {
    forall b ensures b in SetOf(Listed(s)) <==> b in s { AmongHas(BUTTONS, s, b); EveryButton(b); }
  }

  lemma {:induction false} AmongInOrder(buttons: seq<Button>, s: set<Button>)
    requires InOrder(buttons)
    ensures InOrder(Among(buttons, s))
  {
    if buttons != [] {
      var rest := buttons[1..];
      assert forall i :: 0 <= i < |rest| ==> rest[i] == buttons[i + 1];
      AmongInOrder(rest, s);
      forall b | b in Among(rest, s) ensures Rank(buttons[0]) < Rank(b) {
        AmongHas(rest, s, b);
        var i :| 0 <= i < |rest| && rest[i] == b;
        assert buttons[i + 1] == b;
      }
      if buttons[0] in s { FirstInOrder(buttons[0], Among(rest, s)); }
    }
  }

  lemma FirstInOrder(b: Button, rest: seq<Button>)
    requires InOrder(rest) && forall x :: x in rest ==> Rank(b) < Rank(x)
    ensures InOrder([b] + rest)
  {
  }

  /** A state lists its buttons in button order. */
  lemma ListedInOrder(s: set<Button>)
    ensures InOrder(Listed(s))
  {
    ButtonsInOrder();
    AmongInOrder(BUTTONS, s);
  }

  lemma SameListing(s: set<Button>, t: set<Button>)
    ensures Listed(s) == Listed(t) <==> s == t
  {
    ListedIs(s);
    ListedIs(t);
  }

  /** Presses and releases in button order. */
  function Edges(buttons: seq<Button>, presses: set<Button>, releases: set<Button>): seq<Edge> {
    if buttons == [] then []
    else
      (if buttons[0] in presses then [Edge(Press, buttons[0], false)]
       else if buttons[0] in releases then [Edge(Release, buttons[0], false)] else [])
      + Edges(buttons[1..], presses, releases)
  }

  lemma {:induction false} EdgesHas(buttons: seq<Button>, presses: set<Button>, releases: set<Button>, e: Edge)
    requires presses !! releases
    ensures e in Edges(buttons, presses, releases) <==>
            !e.repeat && e.button in buttons && (if e.action.Press? then e.button in presses else e.button in releases)
  {
    if buttons != [] {
      EdgesHas(buttons[1..], presses, releases, e);
      assert buttons == [buttons[0]] + buttons[1..];
    }
  }

  function ButtonsOf(events: seq<Edge>): seq<Button> {
    seq(|events|, i requires 0 <= i < |events| => events[i].button)
  }

  lemma NoEventsNoButtons()
    ensures ButtonsOf([]) == []
  {
  }

  lemma FirstButton(e: Edge, later: seq<Edge>)
    ensures ButtonsOf([e] + later) == [e.button] + ButtonsOf(later)
  {
  }

  lemma {:induction false} EdgesList(buttons: seq<Button>, presses: set<Button>, releases: set<Button>)
    ensures ButtonsOf(Edges(buttons, presses, releases)) == Among(buttons, presses + releases)
  {
    hide ButtonsOf;
    NoEventsNoButtons();
    if buttons != [] {
      EdgesList(buttons[1..], presses, releases);
      var b, later := buttons[0], Edges(buttons[1..], presses, releases);
      FirstButton(Edge(Press, b, false), later);
      FirstButton(Edge(Release, b, false), later);
      if b !in presses && b !in releases { assert [] + later == later; }
    }
  }

  /** Exactly one event for each press and each release, in button order. */
  ghost predicate Tells(events: seq<Edge>, presses: set<Button>, releases: set<Button>) {
    && (forall e :: e in events <==>
       !e.repeat && (if e.action.Press? then e.button in presses else e.button in releases))
    && InOrder(ButtonsOf(events))
  }

  lemma EdgesTell(presses: set<Button>, releases: set<Button>)
    requires presses !! releases
    ensures Tells(Edges(BUTTONS, presses, releases), presses, releases)
  {
    ButtonsInOrder();
    EdgesList(BUTTONS, presses, releases);
    AmongInOrder(BUTTONS, presses + releases);
    forall e ensures e in Edges(BUTTONS, presses, releases) <==>
        !e.repeat && (if e.action.Press? then e.button in presses else e.button in releases)
    {
      EdgesHas(BUTTONS, presses, releases, e);
      EveryButton(e.button);
    }
  }

  lemma Regroup(a: seq<Edge>, b: seq<Edge>, c: seq<Edge>)
    ensures a + (b + c) == (a + b) + c
  {
  }

  lemma EdgesFirst(buttons: seq<Button>, presses: set<Button>, releases: set<Button>)
    requires buttons != []
    ensures Edges(buttons, presses, releases) ==
            Edges([buttons[0]], presses, releases) + Edges(buttons[1..], presses, releases)
  {
    assert [buttons[0]][1..] == [] && Edges([], presses, releases) == [];
  }

  lemma {:induction false} EdgesMore(buttons: seq<Button>, b: Button, presses: set<Button>, releases: set<Button>)
    ensures Edges(buttons + [b], presses, releases) == Edges(buttons, presses, releases)
            + (if b in presses then [Edge(Press, b, false)] else if b in releases then [Edge(Release, b, false)]
                else [])
  {
    var last := if b in presses then [Edge(Press, b, false)] else if b in releases then [Edge(Release, b, false)]
        else [];
    if buttons == [] {
      assert [] + [b] == [b] && [b][1..] == [];
      assert Edges([b], presses, releases) == last + Edges([], presses, releases);
    } else {
      EdgesMore(buttons[1..], b, presses, releases);
      assert (buttons + [b])[1..] == buttons[1..] + [b];
      Regroup(Edges([buttons[0]], presses, releases), Edges(buttons[1..], presses, releases), last);
      EdgesFirst(buttons + [b], presses, releases);
      EdgesFirst(buttons, presses, releases);
    }
  }

  // ----- pads

  function PadsDown(pads: map<nat, set<Button>>): set<Button> {
    set i, b | i in pads && b in pads[i] :: b
  }

  /** No later sample is of the same pad. */
  predicate IsLast(samples: seq<Sample>, k: nat)
    requires k < |samples|
  {
    forall l :: k < l < |samples| ==> samples[l].index != samples[k].index
  }

  /** The pads a list of samples describes: each by the last sample of its index. */
  ghost predicate Describes(samples: seq<Sample>, pads: map<nat, set<Button>>) {
    && (forall i: nat :: i in pads <==> exists k :: 0 <= k < |samples| && samples[k].index == i)
    && (forall k :: 0 <= k < |samples| && samples[k].index >= 0 && IsLast(samples, k) ==>
          samples[k].index in pads && forall b :: b in pads[samples[k].index] <==> b in samples[k].pressed)
  }

  lemma OneMoreSample(samples: seq<Sample>, pads: map<nat, set<Button>>, s: Sample)
    requires Describes(samples, pads)
    ensures Describes(samples + [s], if s.index < 0 then pads else pads[s.index := SetOf(s.pressed)])
  {
    var more, pads' := samples + [s], if s.index < 0 then pads else pads[s.index := SetOf(s.pressed)];
    assert more[|samples|] == s;
    assert forall k :: 0 <= k < |samples| ==> more[k] == samples[k];
    forall i: nat ensures i in pads' <==> exists k :: 0 <= k < |more| && more[k].index == i {
      if k :| 0 <= k < |more| && more[k].index == i {
        if k < |samples| { assert samples[k].index == i; }
      }
      if i in pads {
        var k :| 0 <= k < |samples| && samples[k].index == i;
        assert more[k].index == i;
      }
    }
    forall k | 0 <= k < |more| && more[k].index >= 0 && IsLast(more, k)
      ensures more[k].index in pads' && forall b :: b in pads'[more[k].index] <==> b in more[k].pressed
    {
      if k < |samples| {
        assert more[|samples|].index != more[k].index;
        forall l | k < l < |samples| ensures samples[l].index != samples[k].index {
          assert more[l].index != more[k].index;
        }
        assert samples[k].index in pads;
      }
    }
  }

  /** Newly pressed on a pad that was there before. */
  function Pressed(pads: map<nat, set<Button>>, incoming: map<nat, set<Button>>): set<Button> {
    set i, b | i in incoming && i in pads && b in incoming[i] - pads[i] :: b
  }

  function Held(pads: map<nat, set<Button>>, i: nat): set<Button> {
    if i in pads then pads[i] else {}
  }

  /** No longer pressed on a pad, or pressed on one that is gone. */
  function Released(pads: map<nat, set<Button>>, incoming: map<nat, set<Button>>): set<Button> {
    set i, b | i in pads && b in pads[i] && b !in Held(incoming, i) :: b
  }

  /** As `Pressed` and `Released`, of the pads in `some` only. */
  function PressedOn(some: set<nat>, pads: map<nat, set<Button>>, incoming: map<nat, set<Button>>): set<Button> {
    set i, b | i in some && i in incoming && i in pads && b in incoming[i] - pads[i] :: b
  }

  function ReleasedOn(some: set<nat>, pads: map<nat, set<Button>>, incoming: map<nat, set<Button>>): set<Button> {
    set i, b | i in some && i in pads && b in pads[i] && b !in Held(incoming, i) :: b
  }

  lemma OnOneMore(some: set<nat>, i: nat, pads: map<nat, set<Button>>, incoming: map<nat, set<Button>>)
    ensures PressedOn(some + {i}, pads, incoming) ==
            PressedOn(some, pads, incoming) + (if i in incoming && i in pads then incoming[i] - pads[i] else {})
    ensures ReleasedOn(some + {i}, pads, incoming) ==
            ReleasedOn(some, pads, incoming) + (Held(pads, i) - Held(incoming, i))
  {
    var p, r := PressedOn(some + {i}, pads, incoming), ReleasedOn(some + {i}, pads, incoming);
    var p0, r0 := PressedOn(some, pads, incoming), ReleasedOn(some, pads, incoming);
    forall b ensures b in p <==> b in p0 || (i in incoming && i in pads && b in incoming[i] - pads[i]) {
      if b in p {
        var j :| j in some + {i} && j in incoming && j in pads && b in incoming[j] - pads[j];
        if j != i { assert b in p0; }
      }
    }
    forall b ensures b in r <==> b in r0 || b in Held(pads, i) - Held(incoming, i) {
      if b in r {
        var j :| j in some + {i} && j in pads && b in pads[j] && b !in Held(incoming, j);
        if j != i { assert b in r0; }
      }
    }
  }

  lemma OnAll(pads: map<nat, set<Button>>, incoming: map<nat, set<Button>>)
    ensures PressedOn(incoming.Keys, pads, incoming) == Pressed(pads, incoming)
    ensures ReleasedOn(incoming.Keys + (pads.Keys - incoming.Keys), pads, incoming) == Released(pads, incoming)
    ensures PressedOn(incoming.Keys + (pads.Keys - incoming.Keys), pads, incoming) == Pressed(pads, incoming)
  {
    var all := incoming.Keys + (pads.Keys - incoming.Keys);
    forall b ensures b in ReleasedOn(all, pads, incoming) <==> b in Released(pads, incoming) {
      if b in Released(pads, incoming) {
        var j :| j in pads && b in pads[j] && b !in Held(incoming, j);
        assert j in all;
      }
    }
    forall b ensures b in PressedOn(incoming.Keys, pads, incoming) <==> b in Pressed(pads, incoming) {
      if b in Pressed(pads, incoming) {
        var j :| j in incoming && j in pads && b in incoming[j] - pads[j];
        assert j in incoming.Keys;
      }
    }
    forall b ensures b in PressedOn(all, pads, incoming) <==> b in Pressed(pads, incoming) {
      if b in Pressed(pads, incoming) {
        var j :| j in incoming && j in pads && b in incoming[j] - pads[j];
        assert j in all;
      }
    }
  }

  /** A button no source holds any more was released on some pad. */
  lemma RemovalIsRelease(pads: map<nat, set<Button>>, incoming: map<nat, set<Button>>, others: set<Button>, b: Button)
    requires b in others + PadsDown(pads) && b !in others + PadsDown(incoming)
    ensures b in Released(pads, incoming)
  {
    var i :| i in pads && b in pads[i];
    IsDown(incoming, i, b);
  }

  lemma IsDown(pads: map<nat, set<Button>>, i: nat, b: Button)
    ensures b in Held(pads, i) ==> b in PadsDown(pads)
  {
  }

  /** What a publication must be for its consumers: the state is the one in force, and events agree with it. */
  ghost predicate Coherent(p: Publication, down: set<Button>) {
    && (p.state.Some? ==> p.state == Some(Listed(down)))
    && (forall e :: e in p.events && !e.repeat ==> p.state.Some? && (e.action.Press? <==> e.button in down))
  }

  class ControlsMachine {
    var windowUsable: bool
    var keyboardCapture: bool
    var keyboard: set<Button>
    var pads: map<nat, set<Button>>
    var custom: set<Button>
    /** The last state published, and before any the empty one. */
    ghost var published: seq<Button>

    /** The union of all sources. */
    function Effective(): (down: set<Button>)
      reads this
      ensures forall b :: b in down <==> b in keyboard || b in custom || exists i :: i in pads && b in pads[i]
    {
      keyboard + PadsDown(pads) + custom
    }

    /** The last published state is the union of the sources, which are empty when not in use. */
    ghost predicate Valid()
      reads this
    {
      && published == Listed(Effective())
      && (keyboardCapture ==> windowUsable)
      && (!keyboardCapture ==> keyboard == {})
      && (!windowUsable ==> pads == map[] && custom == {})
    }

    constructor ()
      ensures Valid() && Effective() == {} && !windowUsable
    {
      windowUsable, keyboardCapture, keyboard, pads, custom := false, false, {}, map[], {};
      published := [];
      new;
      hide Among;
      NoPads();
      NothingListed(BUTTONS);
    }

    function OtherSourceDown(b: Button): bool
      reads this
    {
      b in PadsDown(pads) || b in custom
    }

    method Keydown(button: Button, domRepeat: bool) returns (p: Publication)
      requires Valid()
      modifies this`keyboard, this`published
      ensures Valid() && Coherent(p, Effective())
      ensures keyboard == if keyboardCapture then old(keyboard) + {button} else old(keyboard)
      ensures Effective() == if keyboardCapture then old(Effective()) + {button} else old(Effective())
      ensures p.state.Some? <==> Effective() != old(Effective())
      ensures p.events == if !keyboardCapture then []
                          else if Effective() != old(Effective()) then [Edge(Press, button, false)]
                          else if domRepeat && button in old(keyboard) && button !in custom
                                  && forall i :: i in pads ==> button !in pads[i]
                              then [Edge(Press, button, true)]
                          else []
    {
      if !keyboardCapture { return NONE; }
      if button !in keyboard {
        var wasEffective := OtherSourceDown(button);
        keyboard := keyboard + {button};
        if wasEffective {
          assert Effective() == old(Effective());
          return NONE;
        }
        p := Publication(Some(Listed(Effective())), [Edge(Press, button, false)]);
        published := Listed(Effective());
        return;
      }
      assert Effective() == old(Effective()) + {button};
      if domRepeat && !OtherSourceDown(button) { return Publication(None, [Edge(Press, button, true)]); }
      return NONE;
    }

    method Keyup(button: Button) returns (p: Publication)
      requires Valid()
      modifies this`keyboard, this`published
      ensures Valid() && Coherent(p, Effective())
              && keyboard == (if keyboardCapture then old(keyboard) - {button} else old(keyboard))
      ensures p.state.Some? <==> Effective() != old(Effective())
      ensures p.events == if Effective() != old(Effective()) then [Edge(Release, button, false)] else []
    {
      if !keyboardCapture || button !in keyboard {
        assert keyboard == keyboard - {button};
        return NONE;
      }
      keyboard := keyboard - {button};
      if OtherSourceDown(button) {
        assert Effective() == old(Effective());
        return NONE;
      }
      assert button in old(Effective()) && button !in Effective();
      p := Publication(Some(Listed(Effective())), [Edge(Release, button, false)]);
      published := Listed(Effective());
    }

    method ApplyGamepadFrame(samples: seq<Sample>) returns (p: Publication)
      requires Valid()
      modifies this`pads, this`published
      ensures Valid() && Coherent(p, Effective())
      ensures if windowUsable then Describes(samples, pads) else pads == old(pads)
      ensures p.state.Some? <==> Effective() != old(Effective())
      ensures Tells(p.events,
                    set b | b in Effective() - old(Effective())
                            && exists i :: i in old(pads) && i in pads && b in pads[i] && b !in old(pads)[i],
                    old(Effective()) - Effective())
    {
      hide Pressed, Released, Describes;
      if !windowUsable {
        assert old(Effective()) == Effective();
        NothingTold();
        return NONE;
      }
      var prev := Effective();
      var incoming := ReadPads(samples);
      var presses, releases := ComparePads(pads, incoming);
      ghost var known := pads;
      pads := incoming;
      var next := Effective();
      forall b | b in prev - next ensures b in releases { RemovalIsRelease(known, incoming, keyboard + custom, b); }
      SameListing(prev, next);
      var events := EventLoop(prev, next, presses, releases);
      assert (prev - next) * releases == prev - next;
      p := Publication(if prev == next then None else Some(Listed(next)), events);
      FrameCoherent(p, prev, next, presses, releases);
      published := Listed(next);
      EdgesTell((next - prev) * presses, prev - next);
      assert (set b | b in next - prev
                      && exists i :: i in known && i in incoming && b in incoming[i] && b !in known[i])
          == (next - prev) * presses;
    }

    method ApplyCustomState(pressed: seq<Button>) returns (p: Publication)
      requires Valid()
      modifies this`custom, this`published
      ensures Valid() && Coherent(p, Effective()) && custom == (if windowUsable then SetOf(pressed) else old(custom))
      ensures p.state.Some? <==> Effective() != old(Effective())
      ensures Tells(p.events, Effective() - old(Effective()), old(Effective()) - Effective())
    {
      hide Edges, Listed, PadsDown, Tells;
      NothingTold();
      if !windowUsable {
        assert Effective() - old(Effective()) == {} && old(Effective()) - Effective() == {};
        return NONE;
      }
      var prev := Effective();
      custom := SetOf(pressed);
      var next := Effective();
      SameListing(prev, next);
      if prev == next {
        assert next - prev == {} && prev - next == {};
        return NONE;
      }
      var events := EventLoop(prev, next, next - prev, prev - next);
      assert (next - prev) * (next - prev) == next - prev && (prev - next) * (prev - next) == prev - next;
      p := Publication(Some(Listed(next)), events);
      FrameCoherent(p, prev, next, next - prev, prev - next);
      EdgesTell(next - prev, prev - next);
      published := Listed(next);
    }

    /** A Window transition empties every source, takes the baseline pads and always publishes the state. */
    method SetWindowUsable(usable: bool, baseline: seq<Sample>) returns (p: Publication)
      requires Valid()
      modifies this
      ensures Valid() && Coherent(p, Effective()) && windowUsable == usable && p.events == []
      ensures p.state.Some? <==> usable != old(windowUsable)
      ensures usable != old(windowUsable) ==>
        !keyboardCapture && keyboard == {} && custom == {}
        && if usable then Describes(baseline, pads) else pads == map[]
      ensures usable == old(windowUsable) ==> unchanged(this)
    {
      if usable == windowUsable { return NONE; }
      windowUsable, keyboardCapture, keyboard, pads, custom := usable, false, {}, map[], {};
      if usable { pads := ReadPads(baseline); }
      p := Publication(Some(Listed(Effective())), []);
      published := Listed(Effective());
    }

    method SetKeyboardCapture(available: bool) returns (p: Publication)
      requires Valid()
      modifies this`keyboardCapture, this`keyboard, this`published
      ensures Valid() && Coherent(p, Effective()) && p.events == [] && keyboardCapture == (windowUsable && available)
      ensures keyboard == if keyboardCapture then old(keyboard) else {}
      ensures p.state.Some? <==> Effective() != old(Effective())
    {
      var next := windowUsable && available;
      if next == keyboardCapture { return NONE; }
      keyboardCapture := next;
      if next || keyboard == {} { return NONE; }
      var prev := Effective();
      keyboard := {};
      SameListing(prev, Effective());
      p := Publication(if prev == Effective() then None else Some(Listed(Effective())), []);
      published := Listed(Effective());
    }
  }

  /** The two loops that compare incoming pads with the known ones. */
  method ComparePads(pads: map<nat, set<Button>>, incoming: map<nat, set<Button>>)
      returns (presses: set<Button>, releases: set<Button>)
    ensures presses == Pressed(pads, incoming) && releases == Released(pads, incoming)
    ensures forall b :: b in presses <==>
            exists i :: i in pads && i in incoming && b in incoming[i] && b !in pads[i]
    ensures forall b :: b in releases <==>
            exists i :: i in pads && b in pads[i] && (i in incoming ==> b !in incoming[i])
  {
    hide PressedOn, ReleasedOn, Pressed, Released;
    presses, releases := CompareIncoming(pads, incoming);
    OnAll(pads, incoming);
    releases := ReleaseGone(pads, incoming, releases);
    PressedAre(pads, incoming);
  }

  lemma PressedAre(pads: map<nat, set<Button>>, incoming: map<nat, set<Button>>)
    ensures forall b :: b in Pressed(pads, incoming) <==>
            exists i :: i in pads && i in incoming && b in incoming[i] && b !in pads[i]
    ensures forall b :: b in Released(pads, incoming) <==>
            exists i :: i in pads && b in pads[i] && (i in incoming ==> b !in incoming[i])
  {
    forall b ensures b in Pressed(pads, incoming) <==>
        exists i :: i in pads && i in incoming && b in incoming[i] && b !in pads[i]
    {
      if i :| i in pads && i in incoming && b in incoming[i] && b !in pads[i] { assert b in incoming[i] - pads[i]; }
    }
    forall b ensures b in Released(pads, incoming) <==>
        exists i :: i in pads && b in pads[i] && (i in incoming ==> b !in incoming[i])
    {
      if i :| i in pads && b in pads[i] && (i in incoming ==> b !in incoming[i]) { assert b !in Held(incoming, i); }
    }
  }

  method CompareIncoming(pads: map<nat, set<Button>>, incoming: map<nat, set<Button>>)
      returns (presses: set<Button>, releases: set<Button>)
    ensures presses == PressedOn(incoming.Keys, pads, incoming) && releases == ReleasedOn(incoming.Keys, pads, incoming)
  {
    hide PressedOn, ReleasedOn;
    presses, releases := {}, {};
    var todo := incoming.Keys;
    ghost var done: set<nat> := {};
    NoneCompared(pads, incoming);
    while |todo| > 0
      invariant done + todo == incoming.Keys
      invariant presses == PressedOn(done, pads, incoming) && releases == ReleasedOn(done, pads, incoming)
      decreases |todo|
    {
      var i := AnyOf(todo);
      OnOneMore(done, i, pads, incoming);
      if i in pads { presses, releases := CompareButtons(presses, releases, pads[i], incoming[i]); }
      done, todo := done + {i}, todo - {i};
    }
    assert done == incoming.Keys;
  }

  method AnyOf(s: set<nat>) returns (i: nat)
    requires |s| > 0
    ensures i in s
  {
    i :| i in s;
  }

  method ReleaseGone(pads: map<nat, set<Button>>, incoming: map<nat, set<Button>>, before: set<Button>)
      returns (releases: set<Button>)
    requires before == ReleasedOn(incoming.Keys, pads, incoming)
    ensures releases == ReleasedOn(incoming.Keys + (pads.Keys - incoming.Keys), pads, incoming)
  {
    hide ReleasedOn, PressedOn, Held;
    releases := before;
    var todo := pads.Keys - incoming.Keys;
    ghost var done, all := incoming.Keys, incoming.Keys + todo;
    while |todo| > 0
      invariant todo <= pads.Keys - incoming.Keys && done + todo == all
      invariant releases == ReleasedOn(done, pads, incoming)
      decreases |todo|
    {
      var i := AnyOf(todo);
      OnOneMore(done, i, pads, incoming);
      GoneHeld(pads, incoming, i);
      releases := releases + pads[i];
      done, todo := done + {i}, todo - {i};
    }
    NoneLeft(done, todo, all);
  }

  lemma GoneHeld(pads: map<nat, set<Button>>, incoming: map<nat, set<Button>>, i: nat)
    requires i in pads && i !in incoming
    ensures Held(pads, i) - Held(incoming, i) == pads[i]
  {
  }

  lemma NoneLeft(done: set<nat>, todo: set<nat>, all: set<nat>)
    requires |todo| == 0 && done + todo == all
    ensures done == all
  {
    assert todo == {};
  }

  /** The loop over all buttons of one known pad. */
  method CompareButtons(presses: set<Button>, releases: set<Button>, existing: set<Button>, pressed: set<Button>)
      returns (presses': set<Button>, releases': set<Button>)
    ensures presses' == presses + (pressed - existing) && releases' == releases + (existing - pressed)
  {
    presses', releases' := presses, releases;
    for k := 0 to |BUTTONS|
      invariant presses' == presses + (pressed - existing) * SetOf(BUTTONS[..k])
      invariant releases' == releases + (existing - pressed) * SetOf(BUTTONS[..k])
    {
      var button := BUTTONS[k];
      assert SetOf(BUTTONS[..k + 1]) == SetOf(BUTTONS[..k]) + {button};
      if button !in existing && button in pressed { presses' := presses' + {button}; }
      else if button in existing && button !in pressed { releases' := releases' + {button}; }
    }
    forall b ensures b in SetOf(BUTTONS) { EveryButton(b); }
    assert BUTTONS[..|BUTTONS|] == BUTTONS;
  }

  method ReadPads(samples: seq<Sample>) returns (pads: map<nat, set<Button>>)
    ensures Describes(samples, pads)
  {
    hide Describes;
    pads := map[];
    NoSamples();
    for k := 0 to |samples|
      invariant Describes(samples[..k], pads)
    {
      OneMoreSample(samples[..k], pads, samples[k]);
      assert samples[..k + 1] == samples[..k] + [samples[k]];
      if samples[k].index < 0 { continue; }
      pads := pads[samples[k].index := SetOf(samples[k].pressed)];
    }
    assert samples[..|samples|] == samples;
  }

  lemma NoSamples()
    ensures Describes([], map[])
  {
  }

  lemma NothingTold()
    ensures Tells([], {}, {})
  {
  }

  /** The event loop over all buttons. */
  method EventLoop(prev: set<Button>, next: set<Button>, presses: set<Button>, releases: set<Button>)
      returns (events: seq<Edge>)
    ensures events == Edges(BUTTONS, (next - prev) * presses, (prev - next) * releases)
    ensures Tells(events, (next - prev) * presses, (prev - next) * releases)
  {
    hide Edges, Tells;
    EdgesTell((next - prev) * presses, (prev - next) * releases);
    events := [];
    NoButtons((next - prev) * presses, (prev - next) * releases);
    for k := 0 to |BUTTONS|
      invariant events == Edges(BUTTONS[..k], (next - prev) * presses, (prev - next) * releases)
    {
      var button := BUTTONS[k];
      EdgesMore(BUTTONS[..k], button, (next - prev) * presses, (prev - next) * releases);
      assert BUTTONS[..k + 1] == BUTTONS[..k] + [button];
      var was, now := button in prev, button in next;
      if !was && now && button in presses { events := events + [Edge(Press, button, false)]; }
      else if was && !now && button in releases { events := events + [Edge(Release, button, false)]; }
    }
    assert BUTTONS[..|BUTTONS|] == BUTTONS;
  }

  lemma NoneCompared(pads: map<nat, set<Button>>, incoming: map<nat, set<Button>>)
    ensures PressedOn({}, pads, incoming) == {} && ReleasedOn({}, pads, incoming) == {}
  {
  }

  lemma NoButtons(presses: set<Button>, releases: set<Button>)
    ensures Edges([], presses, releases) == []
  {
  }

  lemma FrameCoherent(p: Publication, prev: set<Button>, next: set<Button>, presses: set<Button>, releases: set<Button>)
    requires p.events == Edges(BUTTONS, (next - prev) * presses, (prev - next) * releases)
    requires p.state == if prev == next then None else Some(Listed(next))
    ensures Coherent(p, next)
  {
    forall e | e in p.events ensures !e.repeat && p.state.Some? && (e.action.Press? <==> e.button in next) {
      EdgesHas(BUTTONS, (next - prev) * presses, (prev - next) * releases, e);
    }
  }

  // ----- the directional tracker

  const DIRECTIONS: seq<Button> := [Up, Down, Left, Right]

  predicate IsDirection(b: Button) { b.Up? || b.Down? || b.Left? || b.Right? }

  function DirectionsOf(s: set<Button>): set<Button> {
    set b | b in s && IsDirection(b)
  }

  function Filtered(held: seq<Button>, keep: set<Button>): seq<Button> {
    if held == [] then [] else (if held[0] in keep then [held[0]] else []) + Filtered(held[1..], keep)
  }

  ghost predicate NoRepeats(held: seq<Button>) {
    forall i, j :: 0 <= i < j < |held| ==> held[i] != held[j]
  }

  lemma {:induction false} FilteredKeeps(held: seq<Button>, keep: set<Button>)
    ensures SetOf(Filtered(held, keep)) == SetOf(held) * keep
    ensures NoRepeats(held) ==> NoRepeats(Filtered(held, keep))
  {
    if held != [] {
      var rest := Filtered(held[1..], keep);
      FilteredKeeps(held[1..], keep);
      assert held == [held[0]] + held[1..];
      forall b ensures b in SetOf(Filtered(held, keep)) <==> b in SetOf(held) * keep {
        assert b in SetOf(rest) <==> b in SetOf(held[1..]) * keep;
      }
      if NoRepeats(held) {
        assert NoRepeats(held[1..]) by { forall i | 0 <= i < |held[1..]| ensures held[1..][i] == held[i + 1] {} }
        forall b | b in rest ensures b != held[0] { assert b in SetOf(rest); assert b in held[1..]; }
        assert NoRepeats(rest) && held[0] !in rest;
        Prepended(held[0], rest);
      }
    }
  }

  /** The one button stands somewhere before the other. */
  ghost predicate Precedes(held: seq<Button>, x: Button, y: Button) {
    exists k, l :: 0 <= k < l < |held| && held[k] == x && held[l] == y
  }

  /** What is kept keeps its order. */
  lemma {:induction false} FilteredInOrder(held: seq<Button>, keep: set<Button>, i: nat, j: nat)
    requires i < j < |Filtered(held, keep)|
    ensures Precedes(held, Filtered(held, keep)[i], Filtered(held, keep)[j])
  {
    var rest, kept := held[1..], Filtered(held[1..], keep);
    if held[0] !in keep {
      FilteredInOrder(rest, keep, i, j);
      var a, b :| 0 <= a < b < |rest| && rest[a] == kept[i] && rest[b] == kept[j];
      assert held[a + 1] == kept[i] && held[b + 1] == kept[j];
    } else if i > 0 {
      FilteredInOrder(rest, keep, i - 1, j - 1);
      var a, b :| 0 <= a < b < |rest| && rest[a] == kept[i - 1] && rest[b] == kept[j - 1];
      assert held[a + 1] == kept[i - 1] && held[b + 1] == kept[j - 1];
    } else {
      FilteredKeeps(rest, keep);
      assert kept[j - 1] in SetOf(kept);
      assert kept[j - 1] in SetOf(rest);
      var b :| 0 <= b < |rest| && rest[b] == kept[j - 1];
      assert held[0] == Filtered(held, keep)[0] && held[b + 1] == Filtered(held, keep)[j];
    }
  }

  /** `after` lists those of `held` that are in `keep`, in the order of `held`. */
  ghost predicate Keeps(held: seq<Button>, keep: set<Button>, after: seq<Button>) {
    && (forall b :: b in after <==> b in held && b in keep)
    && forall i, j :: 0 <= i < j < |after| ==> Precedes(held, after[i], after[j])
  }

  lemma FilteredIs(held: seq<Button>, keep: set<Button>)
    ensures Keeps(held, keep, Filtered(held, keep))
  {
    FilteredKeeps(held, keep);
    var after := Filtered(held, keep);
    forall b ensures b in after <==> b in held && b in keep { assert b in SetOf(after) <==> b in SetOf(held) * keep; }
    forall i, j | 0 <= i < j < |after|
      ensures Precedes(held, after[i], after[j])
    {
      FilteredInOrder(held, keep, i, j);
    }
  }

  lemma Prepended(b: Button, held: seq<Button>)
    requires NoRepeats(held) && b !in held
    ensures NoRepeats([b] + held)
  {
    var more := [b] + held;
    forall i, j | 0 <= i < j < |more| ensures more[i] != more[j] {
      assert more[j] == held[j - 1];
      if i > 0 { assert more[i] == held[i - 1]; }
    }
  }

  lemma Appended(held: seq<Button>, b: Button)
    requires NoRepeats(held) && b !in held
    ensures NoRepeats(held + [b]) && SetOf(held + [b]) == SetOf(held) + {b}
  {
  }

  /** The loop over the buttons of a state. */
  method DirectionsDown(down: seq<Button>) returns (next: set<Button>)
    ensures next == DirectionsOf(SetOf(down))
    ensures forall b :: b in next <==> b in down && b in {Up, Down, Left, Right}
  {
    next := {};
    for k := 0 to |down|
      invariant next == DirectionsOf(SetOf(down[..k]))
    {
      assert SetOf(down[..k + 1]) == SetOf(down[..k]) + {down[k]};
      if IsDirection(down[k]) { next := next + {down[k]}; }
    }
    assert down[..|down|] == down;
    forall b ensures b in next <==> b in down && b in {Up, Down, Left, Right} {
      assert b in SetOf(down) <==> b in down;
    }
  }

  /** The loop over the directions: those held that are not in the order yet follow it, in button order. */
  method WithNewDirections(kept: seq<Button>, next: set<Button>) returns (order: seq<Button>)
    requires NoRepeats(kept) && SetOf(kept) <= next && forall b :: b in next ==> IsDirection(b)
    ensures NoRepeats(order) && kept <= order && SetOf(order) == next && InOrder(order[|kept|..])
  {
    hide NoRepeats, InOrder;
    order := kept;
    NoneNew(kept, next);
    for k := 0 to |DIRECTIONS|
      invariant WithSome(kept, next, order, k)
    {
      var direction := DIRECTIONS[k];
      OneMoreNew(kept, next, order, k);
      if direction in next && direction !in order { order := order + [direction]; }
    }
    AllNew(kept, next, order);
  }

  /** The first `k` directions have been looked at. */
  ghost predicate WithSome(kept: seq<Button>, next: set<Button>, order: seq<Button>, k: nat) {
    && k <= |DIRECTIONS| && NoRepeats(order) && kept <= order && SetOf(order) <= next && InOrder(order[|kept|..])
    && (forall b :: b in order[|kept|..] ==> b in DIRECTIONS[..k])
    && (forall b :: b in DIRECTIONS[..k] && b in next ==> b in order)
  }

  lemma NoneNew(kept: seq<Button>, next: set<Button>)
    requires NoRepeats(kept) && SetOf(kept) <= next
    ensures WithSome(kept, next, kept, 0)
  {
    assert kept[|kept|..] == [] && DIRECTIONS[..0] == [];
  }

  lemma OneMoreNew(kept: seq<Button>, next: set<Button>, order: seq<Button>, k: nat)
    requires k < |DIRECTIONS| && WithSome(kept, next, order, k)
    ensures var d := DIRECTIONS[k];
            WithSome(kept, next, if d in next && d !in order then order + [d] else order, k + 1)
  {
    hide NoRepeats;
    var d, added := DIRECTIONS[k], order[|kept|..];
    assert DIRECTIONS[..k + 1] == DIRECTIONS[..k] + [d];
    if d in next && d !in order {
      Appended(order, d);
      assert (order + [d])[|kept|..] == added + [d];
      forall b | b in DIRECTIONS[..k] ensures Rank(b) < Rank(d) {}
      LastInOrder(added, d);
    }
  }

  lemma LastInOrder(added: seq<Button>, d: Button)
    requires InOrder(added) && forall b :: b in added ==> Rank(b) < Rank(d)
    ensures InOrder(added + [d])
  {
  }

  lemma AllNew(kept: seq<Button>, next: set<Button>, order: seq<Button>)
    requires WithSome(kept, next, order, |DIRECTIONS|) && forall b :: b in next ==> IsDirection(b)
    ensures NoRepeats(order) && kept <= order && SetOf(order) == next && InOrder(order[|kept|..])
  {
    forall b | b in next ensures b in SetOf(order) { EveryDirection(b); }
  }

  class DirectionalControlsTracker {
    var freshDown: set<Button>
    var heldOrder: seq<Button>

    /** The held order lists each held direction once. */
    ghost predicate Valid()
      reads this
    {
      NoRepeats(heldOrder) && (forall b :: b in heldOrder ==> IsDirection(b))
    }

    constructor ()
      ensures Valid() && heldOrder == [] && freshDown == {}
    {
      freshDown, heldOrder := {}, [];
    }

    /** The direction last pressed among those held. */
    function Direction(): Option<Button>
      reads this
    {
      if heldOrder == [] then None else Some(heldOrder[|heldOrder| - 1])
    }

    /** What is still held keeps its order; directions new in the state follow. */
    method AcceptState(down: seq<Button>)
      requires Valid()
      modifies this
      ensures Valid() && SetOf(heldOrder) == DirectionsOf(SetOf(down)) == freshDown
      ensures forall b :: b in heldOrder <==> b in down && b in {Up, Down, Left, Right}
      ensures exists n: nat :: n <= |heldOrder| && Keeps(old(heldOrder), freshDown, heldOrder[..n])
                               && InOrder(heldOrder[n..])
    {
      hide Keeps, InOrder, NoRepeats, Filtered;
      var next := DirectionsDown(down);
      FilteredKeeps(heldOrder, next);
      FilteredIs(heldOrder, next);
      var kept := Filtered(heldOrder, next);
      var order := WithNewDirections(kept, next);
      assert order[..|kept|] == kept;
      forall b ensures b in order <==> b in SetOf(order) {}
      heldOrder, freshDown := order, next;
    }

    /** A press of a held direction makes it the latest; a release drops it; repeats are ignored. */
    method AcceptEvent(e: Edge)
      requires Valid()
      modifies this`heldOrder
      ensures Valid()
      ensures e.repeat || e.button !in {Up, Down, Left, Right} || (e.action.Press? && e.button !in freshDown) ==>
              heldOrder == old(heldOrder)
      ensures !e.repeat && e.button in {Up, Down, Left, Right} && e.action.Release? ==>
              heldOrder == Filtered(old(heldOrder), AllBut(e.button))
              && Keeps(old(heldOrder), SetOf(old(heldOrder)) - {e.button}, heldOrder)
      ensures !e.repeat && e.button in {Up, Down, Left, Right} && e.action.Press? && e.button in freshDown ==>
        heldOrder == Filtered(old(heldOrder), AllBut(e.button)) + [e.button] && Direction() == Some(e.button)
        && Keeps(old(heldOrder), SetOf(old(heldOrder)) - {e.button}, heldOrder[..|heldOrder| - 1])
    {
      if !IsDirection(e.button) || e.repeat { return; }
      var others := Filtered(heldOrder, AllBut(e.button));
      FilteredKeeps(heldOrder, AllBut(e.button));
      KeepsOthers(heldOrder, e.button);
      forall b | b in others ensures IsDirection(b) && b != e.button {
        assert b in SetOf(others);
        assert b in SetOf(heldOrder);
      }
      if e.action.Release? {
        heldOrder := others;
        return;
      }
      if e.button !in freshDown { return; }
      Appended(others, e.button);
      heldOrder := others + [e.button];
      assert heldOrder[..|heldOrder| - 1] == others;
    }

    method Reset()
      modifies this
      ensures Valid() && heldOrder == [] && freshDown == {}
    {
      freshDown, heldOrder := {}, [];
    }

    /** The consumer's order: the state first, then its events. What is held is then what is down. */
    method Feed(p: Publication, ghost down: set<Button>)
      requires Valid() && Coherent(p, down)
      requires p.state.None? ==> SetOf(heldOrder) == DirectionsOf(down) == freshDown
      modifies this
      ensures Valid() && SetOf(heldOrder) == DirectionsOf(down) == freshDown
    {
      if p.state.Some? {
        AcceptState(p.state.value);
        ListedIs(down);
      }
      for k := 0 to |p.events|
        invariant Valid() && SetOf(heldOrder) == DirectionsOf(down) == freshDown
      {
        var e := p.events[k];
        assert e in p.events;
        ghost var held := heldOrder;
        AcceptEvent(e);
        FilteredKeeps(held, AllBut(e.button));
        SameHeld(held, heldOrder, e, down);
      }
    }
  }

  // ----- the two together

  datatype Input =
    | KeyDown(button: Button, repeat: bool)
    | KeyUp(button: Button)
    | Frame(samples: seq<Sample>)
    | CustomState(pressed: seq<Button>)
    | Window(usable: bool, baseline: seq<Sample>)
    | Capture(available: bool)

  /** The tracker holds exactly the directions that are down on some source. */
  ghost predicate InStep(machine: ControlsMachine, tracker: DirectionalControlsTracker)
    reads machine, tracker
  {
    && machine.Valid() && tracker.Valid()
    && SetOf(tracker.heldOrder) == DirectionsOf(machine.Effective()) == tracker.freshDown
  }

  method Begin() returns (machine: ControlsMachine, tracker: DirectionalControlsTracker)
    ensures fresh(machine) && fresh(tracker) && InStep(machine, tracker)
  {
    machine := new ControlsMachine();
    tracker := new DirectionalControlsTracker();
    assert DirectionsOf({}) == {} && SetOf([]) == {};
  }

  /** Any input of any source, and the tracker fed with what it publishes, so the two stay in step over every run. */
  method Drive(machine: ControlsMachine, tracker: DirectionalControlsTracker, input: Input)
    requires InStep(machine, tracker)
    modifies machine, tracker
    ensures InStep(machine, tracker)
  {
    var p: Publication;
    match input {
      case KeyDown(button, repeat) => p := machine.Keydown(button, repeat);
      case KeyUp(button) => p := machine.Keyup(button);
      case Frame(samples) => p := machine.ApplyGamepadFrame(samples);
      case CustomState(pressed) => p := machine.ApplyCustomState(pressed);
      case Window(usable, baseline) => p := machine.SetWindowUsable(usable, baseline);
      case Capture(available) => p := machine.SetKeyboardCapture(available);
    }
    tracker.Feed(p, machine.Effective());
  }

  function AllBut(b: Button): set<Button> {
    set x | x in BUTTONS && x != b
  }

  lemma KeepsOthers(held: seq<Button>, b: Button)
    ensures Keeps(held, SetOf(held) - {b}, Filtered(held, AllBut(b)))
  {
    FilteredIs(held, AllBut(b));
    forall x ensures x in AllBut(b) <==> x != b { EveryButton(x); }
  }

  /** An event that agrees with the state does not change which directions are held. */
  lemma SameHeld(held: seq<Button>, after: seq<Button>, e: Edge, down: set<Button>)
    requires SetOf(held) == DirectionsOf(down) && (!e.repeat ==> (e.action.Press? <==> e.button in down))
    requires SetOf(Filtered(held, AllBut(e.button))) == SetOf(held) * AllBut(e.button)
    requires || after == held
             || (!e.repeat && IsDirection(e.button) && e.action.Release? && after == Filtered(held, AllBut(e.button)))
             || (!e.repeat && IsDirection(e.button) && e.action.Press?
                && after == Filtered(held, AllBut(e.button)) + [e.button])
    ensures SetOf(after) == DirectionsOf(down)
  {
    forall b ensures b in AllBut(e.button) <==> b != e.button { EveryButton(b); }
    var others := Filtered(held, AllBut(e.button));
    forall b ensures b in others <==> b in DirectionsOf(down) && b != e.button {
      assert b in others <==> b in SetOf(others);
    }
    forall b ensures b in SetOf(after) <==> b in DirectionsOf(down) { assert b in held <==> b in SetOf(held); }
  }

  lemma EveryDirection(b: Button)
    requires IsDirection(b)
    ensures b in DIRECTIONS
  {
    if b.Up? { assert DIRECTIONS[0] == b; }
    else if b.Down? { assert DIRECTIONS[1] == b; }
    else if b.Left? { assert DIRECTIONS[2] == b; }
    else { assert DIRECTIONS[3] == b; }
  }

  lemma NoPads()
    ensures PadsDown(map[]) == {}
  {
  }

  lemma NothingListed(buttons: seq<Button>)
    ensures Among(buttons, {}) == []
  {
  }
}
