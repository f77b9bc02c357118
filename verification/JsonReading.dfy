/**
 * A reader for JSON texts without white space (sections 4 to 7 of RFC 8259), and that it reads back what the
 * serializers print.
 */
module JsonReading {
  import opened Base
  import opened Unicode
  import opened JsonText

  /** What was read from the beginning of a text, and what is left of it. */
  datatype Read<T> = Read(value: T, rest: Text)

  // ----- numbers

  /** Characters a number is written with. */
  predicate NumberUnit(u: Unit) { 0x30 <= u <= 0x39 || u == 0x2B || u == 0x2D || u == 0x2E || u == 0x45 || u == 0x65 }

  predicate NumberText(t: Text) { t != [] && forall i :: 0 <= i < |t| ==> NumberUnit(t[i]) }

  /** How many number characters a text begins with. */
  function NumberLength(t: Text): (n: nat)
    ensures n <= |t| && forall i :: 0 <= i < n ==> NumberUnit(t[i])
    ensures n < |t| ==> !NumberUnit(t[n])
  {
    if t == [] || !NumberUnit(t[0]) then 0 else 1 + NumberLength(t[1..])
  }

  // ----- strings

  function HexDigit(u: Unit): Option<nat> {
    if 0x30 <= u <= 0x39 then Some(u - 0x30)
    else if 0x61 <= u <= 0x66 then Some(10 + u - 0x61)
    else if 0x41 <= u <= 0x46 then Some(10 + u - 0x41)
    else None
  }

  /** Four hexadecimal digits. */
  function HexUnit(t: Text): (u: Option<Unit>)
    requires |t| == 4
  {
    var a, b, c, d := HexDigit(t[0]), HexDigit(t[1]), HexDigit(t[2]), HexDigit(t[3]);
    if a.None? || b.None? || c.None? || d.None? then None
    else
      var n := ((a.value * 16 + b.value) * 16 + c.value) * 16 + d.value;
      if n < 0x10000 then Some(n) else None
  }

  /** The character a two-character escape stands for. */
  function Escape(u: Unit): Option<Unit> {
    if u == 0x22 || u == 0x5C || u == 0x2F then Some(u)
    else if u == 0x62 then Some(0x08)
    else if u == 0x66 then Some(0x0C)
    else if u == 0x6E then Some(0x0A)
    else if u == 0x72 then Some(0x0D)
    else if u == 0x74 then Some(0x09)
    else None
  }

  /** One character of a string, escaped or not. */
  function ReadUnit(t: Text): (r: Option<Read<Unit>>)
    ensures r.Some? ==> |r.value.rest| < |t|
  {
    if t == [] || t[0] == 0x22 || t[0] < 0x20 then None
    else if t[0] != 0x5C then Some(Read(t[0], t[1..]))
    else if |t| >= 6 && t[1] == 0x75 then
      (match HexUnit(t[2..6])
       case None => None
       case Some(u) => Some(Read(u, t[6..])))
    else if |t| >= 2 && Escape(t[1]).Some? then Some(Read(Escape(t[1]).value, t[2..]))
    else None
  }

  /** The characters of a string up to its closing quotation mark. */
  function ReadUnits(t: Text): (r: Option<Read<Text>>)
    ensures r.Some? ==> |r.value.rest| < |t|
    decreases |t|
  {
    if t != [] && t[0] == 0x22 then Some(Read([], t[1..]))
    else
      match ReadUnit(t)
      case None => None
      case Some(Read(u, rest)) =>
        match ReadUnits(rest)
        case None => None
        case Some(Read(s, after)) => Some(Read([u] + s, after))
  }

  function ReadString(t: Text): (r: Option<Read<Text>>)
    ensures r.Some? ==> |r.value.rest| < |t|
  {
    if t == [] || t[0] != 0x22 then None else ReadUnits(t[1..])
  }

  // ----- values

  function Literal(t: Text, word: Text, v: Json): (r: Option<Read<Json>>)
    requires word != []
    ensures r.Some? ==> |r.value.rest| < |t|
  {
    if word <= t then Some(Read(v, t[|word|..])) else None
  }

  function ReadValue(t: Text): (r: Option<Read<Json>>)
    ensures r.Some? ==> |r.value.rest| < |t|
    decreases |t|, 1
  {
    if t == [] then None
    else if t[0] == 0x6E then Literal(t, [0x6E, 0x75, 0x6C, 0x6C], Null)
    else if t[0] == 0x74 then Literal(t, [0x74, 0x72, 0x75, 0x65], Bool(true))
    else if t[0] == 0x66 then Literal(t, [0x66, 0x61, 0x6C, 0x73, 0x65], Bool(false))
    else if t[0] == 0x22 then
      (match ReadString(t)
       case None => None
       case Some(Read(s, rest)) => Some(Read(Str(s), rest)))
    else if t[0] == 0x5B then
      if |t| > 1 && t[1] == 0x5D then Some(Read(Arr([]), t[2..]))
      else
        (match ReadItems(t[1..])
         case None => None
         case Some(Read(items, rest)) => Some(Read(Arr(items), rest)))
    else if t[0] == 0x7B then
      if |t| > 1 && t[1] == 0x7D then Some(Read(Obj([]), t[2..]))
      else
        (match ReadMembers(t[1..])
         case None => None
         case Some(Read(members, rest)) => Some(Read(Obj(members), rest)))
    else
      var n := NumberLength(t);
      if n == 0 then None else Some(Read(Num(t[..n]), t[n..]))
  }

  /** One or more values with commas between them, and the closing bracket. */
  function ReadItems(t: Text): (r: Option<Read<seq<Json>>>)
    ensures r.Some? ==> |r.value.rest| < |t|
    decreases |t|, 2
  {
    match ReadValue(t)
    case None => None
    case Some(Read(v, rest)) =>
      if rest == [] then None
      else if rest[0] == 0x5D then Some(Read([v], rest[1..]))
      else if rest[0] != 0x2C then None
      else
        match ReadItems(rest[1..])
        case None => None
        case Some(Read(items, after)) => Some(Read([v] + items, after))
  }

  /** One or more members with commas between them, and the closing brace. */
  function ReadMembers(t: Text): (r: Option<Read<seq<Member>>>)
    ensures r.Some? ==> |r.value.rest| < |t|
    decreases |t|, 2
  {
    match ReadString(t)
    case None => None
    case Some(Read(key, colon)) =>
      if colon == [] || colon[0] != 0x3A then None
      else
        match ReadValue(colon[1..])
        case None => None
        case Some(Read(v, rest)) =>
          if rest == [] then None
          else if rest[0] == 0x7D then Some(Read([Member(key, v)], rest[1..]))
          else if rest[0] != 0x2C then None
          else
            match ReadMembers(rest[1..])
            case None => None
            case Some(Read(members, after)) => Some(Read([Member(key, v)] + members, after))
  }

  // ----- reading strings back

  lemma HexReads(d: int)
    requires 0 <= d < 16
    ensures HexDigit(Hex(d)) == Some(d)
  {
  }

  lemma HexSum(u: Unit)
    ensures u == ((u / 0x1000 * 16 + u / 0x100 % 16) * 16 + u / 0x10 % 16) * 16 + u % 16
  {
    assert u / 0x100 == u / 0x1000 * 16 + u / 0x100 % 16;
    assert u / 0x10 == u / 0x100 * 16 + u / 0x10 % 16;
    assert u == u / 0x10 * 16 + u % 16;
  }

  lemma EscapedReads(u: Unit, x: Text)
    ensures ReadUnit(Escaped(u) + x) == Some(Read(u, x))
  {
    var t := Escaped(u) + x;
    assert t[2..6] == [Hex(u / 0x1000), Hex(u / 0x100 % 16), Hex(u / 0x10 % 16), Hex(u % 16)] && t[6..] == x;
    HexReads(u / 0x1000);
    HexReads(u / 0x100 % 16);
    HexReads(u / 0x10 % 16);
    HexReads(u % 16);
    HexSum(u);
  }

  lemma PlainReads(u: Unit, x: Text)
    requires u >= 0x20 && u != 0x22 && u != 0x5C
    ensures ReadUnit([u] + x) == Some(Read(u, x))
  {
    assert ([u] + x)[1..] == x;
  }

  lemma ShortReads(e: Unit, x: Text)
    requires Escape(e).Some?
    ensures ReadUnit([0x5C, e] + x) == Some(Read(Escape(e).value, x))
  {
    assert ([0x5C, e] + x)[2..] == x;
  }

  lemma UnitsMore(t: Text, u: Unit, rest: Text)
    requires ReadUnit(t) == Some(Read(u, rest)) && ReadUnits(rest).Some?
    ensures ReadUnits(t) == Some(Read([u] + ReadUnits(rest).value.value, ReadUnits(rest).value.rest))
  {
  }

  lemma Apart(a: Text, b: Text, c: Text)
    ensures (a + b) + c == a + (b + c)
  {
  }

  /** How a unit that begins no surrogate pair is printed. */
  function FirstOf(u: Unit): Text {
    if u == 0x22 || u == 0x5C then [0x5C, u]
    else if u == 0x08 then [0x5C, 0x62]
    else if u == 0x09 then [0x5C, 0x74]
    else if u == 0x0A then [0x5C, 0x6E]
    else if u == 0x0C then [0x5C, 0x66]
    else if u == 0x0D then [0x5C, 0x72]
    else if u < 0x20 || High(u) || Low(u) then Escaped(u)
    else [u]
  }

  lemma QuoteFromIs(s: Text)
    ensures s == [] ==> QuoteFrom(s) == []
    ensures s != [] && PairAt(s, 0) ==> QuoteFrom(s) == [s[0], s[1]] + QuoteFrom(s[2..])
    ensures s != [] && !PairAt(s, 0) ==> QuoteFrom(s) == FirstOf(s[0]) + QuoteFrom(s[1..])
  {
    hide Escaped, High, Low;
  }

  lemma FirstReads(u: Unit, rest: Text)
    ensures ReadUnit(FirstOf(u) + rest) == Some(Read(u, rest))
  {
    hide ReadUnit, Escaped;
    if u == 0x22 || u == 0x5C { ShortReads(u, rest); }
    else if u == 0x08 { ShortReads(0x62, rest); }
    else if u == 0x09 { ShortReads(0x74, rest); }
    else if u == 0x0A { ShortReads(0x6E, rest); }
    else if u == 0x0C { ShortReads(0x66, rest); }
    else if u == 0x0D { ShortReads(0x72, rest); }
    else if u < 0x20 || High(u) || Low(u) { EscapedReads(u, rest); }
    else { PlainReads(u, rest); }
  }

  lemma PairReads(a: Unit, b: Unit, rest: Text)
    requires High(a) && Low(b) && ReadUnits(rest).Some?
    ensures ReadUnits([a, b] + rest) == Some(Read([a, b] + ReadUnits(rest).value.value, ReadUnits(rest).value.rest))
  {
    hide ReadUnits, ReadUnit;
    assert [a, b] + rest == [a] + ([b] + rest);
    PlainReads(b, rest);
    UnitsMore([b] + rest, b, rest);
    PlainReads(a, [b] + rest);
    UnitsMore([a, b] + rest, a, [b] + rest);
    assert [a] + ([b] + ReadUnits(rest).value.value) == [a, b] + ReadUnits(rest).value.value;
  }

  lemma EndReads(x: Text)
    ensures ReadUnits([0x22] + x) == Some(Read([], x))
  {
    assert ([0x22] + x)[1..] == x;
  }

  lemma {:induction false} QuoteFromReads(s: Text, x: Text)
    ensures ReadUnits(QuoteFrom(s) + [0x22] + x) == Some(Read(s, x))
    decreases |s|
  {
    hide QuoteFrom, ReadUnits, ReadUnit, FirstOf, High, Low;
    QuoteFromIs(s);
    if s == [] {
      EndReads(x);
      assert [] + [0x22] == [0x22];
    } else {
      var n := if PairAt(s, 0) then 2 else 1;
      var first := if PairAt(s, 0) then [s[0], s[1]] else FirstOf(s[0]);
      QuoteFromReads(s[n..], x);
      var rest := QuoteFrom(s[n..]) + [0x22] + x;
      Apart(first, QuoteFrom(s[n..]), [0x22]);
      Apart(first, QuoteFrom(s[n..]) + [0x22], x);
      if PairAt(s, 0) {
        PairReads(s[0], s[1], rest);
        assert [s[0], s[1]] + s[2..] == s;
      } else {
        FirstReads(s[0], rest);
        UnitsMore(first + rest, s[0], rest);
        assert [s[0]] + s[1..] == s;
      }
    }
  }

  lemma QuoteReads(s: Text, x: Text)
    ensures ReadString(Quote(s) + x) == Some(Read(s, x)) && (Quote(s) + x)[0] == 0x22
  {
    QuoteFromReads(s, x);
    assert (Quote(s) + x)[1..] == QuoteFrom(s) + [0x22] + x;
  }

  // ----- reading values back

  /** Every number in the value is written with number characters. */
  ghost predicate Numeric(v: Json)
    decreases v
  {
    match v
    case Num(token) => NumberText(token)
    case Arr(items) => forall i :: 0 <= i < |items| ==> Numeric(items[i])
    case Obj(members) => forall i :: 0 <= i < |members| ==> Numeric(members[i].value)
    case _ => true
  }

  /** What follows a value does not go on with a number. */
  predicate Stops(x: Text) { x == [] || !NumberUnit(x[0]) }

  lemma {:induction false} NumberReads(token: Text, x: Text)
    requires (forall i :: 0 <= i < |token| ==> NumberUnit(token[i])) && Stops(x)
    ensures NumberLength(token + x) == |token|
  {
    if token == [] {
      assert [] + x == x;
    } else {
      NumberReads(token[1..], x);
      assert (token + x)[1..] == token[1..] + x;
    }
  }

  lemma LeafReads(v: Json, x: Text)
    requires !v.Arr? && !v.Obj? && Numeric(v) && Stops(x)
    ensures ReadValue(Leaf(v) + x) == Some(Read(v, x))
  {
    hide Quote, ReadString, ReadItems, ReadMembers;
    var t := Leaf(v) + x;
    assert t[|Leaf(v)|..] == x && t[..|Leaf(v)|] == Leaf(v);
    match v
    case Null => assert [0x6E, 0x75, 0x6C, 0x6C] <= t;
    case Bool(b) => if b { assert [0x74, 0x72, 0x75, 0x65] <= t; } else { assert [0x66, 0x61, 0x6C, 0x73, 0x65] <= t; }
    case Num(token) =>
      NumberReads(token, x);
      assert NumberUnit(token[0]) && t[0] == token[0];
    case Str(s) => QuoteReads(s, x);
  }

  /** No value is printed with a closing bracket or brace at its beginning. */
  lemma BeginsOpen(v: Json)
    requires Numeric(v)
    ensures Compact(v) != [] && Compact(v)[0] != 0x5D && Compact(v)[0] != 0x7D
  {
    hide CompactItems, CompactMembers, QuoteFrom;
    if v.Num? { assert NumberUnit(v.token[0]); }
  }

  /** Reading back what `Compact` prints gives the value, whatever stops it. */
  lemma {:induction false} CompactReads(v: Json, x: Text)
    requires Numeric(v) && Stops(x)
    ensures ReadValue(Compact(v) + x) == Some(Read(v, x))
    decreases v, 1
  {
    hide Leaf;
    match v
    case Arr(items) => ArrayReads(items, x);
    case Obj(members) => ObjectReads(members, x);
    case _ => LeafReads(v, x);
  }

  lemma {:induction false} ArrayReads(items: seq<Json>, x: Text)
    requires Numeric(Arr(items))
    ensures ReadValue(Compact(Arr(items)) + x) == Some(Read(Arr(items), x))
    decreases Arr(items), 0
  {
    hide ReadItems, CompactItems;
    var t := Compact(Arr(items)) + x;
    var inner := CompactItems(items, 0);
    assert t == [0x5B] + (inner + [0x5D] + x);
    assert t[1..] == inner + [0x5D] + x;
    if items == [] {
      NoItems();
      assert t == [0x5B, 0x5D] + x && t[2..] == x;
    } else {
      FirstItem(items);
      BeginsOpen(items[0]);
      ItemsRead(items, 0, x);
      assert t[1] == Compact(items[0])[0];
      assert items[0..] == items;
    }
  }

  lemma NoItems()
    ensures CompactItems([], 0) == [] && CompactMembers([], 0) == []
  {
  }

  lemma FirstItem(items: seq<Json>)
    requires items != []
    ensures CompactItems(items, 0) == Compact(items[0]) + CompactItems(items, 1)
  {
  }

  lemma NextItem(items: seq<Json>, i: nat, x: Text)
    requires 0 < i <= |items|
    ensures i == |items| ==> CompactItems(items, i) + [0x5D] + x == [0x5D] + x
    ensures i < |items| ==>
            CompactItems(items, i) + [0x5D] + x
            == [0x2C] + (Compact(items[i]) + CompactItems(items, i + 1) + [0x5D] + x)
  {
    hide Compact;
    if i < |items| {
      var v, more := Compact(items[i]), CompactItems(items, i + 1);
      assert CompactItems(items, i) == [0x2C] + v + more;
      assert [0x2C] + v + more + [0x5D] + x == [0x2C] + (v + more + [0x5D] + x);
    }
  }

  lemma {:induction false} ItemsRead(items: seq<Json>, i: nat, x: Text)
    requires i < |items| && Numeric(Arr(items))
    ensures ReadItems(Compact(items[i]) + CompactItems(items, i + 1) + [0x5D] + x) == Some(Read(items[i..], x))
    decreases items, |items| - i
  {
    hide Compact, CompactItems, ReadValue, Numeric;
    NumericItem(items, i);
    var rest := CompactItems(items, i + 1) + [0x5D] + x;
    NextItem(items, i + 1, x);
    assert rest[0] == 0x5D || rest[0] == 0x2C;
    CompactReads(items[i], rest);
    Apart(Compact(items[i]), CompactItems(items, i + 1), [0x5D]);
    Apart(Compact(items[i]), CompactItems(items, i + 1) + [0x5D], x);
    if i + 1 == |items| {
      assert rest[1..] == x && items[i..] == [items[i]];
    } else {
      ItemsRead(items, i + 1, x);
      assert rest[1..] == Compact(items[i + 1]) + CompactItems(items, i + 2) + [0x5D] + x;
      assert [items[i]] + items[i + 1..] == items[i..];
    }
  }

  lemma NumericItem(items: seq<Json>, i: nat)
    requires i < |items| && Numeric(Arr(items))
    ensures Numeric(items[i])
  {
  }

  lemma {:induction false} ObjectReads(members: seq<Member>, x: Text)
    requires Numeric(Obj(members))
    ensures ReadValue(Compact(Obj(members)) + x) == Some(Read(Obj(members), x))
    decreases Obj(members), 0
  {
    hide ReadMembers, CompactMembers, Quote;
    var t := Compact(Obj(members)) + x;
    var inner := CompactMembers(members, 0);
    assert t == [0x7B] + (inner + [0x7D] + x);
    assert t[1..] == inner + [0x7D] + x;
    if members == [] {
      NoItems();
      assert t == [0x7B, 0x7D] + x && t[2..] == x;
    } else {
      FirstMember(members);
      MembersRead(members, 0, x);
      QuoteReads(members[0].key, []);
      assert Quote(members[0].key) + [] == Quote(members[0].key);
      assert t[1] == Quote(members[0].key)[0];
      assert members[0..] == members;
    }
  }

  lemma FirstMember(members: seq<Member>)
    requires members != []
    ensures CompactMembers(members, 0) ==
            Quote(members[0].key) + [0x3A] + Compact(members[0].value) + CompactMembers(members, 1)
  {
    hide Compact, Quote;
    assert [] + Quote(members[0].key) == Quote(members[0].key);
  }

  lemma NextMember(members: seq<Member>, i: nat, x: Text)
    requires 0 < i <= |members|
    ensures i == |members| ==> CompactMembers(members, i) + [0x7D] + x == [0x7D] + x
    ensures i < |members| ==>
            CompactMembers(members, i) + [0x7D] + x
            == [0x2C] + (Quote(members[i].key) + [0x3A] + Compact(members[i].value) + CompactMembers(members, i + 1)
                         + [0x7D] + x)
  {
    hide Compact, Quote;
    if i < |members| {
      var q, v, more := Quote(members[i].key), Compact(members[i].value), CompactMembers(members, i + 1);
      assert CompactMembers(members, i) == [0x2C] + q + [0x3A] + v + more;
      assert [0x2C] + q + [0x3A] + v + more + [0x7D] + x == [0x2C] + (q + [0x3A] + v + more + [0x7D] + x);
    }
  }

  lemma {:induction false} MembersRead(members: seq<Member>, i: nat, x: Text)
    requires i < |members| && Numeric(Obj(members))
    ensures ReadMembers(Quote(members[i].key) + [0x3A] + Compact(members[i].value) + CompactMembers(members, i + 1)
                        + [0x7D] + x) == Some(Read(members[i..], x))
    decreases members, |members| - i
  {
    hide Compact, CompactMembers, ReadValue, Numeric, Quote, ReadString;
    NumericMember(members, i);
    var q, v := Quote(members[i].key), Compact(members[i].value);
    var rest := CompactMembers(members, i + 1) + [0x7D] + x;
    NextMember(members, i + 1, x);
    assert rest[0] == 0x7D || rest[0] == 0x2C;
    CompactReads(members[i].value, rest);
    QuoteReads(members[i].key, [0x3A] + (v + rest));
    assert q + [0x3A] + v + CompactMembers(members, i + 1) + [0x7D] + x == q + ([0x3A] + (v + rest));
    assert ([0x3A] + (v + rest))[1..] == v + rest;
    if i + 1 == |members| {
      assert rest[1..] == x && members[i..] == [members[i]];
    } else {
      MembersRead(members, i + 1, x);
      assert rest[1..] == Quote(members[i + 1].key) + [0x3A] + Compact(members[i + 1].value)
          + CompactMembers(members, i + 2) + [0x7D] + x;
      assert [members[i]] + members[i + 1..] == members[i..];
    }
  }

  lemma NumericMember(members: seq<Member>, i: nat)
    requires i < |members| && Numeric(Obj(members))
    ensures Numeric(members[i].value)
  {
  }

  /** The compact text tells values apart. */
  lemma CompactIsFaithful(v: Json, w: Json)
    requires Numeric(v) && Numeric(w)
    ensures Compact(v) == Compact(w) <==> v == w
  {
    CompactReads(v, []);
    CompactReads(w, []);
    assert Compact(v) + [] == Compact(v) && Compact(w) + [] == Compact(w);
  }

  // ----- the canonical text

  /** The value with the members of every object in key order. */
  function Normal(v: Json): Json
    decreases v, 0
  {
    match v
    case Arr(items) => Arr(seq(|items|, i requires 0 <= i < |items| => Normal(items[i])))
    case Obj(members) => Obj(NormalMembers(members, Sorted(Keys(members)), 0))
    case _ => v
  }

  function NormalMembers(members: seq<Member>, keys: seq<Text>, i: nat): seq<Member>
    requires i <= |keys|
    decreases members, |keys| - i
  {
    if i == |keys| || keys[i] !in Keys(members) then []
    else [Member(keys[i], Normal(members[Find(members, keys[i])].value))] + NormalMembers(members, keys, i + 1)
  }

  lemma {:induction false} NormalAt(members: seq<Member>, keys: seq<Text>, i: nat)
    requires i <= |keys| && forall k :: 0 <= k < |keys| ==> keys[k] in Keys(members)
    ensures |NormalMembers(members, keys, i)| == |keys| - i
    ensures forall k :: i <= k < |keys| ==>
            NormalMembers(members, keys, i)[k - i]
            == Member(keys[k], Normal(members[Find(members, keys[k])].value))
    decreases |keys| - i
  {
    if i < |keys| { NormalAt(members, keys, i + 1); }
  }

  lemma NormalObject(members: seq<Member>)
    ensures var keys, n := Sorted(Keys(members)), NormalMembers(members, Sorted(Keys(members)), 0);
            && Normal(Obj(members)) == Obj(n) && |n| == |keys| && Keys(n) == keys
            && forall k :: 0 <= k < |keys| ==>
               keys[k] in Keys(members) && n[k] == Member(keys[k], Normal(members[Find(members, keys[k])].value))
  {
    var keys := Sorted(Keys(members));
    SortedHas(Keys(members));
    forall k | 0 <= k < |keys| ensures keys[k] in Keys(members) { assert keys[k] in keys; }
    NormalAt(members, keys, 0);
  }

  /** The canonical text is the compact text of the sorted value. */
  lemma {:induction false} CanonicalIsCompact(v: Json)
    ensures Canonical(v) == Compact(Normal(v))
    decreases v, 0
  {
    match v
    case Arr(items) => ItemsAreCompact(items, Normal(v).items, 0);
    case Obj(members) =>
      NormalObject(members);
      MembersAreCompact(members, Sorted(Keys(members)), Normal(v).members, 0);
    case _ =>
  }

  lemma {:induction false} ItemsAreCompact(items: seq<Json>, sorted: seq<Json>, i: nat)
    requires |sorted| == |items| && i <= |items| && forall k :: 0 <= k < |items| ==> sorted[k] == Normal(items[k])
    ensures CanonicalItems(items, i) == CompactItems(sorted, i)
    decreases items, |items| - i
  {
    if i < |items| {
      CanonicalIsCompact(items[i]);
      ItemsAreCompact(items, sorted, i + 1);
    }
  }

  lemma {:induction false} MembersAreCompact(members: seq<Member>, keys: seq<Text>, sorted: seq<Member>, i: nat)
    requires |sorted| == |keys| && i <= |keys|
    requires forall k :: 0 <= k < |keys| ==>
             keys[k] in Keys(members) && sorted[k] == Member(keys[k], Normal(members[Find(members, keys[k])].value))
    ensures CanonicalMembers(members, keys, i) == CompactMembers(sorted, i)
    decreases members, |keys| - i
  {
    hide Normal, Quote;
    if i < |keys| {
      CanonicalIsCompact(members[Find(members, keys[i])].value);
      MembersAreCompact(members, keys, sorted, i + 1);
    }
  }

  /** Members come in strictly ascending key order, at every depth. */
  ghost predicate InKeyOrder(v: Json)
    decreases v
  {
    match v
    case Arr(items) => forall i :: 0 <= i < |items| ==> InKeyOrder(items[i])
    case Obj(members) =>
      StrictlySorted(Keys(members)) && forall i :: 0 <= i < |members| ==> InKeyOrder(members[i].value)
    case _ => true
  }

  lemma {:induction false} NormalIs(v: Json)
    requires Distinct(v)
    ensures SameUpToOrder(Normal(v), v) && InKeyOrder(Normal(v)) && Distinct(Normal(v))
    ensures Numeric(v) ==> Numeric(Normal(v))
    decreases v, 1
  {
    match v
    case Arr(items) =>
      forall i | 0 <= i < |items|
        ensures SameUpToOrder(Normal(items[i]), items[i]) && InKeyOrder(Normal(items[i])) && Distinct(Normal(items[i]))
        ensures Numeric(items[i]) ==> Numeric(Normal(items[i]))
      {
        NormalIs(items[i]);
      }
    case Obj(members) => NormalObjectIs(members);
    case _ =>
  }

  lemma {:induction false} NormalObjectIs(members: seq<Member>)
    requires Distinct(Obj(members))
    ensures SameUpToOrder(Normal(Obj(members)), Obj(members)) && InKeyOrder(Normal(Obj(members)))
    ensures Distinct(Normal(Obj(members))) && (Numeric(Obj(members)) ==> Numeric(Normal(Obj(members))))
    decreases Obj(members), 0
  {
    hide Before, Find, StrictlySorted, Normal, Sorted;
    var keys, n := Sorted(Keys(members)), NormalMembers(members, Sorted(Keys(members)), 0);
    NormalObject(members);
    SortedIsSorted(Keys(members));
    SortedHas(Keys(members));
    SortedDistinct(keys);
    forall k | 0 <= k < |n|
      ensures n[k].key in Keys(members) && SameUpToOrder(n[k].value, members[Find(members, n[k].key)].value)
      ensures InKeyOrder(n[k].value) && Distinct(n[k].value) && (Numeric(Obj(members)) ==> Numeric(n[k].value))
    {
      assert keys[k] in Keys(members);
      NormalIs(members[Find(members, keys[k])].value);
    }
    forall i, j | 0 <= i < j < |n| ensures n[i].key != n[j].key { assert keys[i] != keys[j]; }
  }

  lemma SortedDistinct(keys: seq<Text>)
    requires StrictlySorted(keys)
    ensures forall i, j :: 0 <= i < j < |keys| ==> keys[i] != keys[j]
  {
    hide Before;
    forall i, j | 0 <= i < j < |keys| ensures keys[i] != keys[j] { BeforeIsStrictTotal(keys[i], keys[i], keys[i]); }
  }

  /**
   * Reading the canonical text back gives the value up to the order of members, which come in key order at
   * every depth.
   */
  lemma CanonicalReads(v: Json, x: Text)
    requires Distinct(v) && Numeric(v) && Stops(x)
    ensures ReadValue(Canonical(v) + x) == Some(Read(Normal(v), x))
    ensures SameUpToOrder(Normal(v), v) && InKeyOrder(Normal(v))
  {
    NormalIs(v);
    CanonicalIsCompact(v);
    CompactReads(Normal(v), x);
  }

  lemma FindOwn(members: seq<Member>, i: nat)
    requires i < |members| && forall i, j :: 0 <= i < j < |members| ==> members[i].key != members[j].key
    ensures members[i].key in Keys(members) && Find(members, members[i].key) == i
  {
    assert Keys(members)[i] == members[i].key;
  }

  /** What is the same as a third value is the same. */
  lemma {:induction false} SameThrough(n: Json, v: Json, w: Json)
    requires Distinct(n) && Distinct(v) && Distinct(w) && SameUpToOrder(n, v) && SameUpToOrder(n, w)
    ensures SameUpToOrder(v, w)
    decreases n
  {
    hide Find;
    match n
    case Arr(items) =>
      forall i | 0 <= i < |items| ensures SameUpToOrder(v.items[i], w.items[i]) {
        SameThrough(items[i], v.items[i], w.items[i]);
      }
    case Obj(members) =>
      forall i | 0 <= i < |v.members|
        ensures v.members[i].key in Keys(w.members)
        ensures SameUpToOrder(v.members[i].value, w.members[Find(w.members, v.members[i].key)].value)
      {
        var key := v.members[i].key;
        FindOwn(v.members, i);
        assert key in Keys(members);
        var j := Find(members, key);
        SameThrough(members[j].value, v.members[i].value, w.members[Find(w.members, key)].value);
      }
    case _ =>
  }

  /** Two values have the same canonical text exactly if they differ at most in the order of members. */
  lemma CanonicalIsFaithful(v: Json, w: Json)
    requires Distinct(v) && Distinct(w) && Numeric(v) && Numeric(w)
    ensures Canonical(v) == Canonical(w) <==> SameUpToOrder(v, w)
  {
    if SameUpToOrder(v, w) { CanonicalForgetsOrder(v, w); }
    if Canonical(v) == Canonical(w) {
      CanonicalReads(v, []);
      CanonicalReads(w, []);
      NormalIs(v);
      SameThrough(Normal(v), v, w);
    }
  }
}
