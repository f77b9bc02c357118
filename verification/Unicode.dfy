/**
 * UTF-16 strings, their code points and their UTF-8 bytes, and the three comparisons of the repository
 * over them (packages/data/src/validation-common.ts, apps/pwa/src/content-manifest.ts,
 * apps/desktop/src/content-service.ts).
 */
module Unicode {
  type Unit = u: int | 0 <= u < 0x10000
  type Point = p: int | 0 <= p < 0x110000
  type Text = seq<Unit>

  predicate High(u: Unit) { 0xD800 <= u <= 0xDBFF }
  predicate Low(u: Unit) { 0xDC00 <= u <= 0xDFFF }

  /** A surrogate pair starts at `i`. */
  predicate PairAt(s: Text, i: nat) { i + 1 < |s| && High(s[i]) && Low(s[i + 1]) }

  /** `codePointAt`: a lone surrogate is its own point. */
  function PointAt(s: Text, i: nat): (p: Point)
    requires i < |s|
    ensures p > 0xFFFF <==> PairAt(s, i)
  {
    if PairAt(s, i) then
      var high: int, low: int := s[i], s[i + 1];
      0x10000 + (high - 0xD800) * 0x400 + (low - 0xDC00)
    else s[i]
  }

  function Width(p: Point): nat { if p > 0xFFFF then 2 else 1 }

  /** What iterating over a string yields. */
  function Points(s: Text): (ps: seq<Point>)
    ensures |ps| <= |s| && (s != [] ==> ps != [])
    decreases |s|
  {
    if s == [] then [] else [PointAt(s, 0)] + Points(s[Width(PointAt(s, 0))..])
  }

  function Units(p: Point): Text {
    if p > 0xFFFF then [0xD800 + (p - 0x10000) / 0x400, 0xDC00 + (p - 0x10000) % 0x400] else [p]
  }

  function Joined(ps: seq<Point>): Text {
    if ps == [] then [] else Units(ps[0]) + Joined(ps[1..])
  }

  /** Nothing is lost: a string is its code points, so strings with the same points are the same. */
  lemma {:induction false} PointsAreFaithful(s: Text)
    ensures Joined(Points(s)) == s
    decreases |s|
  {
    if s != [] {
      var p := PointAt(s, 0);
      PointsAreFaithful(s[Width(p)..]);
      assert Units(p) == s[..Width(p)];
      assert Points(s)[1..] == Points(s[Width(p)..]);
    }
  }

  lemma PointsInjective(a: Text, b: Text)
    requires Points(a) == Points(b)
    ensures a == b
  {
    PointsAreFaithful(a);
    PointsAreFaithful(b);
  }

  /** The pairs are the points past 0xFFFF in order, each point once: sections 2.1 and 2.2 of RFC 2781. */
  lemma PairsAreInOrder(a: Text, b: Text, p: Point)
    requires PairAt(a, 0) && PairAt(b, 0) && p > 0xFFFF
    ensures PointAt(a, 0) < PointAt(b, 0) <==> a[0] < b[0] || (a[0] == b[0] && a[1] < b[1])
    ensures PairAt(Units(p), 0) && |Units(p)| == 2 && PointAt(Units(p), 0) == p
  {
    var high: int, low: int := 0xD800 + (p - 0x10000) / 0x400, 0xDC00 + (p - 0x10000) % 0x400;
    assert Units(p) == [high, low];
  }

  // ----- well-formed strings

  /** No lone surrogate: what `scalarString` accepts. */
  predicate WellFormed(s: Text)
    decreases |s|
  {
    s == [] || (if PairAt(s, 0) then WellFormed(s[2..]) else !High(s[0]) && !Low(s[0]) && WellFormed(s[1..]))
  }

  predicate Scalar(p: Point) { !(0xD800 <= p <= 0xDFFF) }

  lemma {:induction false} WellFormedMeansScalars(s: Text)
    ensures WellFormed(s) <==> forall i :: 0 <= i < |Points(s)| ==> Scalar(Points(s)[i])
    decreases |s|
  {
    if s != [] {
      var rest := s[Width(PointAt(s, 0))..];
      WellFormedMeansScalars(rest);
      assert Points(s)[0] == PointAt(s, 0);
      forall i | 0 <= i < |Points(rest)| ensures Points(s)[i + 1] == Points(rest)[i] {}
      assert (forall i :: 0 <= i < |Points(s)| ==> Scalar(Points(s)[i])) ==> Scalar(Points(s)[0]);
      if WellFormed(rest) && Scalar(Points(s)[0]) {
        forall i | 0 <= i < |Points(s)| ensures Scalar(Points(s)[i]) {
          if i > 0 { assert Points(s)[i] == Points(rest)[i - 1]; }
        }
      }
    }
  }

  /** The validating loop of `scalarString`, which skips the second half of a pair. */
  method ScalarString(text: Text, allowEmpty: bool) returns (ok: bool)
    ensures ok <==> WellFormed(text) && (allowEmpty || text != [])
  {
    var index := 0;
    while index < |text|
      invariant 0 <= index <= |text|
      invariant WellFormed(text) <==> WellFormed(text[index..])
    {
      var unit := text[index];
      ghost var rest := text[index..];
      assert rest[0] == unit && rest[1..] == text[index + 1..];
      if High(unit) {
        if index + 1 >= |text| || !Low(text[index + 1]) { return false; }
        assert rest[2..] == text[index + 2..];
        index := index + 1;
      } else if Low(unit) {
        return false;
      }
      index := index + 1;
    }
    return allowEmpty || |text| > 0;
  }

  // ----- UTF-8 (section 3 of RFC 3629)

  function Bytes(p: Point): (bs: seq<int>)
    ensures 1 <= |bs| <= 4
  {
    if p < 0x80 then [p]
    else if p < 0x800 then [0xC0 + p / 64, 0x80 + p % 64]
    else if p < 0x10000 then [0xE0 + p / 4096, 0x80 + p / 64 % 64, 0x80 + p % 64]
    else [0xF0 + p / 262144, 0x80 + p / 4096 % 64, 0x80 + p / 64 % 64, 0x80 + p % 64]
  }

  /** `b` carries six more bits. */
  predicate Trails(b: int) { 0x80 <= b <= 0xBF }

  /**
   * The table of section 3 of RFC 3629: the first byte tells the length, the bits of the bytes put together
   * are the point, and no shorter form would do.
   */
  lemma BytesDecode(p: Point)
    ensures var bs := Bytes(p); |bs| == 1 ==> bs[0] == p <= 0x7F
    ensures var bs := Bytes(p); |bs| == 2 ==> p > 0x7F && 0xC0 <= bs[0] <= 0xDF && Trails(bs[1])
    ensures var bs := Bytes(p); |bs| == 2 ==> p == (bs[0] - 0xC0) * 64 + bs[1] - 0x80
    ensures var bs := Bytes(p); |bs| == 3 ==> p > 0x7FF && 0xE0 <= bs[0] <= 0xEF && Trails(bs[1]) && Trails(bs[2])
    ensures var bs := Bytes(p); |bs| == 3 ==> p == (bs[0] - 0xE0) * 4096 + (bs[1] - 0x80) * 64 + bs[2] - 0x80
    ensures var bs := Bytes(p);
            |bs| == 4 ==> p > 0xFFFF && 0xF0 <= bs[0] <= 0xF7 && Trails(bs[1]) && Trails(bs[2]) && Trails(bs[3])
    ensures var bs := Bytes(p);
            |bs| == 4 ==>
              p == (bs[0] - 0xF0) * 262144 + (bs[1] - 0x80) * 4096 + (bs[2] - 0x80) * 64 + bs[3] - 0x80
  {
    Digits(p);
  }

  function Encoded(ps: seq<Point>): seq<int> {
    if ps == [] then [] else Bytes(ps[0]) + Encoded(ps[1..])
  }

  /** A lone surrogate counts for three bytes, as its replacement does. */
  function Utf8(s: Text): seq<int> { Encoded(Points(s)) }

  /** The order of two lists of numbers: by the first difference, a proper beginning first. */
  predicate LexLess(a: seq<int>, b: seq<int>) {
    if a == [] then b != []
    else b != [] && (a[0] < b[0] || (a[0] == b[0] && LexLess(a[1..], b[1..])))
  }

  lemma {:induction false} LexLessAfter(common: seq<int>, a: seq<int>, b: seq<int>)
    ensures LexLess(common + a, common + b) <==> LexLess(a, b)
  {
    if common == [] {
      assert common + a == a && common + b == b;
    } else {
      LexLessAfter(common[1..], a, b);
      assert (common + a)[1..] == common[1..] + a && (common + b)[1..] == common[1..] + b;
    }
  }

  lemma Digits(p: int)
    requires p >= 0
    ensures p == p / 64 * 64 + p % 64
    ensures p / 64 == p / 4096 * 64 + p / 64 % 64
    ensures p / 4096 == p / 262144 * 64 + p / 4096 % 64
  {
  }

  /** Where the encodings of two points first differ, the smaller point has the smaller byte. */
  lemma FirstDifference(p: Point, q: Point) returns (k: nat)
    requires p < q
    ensures k < |Bytes(p)| && k < |Bytes(q)| && Bytes(p)[..k] == Bytes(q)[..k] && Bytes(p)[k] < Bytes(q)[k]
  {
    var bp, bq := Bytes(p), Bytes(q);
    Digits(p);
    Digits(q);
    if |bp| != |bq| || bp[0] != bq[0] { FirstByte(p, q); return 0; }
    if bp[1] != bq[1] { SecondByte(p, q); assert bp[..1] == bq[..1]; return 1; }
    if bp[2] != bq[2] { assert bp[..2] == bq[..2]; return 2; }
    assert bp[..3] == bq[..3];
    return 3;
  }

  lemma FirstByte(p: Point, q: Point)
    requires p < q && (|Bytes(p)| != |Bytes(q)| || Bytes(p)[0] != Bytes(q)[0])
    ensures Bytes(p)[0] < Bytes(q)[0]
  {
    Digits(p);
    Digits(q);
  }

  lemma SecondByte(p: Point, q: Point)
    requires p < q && |Bytes(p)| == |Bytes(q)| >= 2 && Bytes(p)[0] == Bytes(q)[0] && Bytes(p)[1] != Bytes(q)[1]
    ensures Bytes(p)[1] < Bytes(q)[1]
  {
    Digits(p);
    Digits(q);
  }

  lemma BytesOrder(p: Point, q: Point, x: seq<int>, y: seq<int>)
    requires p < q
    ensures LexLess(Bytes(p) + x, Bytes(q) + y) && !LexLess(Bytes(q) + y, Bytes(p) + x)
  {
    var k := FirstDifference(p, q);
    var common := Bytes(p)[..k];
    assert Bytes(p) + x == common + (Bytes(p)[k..] + x);
    assert Bytes(q) + y == common + (Bytes(q)[k..] + y);
    LexLessAfter(common, Bytes(p)[k..] + x, Bytes(q)[k..] + y);
    LexLessAfter(common, Bytes(q)[k..] + y, Bytes(p)[k..] + x);
  }

  /** Code-point order is byte order of the encodings (the order fact of section 1 of RFC 3629). */
  lemma {:induction false} PointOrderIsByteOrder(ps: seq<Point>, qs: seq<Point>)
    ensures LexLess(ps, qs) <==> LexLess(Encoded(ps), Encoded(qs))
  {
    if ps != [] && qs != [] {
      if ps[0] < qs[0] { BytesOrder(ps[0], qs[0], Encoded(ps[1..]), Encoded(qs[1..])); }
      else if ps[0] > qs[0] { BytesOrder(qs[0], ps[0], Encoded(qs[1..]), Encoded(ps[1..])); }
      else {
        PointOrderIsByteOrder(ps[1..], qs[1..]);
        LexLessAfter(Bytes(ps[0]), Encoded(ps[1..]), Encoded(qs[1..]));
      }
    }
  }

  // ----- a strict total order

  lemma {:induction false} LexTrichotomy(a: seq<int>, b: seq<int>)
    ensures a == b ==> !LexLess(a, b)
    ensures a != b ==> (LexLess(a, b) <==> !LexLess(b, a))
    ensures !(LexLess(a, b) && LexLess(b, a))
  {
    if a != [] && b != [] {
      LexTrichotomy(a[1..], b[1..]);
      assert a == [a[0]] + a[1..] && b == [b[0]] + b[1..];
    }
  }

  lemma {:induction false} LexTransitive(a: seq<int>, b: seq<int>, c: seq<int>)
    requires LexLess(a, b) && LexLess(b, c)
    ensures LexLess(a, c)
  {
    if a != [] && a[0] == b[0] == c[0] { LexTransitive(a[1..], b[1..], c[1..]); }
  }

  /** The order all three comparisons are about. */
  predicate Before(a: Text, b: Text) { LexLess(Points(a), Points(b)) }

  lemma BeforeIsStrictTotal(a: Text, b: Text, c: Text)
    ensures !Before(a, a)
    ensures a != b ==> (Before(a, b) <==> !Before(b, a))
    ensures Before(a, b) && Before(b, c) ==> Before(a, c)
  {
    LexTrichotomy(Points(a), Points(a));
    LexTrichotomy(Points(a), Points(b));
    if Points(a) == Points(b) { PointsInjective(a, b); }
    if Before(a, b) && Before(b, c) { LexTransitive(Points(a), Points(b), Points(c)); }
  }

  /** On all strings the order of the code points is the order of the UTF-8 bytes. */
  lemma BeforeIsByteOrder(a: Text, b: Text)
    ensures Before(a, b) <==> LexLess(Utf8(a), Utf8(b))
  {
    PointOrderIsByteOrder(Points(a), Points(b));
  }

  // ----- the comparisons

  lemma PointsFrom(s: Text, i: nat)
    requires i < |s|
    ensures PointAt(s[i..], 0) == PointAt(s, i) && i + Width(PointAt(s, i)) <= |s|
    ensures Points(s[i..]) == [PointAt(s, i)] + Points(s[i + Width(PointAt(s, i))..])
  {
    assert s[i..][Width(PointAt(s, i))..] == s[i + Width(PointAt(s, i))..];
  }

  /** Both iterators advance together; each index is where its iterator stands. */
  method Utf8LexicalLess(left: Text, right: Text) returns (less: bool)
    ensures less <==> LexLess(Utf8(left), Utf8(right))
  {
    hide LexLess, Points, Utf8;
    BeforeIsByteOrder(left, right);
    WholeTails(left, right);
    var i: nat, j: nat := 0, 0;
    while true
      invariant i <= |left| && j <= |right|
      invariant Before(left, right) <==> LexLess(Points(left[i..]), Points(right[j..]))
      decreases |left| - i
    {
      TailsAtEnd(left, i, right, j);
      if i == |left| && j == |right| { return false; }
      if i == |left| { return true; }
      if j == |right| { return false; }
      TailsStep(left, i, right, j);
      var ac, bc := PointAt(left, i), PointAt(right, j);
      if ac != bc { return ac < bc; }
      i, j := i + Width(ac), j + Width(bc);
    }
  }

  lemma WholeTails(left: Text, right: Text)
    ensures left[0..] == left && right[0..] == right
  {
  }

  lemma TailsAtEnd(left: Text, i: nat, right: Text, j: nat)
    requires i <= |left| && j <= |right|
    ensures i == |left| ==> (LexLess(Points(left[i..]), Points(right[j..])) <==> j < |right|)
    ensures j == |right| ==> !LexLess(Points(left[i..]), Points(right[j..]))
  {
  }

  /** Two tails compare by their first points, or past them if those are equal. */
  lemma TailsStep(left: Text, i: nat, right: Text, j: nat)
    requires i < |left| && j < |right|
    ensures var ac, bc := PointAt(left, i), PointAt(right, j);
            && i + Width(ac) <= |left| && j + Width(bc) <= |right|
            && (ac != bc ==> (LexLess(Points(left[i..]), Points(right[j..])) <==> ac < bc))
            && (ac == bc ==>
               (LexLess(Points(left[i..]), Points(right[j..])) <==>
               LexLess(Points(left[i + Width(ac)..]), Points(right[j + Width(bc)..]))))
  {
    PointsFrom(left, i);
    PointsFrom(right, j);
    var ac, bc := PointAt(left, i), PointAt(right, j);
    assert Points(left[i..])[1..] == Points(left[i + Width(ac)..])
        && Points(right[j..])[1..] == Points(right[j + Width(bc)..]);
  }

  /** A comparator for `sort`: negative, zero or positive as the order says. */
  ghost predicate Compares(c: int, left: Text, right: Text) {
    && (c < 0 <==> Before(left, right))
    && (c > 0 <==> Before(right, left))
    && (c == 0 <==> left == right)
  }

  lemma ComparesIf(c: int, left: Text, right: Text)
    requires c < 0 ==> Before(left, right)
    requires c > 0 ==> Before(right, left)
    requires c == 0 ==> left == right
    ensures Compares(c, left, right)
  {
    BeforeIsStrictTotal(left, right, left);
    BeforeIsStrictTotal(right, left, right);
  }

  /** The manifest serializer's comparator, whose final answer is the difference of the lengths in units. */
  method CompareCodePoints(left: Text, right: Text) returns (c: int)
    ensures Compares(c, left, right)
  {
    hide LexLess, Points;
    var i: nat, j: nat := 0, 0;
    WholeTails(left, right);
    while i < |left| && j < |right|
      invariant i == j && i <= |left| && j <= |right| && left[..i] == right[..j]
      invariant Before(left, right) <==> LexLess(Points(left[i..]), Points(right[j..]))
      invariant Before(right, left) <==> LexLess(Points(right[j..]), Points(left[i..]))
    {
      TailsStep(left, i, right, j);
      TailsStep(right, j, left, i);
      var lp: int, rp: int := PointAt(left, i), PointAt(right, j);
      if lp != rp {
        c := lp - rp;
        ComparesIf(c, left, right);
        return;
      }
      SameUnits(left, right, i, lp);
      i, j := i + Width(lp), j + Width(rp);
    }
    c := |left| - |right|;
    TailsAtEnd(left, i, right, j);
    TailsAtEnd(right, j, left, i);
    assert c == 0 ==> left == left[..i] && right == right[..j];
    ComparesIf(c, left, right);
  }

  lemma SameUnits(left: Text, right: Text, i: nat, p: Point)
    requires i < |left| && i < |right| && PointAt(left, i) == p == PointAt(right, i) && left[..i] == right[..i]
    ensures i + Width(p) <= |left| && i + Width(p) <= |right| && left[..i + Width(p)] == right[..i + Width(p)]
  {
    assert left[..i + 1] == left[..i] + [left[i]] && right[..i + 1] == right[..i] + [right[i]];
    if p > 0xFFFF {
      assert left[i] == right[i] && left[i + 1] == right[i + 1];
      assert left[..i + 2] == left[..i + 1] + [left[i + 1]] && right[..i + 2] == right[..i + 1] + [right[i + 1]];
    }
  }

  /** The recursive serializer's comparator, whose final answer is the difference of the counts of points. */
  method CodePointCompare(a: Text, b: Text) returns (c: int)
    ensures Compares(c, a, b)
  {
    var aa, bb := Points(a), Points(b);
    var index := 0;
    assert aa[0..] == aa && bb[0..] == bb;
    while index < |aa| && index < |bb|
      invariant 0 <= index <= |aa| && index <= |bb| && aa[..index] == bb[..index]
      invariant Before(a, b) <==> LexLess(aa[index..], bb[index..])
      invariant Before(b, a) <==> LexLess(bb[index..], aa[index..])
    {
      var difference: int := aa[index] as int - bb[index] as int;
      if difference != 0 {
        ComparesIf(difference, a, b);
        return difference;
      }
      assert aa[index..][1..] == aa[index + 1..] && bb[index..][1..] == bb[index + 1..];
      assert aa[..index + 1] == aa[..index] + [aa[index]] && bb[..index + 1] == bb[..index] + [bb[index]];
      index := index + 1;
    }
    c := |aa| - |bb|;
    if c == 0 {
      assert aa == aa[..index] && bb == bb[..index];
      PointsInjective(a, b);
    }
    ComparesIf(c, a, b);
  }

  // ----- lengths

  /** `utf8ByteLength`, which never builds the bytes. */
  method Utf8ByteLength(text: Text) returns (bytes: nat)
    ensures bytes == |Utf8(text)|
  {
    hide Utf8, Encoded, Points;
    bytes := 0;
    var index := 0;
    Ends(text);
    while index < |text|
      invariant 0 <= index <= |text|
      invariant bytes + |Utf8(text[index..])| == |Utf8(text)|
    {
      OnePoint(text, index);
      var unit := text[index];
      if unit <= 0x7F {
        bytes := bytes + 1;
      } else if unit <= 0x7FF {
        bytes := bytes + 2;
      } else if High(unit) && index + 1 < |text| && Low(text[index + 1]) {
        bytes := bytes + 4;
        index := index + 1;
      } else {
        bytes := bytes + 3;
      }
      index := index + 1;
    }
  }

  lemma Ends(text: Text)
    ensures text[0..] == text && |Utf8(text[|text|..])| == 0
  {
  }

  lemma OnePoint(text: Text, i: nat)
    requires i < |text|
    ensures i + Width(PointAt(text, i)) <= |text|
    ensures |Utf8(text[i..])| == |Bytes(PointAt(text, i))| + |Utf8(text[i + Width(PointAt(text, i))..])|
  {
    PointsFrom(text, i);
    EncodedFirst(Points(text[i..]));
    assert Points(text[i..])[1..] == Points(text[i + Width(PointAt(text, i))..]);
  }

  lemma EncodedFirst(ps: seq<Point>)
    requires ps != []
    ensures |Encoded(ps)| == |Bytes(ps[0])| + |Encoded(ps[1..])|
  {
  }

  /** A string that does not end in half a pair can be measured apart from what follows it. */
  predicate Closed(s: Text) { s == [] || !High(s[|s| - 1]) }

  lemma {:induction false} PointsApart(a: Text, b: Text)
    requires Closed(a)
    ensures Points(a + b) == Points(a) + Points(b)
    decreases |a|
  {
    if a == [] {
      assert a + b == b;
    } else {
      var w := Width(PointAt(a, 0));
      assert PointAt(a + b, 0) == PointAt(a, 0);
      assert (a + b)[w..] == a[w..] + b;
      PointsApart(a[w..], b);
    }
  }

  lemma {:induction false} EncodedApart(ps: seq<Point>, qs: seq<Point>)
    ensures Encoded(ps + qs) == Encoded(ps) + Encoded(qs)
  {
    if ps == [] {
      assert ps + qs == qs;
    } else {
      EncodedApart(ps[1..], qs);
      assert (ps + qs)[1..] == ps[1..] + qs;
      assert Bytes(ps[0]) + (Encoded(ps[1..]) + Encoded(qs)) == (Bytes(ps[0]) + Encoded(ps[1..])) + Encoded(qs);
    }
  }

  lemma Utf8Apart(a: Text, b: Text)
    requires Closed(a)
    ensures |Utf8(a + b)| == |Utf8(a)| + |Utf8(b)|
  {
    PointsApart(a, b);
    EncodedApart(Points(a), Points(b));
  }
}
