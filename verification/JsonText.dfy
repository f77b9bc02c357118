/**
 * JSON values and their texts: the canonical text with sorted members, which one serializer of the
 * repository computes by recursion (apps/desktop/src/content-service.ts) and the other with an explicit
 * stack (apps/pwa/src/content-manifest.ts), and the byte measurer with its limits
 * (packages/runtime-control/src/codec.ts).
 */
module JsonText {
  import opened Base
  import opened Unicode

  /** A number carries the text it prints as; an object lists its members in key order of enumeration. */
  type Ascii = t: Text | forall i :: 0 <= i < |t| ==> t[i] < 0x80
  datatype Member = Member(key: Text, value: Json)
  datatype Json = Null | Bool(b: bool) | Num(token: Ascii) | Str(s: Text) | Arr(items: seq<Json>)
      | Obj(members: seq<Member>)

  /** Own keys are distinct, at every depth. */
  ghost predicate Distinct(v: Json)
    decreases v
  {
    match v
    case Arr(items) => forall i :: 0 <= i < |items| ==> Distinct(items[i])
    case Obj(members) =>
      && (forall i, j :: 0 <= i < j < |members| ==> members[i].key != members[j].key)
      && (forall i :: 0 <= i < |members| ==> Distinct(members[i].value))
    case _ => true
  }

  function Keys(members: seq<Member>): seq<Text> {
    seq(|members|, i requires 0 <= i < |members| => members[i].key)
  }

  /** The position of a key's own property. */
  function Find(members: seq<Member>, key: Text): (i: nat)
    requires key in Keys(members)
    ensures i < |members| && members[i].key == key
  {
    if members[0].key == key then 0
    else
      assert Keys(members)[1..] == Keys(members[1..]);
      1 + Find(members[1..], key)
  }

  // ----- JSON.stringify of a string

  function Hex(d: int): Unit
    requires 0 <= d < 16
  {
    if d < 10 then 0x30 + d else 0x61 + d - 10
  }

  const BACKSLASH: Unit := 0x5C

  function Escaped(u: Unit): Text {
    [BACKSLASH, 0x75, Hex(u / 0x1000), Hex(u / 0x100 % 16), Hex(u / 0x10 % 16), Hex(u % 16)]
  }

  /** Two-character escapes where there are some, else \u escapes for controls and lone surrogates. */
  function QuoteFrom(s: Text): (q: Text)
    ensures Closed(q)
    decreases |s|
  {
    if s == [] then []
    else if PairAt(s, 0) then [s[0], s[1]] + QuoteFrom(s[2..])
    else
      var u := s[0];
      (if u == 0x22 || u == 0x5C then [BACKSLASH, u]
       else if u == 0x08 then [BACKSLASH, 0x62]
       else if u == 0x09 then [BACKSLASH, 0x74]
       else if u == 0x0A then [BACKSLASH, 0x6E]
       else if u == 0x0C then [BACKSLASH, 0x66]
       else if u == 0x0D then [BACKSLASH, 0x72]
       else if u < 0x20 || High(u) || Low(u) then Escaped(u)
       else [u]) + QuoteFrom(s[1..])
  }

  function Quote(s: Text): (q: Text)
    ensures Closed(q)
  {
    [0x22] + QuoteFrom(s) + [0x22]
  }

  const NULL: Text := [0x6E, 0x75, 0x6C, 0x6C]
  const TRUE: Text := [0x74, 0x72, 0x75, 0x65]
  const FALSE: Text := [0x66, 0x61, 0x6C, 0x73, 0x65]
  const COMMA: Text := [0x2C]
  const COLON: Text := [0x3A]
  const OPEN_ARRAY: Text := [0x5B]
  const CLOSE_ARRAY: Text := [0x5D]
  const OPEN_OBJECT: Text := [0x7B]
  const CLOSE_OBJECT: Text := [0x7D]

  /** `JSON.stringify` of a value that is no container. */
  function Leaf(v: Json): Text
    requires !v.Arr? && !v.Obj?
  {
    match v
    case Null => NULL
    case Bool(b) => if b then TRUE else FALSE
    case Num(token) => token
    case Str(s) => Quote(s)
  }

  // ----- sorting keys

  /** Inserts before the first key that comes after it. */
  function Insert(key: Text, sorted: seq<Text>): seq<Text> {
    if sorted == [] || Before(key, sorted[0]) then [key] + sorted else [sorted[0]] + Insert(key, sorted[1..])
  }

  /** What sorting by either comparator yields. */
  function Sorted(keys: seq<Text>): seq<Text> {
    if keys == [] then [] else Insert(keys[0], Sorted(keys[1..]))
  }

  ghost predicate StrictlySorted(keys: seq<Text>) {
    forall i, j :: 0 <= i < j < |keys| ==> Before(keys[i], keys[j])
  }

  lemma {:induction false} InsertKeeps(key: Text, sorted: seq<Text>)
    requires StrictlySorted(sorted) && key !in sorted
    ensures StrictlySorted(Insert(key, sorted)) && multiset(Insert(key, sorted)) == multiset(sorted) + multiset{key}
  {
    hide Before, StrictlySorted;
    if sorted == [] {
      OneIsSorted(key);
      assert [key] + sorted == [key];
    } else if Before(key, sorted[0]) {
      Front(key, sorted);
    } else {
      BeforeIsStrictTotal(key, sorted[0], key);
      var rest := sorted[1..];
      assert sorted == [sorted[0]] + rest;
      SortedTail(sorted);
      InsertKeeps(key, rest);
      InsertHas(key, rest);
      After(sorted[0], Insert(key, rest));
    }
  }

  lemma OneIsSorted(key: Text)
    ensures StrictlySorted([key])
  {
  }

  lemma Front(key: Text, sorted: seq<Text>)
    requires StrictlySorted(sorted) && sorted != [] && Before(key, sorted[0])
    ensures StrictlySorted([key] + sorted)
  {
    hide Before;
    forall j | 0 <= j < |sorted| ensures Before(key, sorted[j]) {
      if j > 0 { BeforeIsStrictTotal(key, sorted[0], sorted[j]); }
    }
  }

  lemma SortedTail(sorted: seq<Text>)
    requires StrictlySorted(sorted) && sorted != []
    ensures StrictlySorted(sorted[1..]) && forall x :: x in sorted[1..] ==> Before(sorted[0], x)
  {
    hide Before;
  }

  lemma After(first: Text, rest: seq<Text>)
    requires StrictlySorted(rest) && forall x :: x in rest ==> Before(first, x)
    ensures StrictlySorted([first] + rest)
  {
    hide Before;
  }

  lemma {:induction false} SortedIsSorted(keys: seq<Text>)
    requires forall i, j :: 0 <= i < j < |keys| ==> keys[i] != keys[j]
    ensures StrictlySorted(Sorted(keys)) && multiset(Sorted(keys)) == multiset(keys)
  {
    if keys != [] {
      SortedIsSorted(keys[1..]);
      assert keys == [keys[0]] + keys[1..];
      assert keys[0] !in keys[1..];
      assert keys[0] !in multiset(keys[1..]);
      InsertKeeps(keys[0], Sorted(keys[1..]));
    }
  }

  lemma HasFirst(b: seq<Text>)
    ensures b == [] || b[0] in b
  {
  }

  /** The order being strict and total, there is only one way to sort distinct keys. */
  lemma {:induction false} OneSorting(a: seq<Text>, b: seq<Text>)
    requires StrictlySorted(a) && StrictlySorted(b) && forall x :: x in a <==> x in b
    ensures a == b
    decreases |a|
  {
    if a == [] {
      HasFirst(b);
    } else {
      assert a[0] in b;
      assert b[0] in a;
      var i :| 0 <= i < |b| && b[i] == a[0];
      var j :| 0 <= j < |a| && a[j] == b[0];
      if i > 0 && j > 0 { BeforeIsStrictTotal(a[0], b[0], a[0]); }
      assert a[0] == b[0];
      NotAgain(a);
      NotAgain(b);
      forall x ensures x in a[1..] <==> x in b[1..] {
        assert x in a <==> x == a[0] || x in a[1..];
        assert x in b <==> x == b[0] || x in b[1..];
      }
      OneSorting(a[1..], b[1..]);
      assert a == [a[0]] + a[1..] && b == [b[0]] + b[1..];
    }
  }

  lemma NotAgain(a: seq<Text>)
    requires StrictlySorted(a) && a != []
    ensures a[0] !in a[1..] && StrictlySorted(a[1..])
  {
    forall i | 1 <= i < |a| ensures a[i] != a[0] { BeforeIsStrictTotal(a[0], a[0], a[0]); }
  }

  lemma SortedHas(keys: seq<Text>)
    ensures forall x :: x in Sorted(keys) <==> x in keys
  {
    if keys != [] {
      SortedHas(keys[1..]);
      InsertHas(keys[0], Sorted(keys[1..]));
      assert keys == [keys[0]] + keys[1..];
    }
  }

  lemma InsertHas(key: Text, sorted: seq<Text>)
    ensures forall x :: x in Insert(key, sorted) <==> x == key || x in sorted
  {
    if sorted != [] && !Before(key, sorted[0]) {
      InsertHas(key, sorted[1..]);
      assert sorted == [sorted[0]] + sorted[1..];
    }
  }

  /** However the members are listed, their keys sort to the same list. */
  lemma SortingForgetsOrder(a: seq<Text>, b: seq<Text>)
    requires forall i, j :: 0 <= i < j < |a| ==> a[i] != a[j]
    requires forall i, j :: 0 <= i < j < |b| ==> b[i] != b[j]
    requires forall x :: x in a <==> x in b
    ensures Sorted(a) == Sorted(b)
  {
    SortedIsSorted(a);
    SortedIsSorted(b);
    SortedHas(a);
    SortedHas(b);
    OneSorting(Sorted(a), Sorted(b));
  }

  // ----- the recursive serializer

  function Canonical(v: Json): Text
    decreases v, 0
  {
    match v
    case Arr(items) => OPEN_ARRAY + CanonicalItems(items, 0) + CLOSE_ARRAY
    case Obj(members) => OPEN_OBJECT + CanonicalMembers(members, Sorted(Keys(members)), 0) + CLOSE_OBJECT
    case _ => Leaf(v)
  }

  /** The items from `i` on, each after the first with its comma. */
  function CanonicalItems(items: seq<Json>, i: nat): Text
    requires i <= |items|
    decreases items, |items| - i
  {
    if i == |items| then [] else (if i > 0 then COMMA else []) + Canonical(items[i]) + CanonicalItems(items, i + 1)
  }

  function CanonicalMembers(members: seq<Member>, keys: seq<Text>, i: nat): Text
    requires i <= |keys|
    decreases members, |keys| - i
  {
    if i == |keys| || keys[i] !in Keys(members) then []
    else
      (if i > 0 then COMMA else []) + Quote(keys[i]) + COLON + Canonical(members[Find(members, keys[i])].value)
      + CanonicalMembers(members, keys, i + 1)
  }

  /** Two values that differ only in the order objects list their members in, at any depth. */
  ghost predicate SameUpToOrder(v: Json, w: Json)
    decreases v
  {
    match v
    case Arr(items) =>
      w.Arr? && |items| == |w.items| && forall i :: 0 <= i < |items| ==> SameUpToOrder(items[i], w.items[i])
    case Obj(members) =>
      && w.Obj?
      && (forall k :: k in Keys(members) <==> k in Keys(w.members))
      && (forall i :: 0 <= i < |members| ==>
         members[i].key in Keys(w.members)
         && SameUpToOrder(members[i].value, w.members[Find(w.members, members[i].key)].value))
    case _ => v == w
  }

  /** The canonical text does not depend on the order members are listed in. */
  lemma {:induction false} CanonicalForgetsOrder(v: Json, w: Json)
    requires Distinct(v) && Distinct(w) && SameUpToOrder(v, w)
    ensures Canonical(v) == Canonical(w)
    decreases v, 0
  {
    match v
    case Arr(items) => ItemsForgetOrder(items, w.items, 0);
    case Obj(members) =>
      SortingForgetsOrder(Keys(members), Keys(w.members));
      MembersForgetOrder(members, w.members, Sorted(Keys(members)), 0);
    case _ =>
  }

  lemma {:induction false} ItemsForgetOrder(vs: seq<Json>, ws: seq<Json>, i: nat)
    requires |vs| == |ws| && i <= |vs|
    requires forall j :: 0 <= j < |vs| ==> Distinct(vs[j]) && Distinct(ws[j]) && SameUpToOrder(vs[j], ws[j])
    ensures CanonicalItems(vs, i) == CanonicalItems(ws, i)
    decreases vs, |vs| - i
  {
    if i < |vs| {
      CanonicalForgetsOrder(vs[i], ws[i]);
      ItemsForgetOrder(vs, ws, i + 1);
    }
  }

  lemma {:induction false} MembersForgetOrder(vs: seq<Member>, ws: seq<Member>, keys: seq<Text>, i: nat)
    requires i <= |keys| && Distinct(Obj(vs)) && Distinct(Obj(ws))
    requires forall k :: k in Keys(vs) <==> k in Keys(ws)
    requires forall j :: 0 <= j < |vs| ==>
             vs[j].key in Keys(ws) && SameUpToOrder(vs[j].value, ws[Find(ws, vs[j].key)].value)
    ensures CanonicalMembers(vs, keys, i) == CanonicalMembers(ws, keys, i)
    decreases vs, |keys| - i
  {
    if i < |keys| && keys[i] in Keys(vs) {
      var j := Find(vs, keys[i]);
      CanonicalForgetsOrder(vs[j].value, ws[Find(ws, keys[i])].value);
      MembersForgetOrder(vs, ws, keys, i + 1);
    }
  }

  // ----- the serializer with an explicit stack

  datatype Task = Value(value: Json) | Text(text: Text)

  /** What the tasks still print, the top of the stack being its end. */
  function Rest(stack: seq<Task>): Text
    decreases |stack|
  {
    if stack == [] then [] else Printed(stack[|stack| - 1]) + Rest(stack[..|stack| - 1])
  }

  function Printed(task: Task): Text {
    match task
    case Value(v) => Canonical(v)
    case Text(text) => text
  }

  lemma RestPush(stack: seq<Task>, task: Task)
    ensures Rest(stack + [task]) == Printed(task) + Rest(stack)
  {
    assert (stack + [task])[..|stack|] == stack;
  }

  /** How many tasks a value can still cause. */
  function Weight(v: Json): (n: nat)
    ensures n > 0
    decreases v, 0
  {
    match v
    case Arr(items) => 3 + ItemsWeight(items, 0)
    case Obj(members) => 3 + MembersWeight(members, Sorted(Keys(members)), 0)
    case _ => 1
  }

  function ItemsWeight(items: seq<Json>, i: nat): nat
    requires i <= |items|
    decreases items, |items| - i
  {
    if i == |items| then 0 else Weight(items[i]) + 1 + ItemsWeight(items, i + 1)
  }

  function MembersWeight(members: seq<Member>, keys: seq<Text>, i: nat): nat
    requires i <= |keys|
    decreases members, |keys| - i
  {
    if i == |keys| || keys[i] !in Keys(members) then 0
    else Weight(members[Find(members, keys[i])].value) + 2 + MembersWeight(members, keys, i + 1)
  }

  function Work(stack: seq<Task>): nat
    decreases |stack|
  {
    if stack == [] then 0
    else (match stack[|stack| - 1] case Value(v) => Weight(v) case Text(_) => 1) + Work(stack[..|stack| - 1])
  }

  lemma WorkPush(stack: seq<Task>, task: Task)
    ensures Work(stack + [task]) == (match task case Value(v) => Weight(v) case Text(_) => 1) + Work(stack)
  {
    assert (stack + [task])[..|stack|] == stack;
  }

  /** Pushes the tasks of an array, its first item on top. */
  method PushItems(stack: seq<Task>, items: seq<Json>) returns (more: seq<Task>)
    ensures Rest(more) == CanonicalItems(items, 0) + Rest(stack)
    ensures Work(more) <= ItemsWeight(items, 0) + Work(stack)
  {
    more := stack;
    var index := |items|;
    assert [] + Rest(stack) == Rest(stack);
    while index > 0
      invariant 0 <= index <= |items|
      invariant Rest(more) == CanonicalItems(items, index) + Rest(stack)
      invariant Work(more) <= ItemsWeight(items, index) + Work(stack)
    {
      index := index - 1;
      RestPush(more, Value(items[index]));
      WorkPush(more, Value(items[index]));
      more := more + [Value(items[index])];
      if index > 0 {
        RestPush(more, Text(COMMA));
        WorkPush(more, Text(COMMA));
        more := more + [Text(COMMA)];
      }
      Regroup(if index > 0 then COMMA else [], Canonical(items[index]), CanonicalItems(items, index + 1), Rest(stack));
    }
  }

  lemma Regroup(a: Text, b: Text, c: Text, d: Text)
    ensures a + b + c + d == a + (b + (c + d)) && [] + (b + (c + d)) == b + (c + d)
  {
  }

  /** Pushes the tasks of an object in the order of its sorted keys. */
  method PushMembers(stack: seq<Task>, members: seq<Member>, keys: seq<Text>) returns (more: seq<Task>)
    requires forall i :: 0 <= i < |keys| ==> keys[i] in Keys(members)
    ensures Rest(more) == CanonicalMembers(members, keys, 0) + Rest(stack)
    ensures Work(more) <= MembersWeight(members, keys, 0) + Work(stack)
  {
    more := stack;
    var index := |keys|;
    assert [] + Rest(stack) == Rest(stack);
    while index > 0
      invariant 0 <= index <= |keys|
      invariant Rest(more) == CanonicalMembers(members, keys, index) + Rest(stack)
      invariant Work(more) <= MembersWeight(members, keys, index) + Work(stack)
    {
      index := index - 1;
      var value := members[Find(members, keys[index])].value;
      RestPush(more, Value(value));
      WorkPush(more, Value(value));
      more := more + [Value(value)];
      RestPush(more, Text(Quote(keys[index]) + COLON));
      WorkPush(more, Text(Quote(keys[index]) + COLON));
      more := more + [Text(Quote(keys[index]) + COLON)];
      if index > 0 {
        RestPush(more, Text(COMMA));
        WorkPush(more, Text(COMMA));
        more := more + [Text(COMMA)];
      }
      RegroupMember(if index > 0 then COMMA
          else [], Quote(keys[index]), COLON, Canonical(value), CanonicalMembers(members, keys, index + 1),
          Rest(stack));
    }
  }

  lemma RegroupMember(a: Text, q: Text, c: Text, v: Text, more: Text, rest: Text)
    ensures a + q + c + v + more + rest == a + ((q + c) + (v + (more + rest)))
    ensures [] + ((q + c) + (v + (more + rest))) == (q + c) + (v + (more + rest))
  {
    Associative(a + q + c + v, more, rest);
    Associative(a + q + c, v, more + rest);
    Associative(a + q, c, v + (more + rest));
    Associative(a, q, c + (v + (more + rest)));
    Associative(q, c, v + (more + rest));
  }

  lemma Associative(a: Text, b: Text, c: Text)
    ensures a + b + c == a + (b + c)
  {
  }

  /** The explicit stack prints what the recursion prints. */
  method SerializeManifestValue(value: Json) returns (output: Text)
    ensures output == Canonical(value)
  {
    hide Canonical, Weight, Rest, Work;
    output := [];
    var stack := [Value(value)];
    OnlyTask(value);
    while |stack| > 0
      invariant output + Rest(stack) == Canonical(value)
      decreases Work(stack)
    {
      var task, below := stack[|stack| - 1], stack[..|stack| - 1];
      assert stack == below + [task];
      RestPush(below, task);
      WorkPush(below, task);
      stack := below;
      var printed := [];
      match task {
        case Text(text) => printed := text;
        case Value(current) =>
          match current {
            case Arr(items) => stack := PushArray(stack, items);
            case Obj(members) => stack := PushObject(stack, members);
            case _ =>
              LeafIs(current);
              printed := Leaf(current);
          }
      }
      assert output + (printed + Rest(stack)) == (output + printed) + Rest(stack) && [] + Rest(stack) == Rest(stack);
      output := output + printed;
    }
    EmptyRest();
  }

  lemma OnlyTask(value: Json)
    ensures [] + Rest([Value(value)]) == Canonical(value)
  {
    RestPush([], Value(value));
    assert [] + [Value(value)] == [Value(value)] && Canonical(value) + [] == Canonical(value);
  }

  lemma LeafIs(v: Json)
    requires !v.Arr? && !v.Obj?
    ensures Canonical(v) == Leaf(v) && Weight(v) == 1
  {
  }

  lemma EmptyRest()
    ensures Rest([]) == []
  {
  }

  method PushArray(stack: seq<Task>, items: seq<Json>) returns (more: seq<Task>)
    ensures Rest(more) == Canonical(Arr(items)) + Rest(stack)
    ensures Work(more) < Weight(Arr(items)) + Work(stack)
  {
    RestPush(stack, Text(CLOSE_ARRAY));
    WorkPush(stack, Text(CLOSE_ARRAY));
    more := PushItems(stack + [Text(CLOSE_ARRAY)], items);
    RestPush(more, Text(OPEN_ARRAY));
    WorkPush(more, Text(OPEN_ARRAY));
    more := more + [Text(OPEN_ARRAY)];
    Regroup(OPEN_ARRAY, CanonicalItems(items, 0), CLOSE_ARRAY, Rest(stack));
  }

  method PushObject(stack: seq<Task>, members: seq<Member>) returns (more: seq<Task>)
    ensures Rest(more) == Canonical(Obj(members)) + Rest(stack)
    ensures Work(more) < Weight(Obj(members)) + Work(stack)
  {
    var keys := Sorted(Keys(members));
    SortedHas(Keys(members));
    forall i | 0 <= i < |keys| ensures keys[i] in Keys(members) { assert keys[i] in keys; }
    RestPush(stack, Text(CLOSE_OBJECT));
    WorkPush(stack, Text(CLOSE_OBJECT));
    more := PushMembers(stack + [Text(CLOSE_OBJECT)], members, keys);
    RestPush(more, Text(OPEN_OBJECT));
    WorkPush(more, Text(OPEN_OBJECT));
    more := more + [Text(OPEN_OBJECT)];
    Regroup(OPEN_OBJECT, CanonicalMembers(members, keys, 0), CLOSE_OBJECT, Rest(stack));
  }

  /** Whatever arrangement of distinct keys a sort by either comparator returns, it is `Sorted`. */
  lemma AnySortIsSorted(keys: seq<Text>, result: seq<Text>)
    requires forall i, j :: 0 <= i < j < |keys| ==> keys[i] != keys[j]
    requires multiset(result) == multiset(keys)
             && forall i, j :: 0 <= i < j < |result| ==> !Before(result[j], result[i])
    ensures result == Sorted(keys)
  {
    SortedIsSorted(keys);
    SortedHas(keys);
    forall i, j | 0 <= i < j < |result| ensures Before(result[i], result[j]) {
      DistinctResult(keys, result, i, j);
      BeforeIsStrictTotal(result[i], result[j], result[i]);
    }
    forall x ensures x in result <==> x in Sorted(keys) {
      assert x in result <==> x in multiset(result);
      assert x in keys <==> x in multiset(keys);
    }
    OneSorting(result, Sorted(keys));
  }

  lemma DistinctResult(keys: seq<Text>, result: seq<Text>, i: nat, j: nat)
    requires forall i, j :: 0 <= i < j < |keys| ==> keys[i] != keys[j]
    requires multiset(result) == multiset(keys) && i < j < |result|
    ensures result[i] != result[j]
  {
    if result[i] == result[j] {
      var x := result[i];
      assert result == result[..i] + [x] + result[i + 1..j] + [x] + result[j + 1..];
      assert multiset(result)[x] >= 2;
      OnceInDistinct(keys, x);
    }
  }

  lemma {:induction false} OnceInDistinct(keys: seq<Text>, x: Text)
    requires forall i, j :: 0 <= i < j < |keys| ==> keys[i] != keys[j]
    ensures multiset(keys)[x] <= 1
  {
    if keys != [] {
      OnceInDistinct(keys[1..], x);
      assert keys == [keys[0]] + keys[1..];
      if keys[0] == x { assert x !in keys[1..]; assert x !in multiset(keys[1..]); }
    }
  }

  // ----- the compact text and the limits on it

  const MAX_DEPTH: nat := 64
  const MAX_MEMBERS: nat := 16_384
  const MAX_STRING_BYTES: nat := 262_144
  const MAX_KEY_BYTES: nat := 256

  function ByteLength(s: Text): nat { |Utf8(s)| }

  /** The compact text, members as listed. */
  function Compact(v: Json): (t: Text)
    ensures Closed(t)
    decreases v, 0
  {
    match v
    case Arr(items) => OPEN_ARRAY + CompactItems(items, 0) + CLOSE_ARRAY
    case Obj(members) => OPEN_OBJECT + CompactMembers(members, 0) + CLOSE_OBJECT
    case _ => LeafClosed(v); Leaf(v)
  }

  function CompactItems(items: seq<Json>, i: nat): (t: Text)
    requires i <= |items|
    ensures Closed(t)
    decreases items, |items| - i
  {
    if i == |items| then [] else (if i > 0 then COMMA else []) + Compact(items[i]) + CompactItems(items, i + 1)
  }

  function CompactMembers(members: seq<Member>, i: nat): (t: Text)
    requires i <= |members|
    ensures Closed(t)
    decreases members, |members| - i
  {
    if i == |members| then []
    else
      (if i > 0 then COMMA else []) + Quote(members[i].key) + COLON + Compact(members[i].value)
      + CompactMembers(members, i + 1)
  }

  lemma LeafClosed(v: Json)
    requires !v.Arr? && !v.Obj?
    ensures Closed(Leaf(v))
  {
    if v.Num? && v.token != [] { assert v.token[|v.token| - 1] < 0x80; }
  }

  predicate StringOk(s: Text, limit: nat) { WellFormed(s) && ByteLength(s) <= limit }

  /** Every limit that is not about the total: depth, numbers of items and members, strings and keys. */
  ghost predicate Within(v: Json, depth: nat)
    decreases v
  {
    match v
    case Str(s) => StringOk(s, MAX_STRING_BYTES)
    case Arr(items) =>
      depth <= MAX_DEPTH && |items| <= MAX_MEMBERS && forall i :: 0 <= i < |items| ==> Within(items[i], depth + 1)
    case Obj(members) =>
      && depth <= MAX_DEPTH && |members| <= MAX_MEMBERS
      && forall i :: 0 <= i < |members| ==>
         StringOk(members[i].key, MAX_KEY_BYTES) && Within(members[i].value, depth + 1)
    case _ => true
  }

  // ----- the measurer

  datatype Item = Item(value: Json, depth: nat) | Token(token: Text)

  function ItemText(item: Item): (t: Text) {
    match item
    case Item(v, _) => Compact(v)
    case Token(token) => token
  }

  /** The bytes the stack still stands for. */
  function Owed(stack: seq<Item>): nat {
    if stack == [] then 0 else ByteLength(ItemText(stack[|stack| - 1])) + Owed(stack[..|stack| - 1])
  }

  ghost predicate AllWithin(stack: seq<Item>) {
    forall i :: 0 <= i < |stack| && stack[i].Item? ==> Within(stack[i].value, stack[i].depth)
  }

  function Size(v: Json): (n: nat)
    ensures n > 0
    decreases v, 0
  {
    match v
    case Arr(items) => 1 + ItemsSize(items, 0)
    case Obj(members) => 1 + MembersSize(members, 0)
    case _ => 1
  }

  function ItemsSize(items: seq<Json>, i: nat): nat
    requires i <= |items|
    decreases items, |items| - i
  {
    if i == |items| then 0 else Size(items[i]) + 1 + ItemsSize(items, i + 1)
  }

  function MembersSize(members: seq<Member>, i: nat): nat
    requires i <= |members|
    decreases members, |members| - i
  {
    if i == |members| then 0 else Size(members[i].value) + 3 + MembersSize(members, i + 1)
  }

  function Load(stack: seq<Item>): nat {
    if stack == [] then 0
        else (if stack[|stack| - 1].Item? then Size(stack[|stack| - 1].value) else 1) + Load(stack[..|stack| - 1])
  }

  lemma Pushed(stack: seq<Item>, item: Item)
    ensures Owed(stack + [item]) == ByteLength(ItemText(item)) + Owed(stack)
    ensures Load(stack + [item]) == (if item.Item? then Size(item.value) else 1) + Load(stack)
    ensures AllWithin(stack + [item]) <==> AllWithin(stack) && (item.Item? ==> Within(item.value, item.depth))
  {
    assert (stack + [item])[..|stack|] == stack;
    if AllWithin(stack + [item]) {
      forall i | 0 <= i < |stack| && stack[i].Item? ensures Within(stack[i].value, stack[i].depth) {
        assert (stack + [item])[i] == stack[i];
      }
      assert (stack + [item])[|stack|] == item;
    }
  }

  lemma One(u: Unit)
    requires u < 0x80
    ensures ByteLength([u]) == 1 && Closed([u])
  {
    assert Points([u]) == [u];
    assert Encoded([u]) == Bytes(u) + Encoded([]);
  }

  lemma ItemsBytes(items: seq<Json>, i: nat)
    requires i < |items|
    ensures ByteLength(CompactItems(items, i)) ==
            (if i > 0 then 1 else 0) + ByteLength(Compact(items[i])) + ByteLength(CompactItems(items, i + 1))
  {
    hide Compact, Utf8;
    One(0x2C);
    Utf8Apart((if i > 0 then COMMA else []) + Compact(items[i]), CompactItems(items, i + 1));
    Utf8Apart(if i > 0 then COMMA else [], Compact(items[i]));
    NoBytes();
  }

  lemma NoBytes()
    ensures ByteLength([]) == 0
  {
  }

  lemma MembersBytes(members: seq<Member>, i: nat)
    requires i < |members|
    ensures ByteLength(CompactMembers(members, i)) ==
            (if i > 0 then 1 else 0) + ByteLength(Quote(members[i].key)) + 1 + ByteLength(Compact(members[i].value))
                + ByteLength(CompactMembers(members, i + 1))
  {
    hide Compact, Utf8, Quote;
    One(0x2C);
    One(0x3A);
    NoBytes();
    var comma := if i > 0 then COMMA else [];
    var key, value := Quote(members[i].key), Compact(members[i].value);
    Utf8Apart(comma + key + COLON + value, CompactMembers(members, i + 1));
    Utf8Apart(comma + key + COLON, value);
    Utf8Apart(comma + key, COLON);
    Utf8Apart(comma, key);
  }

  lemma ContainerBytes(items: seq<Json>, members: seq<Member>)
    ensures ByteLength(Compact(Arr(items))) == 2 + ByteLength(CompactItems(items, 0))
    ensures ByteLength(Compact(Obj(members))) == 2 + ByteLength(CompactMembers(members, 0))
  {
    hide Utf8, CompactItems, CompactMembers;
    One(0x5B);
    One(0x5D);
    One(0x7B);
    One(0x7D);
    Utf8Apart(OPEN_ARRAY + CompactItems(items, 0), CLOSE_ARRAY);
    Utf8Apart(OPEN_ARRAY, CompactItems(items, 0));
    Utf8Apart(OPEN_OBJECT + CompactMembers(members, 0), CLOSE_OBJECT);
    Utf8Apart(OPEN_OBJECT, CompactMembers(members, 0));
  }

  lemma ConstantBytes()
    ensures ByteLength(NULL) == 4 && ByteLength(TRUE) == 4 && ByteLength(FALSE) == 5
  {
    hide ByteLength;
    AsciiBytes(NULL);
    AsciiBytes(TRUE);
    AsciiBytes(FALSE);
  }

  lemma {:induction false} AsciiBytes(t: Text)
    requires forall i :: 0 <= i < |t| ==> t[i] < 0x80
    ensures ByteLength(t) == |t|
  {
    if t != [] {
      AsciiBytes(t[1..]);
      One(t[0]);
      Utf8Apart([t[0]], t[1..]);
      assert t == [t[0]] + t[1..];
    }
  }

  method PushArrayItems(stack: seq<Item>, items: seq<Json>, depth: nat) returns (more: seq<Item>)
    ensures Owed(more) == ByteLength(CompactItems(items, 0)) + Owed(stack)
    ensures Load(more) <= ItemsSize(items, 0) + Load(stack)
    ensures AllWithin(more) <==> AllWithin(stack) && forall i :: 0 <= i < |items| ==> Within(items[i], depth)
  {
    hide Compact, Utf8, Owed, Load, AllWithin, Within, Size, ByteLength;
    more := stack;
    var index := |items|;
    ItemsEnd(items);
    One(0x2C);
    while index > 0
      invariant 0 <= index <= |items|
      invariant Owed(more) == ByteLength(CompactItems(items, index)) + Owed(stack)
      invariant Load(more) <= ItemsSize(items, index) + Load(stack)
      invariant AllWithin(more) <==> AllWithin(stack) && forall i :: index <= i < |items| ==> Within(items[i], depth)
    {
      index := index - 1;
      ItemsBytes(items, index);
      Pushed(more, Item(items[index], depth));
      more := more + [Item(items[index], depth)];
      if index > 0 {
        Pushed(more, Token(COMMA));
        more := more + [Token(COMMA)];
      }
    }
  }

  lemma ItemsEnd(items: seq<Json>)
    ensures ByteLength(CompactItems(items, |items|)) == 0
  {
  }

  lemma MembersEnd(members: seq<Member>)
    ensures ByteLength(CompactMembers(members, |members|)) == 0
  {
  }

  /** `ok` is false when a key is malformed or too long. */
  method PushObjectMembers(stack: seq<Item>, members: seq<Member>, depth: nat) returns (ok: bool, more: seq<Item>)
    ensures ok <==> forall i :: 0 <= i < |members| ==> StringOk(members[i].key, MAX_KEY_BYTES)
    ensures ok ==> Owed(more) == ByteLength(CompactMembers(members, 0)) + Owed(stack)
    ensures ok ==> Load(more) <= MembersSize(members, 0) + Load(stack)
    ensures ok ==>
            (AllWithin(more) <==>
            AllWithin(stack) && forall i :: 0 <= i < |members| ==> Within(members[i].value, depth))
  {
    hide Compact, Utf8, Owed, Load, AllWithin, Within, Size, Quote, StringOk, ByteLength;
    more := stack;
    var index := |members|;
    MembersEnd(members);
    One(0x2C);
    One(0x3A);
    while index > 0
      invariant 0 <= index <= |members|
      invariant forall i :: index <= i < |members| ==> StringOk(members[i].key, MAX_KEY_BYTES)
      invariant Owed(more) == ByteLength(CompactMembers(members, index)) + Owed(stack)
      invariant Load(more) <= MembersSize(members, index) + Load(stack)
      invariant AllWithin(more) <==>
                AllWithin(stack) && forall i :: index <= i < |members| ==> Within(members[i].value, depth)
    {
      index := index - 1;
      var fine := StringValue(members[index].key, MAX_KEY_BYTES);
      if !fine { return false, more; }
      MembersBytes(members, index);
      Pushed(more, Item(members[index].value, depth));
      more := more + [Item(members[index].value, depth)];
      Pushed(more, Token(COLON));
      more := more + [Token(COLON)];
      Pushed(more, Token(Quote(members[index].key)));
      more := more + [Token(Quote(members[index].key))];
      if index > 0 {
        Pushed(more, Token(COMMA));
        more := more + [Token(COMMA)];
      }
    }
    return true, more;
  }

  /** `stringValue`, empty strings allowed. */
  method StringValue(s: Text, maxBytes: nat) returns (ok: bool)
    ensures ok <==> StringOk(s, maxBytes)
  {
    ok := ScalarString(s, true);
    if ok {
      var bytes := Utf8ByteLength(s);
      ok := bytes <= maxBytes;
    }
  }

  /**
   * The stack-based measurer returns exactly the byte length of the compact text, and it returns exactly
   * when that length and every other limit is kept, whatever the order the stack is worked off in.
   */
  method Measure(value: Json, limit: nat) returns (r: Option<nat>)
    ensures r.Some? <==> Within(value, 1) && ByteLength(Compact(value)) <= limit
    ensures r.Some? ==> r.value == ByteLength(Compact(value))
  {
    hide Compact, Utf8, Owed, Load, AllWithin, Within, Size, Quote, StringOk, ByteLength;
    var stack := [Item(value, 1)];
    var bytes := 0;
    FirstItem(value);
    while |stack| > 0
      invariant bytes <= limit
      invariant bytes + Owed(stack) == ByteLength(Compact(value))
      invariant AllWithin(stack) <==> Within(value, 1)
      decreases Load(stack)
    {
      var work, below := stack[|stack| - 1], stack[..|stack| - 1];
      assert stack == below + [work];
      Pushed(below, work);
      stack := below;
      var count := 0;
      if work.Token? {
        count := Utf8ByteLength(work.token);
        LengthIs(work.token);
      } else if work.value.Arr? || work.value.Obj? {
        Containers(work.value, work.depth);
        if work.depth > MAX_DEPTH { return None; }
        if (if work.value.Arr? then |work.value.items| else |work.value.members|) > MAX_MEMBERS { return None; }
        count := 2;
        if bytes + count > limit { return None; }
        var ok;
        ok, stack := PushContainer(stack, work.value, work.depth + 1);
        if !ok { return None; }
      } else {
        var ok;
        ok, count := LeafBytes(work.value, work.depth);
        if !ok { return None; }
      }
      bytes := bytes + count;
      if bytes > limit { return None; }
    }
    NothingOwed();
    return Some(bytes);
  }

  /** What a container must satisfy before its parts are looked at. */
  lemma Containers(v: Json, depth: nat)
    requires v.Arr? || v.Obj?
    ensures Within(v, depth) ==> depth <= MAX_DEPTH && (if v.Arr? then |v.items| else |v.members|) <= MAX_MEMBERS
    ensures ByteLength(Compact(v)) >= 2
  {
    hide Utf8;
    if v.Arr? { ContainerBytes(v.items, []); } else { ContainerBytes([], v.members); }
  }

  method PushContainer(stack: seq<Item>, v: Json, depth: nat) returns (ok: bool, more: seq<Item>)
    requires ((v.Arr? && |v.items| <= MAX_MEMBERS) || (v.Obj? && |v.members| <= MAX_MEMBERS))
             && 1 <= depth <= MAX_DEPTH + 1
    ensures !ok ==> !Within(v, depth - 1)
    ensures ok ==> 2 + Owed(more) == ByteLength(Compact(v)) + Owed(stack) && Load(more) < Size(v) + Load(stack)
    ensures ok ==> (AllWithin(more) <==> AllWithin(stack) && Within(v, depth - 1))
  {
    hide Utf8, Owed, Load, AllWithin, CompactItems, CompactMembers, ItemsSize, MembersSize, StringOk, ByteLength,
        Compact;
    if v.Arr? {
      ContainerBytes(v.items, []);
      more := PushArrayItems(stack, v.items, depth);
      ok := true;
    } else {
      ContainerBytes([], v.members);
      ok, more := PushObjectMembers(stack, v.members, depth);
    }
  }

  /** The bytes of a leaf; a string has limits of its own. */
  method LeafBytes(v: Json, depth: nat) returns (ok: bool, count: nat)
    requires !v.Arr? && !v.Obj?
    ensures ok <==> Within(v, depth)
    ensures ok ==> count == ByteLength(Compact(v))
  {
    hide Utf8, Quote;
    ConstantBytes();
    ok, count := true, 0;
    match v {
      case Null => count := 4;
      case Bool(b) => count := if b then 4 else 5;
      case Num(token) => count := Utf8ByteLength(token);
      case Str(s) =>
        ok := StringValue(s, MAX_STRING_BYTES);
        count := Utf8ByteLength(Quote(s));
      case _ =>
    }
  }

  lemma LengthIs(t: Text)
    ensures |Utf8(t)| == ByteLength(t)
  {
  }

  lemma FirstItem(v: Json)
    ensures Owed([Item(v, 1)]) == ByteLength(Compact(v)) && (AllWithin([Item(v, 1)]) <==> Within(v, 1))
  {
    Pushed([], Item(v, 1));
    assert [] + [Item(v, 1)] == [Item(v, 1)] && Owed([]) == 0;
  }

  lemma NothingOwed()
    ensures Owed([]) == 0 && AllWithin([])
  {
  }
}
