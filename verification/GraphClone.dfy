/**
 * Detaching JSON data given as a graph of objects: the Renderer's clone, which refuses cycles
 * (packages/renderer/src/control.ts), and the game package's snapshot, which does not
 * (packages/game-package/src/snapshot.ts). Both work off an explicit stack and copy shared objects once.
 *
 * Objects are numbered on either side. `plain` stands for everything that is inspected of one object
 * (prototype, own enumerable data properties, no holes), and `Bad` for a value JSON has no place for.
 */
module GraphClone {
  import opened Base

  type NodeId = nat
  type TargetId = nat

  datatype Value = Primitive(text: string) | Ref(node: NodeId) | Bad
  datatype Entry = Entry(key: string, value: Value)
  datatype Node = Node(isArray: bool, plain: bool, entries: seq<Entry>)
  type Graph = map<NodeId, Node>

  datatype TValue = Copy(text: string) | To(target: TargetId)
  datatype TEntry = TEntry(key: string, value: TValue)
  datatype Target = Target(isArray: bool, members: seq<TEntry>, frozen: bool)
  type Heap = map<TargetId, Target>

  /** Every reference leads somewhere. */
  ghost predicate Closed(g: Graph) {
    forall n, i :: n in g && 0 <= i < |g[n].entries| && g[n].entries[i].value.Ref? ==> g[n].entries[i].value.node in g
  }

  ghost predicate Edge(g: Graph, a: NodeId, b: NodeId) {
    a in g && b in g && exists i :: 0 <= i < |g[a].entries| && g[a].entries[i].value == Ref(b)
  }

  ghost predicate Path(g: Graph, from: NodeId, p: seq<NodeId>) {
    p != [] && p[0] == from && from in g && forall i :: 0 <= i < |p| - 1 ==> Edge(g, p[i], p[i + 1])
  }

  ghost predicate Reaches(g: Graph, from: NodeId, to: NodeId) {
    exists p :: Path(g, from, p) && p[|p| - 1] == to
  }

  ghost predicate NoRepeats(p: seq<NodeId>) {
    forall i, j :: 0 <= i < j < |p| ==> p[i] != p[j]
  }

  ghost predicate Fine(node: Node) {
    node.plain && forall i :: 0 <= i < |node.entries| ==> !node.entries[i].value.Bad?
  }

  /** No cycle and nothing unfit for JSON can be reached. */
  ghost predicate Clonable(g: Graph, root: NodeId) {
    forall p :: Path(g, root, p) ==> NoRepeats(p) && p[|p| - 1] in g && Fine(g[p[|p| - 1]])
  }

  // ----- images

  function ImageOf(v: Value, copies: map<NodeId, TargetId>): TValue {
    match v
    case Primitive(text) => Copy(text)
    case Ref(n) => if n in copies then To(copies[n]) else Copy("")
    case Bad => Copy("")
  }

  function Images(entries: seq<Entry>, copies: map<NodeId, TargetId>): seq<TEntry> {
    seq(|entries|, i requires 0 <= i < |entries| => TEntry(entries[i].key, ImageOf(entries[i].value, copies)))
  }

  ghost predicate Injective(copies: map<NodeId, TargetId>) {
    forall m, n :: m in copies && n in copies && copies[m] == copies[n] ==> m == n
  }

  /**
   * A frozen target of the object's own kind, with the object's keys in the object's order: a primitive
   * has its own text, and a reference leads to the one copy of what it led to.
   */
  ghost predicate Mirrors(node: Node, t: Target, copies: map<NodeId, TargetId>) {
    && (t.isArray <==> node.isArray) && t.frozen && |t.members| == |node.entries|
    && forall i :: 0 <= i < |node.entries| ==>
      && t.members[i].key == node.entries[i].key
      && (match node.entries[i].value
          case Primitive(text) => t.members[i].value == Copy(text)
          case Ref(n) => n in copies && t.members[i].value == To(copies[n])
          case Bad => false)
  }

  lemma ImagesMirror(node: Node, t: Target, copies: map<NodeId, TargetId>)
    requires t == Target(node.isArray, Images(node.entries, copies), true) && Fine(node)
    requires forall i :: 0 <= i < |node.entries| && node.entries[i].value.Ref? ==> node.entries[i].value.node in copies
    ensures Mirrors(node, t, copies)
  {
  }

  /**
   * `copies` is an isomorphism between what is reachable from the root and the targets, each made once
   * and frozen.
   */
  ghost predicate IsFrozenCopy(g: Graph, root: NodeId, copies: map<NodeId, TargetId>, heap: Heap) {
    && (forall n :: n in copies <==> Reaches(g, root, n))
    && Injective(copies)
    && heap.Keys == copies.Values
    && (forall n :: n in copies ==> n in g && Mirrors(g[n], heap[copies[n]], copies))
  }

  // ----- facts about paths

  lemma PathMore(g: Graph, from: NodeId, p: seq<NodeId>, n: NodeId)
    requires Path(g, from, p) && Edge(g, p[|p| - 1], n)
    ensures Path(g, from, p + [n])
  {
    var q := p + [n];
    forall i | 0 <= i < |q| - 1 ensures Edge(g, q[i], q[i + 1]) {
      if i < |p| - 1 { assert q[i] == p[i] && q[i + 1] == p[i + 1]; }
    }
  }

  lemma ReachesMore(g: Graph, from: NodeId, a: NodeId, b: NodeId)
    requires Reaches(g, from, a) && Edge(g, a, b)
    ensures Reaches(g, from, b)
  {
    var p :| Path(g, from, p) && p[|p| - 1] == a;
    PathMore(g, from, p, b);
    assert (p + [b])[|p + [b]| - 1] == b;
  }

  /** A set that contains the root and every child of its members contains all that is reachable. */
  lemma {:induction false} Covers(g: Graph, root: NodeId, some: set<NodeId>, p: seq<NodeId>)
    requires root in some && Path(g, root, p)
    requires forall a, b :: a in some && Edge(g, a, b) ==> b in some
    ensures forall i :: 0 <= i < |p| ==> p[i] in some
  {
    if |p| > 1 {
      var q := p[..|p| - 1];
      forall i | 0 <= i < |q| - 1 ensures Edge(g, q[i], q[i + 1]) { assert q[i] == p[i] && q[i + 1] == p[i + 1]; }
      Covers(g, root, some, q);
      assert Edge(g, p[|p| - 2], p[|p| - 1]) && p[|p| - 2] == q[|q| - 1];
      forall i | 0 <= i < |p| ensures p[i] in some { if i < |q| { assert p[i] == q[i]; } }
    }
  }

  /** Along edges that always lead to a lower rank a path cannot come back. */
  lemma {:induction false} Descends(g: Graph, root: NodeId, rank: map<NodeId, nat>, p: seq<NodeId>)
    requires root in rank && Path(g, root, p)
    requires forall a, b :: a in rank && Edge(g, a, b) ==> b in rank && rank[b] < rank[a]
    ensures forall i :: 0 <= i < |p| ==> p[i] in rank
    ensures forall i, j :: 0 <= i < j < |p| ==> rank[p[j]] < rank[p[i]]
  {
    if |p| > 1 {
      var q := p[..|p| - 1];
      forall i | 0 <= i < |q| - 1 ensures Edge(g, q[i], q[i + 1]) { assert q[i] == p[i] && q[i + 1] == p[i + 1]; }
      Descends(g, root, rank, q);
      var last := |p| - 1;
      assert Edge(g, p[last - 1], p[last]) && p[last - 1] == q[last - 1];
      forall i | 0 <= i < |p| ensures p[i] in rank { if i < last { assert p[i] == q[i]; } }
      forall i, j | 0 <= i < j < |p| ensures rank[p[j]] < rank[p[i]] {
        if j < last { assert p[i] == q[i] && p[j] == q[j]; }
        else { assert p[i] == q[i]; if i < last - 1 { assert rank[q[last - 1]] < rank[q[i]]; } }
      }
    }
  }

  // ----- the clone that refuses cycles

  datatype Frame = Frame(source: NodeId, target: TargetId, next: nat)

  ghost predicate FrameOk(g: Graph, active: set<NodeId>, copies: map<NodeId, TargetId>, f: Frame) {
    && f.source in active && f.source in copies && copies[f.source] == f.target
    && f.source in g && g[f.source].plain && f.next <= |g[f.source].entries|
  }

  ghost predicate FramesOk(g: Graph, active: set<NodeId>, copies: map<NodeId, TargetId>, stack: seq<Frame>) {
    forall i :: 0 <= i < |stack| ==> FrameOk(g, active, copies, stack[i])
  }

  ghost predicate DistinctSources(stack: seq<Frame>) {
    forall i, j :: 0 <= i < j < |stack| ==> stack[i].source != stack[j].source
  }

  /** Each active object has its frame. */
  ghost predicate HasFrame(stack: seq<Frame>, n: NodeId) {
    exists i :: 0 <= i < |stack| && stack[i].source == n
  }

  /** A frame's last taken entry is the frame above. */
  ghost predicate Leads(g: Graph, f: Frame, above: Frame) {
    f.source in g && 0 < f.next <= |g[f.source].entries| && g[f.source].entries[f.next - 1].value == Ref(above.source)
  }

  ghost predicate Chain(g: Graph, root: NodeId, stack: seq<Frame>) {
    && (stack != [] ==> stack[0].source == root)
    && (forall i :: 0 <= i < |stack| - 1 ==> Leads(g, stack[i], stack[i + 1]))
  }

  /** The sources on the stack are distinct, lead from the root along entries just taken, and are the active ones. */
  ghost predicate StackOk(g: Graph, root: NodeId, active: set<NodeId>, copies: map<NodeId, TargetId>, stack: seq<Frame>)
  {
    && FramesOk(g, active, copies, stack)
    && DistinctSources(stack)
    && (forall n :: n in active ==> HasFrame(stack, n))
    && Chain(g, root, stack)
  }

  /** Every copied object is active or finished. */
  ghost predicate CopiesOk(g: Graph, root: NodeId, active: set<NodeId>, copies: map<NodeId, TargetId>,
      rank: map<NodeId, nat>, heap: Heap, clock: nat)
  {
    && root in copies && Injective(copies) && heap.Keys == copies.Values
    && (forall n :: n in copies <==> n in active || n in rank)
    && (forall n :: n in rank ==> n !in active && rank[n] < clock)
    && (forall n :: n in copies ==> n in g && copies[n] in heap)
  }

  /** A finished object is fine, fully copied and frozen, and its children finished before it. */
  ghost predicate Finished(g: Graph, n: NodeId, copies: map<NodeId, TargetId>, rank: map<NodeId, nat>, heap: Heap)
    requires n in g && n in copies && n in rank && copies[n] in heap
  {
    && Fine(g[n])
    && heap[copies[n]] == Target(g[n].isArray, Images(g[n].entries, copies), true)
    && (forall i :: 0 <= i < |g[n].entries| && g[n].entries[i].value.Ref? ==>
          g[n].entries[i].value.node in rank && rank[g[n].entries[i].value.node] < rank[n])
  }

  /** A frame has copied its first entries; the objects among them are finished, but for the one `above`. */
  ghost predicate Copied(g: Graph, f: Frame, above: Option<NodeId>, copies: map<NodeId, TargetId>,
      rank: map<NodeId, nat>, heap: Heap)
    requires f.source in g && f.next <= |g[f.source].entries|
  {
    && f.target in heap
    && heap[f.target] == Target(g[f.source].isArray, Images(g[f.source].entries[..f.next], copies), false)
    && (forall i :: 0 <= i < f.next ==> !g[f.source].entries[i].value.Bad?)
    && (forall i :: 0 <= i < f.next && g[f.source].entries[i].value.Ref? ==>
          g[f.source].entries[i].value.node in rank || Some(g[f.source].entries[i].value.node) == above)
  }

  function Above(stack: seq<Frame>, i: nat): Option<NodeId> {
    if i + 1 < |stack| then Some(stack[i + 1].source) else None
  }

  ghost predicate CloneOk(g: Graph, root: NodeId, active: set<NodeId>, copies: map<NodeId, TargetId>,
      rank: map<NodeId, nat>, stack: seq<Frame>, heap: Heap, clock: nat)
  {
    && StackOk(g, root, active, copies, stack)
    && CopiesOk(g, root, active, copies, rank, heap, clock)
    && (forall n :: n in rank ==> Finished(g, n, copies, rank, heap))
    && (forall i :: 0 <= i < |stack| ==> Copied(g, stack[i], Above(stack, i), copies, rank, heap))
  }

  /** The sources on the stack are a path from the root. */
  lemma {:induction false} StackPath(g: Graph, root: NodeId, active: set<NodeId>, copies: map<NodeId, TargetId>,
      stack: seq<Frame>, n: nat)
    requires StackOk(g, root, active, copies, stack) && 0 < n <= |stack|
    ensures Path(g, root, Sources(stack, n))
  {
    if n > 1 {
      StackPath(g, root, active, copies, stack, n - 1);
      assert Leads(g, stack[n - 2], stack[n - 1]) && FrameOk(g, active, copies, stack[n - 1]);
      assert Edge(g, stack[n - 2].source, stack[n - 1].source);
      PathMore(g, root, Sources(stack, n - 1), stack[n - 1].source);
      assert Sources(stack, n) == Sources(stack, n - 1) + [stack[n - 1].source];
    }
  }

  function Sources(stack: seq<Frame>, n: nat): seq<NodeId>
    requires n <= |stack|
  {
    seq(n, i requires 0 <= i < n => stack[i].source)
  }

  /** A reference to an active object closes a cycle. */
  lemma CycleFound(g: Graph, root: NodeId, active: set<NodeId>, copies: map<NodeId, TargetId>, stack: seq<Frame>,
      k: nat)
    requires StackOk(g, root, active, copies, stack) && stack != [] && Closed(g)
    requires k < |g[stack[|stack| - 1].source].entries|
    requires var v := g[stack[|stack| - 1].source].entries[k].value; v.Ref? && v.node in active
    ensures !Clonable(g, root)
  {
    var top := stack[|stack| - 1].source;
    var n := g[top].entries[k].value.node;
    StackPath(g, root, active, copies, stack, |stack|);
    var p := Sources(stack, |stack|);
    assert Edge(g, top, n);
    PathMore(g, root, p, n);
    assert HasFrame(stack, n);
    var i :| 0 <= i < |stack| && stack[i].source == n;
    var q := p + [n];
    assert q[i] == q[|q| - 1] && i < |q| - 1;
  }

  /** An unfit object or value is reached. */
  lemma UnfitFound(g: Graph, root: NodeId, active: set<NodeId>, copies: map<NodeId, TargetId>, stack: seq<Frame>,
      k: nat)
    requires StackOk(g, root, active, copies, stack) && stack != [] && Closed(g)
    requires k < |g[stack[|stack| - 1].source].entries|
    requires var v := g[stack[|stack| - 1].source].entries[k].value; v.Bad? || (v.Ref? && !g[v.node].plain)
    ensures !Clonable(g, root)
  {
    var top := stack[|stack| - 1].source;
    StackPath(g, root, active, copies, stack, |stack|);
    var p := Sources(stack, |stack|);
    var v := g[top].entries[k].value;
    if v.Bad? {
      assert !Fine(g[p[|p| - 1]]);
    } else {
      assert Edge(g, top, v.node);
      PathMore(g, root, p, v.node);
      var q := p + [v.node];
      assert !Fine(g[q[|q| - 1]]);
    }
  }

  /** When the stack is empty everything reachable is finished. */
  lemma CloneDone(g: Graph, root: NodeId, copies: map<NodeId, TargetId>, rank: map<NodeId, nat>, heap: Heap, clock: nat)
    requires CloneOk(g, root, {}, copies, rank, [], heap, clock)
    requires forall n :: n in copies ==> Reaches(g, root, n)
    ensures Clonable(g, root) && IsFrozenCopy(g, root, copies, heap)
  {
    forall a, b | a in rank && Edge(g, a, b) ensures b in rank && rank[b] < rank[a] {
      var i :| 0 <= i < |g[a].entries| && g[a].entries[i].value == Ref(b);
      assert Finished(g, a, copies, rank, heap);
    }
    forall p | Path(g, root, p) ensures NoRepeats(p) && p[|p| - 1] in g && Fine(g[p[|p| - 1]]) {
      Descends(g, root, rank, p);
      assert p[|p| - 1] in rank && Finished(g, p[|p| - 1], copies, rank, heap);
    }
    forall n | Reaches(g, root, n) ensures n in copies {
      var p :| Path(g, root, p) && p[|p| - 1] == n;
      Descends(g, root, rank, p);
    }
    forall n | n in copies ensures n in g && Mirrors(g[n], heap[copies[n]], copies) {
      assert Finished(g, n, copies, rank, heap);
      ImagesMirror(g[n], heap[copies[n]], copies);
    }
  }

  // the steps of the loop

  lemma ImagesStable(entries: seq<Entry>, copies: map<NodeId, TargetId>, m: NodeId, t: TargetId)
    requires forall i :: 0 <= i < |entries| && entries[i].value.Ref? ==> entries[i].value.node in copies
    requires m !in copies
    ensures Images(entries, copies[m := t]) == Images(entries, copies)
  {
  }

  lemma ImagesMore(entries: seq<Entry>, k: nat, copies: map<NodeId, TargetId>)
    requires k < |entries|
    ensures Images(entries[..k + 1], copies) ==
            Images(entries[..k], copies) + [TEntry(entries[k].key, ImageOf(entries[k].value, copies))]
  {
  }

  function Advance(stack: seq<Frame>): seq<Frame>
    requires stack != []
  {
    stack[..|stack| - 1] + [stack[|stack| - 1].(next := stack[|stack| - 1].next + 1)]
  }

  /** Defines a member; nothing may be defined on a frozen target. */
  function Put(heap: Heap, t: TargetId, e: TEntry): Heap
    requires t in heap && !heap[t].frozen
  {
    heap[t := heap[t].(members := heap[t].members + [e])]
  }

  lemma TopOpen(g: Graph, root: NodeId, active: set<NodeId>, copies: map<NodeId, TargetId>, rank: map<NodeId, nat>,
      stack: seq<Frame>, heap: Heap, clock: nat)
    requires CloneOk(g, root, active, copies, rank, stack, heap, clock) && stack != []
    ensures stack[|stack| - 1].target in heap && !heap[stack[|stack| - 1].target].frozen
  {
    hide Images;
    assert Copied(g, stack[|stack| - 1], Above(stack, |stack| - 1), copies, rank, heap);
  }

  lemma OtherTarget(g: Graph, root: NodeId, active: set<NodeId>, copies: map<NodeId, TargetId>, rank: map<NodeId, nat>,
      stack: seq<Frame>, heap: Heap, clock: nat)
    requires StackOk(g, root, active, copies, stack) && CopiesOk(g, root, active, copies, rank, heap, clock)
             && stack != []
    ensures stack[|stack| - 1].target in heap
    ensures forall i :: 0 <= i < |stack| - 1 ==> stack[i].target != stack[|stack| - 1].target
    ensures forall n :: n in rank ==> n in copies && copies[n] != stack[|stack| - 1].target
  {
    var top := stack[|stack| - 1];
    assert copies[top.source] == top.target;
    forall i | 0 <= i < |stack| - 1 ensures stack[i].target != top.target {
      assert copies[stack[i].source] == stack[i].target;
    }
    forall n | n in rank ensures n in copies && copies[n] != top.target {}
  }

  /** The same frames but for their positions. */
  ghost predicate SameSources(stack: seq<Frame>, after: seq<Frame>) {
    |after| == |stack| && forall i :: 0 <= i < |stack| ==> after[i].source == stack[i].source
  }

  lemma SameSourcesKeep(stack: seq<Frame>, after: seq<Frame>)
    requires SameSources(stack, after)
    ensures DistinctSources(stack) ==> DistinctSources(after)
    ensures forall n :: HasFrame(stack, n) ==> HasFrame(after, n)
  {
    forall n | HasFrame(stack, n) ensures HasFrame(after, n) {
      var i :| 0 <= i < |stack| && stack[i].source == n;
      assert after[i].source == n;
    }
  }

  lemma AdvanceStack(g: Graph, root: NodeId, active: set<NodeId>, copies: map<NodeId, TargetId>, stack: seq<Frame>)
    requires StackOk(g, root, active, copies, stack) && stack != []
    requires stack[|stack| - 1].next < |g[stack[|stack| - 1].source].entries|
    ensures StackOk(g, root, active, copies, Advance(stack))
    ensures |Advance(stack)| == |stack| && forall i :: 0 <= i < |stack| - 1 ==> Advance(stack)[i] == stack[i]
  {
    hide Leads, DistinctSources, HasFrame;
    var after := Advance(stack);
    SameSourcesKeep(stack, after);
    assert FrameOk(g, active, copies, stack[|stack| - 1]);
    forall i | 0 <= i < |stack| - 1 ensures Leads(g, after[i], after[i + 1]) {
      assert Leads(g, stack[i], stack[i + 1]);
      LeadsAlike(g, stack[i], stack[i + 1], after[i + 1]);
    }
  }

  lemma LeadsAlike(g: Graph, f: Frame, above: Frame, above': Frame)
    requires Leads(g, f, above) && above'.source == above.source
    ensures Leads(g, f, above')
  {
  }

  lemma PutKeepsCopied(g: Graph, f: Frame, above: Option<NodeId>, copies: map<NodeId, TargetId>, rank: map<NodeId, nat>,
      heap: Heap, t: TargetId, target: Target)
    requires f.source in g && f.next <= |g[f.source].entries| && Copied(g, f, above, copies, rank, heap)
             && f.target != t
    ensures Copied(g, f, above, copies, rank, heap[t := target])
  {
    hide Images;
  }

  lemma PutKeepsFinished(g: Graph, n: NodeId, copies: map<NodeId, TargetId>, rank: map<NodeId, nat>, heap: Heap,
      t: TargetId, target: Target)
    requires n in g && n in copies && n in rank && copies[n] in heap && Finished(g, n, copies, rank, heap)
             && copies[n] != t
    ensures Finished(g, n, copies, rank, heap[t := target])
  {
    hide Images, Fine;
  }

  /** The top frame after one more entry. */
  lemma TopCopied(g: Graph, f: Frame, e: Entry, above: Option<NodeId>, copies: map<NodeId, TargetId>,
      rank: map<NodeId, nat>, heap: Heap)
    requires f.source in g && f.next < |g[f.source].entries| && e == g[f.source].entries[f.next]
             && Copied(g, f, None, copies, rank, heap)
    requires !e.value.Bad? && (e.value.Ref? ==> e.value.node in rank || Some(e.value.node) == above)
    ensures Copied(g, f.(next := f.next + 1), above, copies, rank,
            Put(heap, f.target, TEntry(e.key, ImageOf(e.value, copies))))
  {
    hide Images, ImageOf;
    ImagesMore(g[f.source].entries, f.next, copies);
  }

  /** An entry that needs no new object: a primitive, or an object finished before. */
  lemma LeafStep(g: Graph, root: NodeId, active: set<NodeId>, copies: map<NodeId, TargetId>, rank: map<NodeId, nat>,
      stack: seq<Frame>, heap: Heap, clock: nat, e: Entry)
    requires CloneOk(g, root, active, copies, rank, stack, heap, clock) && stack != []
    requires var f := stack[|stack| - 1]; f.next < |g[f.source].entries| && e == g[f.source].entries[f.next]
    requires !e.value.Bad? && (e.value.Ref? ==> e.value.node in rank)
    ensures stack[|stack| - 1].target in heap && !heap[stack[|stack| - 1].target].frozen
    ensures CloneOk(g, root, active, copies, rank, Advance(stack),
            Put(heap, stack[|stack| - 1].target, TEntry(e.key, ImageOf(e.value, copies))), clock)
  {
    hide Images, ImageOf, Fine, DistinctSources, HasFrame, Chain, Copied, Finished;
    var f := stack[|stack| - 1];
    TopOpen(g, root, active, copies, rank, stack, heap, clock);
    OtherTarget(g, root, active, copies, rank, stack, heap, clock);
    AdvanceStack(g, root, active, copies, stack);
    var te := TEntry(e.key, ImageOf(e.value, copies));
    var heap' := Put(heap, f.target, te);
    PutKeepsCopies(g, root, active, copies, rank, heap, clock, f.target, te);
    forall i | 0 <= i < |stack| ensures Copied(g, Advance(stack)[i], Above(Advance(stack), i), copies, rank, heap') {
      assert FrameOk(g, active, copies, stack[i]) && Copied(g, stack[i], Above(stack, i), copies, rank, heap);
      if i < |stack| - 1 {
        assert Above(Advance(stack), i) == Above(stack, i);
        PutKeepsCopied(g, stack[i], Above(stack, i), copies, rank, heap, f.target, heap'[f.target]);
      } else { TopCopied(g, f, e, None, copies, rank, heap); }
    }
    forall n | n in rank ensures Finished(g, n, copies, rank, heap') {
      PutKeepsFinished(g, n, copies, rank, heap, f.target, heap'[f.target]);
    }
  }

  lemma PutKeepsCopies(g: Graph, root: NodeId, active: set<NodeId>, copies: map<NodeId, TargetId>,
      rank: map<NodeId, nat>, heap: Heap, clock: nat, t: TargetId, e: TEntry)
    requires CopiesOk(g, root, active, copies, rank, heap, clock) && t in heap && !heap[t].frozen
    ensures CopiesOk(g, root, active, copies, rank, Put(heap, t, e), clock)
  {
    assert Put(heap, t, e).Keys == heap.Keys;
  }

  /** A frame below the top, when another target gets a member and a new object its target. */
  lemma LowerFrame(g: Graph, f: Frame, above: Option<NodeId>, copies: map<NodeId, TargetId>, rank: map<NodeId, nat>,
      heap: Heap, m: NodeId, t: TargetId, at: TargetId, target: Target, blank: Target)
    requires f.source in g && f.next <= |g[f.source].entries| && Copied(g, f, above, copies, rank, heap)
    requires forall j :: 0 <= j < f.next && g[f.source].entries[j].value.Ref? ==>
             g[f.source].entries[j].value.node in copies
    requires m !in copies && f.target != at && f.target != t
    ensures Copied(g, f, above, copies[m := t], rank, heap[at := target][t := blank])
  {
    hide Copied;
    CopiedStable(g, f, above, copies, rank, heap, m, t);
    PutKeepsCopied(g, f, above, copies[m := t], rank, heap, at, target);
    PutKeepsCopied(g, f, above, copies[m := t], rank, heap[at := target], t, blank);
  }

  /** The top frame, whose target gets the reference to the new object. */
  lemma TopFrame(g: Graph, f: Frame, e: Entry, copies: map<NodeId, TargetId>, rank: map<NodeId, nat>, heap: Heap,
      m: NodeId, t: TargetId, blank: Target)
    requires f.source in g && f.next < |g[f.source].entries| && Copied(g, f, None, copies, rank, heap)
    requires forall j :: 0 <= j < f.next && g[f.source].entries[j].value.Ref? ==>
             g[f.source].entries[j].value.node in copies
    requires e == g[f.source].entries[f.next] && e.value == Ref(m) && m !in copies
    requires f.target in heap && !heap[f.target].frozen && f.target != t
    ensures Copied(g, f.(next := f.next + 1), Some(m), copies[m := t], rank,
                   Put(heap, f.target, TEntry(e.key, To(t)))[t := blank])
  {
    hide Copied, ImageOf, Put;
    CopiedStable(g, f, None, copies, rank, heap, m, t);
    TopCopied(g, f, e, Some(m), copies[m := t], rank, heap);
    ImageIs(e.value, copies[m := t], m, t);
    PutKeepsCopied(g, f.(next := f.next + 1), Some(m), copies[m := t], rank,
                   Put(heap, f.target, TEntry(e.key, To(t))), t, blank);
  }

  lemma FrameIs(g: Graph, root: NodeId, active: set<NodeId>, copies: map<NodeId, TargetId>, rank: map<NodeId, nat>,
      stack: seq<Frame>, heap: Heap, clock: nat, i: nat)
    requires CloneOk(g, root, active, copies, rank, stack, heap, clock) && i < |stack|
    ensures stack[i].source in g && stack[i].next <= |g[stack[i].source].entries| && stack[i].target in heap
    ensures Copied(g, stack[i], Above(stack, i), copies, rank, heap)
  {
    hide Copied, Finished, Chain;
    assert FrameOk(g, active, copies, stack[i]);
  }

  lemma NewFinished(g: Graph, n: NodeId, copies: map<NodeId, TargetId>, rank: map<NodeId, nat>, heap: Heap,
      m: NodeId, t: TargetId, at: TargetId, target: Target, blank: Target)
    requires n in g && n in copies && n in rank && copies[n] in heap && Finished(g, n, copies, rank, heap)
    requires m !in copies && copies[n] != at && copies[n] != t && forall k :: k in rank ==> k in copies
    ensures Finished(g, n, copies[m := t], rank, heap[at := target][t := blank])
  {
    hide Finished;
    FinishedStable(g, n, copies, rank, heap, m, t);
    PutKeepsFinished(g, n, copies[m := t], rank, heap, at, target);
    PutKeepsFinished(g, n, copies[m := t], rank, heap[at := target], t, blank);
  }

  /** An object met for the first time: a new target, and a frame for it. */
  lemma NewStep(g: Graph, root: NodeId, active: set<NodeId>, copies: map<NodeId, TargetId>, rank: map<NodeId, nat>,
      stack: seq<Frame>, heap: Heap, clock: nat, e: Entry, m: NodeId, t: TargetId)
    requires CloneOk(g, root, active, copies, rank, stack, heap, clock) && stack != []
    requires var f := stack[|stack| - 1]; f.next < |g[f.source].entries| && e == g[f.source].entries[f.next]
    requires e.value == Ref(m) && m in g && g[m].plain && m !in copies && t !in heap
    ensures stack[|stack| - 1].target in heap && !heap[stack[|stack| - 1].target].frozen
    ensures CloneOk(g, root, active + {m}, copies[m := t], rank, Advance(stack) + [Frame(m, t, 0)],
                    Put(heap, stack[|stack| - 1].target, TEntry(e.key, To(t)))[t := Target(g[m].isArray, [], false)],
                    clock)
  {
    hide StackOk, CopiesOk, Copied, Finished, Put;
    var f, k := stack[|stack| - 1], |stack| - 1;
    var copies', stack' := copies[m := t], Advance(stack) + [Frame(m, t, 0)];
    TopOpen(g, root, active, copies, rank, stack, heap, clock);
    OtherTarget(g, root, active, copies, rank, stack, heap, clock);
    NewStackOk(g, root, active, copies, stack, e, m, t);
    var blank := Target(g[m].isArray, [], false);
    var heap1 := Put(heap, f.target, TEntry(e.key, To(t)));
    PutIs(heap, f.target, TEntry(e.key, To(t)));
    NewKeepsCopies(g, root, active, copies, rank, heap, clock, f.target, TEntry(e.key, To(t)), m, t);
    FramesAre(g, root, active + {m}, copies', stack');
    RankedIs(g, root, active, copies, rank, heap, clock);
    RankedIs(g, root, active + {m}, copies', rank, heap1[t := blank], clock);
    forall i | 0 <= i < |stack'| ensures Copied(g, stack'[i], Above(stack', i), copies', rank, heap1[t := blank]) {
      if i == |stack| { NewCopied(g, m, t, copies', rank, heap1[t := blank]); }
      else {
        FrameIs(g, root, active, copies, rank, stack, heap, clock, i);
        AllKnown(g, root, active, copies, rank, stack, heap, clock, i);
        if i == k { TopFrame(g, f, e, copies, rank, heap, m, t, blank); }
        else { LowerFrame(g, stack[i], Above(stack, i), copies, rank, heap, m, t, f.target, heap1[f.target], blank); }
      }
    }
    forall n | n in rank ensures Finished(g, n, copies', rank, heap1[t := blank]) {
      NewFinished(g, n, copies, rank, heap, m, t, f.target, heap1[f.target], blank);
    }
  }

  lemma NewStackOk(g: Graph, root: NodeId, active: set<NodeId>, copies: map<NodeId, TargetId>, stack: seq<Frame>,
      e: Entry, m: NodeId, t: TargetId)
    requires StackOk(g, root, active, copies, stack) && stack != [] && m in g && g[m].plain && m !in copies
    requires var f := stack[|stack| - 1];
             f.next < |g[f.source].entries| && e == g[f.source].entries[f.next] && e.value == Ref(m)
    ensures StackOk(g, root, active + {m}, copies[m := t], Advance(stack) + [Frame(m, t, 0)])
    ensures |Advance(stack)| == |stack| && forall i :: 0 <= i < |stack| - 1 ==> Advance(stack)[i] == stack[i]
    ensures Advance(stack)[|stack| - 1] == stack[|stack| - 1].(next := stack[|stack| - 1].next + 1)
  {
    hide StackOk, Leads;
    AdvanceStack(g, root, active, copies, stack);
    FramesAre(g, root, active, copies, stack);
    TopLeads(g, root, active, copies, stack, e, m, t);
    PushedStack(g, root, active, copies, Advance(stack), m, t);
  }

  lemma FramesAre(g: Graph, root: NodeId, active: set<NodeId>, copies: map<NodeId, TargetId>, stack: seq<Frame>)
    requires StackOk(g, root, active, copies, stack)
    ensures forall i :: 0 <= i < |stack| ==> FrameOk(g, active, copies, stack[i])
  {
  }

  lemma RankedIs(g: Graph, root: NodeId, active: set<NodeId>, copies: map<NodeId, TargetId>, rank: map<NodeId, nat>,
      heap: Heap, clock: nat)
    requires CopiesOk(g, root, active, copies, rank, heap, clock)
    ensures forall n :: n in rank ==> n in g && n in copies && copies[n] in heap
  {
  }

  lemma PutIs(heap: Heap, t: TargetId, e: TEntry)
    requires t in heap && !heap[t].frozen
    ensures t in Put(heap, t, e) && Put(heap, t, e) == heap[t := Put(heap, t, e)[t]]
  {
  }

  lemma ImageIs(v: Value, copies: map<NodeId, TargetId>, m: NodeId, t: TargetId)
    requires v == Ref(m) && m in copies && copies[m] == t
    ensures ImageOf(v, copies) == To(t)
  {
  }

  lemma NewCopied(g: Graph, m: NodeId, t: TargetId, copies: map<NodeId, TargetId>, rank: map<NodeId, nat>, heap: Heap)
    requires m in g && t in heap && heap[t] == Target(g[m].isArray, [], false)
    ensures Copied(g, Frame(m, t, 0), None, copies, rank, heap)
  {
    NoImages(g[m].entries, copies);
  }

  lemma CopiedStable(g: Graph, f: Frame, above: Option<NodeId>, copies: map<NodeId, TargetId>, rank: map<NodeId, nat>,
      heap: Heap, m: NodeId, t: TargetId)
    requires f.source in g && f.next <= |g[f.source].entries| && Copied(g, f, above, copies, rank, heap) && m !in copies
    requires forall j :: 0 <= j < f.next && g[f.source].entries[j].value.Ref? ==>
             g[f.source].entries[j].value.node in copies
    ensures Copied(g, f, above, copies[m := t], rank, heap)
  {
    hide Images;
    ImagesStable(g[f.source].entries[..f.next], copies, m, t);
  }

  lemma FinishedStable(g: Graph, n: NodeId, copies: map<NodeId, TargetId>, rank: map<NodeId, nat>, heap: Heap,
      m: NodeId, t: TargetId)
    requires n in g && n in copies && n in rank && copies[n] in heap && Finished(g, n, copies, rank, heap)
    requires m !in copies && forall k :: k in rank ==> k in copies
    ensures Finished(g, n, copies[m := t], rank, heap)
  {
    hide Images, Fine;
    ImagesStable(g[n].entries, copies, m, t);
  }

  lemma TopLeads(g: Graph, root: NodeId, active: set<NodeId>, copies: map<NodeId, TargetId>, stack: seq<Frame>,
      e: Entry, m: NodeId, t: TargetId)
    requires stack != [] && FrameOk(g, active, copies, stack[|stack| - 1])
    requires var f := stack[|stack| - 1];
             f.next < |g[f.source].entries| && e == g[f.source].entries[f.next] && e.value == Ref(m)
    ensures Leads(g, Advance(stack)[|stack| - 1], Frame(m, t, 0))
  {
  }

  lemma NoImages(entries: seq<Entry>, copies: map<NodeId, TargetId>)
    ensures Images(entries[..0], copies) == []
  {
  }

  lemma AllKnown(g: Graph, root: NodeId, active: set<NodeId>, copies: map<NodeId, TargetId>, rank: map<NodeId, nat>,
      stack: seq<Frame>, heap: Heap, clock: nat, i: nat)
    requires CloneOk(g, root, active, copies, rank, stack, heap, clock) && i < |stack|
    ensures forall j :: 0 <= j < stack[i].next && g[stack[i].source].entries[j].value.Ref? ==>
            g[stack[i].source].entries[j].value.node in copies
  {
    hide Images, Fine, Finished;
    assert Copied(g, stack[i], Above(stack, i), copies, rank, heap);
  }

  lemma PushedStack(g: Graph, root: NodeId, active: set<NodeId>, copies: map<NodeId, TargetId>, stack: seq<Frame>,
      m: NodeId, t: TargetId)
    requires stack != [] && StackOk(g, root, active, copies, stack) && m in g && g[m].plain && m !in copies
    requires Leads(g, stack[|stack| - 1], Frame(m, t, 0))
    ensures StackOk(g, root, active + {m}, copies[m := t], stack + [Frame(m, t, 0)])
  {
    hide Leads;
    var after := stack + [Frame(m, t, 0)];
    forall i | 0 <= i < |stack| ensures FrameOk(g, active + {m}, copies[m := t], after[i]) && after[i].source != m {
      assert FrameOk(g, active, copies, stack[i]);
    }
    forall i | 0 <= i < |after| - 1 ensures Leads(g, after[i], after[i + 1]) {
      if i < |stack| - 1 { assert Leads(g, stack[i], stack[i + 1]); }
    }
    forall n | n in active + {m} ensures HasFrame(after, n) {
      if n == m { assert after[|stack|].source == n; }
      else {
        assert HasFrame(stack, n);
        var i :| 0 <= i < |stack| && stack[i].source == n;
        assert after[i].source == n;
      }
    }
  }

  lemma NewKeepsCopies(g: Graph, root: NodeId, active: set<NodeId>, copies: map<NodeId, TargetId>,
      rank: map<NodeId, nat>, heap: Heap, clock: nat, at: TargetId, e: TEntry, m: NodeId, t: TargetId)
    requires CopiesOk(g, root, active, copies, rank, heap, clock) && at in heap && !heap[at].frozen && m in g
             && m !in copies && t !in heap
    ensures CopiesOk(g, root, active + {m}, copies[m := t], rank,
            Put(heap, at, e)[t := Target(g[m].isArray, [], false)], clock)
  {
    var copies', heap' := copies[m := t], Put(heap, at, e)[t := Target(g[m].isArray, [], false)];
    forall x ensures x in copies'.Values <==> x in heap'.Keys {
      if x in copies'.Values {
        var n :| n in copies' && copies'[n] == x;
        if n != m { assert copies[n] in copies.Values; }
      }
      if x in heap'.Keys {
        if x == t { assert copies'[m] == x; }
        else { assert x in copies.Values; var n :| n in copies && copies[n] == x; assert copies'[n] == x; }
      }
    }
  }

  /** All entries of the top frame are copied: its target is frozen and it finishes. */
  lemma FinishStep(g: Graph, root: NodeId, active: set<NodeId>, copies: map<NodeId, TargetId>, rank: map<NodeId, nat>,
      stack: seq<Frame>, heap: Heap, clock: nat)
    requires CloneOk(g, root, active, copies, rank, stack, heap, clock) && stack != []
    requires stack[|stack| - 1].next == |g[stack[|stack| - 1].source].entries|
    ensures var f := stack[|stack| - 1];
            && f.target in heap
            && CloneOk(g, root, active - {f.source}, copies, rank[f.source := clock], stack[..|stack| - 1],
               heap[f.target := heap[f.target].(frozen := true)], clock + 1)
  {
    hide Images, DistinctSources, HasFrame, Chain;
    var f := stack[|stack| - 1];
    var rank', heap', below := rank[f.source := clock], heap[f.target := heap[f.target].(frozen := true)],
        stack[..|stack| - 1];
    OtherTarget(g, root, active, copies, rank, stack, heap, clock);
    PoppedStack(g, root, active, copies, stack);
    assert heap'.Keys == heap.Keys;
    assert g[f.source].entries[..f.next] == g[f.source].entries;
    assert Copied(g, f, None, copies, rank, heap);
    forall i | 0 <= i < |below| ensures Copied(g, below[i], Above(below, i), copies, rank', heap') {
      assert Copied(g, stack[i], Above(stack, i), copies, rank, heap);
    }
    forall n | n in rank' ensures Finished(g, n, copies, rank', heap') {
      if n != f.source { assert Finished(g, n, copies, rank, heap); }
    }
  }

  lemma PoppedStack(g: Graph, root: NodeId, active: set<NodeId>, copies: map<NodeId, TargetId>, stack: seq<Frame>)
    requires StackOk(g, root, active, copies, stack) && stack != []
    ensures StackOk(g, root, active - {stack[|stack| - 1].source}, copies, stack[..|stack| - 1])
  {
    hide Leads;
    var below, gone := stack[..|stack| - 1], stack[|stack| - 1].source;
    forall i | 0 <= i < |below| ensures FrameOk(g, active - {gone}, copies, below[i]) {
      assert FrameOk(g, active, copies, stack[i]);
    }
    forall i | 0 <= i < |below| - 1 ensures Leads(g, below[i], below[i + 1]) {
      assert Leads(g, stack[i], stack[i + 1]);
    }
    forall n | n in active - {gone} ensures HasFrame(below, n) {
      assert HasFrame(stack, n);
      var i :| 0 <= i < |stack| && stack[i].source == n;
      assert below[i].source == n;
    }
  }

  /** Entries still to take and frames still to pop. */
  function Remaining(g: Graph, stack: seq<Frame>): nat {
    if stack == [] then 0
    else
      var f := stack[|stack| - 1];
      1 + (if f.source in g && f.next <= |g[f.source].entries| then |g[f.source].entries| - f.next else 0)
          + Remaining(g, stack[..|stack| - 1])
  }

  lemma RemainingAdvance(g: Graph, stack: seq<Frame>)
    requires stack != [] && stack[|stack| - 1].source in g
             && stack[|stack| - 1].next < |g[stack[|stack| - 1].source].entries|
    ensures Remaining(g, Advance(stack)) < Remaining(g, stack)
  {
    assert Advance(stack)[..|stack| - 1] == stack[..|stack| - 1];
  }

  lemma FewerLeft(g: Graph, copies: map<NodeId, TargetId>, m: NodeId, t: TargetId)
    requires m in g && m !in copies
    ensures |g.Keys - copies[m := t].Keys| < |g.Keys - copies.Keys|
  {
    assert g.Keys - copies[m := t].Keys == (g.Keys - copies.Keys) - {m};
  }

  datatype Cloned = Detached(value: TValue) | Refused

  /** What a value comes to when it is detached. */
  ghost predicate Detaches(g: Graph, value: Value, r: Cloned, copies: map<NodeId, TargetId>, heap: Heap) {
    match value
    case Primitive(text) => r == Detached(Copy(text)) && copies == map[] && heap == map[]
    case Ref(root) => root in copies && r == Detached(To(copies[root])) && IsFrozenCopy(g, root, copies, heap)
    case Bad => false
  }

  /**
   * The clone ends on every graph. It returns exactly when neither a cycle nor anything unfit for JSON
   * can be reached, and then an isomorphic graph of new frozen objects, one for each object.
   */
  method ClonePresentationJson(g: Graph, value: Value) returns (r: Cloned, copies: map<NodeId, TargetId>, heap: Heap)
    requires Closed(g) && (value.Ref? ==> value.node in g)
    ensures r.Detached? <==> value.Primitive? || (value.Ref? && Clonable(g, value.node))
    ensures r.Detached? ==> Detaches(g, value, r, copies, heap)
  {
    copies, heap := map[], map[];
    match value {
      case Primitive(text) => r := Detached(Copy(text));
      case Bad => r := Refused;
      case Ref(root) =>
        if !g[root].plain {
          RootUnfit(g, root);
          return Refused, copies, heap;
        }
        r, copies, heap := CloneFrom(g, root);
    }
  }

  lemma RootUnfit(g: Graph, root: NodeId)
    requires root in g && !g[root].plain
    ensures !Clonable(g, root)
  {
    assert Path(g, root, [root]);
    assert !Fine(g[[root][0]]);
  }

  method CloneFrom(g: Graph, root: NodeId) returns (r: Cloned, copies: map<NodeId, TargetId>, heap: Heap)
    requires Closed(g) && root in g && g[root].plain
    ensures r.Detached? <==> Clonable(g, root)
    ensures r.Detached? ==> Detaches(g, Ref(root), r, copies, heap)
  {
    hide StackOk, CopiesOk, Copied, Finished, Clonable, IsFrozenCopy, Reaches, Images, Remaining, Edge, Closed,
        CloneOk, Advance, Put, ImageOf, Below, Detaches;
    var active := {root};
    var next: TargetId := 1;
    copies, heap := map[root := 0], map[0 := Target(g[root].isArray, [], false)];
    var stack := [Frame(root, 0, 0)];
    ghost var rank: map<NodeId, nat>, clock := map[], 0;
    RootOk(g, root);
    BelowOne(Target(g[root].isArray, [], false));
    while |stack| > 0
      invariant CloneOk(g, root, active, copies, rank, stack, heap, clock)
      invariant forall n :: n in copies ==> Reaches(g, root, n)
      invariant Below(heap, next)
      decreases |g.Keys - copies.Keys|, Remaining(g, stack)
    {
      BelowFresh(heap, next);
      CloneParts(g, root, active, copies, rank, stack, heap, clock);
      TopIs(g, root, active, copies, rank, stack, heap, clock);
      var frame := stack[|stack| - 1];
      if frame.next >= |g[frame.source].entries| {
        FinishStep(g, root, active, copies, rank, stack, heap, clock);
        BelowMore(heap, next, frame.target, heap[frame.target].(frozen := true));
        heap := heap[frame.target := heap[frame.target].(frozen := true)];
        active := active - {frame.source};
        rank, clock := rank[frame.source := clock], clock + 1;
        RemainingPop(g, stack);
        stack := stack[..|stack| - 1];
        continue;
      }
      var entry := g[frame.source].entries[frame.next];
      match entry.value {
        case Bad =>
          UnfitFound(g, root, active, copies, stack, frame.next);
          return Refused, copies, heap;
        case Primitive(text) =>
          ImageOfLeaf(entry.value, copies);
          LeafStep(g, root, active, copies, rank, stack, heap, clock, entry);
          BelowPut(heap, next, frame.target, TEntry(entry.key, Copy(text)));
          RemainingAdvance(g, stack);
          heap, stack := Put(heap, frame.target, TEntry(entry.key, Copy(text))), Advance(stack);
        case Ref(child) =>
          ChildIn(g, frame.source, frame.next);
          if child in active {
            CycleFound(g, root, active, copies, stack, frame.next);
            return Refused, copies, heap;
          }
          if child in copies {
            CopiedIsFinished(g, root, active, copies, rank, heap, clock, child);
            ImageOfLeaf(entry.value, copies);
            LeafStep(g, root, active, copies, rank, stack, heap, clock, entry);
            BelowPut(heap, next, frame.target, TEntry(entry.key, To(copies[child])));
            RemainingAdvance(g, stack);
            heap, stack := Put(heap, frame.target, TEntry(entry.key, To(copies[child]))), Advance(stack);
          } else {
            if !g[child].plain {
              UnfitFound(g, root, active, copies, stack, frame.next);
              return Refused, copies, heap;
            }
            NewStep(g, root, active, copies, rank, stack, heap, clock, entry, child, next);
            BelowPut(heap, next, frame.target, TEntry(entry.key, To(next)));
            BelowMore(Put(heap, frame.target, TEntry(entry.key, To(next))), next, next,
                Target(g[child].isArray, [], false));
            FewerLeft(g, copies, child, next);
            ReachesMore(g, root, frame.source, child);
            heap := Put(heap, frame.target, TEntry(entry.key, To(next)))[next := Target(g[child].isArray, [], false)];
            active, copies := active + {child}, copies[child := next];
            stack := Advance(stack) + [Frame(child, next, 0)];
            next := next + 1;
          }
      }
    }
    CloneParts(g, root, active, copies, rank, stack, heap, clock);
    NoneActive(g, root, active, copies, stack);
    CloneDone(g, root, copies, rank, heap, clock);
    RootCopied(g, root, copies, rank, heap, clock);
    r := Detached(To(copies[root]));
    DetachedFrom(g, root, copies, heap);
  }

  ghost predicate Below(heap: Heap, next: TargetId) { forall t :: t in heap ==> t < next }

  lemma BelowOne(target: Target)
    ensures Below(map[0 := target], 1)
  {
  }

  lemma BelowFresh(heap: Heap, next: TargetId)
    requires Below(heap, next)
    ensures next !in heap
  {
  }

  lemma BelowPut(heap: Heap, next: TargetId, t: TargetId, e: TEntry)
    requires Below(heap, next) && t in heap && !heap[t].frozen
    ensures Below(Put(heap, t, e), next)
  {
  }

  lemma BelowMore(heap: Heap, next: TargetId, t: TargetId, target: Target)
    requires Below(heap, next) && (t in heap || t == next)
    ensures Below(heap[t := target], if t == next then next + 1 else next)
  {
  }

  lemma DetachedFrom(g: Graph, root: NodeId, copies: map<NodeId, TargetId>, heap: Heap)
    requires IsFrozenCopy(g, root, copies, heap) && root in copies
    ensures Detaches(g, Ref(root), Detached(To(copies[root])), copies, heap)
  {
    hide IsFrozenCopy;
  }

  lemma ImageOfLeaf(v: Value, copies: map<NodeId, TargetId>)
    ensures v.Primitive? ==> ImageOf(v, copies) == Copy(v.text)
    ensures v.Ref? && v.node in copies ==> ImageOf(v, copies) == To(copies[v.node])
  {
  }

  lemma CloneParts(g: Graph, root: NodeId, active: set<NodeId>, copies: map<NodeId, TargetId>, rank: map<NodeId, nat>,
      stack: seq<Frame>, heap: Heap, clock: nat)
    requires CloneOk(g, root, active, copies, rank, stack, heap, clock)
    ensures StackOk(g, root, active, copies, stack) && CopiesOk(g, root, active, copies, rank, heap, clock)
  {
  }

  lemma RootOk(g: Graph, root: NodeId)
    requires root in g && g[root].plain
    ensures CloneOk(g, root, {root}, map[root := 0], map[], [Frame(root, 0, 0)],
            map[0 := Target(g[root].isArray, [], false)], 0)
    ensures Reaches(g, root, root)
  {
    var stack := [Frame(root, 0, 0)];
    assert stack[0].source == root;
    NoImages(g[root].entries, map[root := 0]);
    assert map[root := 0 as TargetId].Values == {0} by { assert map[root := 0 as TargetId][root] == 0; }
    assert Path(g, root, [root]);
    assert [root][|[root]| - 1] == root;
  }

  lemma TopIs(g: Graph, root: NodeId, active: set<NodeId>, copies: map<NodeId, TargetId>, rank: map<NodeId, nat>,
      stack: seq<Frame>, heap: Heap, clock: nat)
    requires CloneOk(g, root, active, copies, rank, stack, heap, clock) && stack != []
    ensures var f := stack[|stack| - 1];
            f.source in g && f.source in copies && f.target in heap && f.next <= |g[f.source].entries|
  {
    OtherTarget(g, root, active, copies, rank, stack, heap, clock);
    assert FrameOk(g, active, copies, stack[|stack| - 1]);
  }

  lemma RemainingPop(g: Graph, stack: seq<Frame>)
    requires stack != []
    ensures Remaining(g, stack[..|stack| - 1]) < Remaining(g, stack)
  {
  }

  lemma ChildIn(g: Graph, n: NodeId, i: nat)
    requires Closed(g) && n in g && i < |g[n].entries| && g[n].entries[i].value.Ref?
    ensures g[n].entries[i].value.node in g && Edge(g, n, g[n].entries[i].value.node)
  {
  }

  lemma CopiedIsFinished(g: Graph, root: NodeId, active: set<NodeId>, copies: map<NodeId, TargetId>,
      rank: map<NodeId, nat>, heap: Heap, clock: nat, n: NodeId)
    requires CopiesOk(g, root, active, copies, rank, heap, clock) && n in copies && n !in active
    ensures n in rank
  {
  }

  lemma NoneActive(g: Graph, root: NodeId, active: set<NodeId>, copies: map<NodeId, TargetId>, stack: seq<Frame>)
    requires StackOk(g, root, active, copies, stack) && stack == []
    ensures active == {}
  {
    assert forall n :: n in active ==> HasFrame(stack, n);
    assert forall n :: !HasFrame([], n);
  }

  lemma RootCopied(g: Graph, root: NodeId, copies: map<NodeId, TargetId>, rank: map<NodeId, nat>, heap: Heap,
      clock: nat)
    requires CopiesOk(g, root, {}, copies, rank, heap, clock)
    ensures root in copies
  {
  }

  // ----- the snapshot that keeps cycles

  datatype Job = CloneJob(source: NodeId, target: TargetId) | FreezeJob(source: NodeId, target: TargetId)

  /** Validated JSON: nothing unfit anywhere. */
  ghost predicate Valid(g: Graph) {
    Closed(g) && forall n :: n in g ==> Fine(g[n])
  }

  /** One job per object at most, for the object's own target. */
  ghost predicate JobsOk(copies: map<NodeId, TargetId>, jobs: seq<Job>) {
    && (forall i :: 0 <= i < |jobs| ==> jobs[i].source in copies && copies[jobs[i].source] == jobs[i].target)
    && (forall i, j :: 0 <= i < j < |jobs| ==> jobs[i].source != jobs[j].source)
  }

  /**
   * An object whose clone job is waiting has an empty target; with a freeze job it lacks only freezing; else it is
   * done.
   */
  ghost predicate CopyState(g: Graph, n: NodeId, copies: map<NodeId, TargetId>, jobs: seq<Job>, heap: Heap)
    requires n in g && n in copies && copies[n] in heap
  {
    var t := heap[copies[n]];
    && t.isArray == g[n].isArray
    && (CloneJob(n, copies[n]) in jobs ==> t.members == [] && !t.frozen)
    && (CloneJob(n, copies[n]) !in jobs ==>
          t.members == Images(g[n].entries, copies) && (t.frozen <==> FreezeJob(n, copies[n]) !in jobs)
          && forall i :: 0 <= i < |g[n].entries| && g[n].entries[i].value.Ref? ==> g[n].entries[i].value.node in copies)
  }

  ghost predicate SnapshotOk(g: Graph, root: NodeId, copies: map<NodeId, TargetId>, jobs: seq<Job>, heap: Heap) {
    && root in copies && Injective(copies) && heap.Keys == copies.Values
    && (forall n :: n in copies ==> n in g && copies[n] in heap)
    && JobsOk(copies, jobs)
    && (forall n :: n in copies ==> CopyState(g, n, copies, jobs, heap))
  }

  lemma SnapshotDone(g: Graph, root: NodeId, copies: map<NodeId, TargetId>, heap: Heap)
    requires SnapshotOk(g, root, copies, [], heap) && Valid(g) && forall n :: n in copies ==> Reaches(g, root, n)
    ensures IsFrozenCopy(g, root, copies, heap)
  {
    hide Images;
    forall n | n in copies ensures n in g && Mirrors(g[n], heap[copies[n]], copies) {
      assert CopyState(g, n, copies, [], heap);
      ImagesMirror(g[n], heap[copies[n]], copies);
    }
    forall a, b | a in copies && Edge(g, a, b) ensures b in copies {
      assert CopyState(g, a, copies, [], heap);
      var i :| 0 <= i < |g[a].entries| && g[a].entries[i].value == Ref(b);
    }
    forall n | Reaches(g, root, n) ensures n in copies {
      var p :| Path(g, root, p) && p[|p| - 1] == n;
      Covers(g, root, copies.Keys, p);
    }
  }

  /** A freeze job: the target has all its members, and nothing is defined on it any more. */
  lemma FreezeStep(g: Graph, root: NodeId, copies: map<NodeId, TargetId>, jobs: seq<Job>, heap: Heap)
    requires SnapshotOk(g, root, copies, jobs, heap) && jobs != [] && jobs[|jobs| - 1].FreezeJob?
    ensures var j := jobs[|jobs| - 1];
            && j.target in heap && !heap[j.target].frozen
            && SnapshotOk(g, root, copies, jobs[..|jobs| - 1], heap[j.target := heap[j.target].(frozen := true)])
  {
    hide Images;
    var j, below := jobs[|jobs| - 1], jobs[..|jobs| - 1];
    assert jobs == below + [j];
    assert CopyState(g, j.source, copies, jobs, heap);
    Unqueued(copies, jobs);
    var heap' := heap[j.target := heap[j.target].(frozen := true)];
    assert heap'.Keys == heap.Keys;
    forall n | n in copies ensures CopyState(g, n, copies, below, heap') {
      assert CopyState(g, n, copies, jobs, heap);
      if n != j.source { OtherJobs(below, j, n, copies); }
    }
  }

  /** The job on top is the only one of its object. */
  lemma Unqueued(copies: map<NodeId, TargetId>, jobs: seq<Job>)
    requires JobsOk(copies, jobs) && jobs != []
    ensures JobsOk(copies, jobs[..|jobs| - 1])
    ensures forall x :: x in jobs && x.source == jobs[|jobs| - 1].source ==> x == jobs[|jobs| - 1]
    ensures forall x :: x in jobs[..|jobs| - 1] ==> x.source != jobs[|jobs| - 1].source
  {
  }

  lemma OtherJobs(below: seq<Job>, j: Job, n: NodeId, copies: map<NodeId, TargetId>)
    requires n in copies && n != j.source
    ensures CloneJob(n, copies[n]) in below + [j] <==> CloneJob(n, copies[n]) in below
    ensures FreezeJob(n, copies[n]) in below + [j] <==> FreezeJob(n, copies[n]) in below
  {
  }

  /** The object whose entries are being defined has its first `k`, and its freeze job waits. */
  ghost predicate Defining(g: Graph, n: NodeId, k: nat, copies: map<NodeId, TargetId>, jobs: seq<Job>, heap: Heap)
    requires n in g && k <= |g[n].entries| && n in copies && copies[n] in heap
  {
    && heap[copies[n]] == Target(g[n].isArray, Images(g[n].entries[..k], copies), false)
    && FreezeJob(n, copies[n]) in jobs && CloneJob(n, copies[n]) !in jobs
    && (forall i :: 0 <= i < k && g[n].entries[i].value.Ref? ==> g[n].entries[i].value.node in copies)
  }

  ghost predicate SnapshotPart(g: Graph, root: NodeId, copies: map<NodeId, TargetId>, jobs: seq<Job>, heap: Heap,
      current: NodeId, k: nat)
  {
    && root in copies && Injective(copies) && heap.Keys == copies.Values
    && (forall n :: n in copies ==> n in g && copies[n] in heap)
    && JobsOk(copies, jobs)
    && (forall n :: n in copies && n != current ==> CopyState(g, n, copies, jobs, heap))
    && current in copies && k <= |g[current].entries| && Defining(g, current, k, copies, jobs, heap)
  }

  lemma SwapJob(copies: map<NodeId, TargetId>, jobs: seq<Job>, f: Job)
    requires JobsOk(copies, jobs) && jobs != [] && f.source == jobs[|jobs| - 1].source
             && f.target == jobs[|jobs| - 1].target
    ensures JobsOk(copies, jobs[..|jobs| - 1] + [f])
  {
  }

  lemma StartDefining(g: Graph, root: NodeId, copies: map<NodeId, TargetId>, jobs: seq<Job>, heap: Heap)
    requires SnapshotOk(g, root, copies, jobs, heap) && jobs != [] && jobs[|jobs| - 1].CloneJob?
    ensures var j := jobs[|jobs| - 1];
            SnapshotPart(g, root, copies, jobs[..|jobs| - 1] + [FreezeJob(j.source, j.target)], heap, j.source, 0)
  {
    hide Images, JobsOk, CopyState;
    var j, below := jobs[|jobs| - 1], jobs[..|jobs| - 1];
    var f := FreezeJob(j.source, j.target);
    assert jobs == below + [j];
    Unqueued(copies, jobs);
    SwapJob(copies, jobs, f);
    TaskTarget(copies, jobs);
    forall n | n in copies && n != j.source ensures CopyState(g, n, copies, below + [f], heap) {
      OtherState(g, n, copies, below, j, f, heap);
    }
    FirstState(g, j.source, copies, below, heap);
  }

  lemma OtherState(g: Graph, n: NodeId, copies: map<NodeId, TargetId>, below: seq<Job>, j: Job, f: Job, heap: Heap)
    requires n in g && n in copies && copies[n] in heap && n != j.source && n != f.source
    requires CopyState(g, n, copies, below + [j], heap)
    ensures CopyState(g, n, copies, below + [f], heap)
  {
    hide Images;
    OtherJobs(below, j, n, copies);
    OtherJobs(below, f, n, copies);
  }

  lemma FirstState(g: Graph, n: NodeId, copies: map<NodeId, TargetId>, below: seq<Job>, heap: Heap)
    requires n in g && n in copies && copies[n] in heap
             && CopyState(g, n, copies, below + [CloneJob(n, copies[n])], heap)
    requires forall x :: x in below ==> x.source != n
    ensures Defining(g, n, 0, copies, below + [FreezeJob(n, copies[n])], heap)
  {
    hide Images;
    NoImages(g[n].entries, copies);
    assert (below + [CloneJob(n, copies[n])])[|below|] == CloneJob(n, copies[n]);
    assert (below + [FreezeJob(n, copies[n])])[|below|] == FreezeJob(n, copies[n]);
  }

  lemma EndDefining(g: Graph, root: NodeId, copies: map<NodeId, TargetId>, jobs: seq<Job>, heap: Heap, current: NodeId)
    requires current in g && SnapshotPart(g, root, copies, jobs, heap, current, |g[current].entries|)
    ensures SnapshotOk(g, root, copies, jobs, heap)
  {
    hide Images;
    assert g[current].entries[..|g[current].entries|] == g[current].entries;
  }

  /** A member that is a primitive or an object already met; its target is not frozen. */
  lemma DefineKnown(g: Graph, root: NodeId, copies: map<NodeId, TargetId>, jobs: seq<Job>, heap: Heap, current: NodeId,
      k: nat, e: Entry)
    requires SnapshotPart(g, root, copies, jobs, heap, current, k) && k < |g[current].entries|
             && e == g[current].entries[k]
    requires e.value.Ref? ==> e.value.node in copies
    ensures copies[current] in heap && !heap[copies[current]].frozen
    ensures SnapshotPart(g, root, copies, jobs, Put(heap, copies[current], TEntry(e.key, ImageOf(e.value, copies))),
            current, k + 1)
  {
    hide Images, ImageOf;
    ImagesMore(g[current].entries, k, copies);
    var heap' := Put(heap, copies[current], TEntry(e.key, ImageOf(e.value, copies)));
    assert heap'.Keys == heap.Keys;
    forall n | n in copies && n != current ensures CopyState(g, n, copies, jobs, heap') {
      assert CopyState(g, n, copies, jobs, heap);
    }
  }

  /** A member that is an object met for the first time gets a target and a clone job of its own. */
  lemma MeetChild(g: Graph, root: NodeId, copies: map<NodeId, TargetId>, jobs: seq<Job>, heap: Heap, current: NodeId,
      k: nat, m: NodeId, t: TargetId)
    requires SnapshotPart(g, root, copies, jobs, heap, current, k) && m in g && m !in copies && t !in heap
    ensures SnapshotPart(g, root, copies[m := t], jobs + [CloneJob(m, t)], heap[t := Target(g[m].isArray, [], false)],
            current, k)
  {
    hide Images, CopyState, Defining, JobsOk, Injective;
    var copies', heap', job := copies[m := t], heap[t := Target(g[m].isArray, [], false)], CloneJob(m, t);
    MoreCopies(copies, heap, m, t, heap'[t]);
    NoJobYet(copies, jobs, m, t);
    forall n | n in copies && n != current ensures CopyState(g, n, copies', jobs + [job], heap') {
      StateStays(g, n, copies, jobs, heap, m, t);
    }
    DefiningStays(g, current, k, copies, jobs, heap, m, t);
    BlankState(g, m, t, copies', jobs, heap');
  }

  lemma StateStays(g: Graph, n: NodeId, copies: map<NodeId, TargetId>, jobs: seq<Job>, heap: Heap, m: NodeId,
      t: TargetId)
    requires n in g && n in copies && copies[n] in heap && CopyState(g, n, copies, jobs, heap) && m in g && m !in copies
             && t !in heap
    ensures CopyState(g, n, copies[m := t], jobs + [CloneJob(m, t)], heap[t := Target(g[m].isArray, [], false)])
  {
    hide Images;
    OtherJobs(jobs, CloneJob(m, t), n, copies[m := t]);
    if CloneJob(n, copies[n]) !in jobs { ImagesStable(g[n].entries, copies, m, t); }
  }

  lemma DefiningStays(g: Graph, n: NodeId, k: nat, copies: map<NodeId, TargetId>, jobs: seq<Job>, heap: Heap, m: NodeId,
      t: TargetId)
    requires n in g && k <= |g[n].entries| && n in copies && copies[n] in heap && Defining(g, n, k, copies, jobs, heap)
    requires m in g && m !in copies && t !in heap
    ensures Defining(g, n, k, copies[m := t], jobs + [CloneJob(m, t)], heap[t := Target(g[m].isArray, [], false)])
  {
    hide Images;
    OtherJobs(jobs, CloneJob(m, t), n, copies[m := t]);
    ImagesStable(g[n].entries[..k], copies, m, t);
  }

  lemma BlankState(g: Graph, m: NodeId, t: TargetId, copies: map<NodeId, TargetId>, jobs: seq<Job>, heap: Heap)
    requires m in g && m in copies && copies[m] == t && t in heap && heap[t] == Target(g[m].isArray, [], false)
    ensures CopyState(g, m, copies, jobs + [CloneJob(m, t)], heap)
  {
    hide Images;
    assert (jobs + [CloneJob(m, t)])[|jobs|] == CloneJob(m, t);
  }

  lemma NoJobYet(copies: map<NodeId, TargetId>, jobs: seq<Job>, m: NodeId, t: TargetId)
    requires JobsOk(copies, jobs) && m !in copies
    ensures JobsOk(copies[m := t], jobs + [CloneJob(m, t)])
  {
    var more := jobs + [CloneJob(m, t)];
    forall i | 0 <= i < |jobs| ensures more[i] == jobs[i] && jobs[i].source != m {}
  }

  lemma MoreCopies(copies: map<NodeId, TargetId>, heap: Heap, m: NodeId, t: TargetId, target: Target)
    requires Injective(copies) && heap.Keys == copies.Values && m !in copies && t !in heap
    ensures Injective(copies[m := t]) && heap[t := target].Keys == copies[m := t].Values
  {
    var copies', heap' := copies[m := t], heap[t := target];
    forall n | n in copies ensures copies[n] != t { assert copies[n] in copies.Values; }
    forall x ensures x in copies'.Values <==> x in heap'.Keys {
      if x in copies'.Values {
        var n :| n in copies' && copies'[n] == x;
        if n != m { assert copies[n] in copies.Values; }
      }
      if x in heap'.Keys {
        if x == t { assert copies'[m] == x; }
        else { assert x in copies.Values; var n :| n in copies && copies[n] == x; assert copies'[n] == x; }
      }
    }
  }

  function Weight(jobs: seq<Job>): nat {
    if jobs == [] then 0 else (if jobs[|jobs| - 1].CloneJob? then 2 else 1) + Weight(jobs[..|jobs| - 1])
  }

  lemma WeightMore(jobs: seq<Job>, j: Job)
    ensures Weight(jobs + [j]) == (if j.CloneJob? then 2 else 1) + Weight(jobs)
  {
    assert (jobs + [j])[..|jobs|] == jobs;
  }

  /**
   * The snapshot ends on every graph, cyclic or not, and is an isomorphic graph of new frozen objects;
   * nothing is ever defined on a frozen one.
   */
  method SnapshotJsonValue(g: Graph, root: NodeId) returns (copies: map<NodeId, TargetId>, heap: Heap)
    requires Valid(g) && root in g
    ensures IsFrozenCopy(g, root, copies, heap) && root in copies
  {
    hide Valid, Reaches, IsFrozenCopy, SnapshotOk, SnapshotPart, Weight;
    var next: TargetId := 1;
    copies, heap := map[root := 0], map[0 := Target(g[root].isArray, [], false)];
    var stack := [CloneJob(root, 0)];
    SnapshotStarts(g, root, copies, stack, heap);
    while |stack| > 0
      invariant SnapshotOk(g, root, copies, stack, heap)
      invariant forall n :: n in copies ==> Reaches(g, root, n)
      invariant forall t :: t in heap ==> t < next
      decreases |g.Keys - copies.Keys|, Weight(stack)
    {
      var task, below := stack[|stack| - 1], stack[..|stack| - 1];
      LastJob(stack);
      WeightMore(below, task);
      if task.FreezeJob? {
        FreezeStep(g, root, copies, stack, heap);
        heap := heap[task.target := heap[task.target].(frozen := true)];
        stack := below;
        continue;
      }
      StartDefining(g, root, copies, stack, heap);
      TaskSource(g, root, copies, stack, heap);
      stack := below + [FreezeJob(task.source, task.target)];
      WeightMore(below, FreezeJob(task.source, task.target));
      copies, heap, stack, next := DefineMembers(g, root, copies, heap, stack, next, task.source);
      EndDefining(g, root, copies, stack, heap, task.source);
    }
    SnapshotDone(g, root, copies, heap);
    SnapshotHasRoot(g, root, copies, stack, heap);
  }

  lemma LastJob(jobs: seq<Job>)
    requires jobs != []
    ensures jobs == jobs[..|jobs| - 1] + [jobs[|jobs| - 1]]
  {
  }

  lemma TaskSource(g: Graph, root: NodeId, copies: map<NodeId, TargetId>, jobs: seq<Job>, heap: Heap)
    requires SnapshotOk(g, root, copies, jobs, heap) && jobs != []
    ensures jobs[|jobs| - 1].source in g
  {
    TaskTarget(copies, jobs);
  }

  lemma SnapshotHasRoot(g: Graph, root: NodeId, copies: map<NodeId, TargetId>, jobs: seq<Job>, heap: Heap)
    requires SnapshotOk(g, root, copies, jobs, heap)
    ensures root in copies
  {
  }

  lemma TaskTarget(copies: map<NodeId, TargetId>, jobs: seq<Job>)
    requires JobsOk(copies, jobs) && jobs != []
    ensures jobs[|jobs| - 1].source in copies && copies[jobs[|jobs| - 1].source] == jobs[|jobs| - 1].target
  {
  }

  lemma SnapshotStarts(g: Graph, root: NodeId, copies: map<NodeId, TargetId>, jobs: seq<Job>, heap: Heap)
    requires root in g && copies == map[root := 0] && jobs == [CloneJob(root, 0)]
             && heap == map[0 := Target(g[root].isArray, [], false)]
    ensures SnapshotOk(g, root, copies, jobs, heap)
    ensures (forall n :: n in copies ==> Reaches(g, root, n)) && forall t :: t in heap ==> t < 1
  {
    assert jobs[0] == CloneJob(root, 0);
    assert copies.Values == {0} by { assert copies[root] == 0; }
    assert Path(g, root, [root]);
    assert [root][|[root]| - 1] == root;
  }

  /** The loop over one object's keys. */
  method DefineMembers(g: Graph, root: NodeId, copies0: map<NodeId, TargetId>, heap0: Heap, stack0: seq<Job>,
      next0: TargetId, source: NodeId)
    returns (copies: map<NodeId, TargetId>, heap: Heap, stack: seq<Job>, next: TargetId)
    requires Valid(g) && source in g && SnapshotPart(g, root, copies0, stack0, heap0, source, 0)
    requires (forall n :: n in copies0 ==> Reaches(g, root, n)) && (forall t :: t in heap0 ==> t < next0)
    ensures SnapshotPart(g, root, copies, stack, heap, source, |g[source].entries|)
    ensures (forall n :: n in copies ==> Reaches(g, root, n)) && (forall t :: t in heap ==> t < next)
    ensures (copies == copies0 && stack == stack0) || |g.Keys - copies.Keys| < |g.Keys - copies0.Keys|
  {
    hide Valid, Reaches, SnapshotPart;
    copies, heap, stack, next := copies0, heap0, stack0, next0;
    SourceCopied(g, root, copies, stack, heap, source, 0);
    var k := 0;
    while k < |g[source].entries|
      invariant 0 <= k <= |g[source].entries|
      invariant SnapshotPart(g, root, copies, stack, heap, source, k)
      invariant (forall n :: n in copies ==> Reaches(g, root, n)) && (forall t :: t in heap ==> t < next)
      invariant (copies == copies0 && stack == stack0) || |g.Keys - copies.Keys| < |g.Keys - copies0.Keys|
    {
      var entry := g[source].entries[k];
      var image := Copy("");
      EntryFine(g, source, k);
      if entry.value.Primitive? {
        image := Copy(entry.value.text);
      } else {
        var child := entry.value.node;
        if child !in copies {
          MeetChild(g, root, copies, stack, heap, source, k, child, next);
          FewerLeft(g, copies, child, next);
          ReachesMore(g, root, source, child);
          copies, heap, stack := copies[child := next], heap[next := Target(g[child].isArray, [], false)],
              stack + [CloneJob(child, next)];
          next := next + 1;
        }
        image := To(copies[child]);
      }
      SourceCopied(g, root, copies, stack, heap, source, k);
      DefineKnown(g, root, copies, stack, heap, source, k, entry);
      heap := Put(heap, copies[source], TEntry(entry.key, image));
      k := k + 1;
    }
  }

  lemma SourceCopied(g: Graph, root: NodeId, copies: map<NodeId, TargetId>, jobs: seq<Job>, heap: Heap, current: NodeId,
      k: nat)
    requires SnapshotPart(g, root, copies, jobs, heap, current, k)
    ensures current in copies && copies[current] in heap
  {
  }

  lemma EntryFine(g: Graph, n: NodeId, k: nat)
    requires Valid(g) && n in g && k < |g[n].entries|
    ensures !g[n].entries[k].value.Bad?
    ensures g[n].entries[k].value.Ref? ==> g[n].entries[k].value.node in g && Edge(g, n, g[n].entries[k].value.node)
  {
    if g[n].entries[k].value.Ref? { ChildIn(g, n, k); }
  }
}
