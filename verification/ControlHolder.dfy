/**
 * The Data slots of the Renderer's control holder (packages/renderer/src/control.ts): one slot per Data
 * authority of the current snapshot, each connected, acquiring or failed, kept aligned while control
 * peers are replaced, snapshots arrive, carriers come late and Data peers end.
 *
 * Control peers, Data peers, acquire attempts and slot objects are numbered in the order they are made.
 * A slot object that left the map is empty for good, so a callback on it finds nothing of its own; the
 * model looks the callback's slot up by number. The viewport publisher is the set of its peers and the
 * frame gate the map of its installed peers.
 */
module ControlHolder {
  import opened Base

  type Key = string
  type ControlId = nat
  type PeerId = nat
  type AttemptId = nat
  type SlotId = nat

  const SUPPORTED_PROFILE := "loomrealm.renderer-data/3"

  datatype Authority = Authority(key: Key, generation: nat, profile: string)
  datatype Snapshot = Snapshot(session: string, authorities: seq<Authority>)
  datatype Identity = Identity(control: ControlId, authority: Authority)

  datatype Connected = Connected(identity: Identity, peer: PeerId)
  datatype Attempt = Attempt(id: AttemptId, identity: Identity)
  datatype Slot = Slot(id: SlotId, current: Option<Connected>, pending: Option<Attempt>, failed: Option<Identity>)
  datatype Control = Control(peer: ControlId, snapshot: Snapshot)

  /** Snapshots come validated: no key is listed twice. */
  predicate UniqueKeys(snapshot: Snapshot) {
    forall i, j :: 0 <= i < j < |snapshot.authorities| ==> snapshot.authorities[i].key != snapshot.authorities[j].key
  }

  function KeysOf(snapshot: Snapshot): set<Key> {
    set a | a in snapshot.authorities :: a.key
  }

  function Find(authorities: seq<Authority>, key: Key): (a: Option<Authority>)
    ensures a.Some? ==> a.value in authorities && a.value.key == key
    ensures a.None? ==> forall x :: x in authorities ==> x.key != key
  {
    if authorities == [] then None
    else if authorities[0].key == key then Some(authorities[0])
    else Find(authorities[1..], key)
  }

  /** The identity desired for a key under a control peer and its snapshot. */
  function Wanted(control: Control, key: Key): Option<Identity> {
    var a := Find(control.snapshot.authorities, key);
    if a.None? then None else Some(Identity(control.peer, a.value))
  }

  predicate Desired(current: Option<Control>, identity: Identity) {
    current.Some? && Wanted(current.value, identity.authority.key) == Some(identity)
  }

  // ----- one slot

  /** Drops whatever is not of the wanted identity. */
  function Kept(slot: Slot, wanted: Option<Identity>): Slot {
    slot.(current := if slot.current.Some? && Some(slot.current.value.identity) == wanted then slot.current else None,
          pending := if slot.pending.Some? && Some(slot.pending.value.identity) == wanted then slot.pending else None,
          failed := if slot.failed.Some? && slot.failed == wanted then slot.failed else None)
  }

  predicate Vacant(slot: Slot) { slot.current.None? && slot.pending.None? && slot.failed.None? }

  function Count(slot: Slot): nat {
    (if slot.current.Some? then 1 else 0) + (if slot.pending.Some? then 1 else 0) + (if slot.failed.Some? then 1 else 0)
  }

  /** Exactly one of connected, acquiring and failed, and of exactly this identity. */
  ghost predicate Settles(slot: Slot, identity: Identity) {
    && Count(slot) == 1
    && (slot.current.Some? ==> slot.current.value.identity == identity)
    && (slot.pending.Some? ==> slot.pending.value.identity == identity)
    && (slot.failed.Some? ==> slot.failed.value == identity)
  }

  // ----- the tables

  function CurrentPeers(slots: map<Key, Slot>): set<PeerId> {
    set k | k in slots && slots[k].current.Some? :: slots[k].current.value.peer
  }

  function GateOf(slots: map<Key, Slot>): map<Key, PeerId> {
    map k | k in slots && slots[k].current.Some? :: slots[k].current.value.peer
  }

  datatype Counters = Counters(control: nat, peer: nat, attempt: nat, slot: nat)

  ghost predicate SlotOk(k: Key, slot: Slot, next: Counters, aborted: set<AttemptId>) {
    && slot.id < next.slot
    && (slot.current.Some? ==> slot.current.value.identity.authority.key == k && slot.current.value.peer < next.peer)
    && (slot.pending.Some? ==>
       slot.pending.value.identity.authority.key == k && slot.pending.value.id < next.attempt
       && slot.pending.value.id !in aborted)
    && (slot.failed.Some? ==> slot.failed.value.authority.key == k)
  }

  ghost predicate Apart(a: Slot, b: Slot) {
    && a.id != b.id
    && (a.current.Some? && b.current.Some? ==> a.current.value.peer != b.current.value.peer)
    && (a.pending.Some? && b.pending.Some? ==> a.pending.value.id != b.pending.value.id)
  }

  /** The publisher and the gate know exactly the connected peers, and nothing is shared between slots. */
  ghost predicate Registered(slots: map<Key, Slot>, attached: set<PeerId>, gate: map<Key, PeerId>, next: Counters,
      aborted: set<AttemptId>)
  {
    && attached == CurrentPeers(slots)
    && gate == GateOf(slots)
    && (forall k :: k in slots ==> SlotOk(k, slots[k], next, aborted))
    && (forall j, k :: j in slots && k in slots && j != k ==> Apart(slots[j], slots[k]))
    && (forall a :: a in aborted ==> a < next.attempt)
  }

  /** Every authority of the current snapshot has its slot, settled for it, and there is no other slot. */
  ghost predicate Aligned(current: Option<Control>, slots: map<Key, Slot>) {
    match current
    case None => slots == map[]
    case Some(c) =>
      && slots.Keys == KeysOf(c.snapshot)
      && forall k :: k in slots ==> Wanted(c, k).Some? && Settles(slots[k], Wanted(c, k).value)
  }

  function Connection(slots: map<Key, Slot>, k: Key): Option<Connected> {
    if k in slots then slots[k].current else None
  }

  lemma PeersAre(slots: map<Key, Slot>, p: PeerId)
    ensures p in CurrentPeers(slots) <==> exists k :: Connection(slots, k).Some? && Connection(slots, k).value.peer == p
  {
    if p in CurrentPeers(slots) {
      var k :| k in slots && slots[k].current.Some? && slots[k].current.value.peer == p;
      assert Connection(slots, k).value.peer == p;
    }
    if k :| Connection(slots, k).Some? && Connection(slots, k).value.peer == p {
      assert slots[k].current.Some? && slots[k].current.value.peer == p;
    }
  }

  lemma SamePeers(slots: map<Key, Slot>, after: map<Key, Slot>)
    requires forall k :: Connection(slots, k) == Connection(after, k)
    ensures CurrentPeers(after) == CurrentPeers(slots) && GateOf(after) == GateOf(slots)
  {
    forall p ensures p in CurrentPeers(slots) <==> p in CurrentPeers(after) { PeersAre(slots, p); PeersAre(after, p); }
    forall k ensures k in GateOf(after) <==> k in GateOf(slots) { assert Connection(slots, k) == Connection(after, k); }
    forall k | k in GateOf(after) ensures GateOf(after)[k] == GateOf(slots)[k] {
      assert Connection(slots, k) == Connection(after, k);
    }
  }

  lemma DroppedPeers(slots: map<Key, Slot>, k: Key, slot: Slot)
    requires k in slots && (forall j :: j in slots && j != k ==> Apart(slots[j], slots[k]))
    requires slots[k].current.Some? && slot.current.None?
    ensures CurrentPeers(slots[k := slot]) == CurrentPeers(slots) - {slots[k].current.value.peer}
    ensures GateOf(slots[k := slot]) == GateOf(slots) - {k}
  {
    var after, gone := slots[k := slot], slots[k].current.value.peer;
    forall p ensures p in CurrentPeers(after) <==> p in CurrentPeers(slots) - {gone} {
      PeersAre(slots, p);
      PeersAre(after, p);
      assert Connection(after, k).None?;
      forall j | j != k ensures Connection(after, j) == Connection(slots, j) {}
      forall j | j != k && Connection(slots, j).Some? ensures Connection(slots, j).value.peer != gone {
        assert Apart(slots[j], slots[k]);
      }
    }
  }

  /** Dropping a slot's connection takes exactly its peer from the publisher and the gate. */
  lemma Dropped(slots: map<Key, Slot>, attached: set<PeerId>, gate: map<Key, PeerId>, next: Counters,
      aborted: set<AttemptId>, k: Key, slot: Slot, gone: set<AttemptId>)
    requires Registered(slots, attached, gate, next, aborted) && k in slots && slot.id == slots[k].id
    requires slot.current == slots[k].current || slot.current == None
    requires slot.pending == slots[k].pending || slot.pending == None
    requires slot.failed.Some? ==> slot.failed.value.authority.key == k
    requires gone <= (if slots[k].pending.Some? && slot.pending.None? then {slots[k].pending.value.id} else {})
    ensures slots[k].current.Some? ==> k in gate && gate[k] == slots[k].current.value.peer
    ensures slots[k].current.Some? && slot.current.None? ==>
      Registered(slots[k := slot], attached - {slots[k].current.value.peer}, gate - {k}, next, aborted + gone)
    ensures !(slots[k].current.Some? && slot.current.None?) ==>
            Registered(slots[k := slot], attached, gate, next, aborted + gone)
  {
    hide CurrentPeers;
    var after := slots[k := slot];
    DroppedOk(slots, next, aborted, k, slot, gone);
    if slots[k].current.Some? && slot.current.None? { DroppedPeers(slots, k, slot); } else { SamePeers(slots, after); }
  }

  lemma DroppedOk(slots: map<Key, Slot>, next: Counters, aborted: set<AttemptId>, k: Key, slot: Slot,
      gone: set<AttemptId>)
    requires forall j :: j in slots ==> SlotOk(j, slots[j], next, aborted)
    requires forall i, j :: i in slots && j in slots && i != j ==> Apart(slots[i], slots[j])
    requires forall a :: a in aborted ==> a < next.attempt
    requires k in slots && slot.id == slots[k].id
    requires slot.current == slots[k].current || slot.current == None
    requires slot.pending == slots[k].pending || slot.pending == None
    requires slot.failed.Some? ==> slot.failed.value.authority.key == k
    requires gone <= (if slots[k].pending.Some? && slot.pending.None? then {slots[k].pending.value.id} else {})
    ensures forall j :: j in slots ==> SlotOk(j, slots[k := slot][j], next, aborted + gone)
    ensures forall i, j :: i in slots && j in slots && i != j ==> Apart(slots[k := slot][i], slots[k := slot][j])
    ensures forall a :: a in aborted + gone ==> a < next.attempt
  {
    forall j | j in slots && j != k ensures SlotOk(j, slots[j], next, aborted + gone) {
      assert Apart(slots[j], slots[k]);
    }
  }

  /** An empty slot may come and go. */
  lemma Removed(slots: map<Key, Slot>, attached: set<PeerId>, gate: map<Key, PeerId>, next: Counters,
      aborted: set<AttemptId>, k: Key)
    requires Registered(slots, attached, gate, next, aborted) && k in slots && slots[k].current.None?
    ensures Registered(slots - {k}, attached, gate, next, aborted)
  {
    SamePeers(slots, slots - {k});
  }

  lemma Added(slots: map<Key, Slot>, attached: set<PeerId>, gate: map<Key, PeerId>, next: Counters,
      aborted: set<AttemptId>, k: Key)
    requires Registered(slots, attached, gate, next, aborted) && k !in slots
    ensures Registered(slots[k := Slot(next.slot, None, None, None)], attached, gate, next.(slot := next.slot + 1),
            aborted)
  {
    var after := slots[k := Slot(next.slot, None, None, None)];
    SamePeers(slots, after);
  }

  lemma Attempted(slots: map<Key, Slot>, attached: set<PeerId>, gate: map<Key, PeerId>, next: Counters,
      aborted: set<AttemptId>, k: Key, identity: Identity)
    requires Registered(slots, attached, gate, next, aborted) && k in slots && identity.authority.key == k
    ensures Registered(slots[k := slots[k].(pending := Some(Attempt(next.attempt, identity)))], attached, gate,
            next.(attempt := next.attempt + 1), aborted)
  {
    var after := slots[k := slots[k].(pending := Some(Attempt(next.attempt, identity)))];
    SamePeers(slots, after);
    forall j | j in slots && j != k ensures Apart(slots[j], slots[k]) {}
  }

  lemma Connects(slots: map<Key, Slot>, attached: set<PeerId>, gate: map<Key, PeerId>, next: Counters,
      aborted: set<AttemptId>, k: Key, identity: Identity)
    requires Registered(slots, attached, gate, next, aborted) && k in slots && slots[k].current.None?
             && identity.authority.key == k
    ensures Registered(slots[k := slots[k].(pending := None, current := Some(Connected(identity, next.peer)))],
                       attached + {next.peer}, gate[k := next.peer], next.(peer := next.peer + 1), aborted)
  {
    var after := slots[k := slots[k].(pending := None, current := Some(Connected(identity, next.peer)))];
    forall p ensures p in CurrentPeers(after) <==> p in attached + {next.peer} {
      PeersAre(slots, p);
      PeersAre(after, p);
      assert Connection(after, k) == after[k].current;
      forall j | j != k ensures Connection(after, j) == Connection(slots, j) {}
    }
    assert GateOf(after) == gate[k := next.peer];
    forall j | j in slots && j != k ensures Apart(slots[j], slots[k]) {}
  }

  // ----- the specification of reconciling

  /** What a slot becomes: what still has the wanted identity is kept, an empty slot starts to acquire. */
  ghost predicate Reconciled(was: Option<Slot>, slot: Slot, identity: Identity, from: AttemptId) {
    && (was.Some? ==> slot.id == was.value.id)
    && if was.Some? && !Vacant(Kept(was.value, Some(identity))) then slot == Kept(was.value, Some(identity))
       else
         && slot.current.None? && slot.failed.None? && slot.pending.Some?
         && slot.pending.value.identity == identity && slot.pending.value.id >= from
  }

  /** The slot has only just begun to acquire for the identity. */
  predicate Acquires(slot: Slot, identity: Identity, from: AttemptId) {
    && slot.current.None? && slot.failed.None?
    && slot.pending.Some? && slot.pending.value.identity == identity && slot.pending.value.id >= from
  }

  lemma {:induction false} FindOwn(authorities: seq<Authority>, a: Authority)
    requires a in authorities
    requires forall i, j :: 0 <= i < j < |authorities| ==> authorities[i].key != authorities[j].key
    ensures Find(authorities, a.key) == Some(a)
  {
    if authorities[0] != a {
      var i :| 0 < i < |authorities| && authorities[i] == a;
      assert authorities[0].key != authorities[i].key && authorities[1..][i - 1] == a;
      FindOwn(authorities[1..], a);
    }
  }

  lemma FindOnly(snapshot: Snapshot, a: Authority)
    requires UniqueKeys(snapshot) && a in snapshot.authorities
    ensures Find(snapshot.authorities, a.key) == Some(a) && a.key in KeysOf(snapshot)
  {
    FindOwn(snapshot.authorities, a);
  }

  /** An authority listed before and after keeps its slot as it is; a new or changed one begins to acquire. */
  lemma Relisted(before: Control, after: Control, slots0: map<Key, Slot>, slots: map<Key, Slot>, a: Authority,
      from: AttemptId)
    requires UniqueKeys(before.snapshot) && UniqueKeys(after.snapshot) && before.peer == after.peer
    requires Aligned(Some(before), slots0) && Aligned(Some(after), slots) && a in after.snapshot.authorities
    requires forall k :: k in slots ==> Reconciled(At(slots0, k), slots[k], Wanted(after, k).value, from)
    ensures a.key in slots
    ensures if a in before.snapshot.authorities then At(slots0, a.key) == Some(slots[a.key])
            else Acquires(slots[a.key], Identity(after.peer, a), from)
  {
    FindOnly(after.snapshot, a);
    assert Reconciled(At(slots0, a.key), slots[a.key], Identity(after.peer, a), from);
    if a in before.snapshot.authorities { FindOnly(before.snapshot, a); }
  }

  function At(slots: map<Key, Slot>, k: Key): Option<Slot> { if k in slots then Some(slots[k]) else None }

  lemma FindIs(authorities: seq<Authority>, key: Key)
    ensures Find(authorities, key).Some? <==> key in (set a | a in authorities :: a.key)
  {
    if Find(authorities, key).Some? { assert Find(authorities, key).value in authorities; }
  }

  /** Every attempt that is no longer its slot's pending one was aborted. */
  ghost predicate Abandoned(before: map<Key, Slot>, after: map<Key, Slot>, aborted: set<AttemptId>) {
    forall k :: k in before && before[k].pending.Some? && !(k in after && after[k].pending == before[k].pending)
      ==> before[k].pending.value.id in aborted
  }

  lemma VacantAbandoned(before: map<Key, Slot>, after: map<Key, Slot>, aborted: set<AttemptId>, k: Key)
    requires Abandoned(before, after, aborted) && k in after && after[k].pending.None?
    ensures Abandoned(before, after - {k}, aborted)
  {
  }

  lemma AllAbandoned(before: map<Key, Slot>, after: map<Key, Slot>, aborted: set<AttemptId>)
    requires Abandoned(before, after, aborted) && forall k :: k in after ==> Vacant(after[k])
    ensures Abandoned(before, map[], aborted)
  {
  }

  lemma NoneAbandoned(slots: map<Key, Slot>, aborted: set<AttemptId>)
    ensures Abandoned(slots, slots, aborted)
  {
  }

  lemma AbandonedLater(s0: map<Key, Slot>, s1: map<Key, Slot>, s2: map<Key, Slot>, a1: set<AttemptId>,
      a2: set<AttemptId>)
    requires Abandoned(s0, s1, a1) && Abandoned(s1, s2, a2) && a1 <= a2
    ensures Abandoned(s0, s2, a2)
  {
  }

  class ControlHolder {
    var current: Option<Control>
    var dataSlots: map<Key, Slot>
    var attached: set<PeerId>
    var gate: map<Key, PeerId>
    var aborted: set<AttemptId>
    var next: Counters

    ghost predicate Tables()
      reads this
    {
      Registered(dataSlots, attached, gate, next, aborted)
    }

    /** What every event keeps. */
    ghost predicate Valid()
      reads this
    {
      && Tables()
      && Aligned(current, dataSlots)
      && (current.Some? ==> current.value.peer < next.control && UniqueKeys(current.value.snapshot))
    }

    constructor ()
      ensures Valid() && current == None
    {
      current, dataSlots, attached, gate, aborted, next := None, map[], {}, map[], {}, Counters(0, 0, 0, 0);
    }

    /** The part of both loops that drops what is not of the wanted identity. */
    method Retire(k: Key, wanted: Option<Identity>)
      requires Tables() && k in dataSlots
      modifies this`dataSlots, this`attached, this`gate, this`aborted
      ensures Tables() && dataSlots == old(dataSlots)[k := Kept(old(dataSlots)[k], wanted)]
      ensures old(aborted) <= aborted && Abandoned(old(dataSlots), dataSlots, aborted)
    {
      hide Registered;
      var slot := dataSlots[k];
      var kept := Kept(slot, wanted);
      FailedKey(dataSlots, attached, gate, next, aborted, k);
      ghost var gone := if slot.pending.Some? && kept.pending.None? then {slot.pending.value.id} else {};
      Dropped(dataSlots, attached, gate, next, aborted, k, kept, gone);
      if slot.current.Some? && kept.current.None? {
        attached := attached - {slot.current.value.peer};
        if k in gate && gate[k] == slot.current.value.peer { gate := gate - {k}; }
      }
      if slot.pending.Some? && kept.pending.None? { aborted := aborted + {slot.pending.value.id}; }
      dataSlots := dataSlots[k := kept];
      assert aborted == old(aborted) + gone;
    }

    method StartAcquire(k: Key, identity: Identity)
      requires Tables() && k in dataSlots && identity.authority.key == k
      modifies this`dataSlots, this`next
      ensures Tables() && next == old(next).(attempt := old(next).attempt + 1)
      ensures dataSlots ==
              old(dataSlots)[k := old(dataSlots)[k].(pending := Some(Attempt(old(next).attempt, identity)))]
    {
      hide Registered;
      Attempted(dataSlots, attached, gate, next, aborted, k, identity);
      dataSlots := dataSlots[k := dataSlots[k].(pending := Some(Attempt(next.attempt, identity)))];
      next := next.(attempt := next.attempt + 1);
    }

    /** One turn of the loop of `reconcileData`. */
    method ReconcileKey(k: Key, wanted: Option<Identity>)
      requires Tables() && (wanted.Some? ==> wanted.value.authority.key == k)
      modifies this`dataSlots, this`attached, this`gate, this`aborted, this`next
      ensures Tables() && next.attempt >= old(next).attempt && next.control == old(next).control
      ensures wanted.None? ==> dataSlots == old(dataSlots) - {k}
      ensures wanted.Some? ==> k in dataSlots && dataSlots == old(dataSlots)[k := dataSlots[k]]
      ensures wanted.Some? ==> Reconciled(At(old(dataSlots), k), dataSlots[k], wanted.value, old(next).attempt)
      ensures old(aborted) <= aborted && Abandoned(old(dataSlots), dataSlots, aborted)
    {
      hide Registered;
      ghost var slots0 := dataSlots;
      if k !in dataSlots {
        Added(dataSlots, attached, gate, next, aborted, k);
        dataSlots := dataSlots[k := Slot(next.slot, None, None, None)];
        next := next.(slot := next.slot + 1);
      }
      Retire(k, wanted);
      if wanted.None? {
        Removed(dataSlots, attached, gate, next, aborted, k);
        dataSlots := dataSlots - {k};
        assert dataSlots == slots0 - {k};
      } else if Vacant(dataSlots[k]) {
        StartAcquire(k, wanted.value);
      }
    }

    method Reconcile()
      requires Tables() && current.Some? && UniqueKeys(current.value.snapshot)
      requires forall k :: k in dataSlots ==> Count(dataSlots[k]) <= 1
      modifies this`dataSlots, this`attached, this`gate, this`aborted, this`next
      ensures Tables() && Aligned(current, dataSlots) && next.control == old(next).control
      ensures forall k :: k in dataSlots ==>
              Reconciled(At(old(dataSlots), k), dataSlots[k], Wanted(current.value, k).value, old(next).attempt)
      ensures old(aborted) <= aborted && Abandoned(old(dataSlots), dataSlots, aborted)
    {
      hide Registered, Reconciled, Kept, Abandoned, Aligned, Count, KeysOf, UniqueKeys;
      NoneAbandoned(dataSlots, aborted);
      var control := current.value;
      ghost var slots0, next0, every := dataSlots, next, dataSlots.Keys + KeysOf(control.snapshot);
      var todo := dataSlots.Keys + KeysOf(control.snapshot);
      while todo != {}
        invariant Tables() && todo <= every && dataSlots.Keys <= every
        invariant next.attempt >= next0.attempt && next.control == next0.control
        invariant old(aborted) <= aborted && Abandoned(slots0, dataSlots, aborted)
        invariant forall k :: k in todo ==> At(dataSlots, k) == At(slots0, k)
        invariant forall k :: k in every && k !in todo ==> Done(control, k, slots0, dataSlots, next0.attempt)
        decreases |todo|
      {
        var k :| k in todo;
        todo := todo - {k};
        ghost var slots1, aborted1, from := dataSlots, aborted, next.attempt;
        ReconcileKey(k, Wanted(control, k));
        AbandonedLater(slots0, slots1, dataSlots, aborted1, aborted);
        if k in dataSlots { Sooner(At(slots0, k), dataSlots[k], Wanted(control, k), from, next0.attempt); }
        forall j | j in every && j !in todo ensures Done(control, j, slots0, dataSlots, next0.attempt) {
          if j != k { assert Done(control, j, slots0, slots1, next0.attempt) && At(dataSlots, j) == At(slots1, j); }
        }
      }
      AllDone(control, slots0, dataSlots, next0.attempt, every);
    }

    /** Before the new snapshot becomes current, everything it no longer lists as it was is dropped. */
    method RetireMismatched(control: Control)
      requires Tables()
      modifies this`dataSlots, this`attached, this`gate, this`aborted
      ensures Tables() && dataSlots == Narrowed(old(dataSlots), control)
      ensures old(aborted) <= aborted && Abandoned(old(dataSlots), dataSlots, aborted)
    {
      hide Registered, Kept, NarrowedPart, Narrowed, Wanted, Abandoned;
      NoneAbandoned(dataSlots, aborted);
      ghost var slots0 := dataSlots;
      var todo := dataSlots.Keys;
      NarrowedNone(slots0, control);
      while todo != {}
        invariant Tables() && NarrowedPart(slots0, control, todo, dataSlots)
        invariant old(aborted) <= aborted && Abandoned(slots0, dataSlots, aborted)
        decreases |todo|
      {
        var k :| k in todo;
        ghost var slots1, aborted1 := dataSlots, aborted;
        NarrowedStep(slots0, control, todo, dataSlots, k);
        todo := todo - {k};
        var wanted := Wanted(control, k);
        Retire(k, wanted);
        AbandonedLater(slots0, slots1, dataSlots, aborted1, aborted);
        if wanted.None? {
          Removed(dataSlots, attached, gate, next, aborted, k);
          KeptNone(slots1[k]);
          VacantAbandoned(slots0, dataSlots, aborted, k);
          dataSlots := dataSlots - {k};
        }
      }
      NarrowedAll(slots0, control, dataSlots);
    }

    method ClearAll()
      requires Tables()
      modifies this`dataSlots, this`attached, this`gate, this`aborted
      ensures Tables() && dataSlots == map[] && attached == {} && gate == map[]
      ensures old(aborted) <= aborted && Abandoned(old(dataSlots), dataSlots, aborted)
    {
      hide Registered, Kept, Abandoned;
      NoneAbandoned(dataSlots, aborted);
      var todo := dataSlots.Keys;
      while todo != {}
        invariant Tables() && todo <= dataSlots.Keys
        invariant old(aborted) <= aborted && Abandoned(old(dataSlots), dataSlots, aborted)
        invariant forall k :: k in dataSlots && k !in todo ==> Vacant(dataSlots[k])
        decreases |todo|
      {
        var k :| k in todo;
        todo := todo - {k};
        KeptNone(dataSlots[k]);
        ghost var slots1, aborted1 := dataSlots, aborted;
        Retire(k, None);
        AbandonedLater(old(dataSlots), slots1, dataSlots, aborted1, aborted);
      }
      Cleared(dataSlots, attached, gate, next, aborted);
      AllAbandoned(old(dataSlots), dataSlots, aborted);
      dataSlots := map[];
    }

    // ----- events

    /** A handshake with a new control peer succeeded: its snapshot replaces everything there was. */
    method Connect(snapshot: Snapshot) returns (peer: ControlId)
      requires Valid() && UniqueKeys(snapshot)
      modifies this
      ensures Valid() && peer == old(next).control && current == Some(Control(peer, snapshot))
      ensures forall k :: k in dataSlots ==>
              dataSlots[k].pending.Some? && dataSlots[k].pending.value.id >= old(next).attempt
      ensures old(aborted) <= aborted && Abandoned(old(dataSlots), map[], aborted)
    {
      hide Registered, Reconciled, Abandoned;
      if current.Some? {
        current := None;
        ClearAll();
      } else {
        NoneAbandoned(dataSlots, aborted);
      }
      assert dataSlots == map[];
      ghost var aborted0 := aborted;
      peer := next.control;
      NextControl(dataSlots, attached, gate, next, aborted);
      next := next.(control := next.control + 1);
      current := Some(Control(peer, snapshot));
      ghost var slots0, from := dataSlots, next.attempt;
      Reconcile();
      forall k | k in dataSlots ensures dataSlots[k].pending.Some? && dataSlots[k].pending.value.id >= from {
        Started(At(slots0, k), dataSlots[k], Wanted(current.value, k).value, from);
      }
      NoneAbandoned(map[], aborted);
      AbandonedLater(old(dataSlots), map[], map[], aborted0, aborted);
    }

    /** A later snapshot of the current control peer; one of a replaced peer is ignored. */
    method Consume(peer: ControlId, snapshot: Snapshot)
      requires Valid() && UniqueKeys(snapshot)
      modifies this
      ensures Valid()
      ensures current == if old(current).Some? && old(current).value.peer == peer then Some(Control(peer, snapshot))
              else old(current)
      ensures current == old(current) && !(old(current).Some? && old(current).value.peer == peer) ==>
              dataSlots == old(dataSlots)
      ensures old(current).Some? && old(current).value.peer == peer ==>
        forall k :: k in dataSlots ==>
            Reconciled(At(old(dataSlots), k), dataSlots[k], Wanted(current.value, k).value, old(next).attempt)
      ensures old(current).Some? && old(current).value.peer == peer ==>
        forall a :: a in snapshot.authorities ==>
          && a.key in dataSlots
          && if a in old(current).value.snapshot.authorities then At(old(dataSlots), a.key) == Some(dataSlots[a.key])
             else Acquires(dataSlots[a.key], Identity(peer, a), old(next).attempt)
      ensures old(aborted) <= aborted && Abandoned(old(dataSlots), dataSlots, aborted)
    {
      hide Registered, Reconciled, Kept, Abandoned;
      NoneAbandoned(dataSlots, aborted);
      if current.None? || current.value.peer != peer { return; }
      var control := Control(peer, snapshot);
      ghost var slots0, from := dataSlots, next.attempt;
      SettledOnce(current, dataSlots);
      RetireMismatched(control);
      NarrowedOnce(slots0, control);
      current := Some(control);
      ghost var slots1, aborted1 := dataSlots, aborted;
      Reconcile();
      AbandonedLater(slots0, slots1, dataSlots, aborted1, aborted);
      forall k | k in dataSlots ensures Reconciled(At(slots0, k), dataSlots[k], Wanted(control, k).value, from) {
        ThroughNarrowed(slots0, control, k, dataSlots[k], from);
      }
      ghost var before := old(current).value;
      forall a | a in snapshot.authorities
        ensures a.key in dataSlots
        ensures if a in before.snapshot.authorities then At(slots0, a.key) == Some(dataSlots[a.key])
                else Acquires(dataSlots[a.key], Identity(peer, a), from)
      {
        Relisted(before, control, slots0, dataSlots, a, from);
      }
    }

    /**
     * Each authority of the current snapshot has one slot, which is connected, acquiring or failed, exactly one
     * of them, under the current control peer and for exactly that authority; and there are no other slots.
     */
    lemma SlotsAre()
      requires Valid() && current.Some?
      ensures forall a :: a in current.value.snapshot.authorities ==> a.key in dataSlots
      ensures forall k :: k in dataSlots ==> exists a :: a in current.value.snapshot.authorities && a.key == k
      ensures forall a :: a in current.value.snapshot.authorities ==>
        var slot, identity := dataSlots[a.key], Identity(current.value.peer, a);
        || (slot.current.Some? && slot.current.value.identity == identity && slot.pending.None? && slot.failed.None?)
        || (slot.current.None? && slot.pending.Some? && slot.pending.value.identity == identity && slot.failed.None?)
        || (slot.current.None? && slot.pending.None? && slot.failed == Some(identity))
    {
      hide Registered;
      forall a | a in current.value.snapshot.authorities
        ensures a.key in dataSlots && Settles(dataSlots[a.key], Identity(current.value.peer, a))
      {
        FindOnly(current.value.snapshot, a);
      }
    }

    /** The attempts that still count are exactly the pending ones of the slots. */
    lemma CurrentAttempts(id: SlotId, attempt: Attempt)
      requires Valid()
      ensures IsCurrentAttempt(id, attempt) <==>
              exists k :: k in dataSlots && dataSlots[k].id == id && dataSlots[k].pending == Some(attempt)
    {
      if k :| k in dataSlots && dataSlots[k].id == id && dataSlots[k].pending == Some(attempt) {
        assert SlotOk(k, dataSlots[k], next, aborted);
        AlignedAt(current, dataSlots, k);
      }
    }

    /** The control peer ended. */
    method ControlEnds(peer: ControlId)
      requires Valid()
      modifies this
      ensures Valid()
      ensures if old(current).Some? && old(current).value.peer == peer
              then current == None && dataSlots == map[] && attached == {} && gate == map[]
              else
                && current == old(current) && dataSlots == old(dataSlots)
                && attached == old(attached) && gate == old(gate)
      ensures old(aborted) <= aborted && Abandoned(old(dataSlots), dataSlots, aborted)
    {
      hide Registered, Abandoned;
      NoneAbandoned(dataSlots, aborted);
      if current.None? || current.value.peer != peer { return; }
      current := None;
      ClearAll();
    }

    function IsCurrentAttempt(id: SlotId, attempt: Attempt): bool
      reads this
    {
      && attempt.identity.authority.key in dataSlots
      && dataSlots[attempt.identity.authority.key].id == id
      && dataSlots[attempt.identity.authority.key].pending == Some(attempt)
      && attempt.id !in aborted
      && Desired(current, attempt.identity)
    }

    /**
     * An acquire attempt of slot `id` delivered a carrier. A superseded attempt changes nothing; `created`
     * says whether the Data peer could be made, which fails the slot if not.
     */
    method InstallAcquired(id: SlotId, attempt: Attempt, created: bool)
      requires Valid()
      modifies this`dataSlots, this`attached, this`gate, this`next
      ensures Valid()
      ensures At(old(dataSlots), attempt.identity.authority.key) == None
              || old(dataSlots)[attempt.identity.authority.key].id != id
              || old(dataSlots)[attempt.identity.authority.key].pending != Some(attempt) ==>
              dataSlots == old(dataSlots) && attached == old(attached) && gate == old(gate)
      ensures var k := attempt.identity.authority.key;
        k in old(dataSlots) && old(dataSlots)[k].id == id && old(dataSlots)[k].pending == Some(attempt) ==>
        if created && attempt.identity.authority.profile == SUPPORTED_PROFILE
        then dataSlots == old(dataSlots)[k := Slot(id, Some(Connected(attempt.identity, old(next).peer)), None, None)]
        else dataSlots == old(dataSlots)[k := Slot(id, None, None, Some(attempt.identity))]
    {
      hide Registered, Aligned, Wanted, KeysOf;
      CurrentAttempts(id, attempt);
      if !IsCurrentAttempt(id, attempt) { return; }
      var k := attempt.identity.authority.key;
      AlignedAt(current, dataSlots, k);
      AlignedPut(current, dataSlots, k, Slot(id, None, None, Some(attempt.identity)));
      AlignedPut(current, dataSlots, k, Slot(id, Some(Connected(attempt.identity, next.peer)), None, None));
      if !created || attempt.identity.authority.profile != SUPPORTED_PROFILE {
        Fails(dataSlots, attached, gate, next, aborted, k, attempt.identity);
        dataSlots := dataSlots[k := dataSlots[k].(pending := None, failed := Some(attempt.identity))];
        return;
      }
      Connects(dataSlots, attached, gate, next, aborted, k, attempt.identity);
      dataSlots := dataSlots[k :=
          dataSlots[k].(pending := None, current := Some(Connected(attempt.identity, next.peer)))];
      attached, gate := attached + {next.peer}, gate[k := next.peer];
      next := next.(peer := next.peer + 1);
    }

    /** An acquire attempt was refused. */
    method RejectAcquired(id: SlotId, attempt: Attempt)
      requires Valid()
      modifies this`dataSlots
      ensures Valid()
      ensures var k := attempt.identity.authority.key;
        dataSlots ==
        if k in old(dataSlots) && old(dataSlots)[k].id == id && old(dataSlots)[k].pending == Some(attempt)
        then old(dataSlots)[k := Slot(id, None, None, Some(attempt.identity))] else old(dataSlots)
    {
      hide Registered, Aligned, Wanted, KeysOf;
      CurrentAttempts(id, attempt);
      var k := attempt.identity.authority.key;
      if k !in dataSlots || dataSlots[k].id != id || dataSlots[k].pending != Some(attempt) { return; }
      AlignedAt(current, dataSlots, k);
      AlignedPut(current, dataSlots, k, Slot(id, None, None, Some(attempt.identity)));
      FailedKey(dataSlots, attached, gate, next, aborted, k);
      Fails(dataSlots, attached, gate, next, aborted, k, attempt.identity);
      var slot := dataSlots[k].(pending := None);
      if !(attempt.id in aborted || !Desired(current, attempt.identity)) {
        slot := slot.(failed := Some(attempt.identity));
      }
      dataSlots := dataSlots[k := slot];
    }

    /** A Data peer ended on its own: its slot, if it still holds the peer, acquires again. */
    method PeerEnds(id: SlotId, connected: Connected)
      requires Valid()
      modifies this`dataSlots, this`attached, this`gate, this`next, this`aborted
      ensures Valid()
      ensures var k := connected.identity.authority.key;
              if k in old(dataSlots) && old(dataSlots)[k].id == id && old(dataSlots)[k].current == Some(connected)
              then dataSlots ==
                  old(dataSlots)[k := Slot(id, None, Some(Attempt(old(next).attempt, connected.identity)), None)]
              else dataSlots == old(dataSlots) && attached == old(attached) && gate == old(gate)
    {
      hide Registered, Aligned, Wanted, KeysOf;
      var k := connected.identity.authority.key;
      if k !in dataSlots || dataSlots[k].id != id || dataSlots[k].current != Some(connected) { return; }
      AlignedAt(current, dataSlots, k);
      AlignedPut(current, dataSlots, k, Slot(id, None, Some(Attempt(next.attempt, connected.identity)), None));
      ghost var slots0, from := dataSlots, next.attempt;
      var slot := dataSlots[k].(current := None);
      Dropped(dataSlots, attached, gate, next, aborted, k, slot, {});
      attached := attached - {connected.peer};
      if k in gate && gate[k] == connected.peer { gate := gate - {k}; }
      dataSlots := dataSlots[k := slot];
      assert aborted + {} == aborted;
      if Desired(current, connected.identity) && slot.pending.None? && slot.failed.None? {
        StartAcquire(k, connected.identity);
      }
      assert dataSlots == slots0[k := Slot(id, None, Some(Attempt(from, connected.identity)), None)];
    }
  }

  // ----- lemmas about the loops

  /** Key `k` has been reconciled. */
  ghost predicate Done(control: Control, k: Key, slots0: map<Key, Slot>, slots: map<Key, Slot>, from: AttemptId) {
    var wanted := Wanted(control, k);
    if wanted.None? then k !in slots else k in slots && Reconciled(At(slots0, k), slots[k], wanted.value, from)
  }

  lemma Sooner(was: Option<Slot>, slot: Slot, wanted: Option<Identity>, from: AttemptId, earlier: AttemptId)
    requires earlier <= from
    ensures wanted.Some? && Reconciled(was, slot, wanted.value, from) ==> Reconciled(was, slot, wanted.value, earlier)
  {
  }

  lemma ReconciledSettles(was: Option<Slot>, slot: Slot, identity: Identity, from: AttemptId)
    requires Reconciled(was, slot, identity, from) && (was.Some? ==> Count(was.value) <= 1)
    ensures Settles(slot, identity)
  {
  }

  lemma AllDone(control: Control, slots0: map<Key, Slot>, slots: map<Key, Slot>, from: AttemptId, every: set<Key>)
    requires slots.Keys <= every && KeysOf(control.snapshot) <= every
    requires forall k :: k in slots0 ==> Count(slots0[k]) <= 1
    requires forall k :: k in every ==> Done(control, k, slots0, slots, from)
    ensures Aligned(Some(control), slots)
    ensures forall k :: k in slots ==> Reconciled(At(slots0, k), slots[k], Wanted(control, k).value, from)
  {
    hide Reconciled, Settles, Count;
    forall k ensures Wanted(control, k).Some? <==> k in KeysOf(control.snapshot) {
      FindIs(control.snapshot.authorities, k);
    }
    forall k | k in slots ensures Settles(slots[k], Wanted(control, k).value) {
      assert Done(control, k, slots0, slots, from);
      ReconciledSettles(At(slots0, k), slots[k], Wanted(control, k).value, from);
    }
    forall k | k in KeysOf(control.snapshot) ensures k in slots { assert Done(control, k, slots0, slots, from); }
    forall k | k in slots ensures Reconciled(At(slots0, k), slots[k], Wanted(control, k).value, from) {
      assert Done(control, k, slots0, slots, from);
    }
  }

  /** The slots a new snapshot still lists, narrowed to what it lists. */
  function Narrowed(slots: map<Key, Slot>, control: Control): map<Key, Slot> {
    map k | k in slots && Wanted(control, k).Some? :: Kept(slots[k], Wanted(control, k))
  }

  /** Half way: the keys in `todo` are as they were, the others are narrowed. */
  ghost predicate NarrowedPart(slots0: map<Key, Slot>, control: Control, todo: set<Key>, slots: map<Key, Slot>) {
    && todo <= slots.Keys <= slots0.Keys
    && (forall k :: k in todo ==> slots[k] == slots0[k])
    && (forall k :: k in slots0 && k !in todo ==> (k in slots <==> Wanted(control, k).Some?))
    && (forall k :: k in slots && k !in todo ==> slots[k] == Kept(slots0[k], Wanted(control, k)))
  }

  lemma NarrowedNone(slots: map<Key, Slot>, control: Control)
    ensures NarrowedPart(slots, control, slots.Keys, slots)
  {
  }

  lemma NarrowedStep(slots0: map<Key, Slot>, control: Control, todo: set<Key>, slots: map<Key, Slot>, k: Key)
    requires NarrowedPart(slots0, control, todo, slots) && k in todo
    ensures k in slots && slots[k] == slots0[k]
    ensures var wanted, slots' := Wanted(control, k), slots[k := Kept(slots[k], Wanted(control, k))];
            && (wanted.None? ==> slots'[k].current.None?)
            && NarrowedPart(slots0, control, todo - {k}, if wanted.None? then slots' - {k} else slots')
  {
    hide Wanted;
    KeptNone(slots[k]);
  }

  lemma NarrowedAll(slots0: map<Key, Slot>, control: Control, slots: map<Key, Slot>)
    requires NarrowedPart(slots0, control, {}, slots)
    ensures slots == Narrowed(slots0, control)
  {
    hide Wanted, Kept;
  }

  lemma AlignedAt(current: Option<Control>, slots: map<Key, Slot>, k: Key)
    requires Aligned(current, slots) && k in slots
    ensures current.Some? && Wanted(current.value, k).Some? && Settles(slots[k], Wanted(current.value, k).value)
  {
  }

  lemma AlignedPut(current: Option<Control>, slots: map<Key, Slot>, k: Key, slot: Slot)
    requires Aligned(current, slots) && k in slots && current.Some?
    requires Wanted(current.value, k).Some? && Settles(slot, Wanted(current.value, k).value)
    ensures Aligned(current, slots[k := slot])
  {
    hide Wanted, Settles;
    assert slots[k := slot].Keys == slots.Keys;
  }

  lemma KeptNone(slot: Slot)
    ensures Vacant(Kept(slot, None)) && Vacant(slot) ==> Kept(slot, None) == slot
    ensures Vacant(Kept(slot, None))
  {
  }

  lemma Cleared(slots: map<Key, Slot>, attached: set<PeerId>, gate: map<Key, PeerId>, next: Counters,
      aborted: set<AttemptId>)
    requires Registered(slots, attached, gate, next, aborted) && forall k :: k in slots ==> Vacant(slots[k])
    ensures attached == {} && gate == map[] && Registered(map[], attached, gate, next, aborted)
  {
    SamePeers(slots, map[]);
    assert CurrentPeers(map[]) == {};
  }

  lemma NextControl(slots: map<Key, Slot>, attached: set<PeerId>, gate: map<Key, PeerId>, next: Counters,
      aborted: set<AttemptId>)
    requires Registered(slots, attached, gate, next, aborted)
    ensures Registered(slots, attached, gate, next.(control := next.control + 1), aborted)
  {
  }

  lemma Started(was: Option<Slot>, slot: Slot, identity: Identity, from: AttemptId)
    requires was.None? && Reconciled(was, slot, identity, from)
    ensures slot.pending.Some? && slot.pending.value.id >= from
  {
  }

  lemma SettledOnce(current: Option<Control>, slots: map<Key, Slot>)
    requires Aligned(current, slots)
    ensures forall k :: k in slots ==> Count(slots[k]) <= 1
  {
  }

  lemma NarrowedOnce(slots: map<Key, Slot>, control: Control)
    requires forall k :: k in slots ==> Count(slots[k]) <= 1
    ensures forall k :: k in Narrowed(slots, control) ==> Count(Narrowed(slots, control)[k]) <= 1
  {
  }

  lemma ThroughNarrowed(slots: map<Key, Slot>, control: Control, k: Key, slot: Slot, from: AttemptId)
    requires Wanted(control, k).Some?
             && Reconciled(At(Narrowed(slots, control), k), slot, Wanted(control, k).value, from)
    ensures Reconciled(At(slots, k), slot, Wanted(control, k).value, from)
  {
  }

  /** A pending slot fails; or a slot merely loses its pending attempt. */
  lemma Fails(slots: map<Key, Slot>, attached: set<PeerId>, gate: map<Key, PeerId>, next: Counters,
      aborted: set<AttemptId>, k: Key, identity: Identity)
    requires Registered(slots, attached, gate, next, aborted) && k in slots && identity.authority.key == k
    ensures Registered(slots[k := slots[k].(pending := None, failed := Some(identity))], attached, gate, next, aborted)
    ensures Registered(slots[k := slots[k].(pending := None)], attached, gate, next, aborted)
  {
    hide CurrentPeers;
    SamePeers(slots, slots[k := slots[k].(pending := None, failed := Some(identity))]);
    SamePeers(slots, slots[k := slots[k].(pending := None)]);
    forall j | j in slots && j != k ensures Apart(slots[j], slots[k]) {}
  }

  lemma FailedKey(slots: map<Key, Slot>, attached: set<PeerId>, gate: map<Key, PeerId>, next: Counters,
      aborted: set<AttemptId>, k: Key)
    requires Registered(slots, attached, gate, next, aborted) && k in slots
    ensures SlotOk(k, slots[k], next, aborted)
  {
  }
}
