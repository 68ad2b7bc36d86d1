/**
 Reference counts of heap blocks and byrefs in libblocksruntime/runtime.c, without garbage
 collection: a 16-bit count in the low half of a flags word that latches at its maximum.

 The history variable `holder` records who holds what: a client that copied a block, a captured
 variable of a heap block, or the stack frame whose __block variable was moved to the heap.
*/
module BlockHolds {

  type Ref = nat          // 0 is NULL

  /** A captured variable that the copy and dispose helpers of a block look after. */
  datatype Capture = OfBlock(p: Ref) | OfByref(y: Ref)

  datatype Edge = Client(k: nat) | Slot(b: Ref, i: nat) | Frame(y: Ref)

  datatype State = State(
    flags: map<Ref, nat>,             // the flags word of every block and byref
    caps: map<Ref, seq<Capture>>,     // blocks
    fwd: map<Ref, Ref>,               // byrefs: the forwarding pointer
    // history
    holder: map<Edge, Ref>,
    freed: set<Ref>,
    dying: set<Ref>,                  // blocks whose count reached zero and whose captures are being disposed of
    rank: map<Ref, nat>,              // captures are acyclic
    ticket: nat)                      // the next client name

  // ------------------------------------------------------------------ the flags word

  function Count(f: nat): nat { f % 0x1_0000 }
  function High(f: nat): nat { f / 0x1_0000 }
  predicate NeedsFree(f: nat) { High(f) / 0x100 % 2 == 1 }        // bit 24
  predicate HasCopyDispose(f: nat) { High(f) / 0x200 % 2 == 1 }   // bit 25
  predicate IsGlobal(f: nat) { High(f) / 0x1000 % 2 == 1 }        // bit 28
  predicate Latched(f: nat) { Count(f) == 0xffff }

  /** latching_incr_int and latching_decr_int. */
  function Inc(f: nat): nat { if Latched(f) then f else f + 1 }
  function Dec(f: nat): nat { if Latched(f) || Count(f) == 0 then f else f - 1 }

  /** The flag bits are never disturbed, and a latched count stays. */
  lemma LatchingCount(f: nat)
    ensures High(Inc(f)) == High(f) && High(Dec(f)) == High(f)
    ensures Count(Inc(f)) == if Latched(f) then 0xffff else Count(f) + 1
    ensures Count(Dec(f)) == if Latched(f) then 0xffff else if Count(f) == 0 then 0 else Count(f) - 1
  {
  }

  /** The flags of a heap copy: the count is reset to `n` and BLOCK_NEEDS_FREE is set. */
  function HeapFlags(f: nat, n: nat): nat { High(f) * 0x1_0000 + 0x100_0000 + n }

  lemma HighOf(h: nat, n: nat)
    requires n < 0x1_0000
    ensures (h * 0x1_0000 + n) / 0x1_0000 == h && (h * 0x1_0000 + n) % 0x1_0000 == n
  {
  }

  lemma HeapFlagsAre(f: nat, n: nat)
    requires !NeedsFree(f) && n < 0x1_0000
    ensures NeedsFree(HeapFlags(f, n)) && Count(HeapFlags(f, n)) == n
    ensures HasCopyDispose(HeapFlags(f, n)) == HasCopyDispose(f) && High(HeapFlags(f, n)) == High(f) + 0x100
  {
    var h := High(f);
    assert HeapFlags(f, n) == (h + 0x100) * 0x1_0000 + n;
    HighOf(h + 0x100, n);
    BitSet(h);
  }

  lemma BitSet(h: nat)
    requires h / 0x100 % 2 == 0
    ensures (h + 0x100) / 0x100 % 2 == 1 && (h + 0x100) / 0x200 == h / 0x200
  {
    assert (h + 0x100) / 0x100 == h / 0x100 + 1;
    assert h / 0x200 == h / 0x100 / 2;
  }

  // ------------------------------------------------------------------ who holds what

  ghost predicate Heap(s: State, o: Ref) { o in s.flags && NeedsFree(s.flags[o]) }

  ghost function Holds(h: map<Edge, Ref>, o: Ref): set<Edge> { set e | e in h && h[e] == o }

  lemma HoldsAdd(h: map<Edge, Ref>, e: Edge, o: Ref, q: Ref)
    requires e !in h
    ensures |Holds(h[e := o], q)| == |Holds(h, q)| + if q == o then 1 else 0
  {
    if q == o {
      assert Holds(h[e := o], q) == Holds(h, q) + {e};
    } else {
      assert Holds(h[e := o], q) == Holds(h, q);
    }
  }

  lemma HoldsRemove(h: map<Edge, Ref>, e: Edge, q: Ref)
    requires e in h
    ensures |Holds(h - {e}, q)| == |Holds(h, q)| - if q == h[e] then 1 else 0
  {
    if q == h[e] {
      assert Holds(h - {e}, q) == Holds(h, q) - {e};
    } else {
      assert Holds(h - {e}, q) == Holds(h, q);
    }
  }

  ghost predicate NamesInv(s: State) {
    && s.caps.Keys !! s.fwd.Keys && s.flags.Keys == s.caps.Keys + s.fwd.Keys && s.freed !! s.flags.Keys
    && 0 !in s.flags && 0 !in s.freed && s.caps.Keys <= s.rank.Keys
  }

  /** The count of an object is the number of its holders, unless it has latched. */
  ghost predicate CountAt(s: State, o: Ref)
    requires o in s.flags
  {
    var f := s.flags[o];
    if !NeedsFree(f) || o in s.dying then Count(f) == 0
    else Count(f) > 0 && (Latched(f) || Count(f) == |Holds(s.holder, o)|)
  }

  ghost predicate CountInv(s: State) {
    && (forall o | o in s.flags :: CountAt(s, o))
    && (forall o | o in s.dying :: o in s.caps && Heap(s, o))
  }

  ghost predicate EdgeAt(s: State, e: Edge)
    requires e in s.holder
  {
    var o := s.holder[e];
    && Heap(s, o) && o !in s.dying
    && match e
       case Client(k) => k < s.ticket
       case Slot(b, i) => Heap(s, b) && b in s.caps && i < |s.caps[b]| && Target(s, s.caps[b][i]) == o
       case Frame(y) => y in s.fwd && !Heap(s, y) && s.fwd[y] == o
  }

  ghost predicate EdgeInv(s: State) { forall e | e in s.holder :: EdgeAt(s, e) }

  /** The heap object a capture refers to, or 0. */
  ghost function Target(s: State, c: Capture): Ref {
    match c
    case OfBlock(p) => if Heap(s, p) then p else 0
    case OfByref(y) => if Heap(s, y) then y else 0
  }

  /** A capture of a heap block is held by its slot, and refers to something older in the capture order. */
  ghost predicate SlotAt(s: State, b: Ref, i: nat)
    requires b in s.caps && i < |s.caps[b]|
  {
    var c := s.caps[b][i];
    && (match c
        case OfBlock(p) => p == 0 || (p in s.caps && p in s.flags && p in s.rank && b in s.rank && s.rank[p] < s.rank[b]
                                      && (Heap(s, p) || IsGlobal(s.flags[p])))
        case OfByref(y) => y in s.fwd && Heap(s, y))
    && (Target(s, c) != 0 ==> Slot(b, i) in s.holder && s.holder[Slot(b, i)] == Target(s, c))
  }

  ghost predicate SlotInv(s: State) {
    && (forall b, i: nat | b in s.caps && Heap(s, b) && i < |s.caps[b]| :: SlotAt(s, b, i))
    && (forall b | b in s.caps && Heap(s, b) && !HasCopyDispose(s.flags[b]) :: s.caps[b] == [])
  }

  /** A heap byref forwards to itself; a stack byref forwards to itself or to the heap copy its frame holds. */
  ghost predicate ForwardAt(s: State, y: Ref)
    requires y in s.fwd
  {
    if Heap(s, y) || s.fwd[y] == y then s.fwd[y] == y
    else Heap(s, s.fwd[y]) && s.fwd[y] in s.fwd && Frame(y) in s.holder && s.holder[Frame(y)] == s.fwd[y]
  }

  ghost predicate ForwardInv(s: State) { forall y | y in s.fwd :: ForwardAt(s, y) }

  ghost predicate Valid(s: State) {
    NamesInv(s) && CountInv(s) && EdgeInv(s) && SlotInv(s) && ForwardInv(s)
  }

  // ------------------------------------------------------------------ frames

  /** The flag bits of the objects in `s` are kept, so their kinds are. */
  ghost predicate Kept(s: State, s': State) {
    forall o | o in s.flags :: o in s'.flags && High(s'.flags[o]) == High(s.flags[o])
  }

  lemma SameKind(s: State, s': State, o: Ref)
    requires Kept(s, s') && o in s.flags
    ensures Heap(s', o) == Heap(s, o) && IsGlobal(s'.flags[o]) == IsGlobal(s.flags[o])
    ensures HasCopyDispose(s'.flags[o]) == HasCopyDispose(s.flags[o])
  {
  }

  /** An edge stays good when its two ends are kept. */
  lemma EdgeStays(s: State, s': State, e: Edge)
    requires NamesInv(s) && e in s.holder && EdgeAt(s, e) && Kept(s, s') && s'.ticket >= s.ticket
    requires e in s'.holder && s'.holder[e] == s.holder[e] && s'.holder[e] !in s'.dying
    requires e.Slot? ==> e.b in s'.caps && s.caps[e.b] <= s'.caps[e.b]
    requires e.Frame? ==> e.y in s'.fwd && s'.fwd[e.y] == s.fwd[e.y]
    ensures EdgeAt(s', e)
  {
    SameKind(s, s', s.holder[e]);
    match e
    case Client(_) =>
    case Slot(b, i) =>
      SameKind(s, s', b);
      assert s'.caps[b][i] == s.caps[b][i];
      assert Target(s', s.caps[b][i]) == Target(s, s.caps[b][i]);
    case Frame(y) => SameKind(s, s', y);
  }

  lemma SlotStays(s: State, s': State, b: Ref, i: nat)
    requires NamesInv(s) && b in s.caps && i < |s.caps[b]| && SlotAt(s, b, i) && Kept(s, s')
    requires b in s'.caps && i < |s'.caps[b]| && s'.caps[b][i] == s.caps[b][i]
    requires s.caps.Keys <= s'.caps.Keys && s.fwd.Keys <= s'.fwd.Keys
    requires forall o | o in s.rank :: o in s'.rank && s'.rank[o] == s.rank[o]
    requires Slot(b, i) in s.holder ==> Slot(b, i) in s'.holder && s'.holder[Slot(b, i)] == s.holder[Slot(b, i)]
    ensures SlotAt(s', b, i)
  {
    var c := s.caps[b][i];
    if c.OfBlock? && c.p != 0 { SameKind(s, s', c.p); }
    if c.OfByref? { SameKind(s, s', c.y); }
  }

  lemma ForwardStays(s: State, s': State, y: Ref)
    requires NamesInv(s) && y in s.fwd && ForwardAt(s, y) && Kept(s, s') && s.fwd.Keys <= s'.fwd.Keys
      && s'.fwd[y] == s.fwd[y]
    requires Frame(y) in s.holder ==> Frame(y) in s'.holder && s'.holder[Frame(y)] == s.holder[Frame(y)]
    ensures ForwardAt(s', y)
  {
    SameKind(s, s', y);
    if s.fwd[y] in s.flags { SameKind(s, s', s.fwd[y]); }
  }

  lemma NewTicket(s: State)
    requires EdgeInv(s)
    ensures Client(s.ticket) !in s.holder
  {
    assert forall e | e in s.holder :: EdgeAt(s, e) && (e.Client? ==> e.k < s.ticket);
  }

  // ------------------------------------------------------------------ a hold more, a hold less

  /** A client takes one more hold of a heap object. */
  ghost function Held(s: State, o: Ref): State
    requires o in s.flags
  {
    s.(flags := s.flags[o := Inc(s.flags[o])], holder := s.holder[Client(s.ticket) := o], ticket := s.ticket + 1)
  }

  lemma HeldCounts(s: State, o: Ref)
    requires Valid(s) && Heap(s, o) && o !in s.dying && Client(s.ticket) !in s.holder
    ensures CountInv(Held(s, o)) && Kept(s, Held(s, o))
  {
    LatchingCount(s.flags[o]);
    var s' := Held(s, o);
    forall q | q in s'.flags ensures CountAt(s', q) {
      assert CountAt(s, q);
      HoldsAdd(s.holder, Client(s.ticket), o, q);
    }
  }

  lemma HeldRest(s: State, o: Ref)
    requires Valid(s) && Heap(s, o) && o !in s.dying && Client(s.ticket) !in s.holder && Kept(s, Held(s, o))
    ensures var s' := Held(s, o); NamesInv(s') && EdgeInv(s') && SlotInv(s') && ForwardInv(s')
  {
    assert forall e | e in s.holder :: EdgeAt(s, e);
    Unchanged(s, Held(s, o));
  }

  lemma HeldValid(s: State, o: Ref)
    requires Valid(s) && Heap(s, o) && o !in s.dying
    ensures Valid(Held(s, o)) && Kept(s, Held(s, o))
  {
    NewTicket(s);
    HeldCounts(s, o);
    HeldRest(s, o);
  }

  /** Steps that change counts and client holds only. */
  lemma Unchanged(s: State, s': State)
    requires Valid(s) && Kept(s, s') && s'.ticket >= s.ticket
    requires s'.flags.Keys == s.flags.Keys && s'.caps == s.caps && s'.fwd == s.fwd && s'.rank == s.rank
      && s'.freed == s.freed
    requires forall e | e in s.holder && !e.Client? :: e in s'.holder && s'.holder[e] == s.holder[e]
    requires forall e | e in s'.holder :: s'.holder[e] !in s'.dying
    requires forall e | e in s'.holder && !(e in s.holder && s'.holder[e] == s.holder[e]) :: EdgeAt(s', e)
    requires forall o | o in s'.dying :: o in s.caps && Heap(s, o)
    ensures NamesInv(s') && EdgeInv(s') && SlotInv(s') && ForwardInv(s')
    ensures forall o | o in s'.dying :: o in s'.caps && Heap(s', o)
  {
    forall o | o in s'.dying ensures Heap(s', o) { SameKind(s, s', o); }
    forall e | e in s'.holder ensures EdgeAt(s', e) {
      if e in s.holder && s'.holder[e] == s.holder[e] { EdgeStays(s, s', e); }
    }
    forall b, i: nat | b in s'.caps && Heap(s', b) && i < |s'.caps[b]| ensures SlotAt(s', b, i) {
      SameKind(s, s', b);
      SlotStays(s, s', b, i);
    }
    forall b | b in s'.caps && Heap(s', b) && !HasCopyDispose(s'.flags[b]) ensures s'.caps[b] == [] {
      SameKind(s, s', b);
    }
    forall y | y in s'.fwd ensures ForwardAt(s', y) { ForwardStays(s, s', y); }
  }

  /** A client gives up a hold; a block whose count reaches zero starts to die. */
  ghost function Dropped(s: State, k: nat): State
    requires Client(k) in s.holder && s.holder[Client(k)] in s.flags
  {
    var o := s.holder[Client(k)];
    var f := Dec(s.flags[o]);
    s.(flags := s.flags[o := f], holder := s.holder - {Client(k)},
       dying := if Count(f) == 0 then s.dying + {o} else s.dying)
  }

  lemma DroppedCounts(s: State, k: nat)
    requires Valid(s) && Client(k) in s.holder && s.holder[Client(k)] in s.caps && EdgeAt(s, Client(k))
    ensures forall q | q in Dropped(s, k).flags :: CountAt(Dropped(s, k), q)
    ensures Kept(s, Dropped(s, k))
  {
    var s', o := Dropped(s, k), s.holder[Client(k)];
    LatchingCount(s.flags[o]);
    assert CountAt(s, o);
    forall q | q in s'.flags ensures CountAt(s', q) {
      assert CountAt(s, q);
      HoldsRemove(s.holder, Client(k), q);
    }
  }

  lemma DroppedRest(s: State, k: nat)
    requires Valid(s) && Client(k) in s.holder && s.holder[Client(k)] in s.caps && Kept(s, Dropped(s, k))
    ensures var s' := Dropped(s, k); NamesInv(s') && EdgeInv(s') && SlotInv(s') && ForwardInv(s')
    ensures forall o | o in Dropped(s, k).dying :: o in Dropped(s, k).caps && Heap(Dropped(s, k), o)
  {
    assert EdgeAt(s, Client(k));
    LastHold(s, k);
    Unchanged(s, Dropped(s, k));
  }

  lemma DroppedValid(s: State, k: nat)
    requires Valid(s) && Client(k) in s.holder && s.holder[Client(k)] in s.caps
    ensures Valid(Dropped(s, k)) && Kept(s, Dropped(s, k))
  {
    assert EdgeAt(s, Client(k));
    DroppedCounts(s, k);
    DroppedRest(s, k);
  }

  /** When the count of a dropped object reaches zero, nobody else held it. */
  lemma LastHold(s: State, k: nat)
    requires Valid(s) && Client(k) in s.holder && s.holder[Client(k)] in s.flags
    ensures var o := s.holder[Client(k)];
      Count(Dec(s.flags[o])) == 0 ==> forall e | e in s.holder && s.holder[e] == o :: e == Client(k)
    ensures forall e | e in s.holder :: s.holder[e] !in s.dying
  {
    var o := s.holder[Client(k)];
    assert EdgeAt(s, Client(k)) && CountAt(s, o);
    LatchingCount(s.flags[o]);
    if Count(Dec(s.flags[o])) == 0 {
      var hs := Holds(s.holder, o);
      assert |hs| == 1 && Client(k) in hs;
      forall e | e in s.holder && s.holder[e] == o ensures e == Client(k) {
        assert e in hs;
        if e != Client(k) { assert {e, Client(k)} <= hs; TwoElements(hs, e, Client(k)); }
      }
    }
    forall e | e in s.holder ensures s.holder[e] !in s.dying { assert EdgeAt(s, e); }
  }

  lemma TwoElements(hs: set<Edge>, a: Edge, b: Edge)
    requires a in hs && b in hs && a != b
    ensures |hs| >= 2
  {
    assert |hs - {a}| == |hs| - 1 && b in hs - {a};
  }

  // ------------------------------------------------------------------ captures

  /** The hold `e` of an object is handed over to `e'`. */
  ghost function Moved(h: map<Edge, Ref>, e: Edge, e': Edge): map<Edge, Ref>
    requires e in h
  {
    (h - {e})[e' := h[e]]
  }

  lemma MovedCounts(h: map<Edge, Ref>, e: Edge, e': Edge, q: Ref)
    requires e in h && e' !in h
    ensures |Holds(Moved(h, e, e'), q)| == |Holds(h, q)|
  {
    HoldsRemove(h, e, q);
    HoldsAdd(h - {e}, e', h[e], q);
  }

  /** What a copy helper stores: the captured variable `c` becomes the next capture of the heap block
      `b`, which takes over the hold `k`, if `c` is counted. */
  ghost function Stored(s: State, b: Ref, c: Capture, k: nat): State
    requires b in s.caps && (Target(s, c) != 0 ==> Client(k) in s.holder)
  {
    s.(caps := s.caps[b := s.caps[b] + [c]],
       holder := if Target(s, c) != 0 then Moved(s.holder, Client(k), Slot(b, |s.caps[b]|)) else s.holder)
  }

  ghost predicate Storable(s: State, b: Ref, c: Capture, k: nat) {
    && b in s.caps && Heap(s, b) && HasCopyDispose(s.flags[b])
    && (match c
        case OfBlock(p) => p == 0 || (p in s.caps && p in s.flags && p in s.rank && b in s.rank && s.rank[p] < s.rank[b]
                                      && (Heap(s, p) || IsGlobal(s.flags[p])))
        case OfByref(y) => y in s.fwd && Heap(s, y))
    && (Target(s, c) != 0 ==> Client(k) in s.holder && s.holder[Client(k)] == Target(s, c))
  }

  lemma StoredCounts(s: State, b: Ref, c: Capture, k: nat)
    requires CountInv(s) && EdgeInv(s) && Storable(s, b, c, k)
    ensures CountInv(Stored(s, b, c, k))
  {
    var s', i := Stored(s, b, c, k), |s.caps[b]|;
    FreeSlot(s, b);
    forall q | q in s'.flags ensures CountAt(s', q) {
      assert CountAt(s, q);
      if Target(s, c) != 0 { MovedCounts(s.holder, Client(k), Slot(b, i), q); }
    }
  }

  lemma StoredForward(s: State, b: Ref, c: Capture, k: nat)
    requires Valid(s) && Storable(s, b, c, k)
    ensures ForwardInv(Stored(s, b, c, k)) && NamesInv(Stored(s, b, c, k))
  {
    var s' := Stored(s, b, c, k);
    forall y | y in s'.fwd ensures ForwardAt(s', y) { assert ForwardAt(s, y); ForwardStays(s, s', y); }
  }

  lemma StoredValid(s: State, b: Ref, c: Capture, k: nat)
    requires Valid(s) && Storable(s, b, c, k)
    ensures Valid(Stored(s, b, c, k))
  {
    StoredCounts(s, b, c, k);
    StoredEdges(s, b, c, k);
    StoredSlots(s, b, c, k);
    StoredForward(s, b, c, k);
  }

  lemma StoredEdge(s: State, b: Ref, c: Capture, k: nat, e: Edge)
    requires Valid(s) && Storable(s, b, c, k) && Slot(b, |s.caps[b]|) !in s.holder && e in Stored(s, b, c, k).holder
    ensures EdgeAt(Stored(s, b, c, k), e)
  {
    var s' := Stored(s, b, c, k);
    if e in s.holder { assert EdgeAt(s, e); EdgeStays(s, s', e); } else { assert EdgeAt(s, Client(k)); }
  }

  lemma StoredEdges(s: State, b: Ref, c: Capture, k: nat)
    requires Valid(s) && Storable(s, b, c, k)
    ensures EdgeInv(Stored(s, b, c, k))
  {
    FreeSlot(s, b);
    forall e | e in Stored(s, b, c, k).holder ensures EdgeAt(Stored(s, b, c, k), e) { StoredEdge(s, b, c, k, e); }
  }

  lemma FreeSlot(s: State, b: Ref)
    requires EdgeInv(s) && b in s.caps
    ensures Slot(b, |s.caps[b]|) !in s.holder
  {
    assert forall e | e in s.holder :: EdgeAt(s, e) && (e.Slot? && e.b == b ==> e.i < |s.caps[b]|);
  }

  lemma StoredSlots(s: State, b: Ref, c: Capture, k: nat)
    requires Valid(s) && Storable(s, b, c, k)
    ensures SlotInv(Stored(s, b, c, k))
  {
    var s', n := Stored(s, b, c, k), |s.caps[b]|;
    forall q, i: nat | q in s'.caps && Heap(s', q) && i < |s'.caps[q]| ensures SlotAt(s', q, i) {
      if !(q == b && i == n) { assert SlotAt(s, q, i); SlotStays(s, s', q, i); }
    }
    forall q | q in s'.caps && Heap(s', q) && !HasCopyDispose(s'.flags[q]) ensures s'.caps[q] == [] {
      assert s.caps[q] == [];
    }
  }

  /** What a dispose helper takes: the last capture of a dying block, whose hold passes to a client. */
  ghost function Unstored(s: State, b: Ref): State
    requires b in s.caps && s.caps[b] != []
  {
    var i := |s.caps[b]| - 1;
    s.(caps := s.caps[b := s.caps[b][..i]],
       holder := if Slot(b, i) in s.holder then Moved(s.holder, Slot(b, i), Client(s.ticket)) else s.holder,
       ticket := s.ticket + 1)
  }

  lemma UnstoredCounts(s: State, b: Ref)
    requires CountInv(s) && b in s.caps && s.caps[b] != [] && Client(s.ticket) !in s.holder
    ensures forall q | q in Unstored(s, b).flags :: CountAt(Unstored(s, b), q)
  {
    var s', n := Unstored(s, b), |s.caps[b]| - 1;
    forall q | q in s'.flags ensures CountAt(s', q) {
      assert CountAt(s, q);
      if Slot(b, n) in s.holder { MovedCounts(s.holder, Slot(b, n), Client(s.ticket), q); }
    }
  }

  lemma UnstoredEdges(s: State, b: Ref)
    requires Valid(s) && b in s.caps && Heap(s, b) && s.caps[b] != [] && Client(s.ticket) !in s.holder
    ensures EdgeInv(Unstored(s, b))
  {
    var s', n := Unstored(s, b), |s.caps[b]| - 1;
    forall e | e in s'.holder ensures EdgeAt(s', e) {
      if e in s.holder { assert EdgeAt(s, e); UnstoredEdge(s, b, e); } else { assert EdgeAt(s, Slot(b, n)); }
    }
  }

  lemma UnstoredSlots(s: State, b: Ref)
    requires Valid(s) && b in s.caps && Heap(s, b) && s.caps[b] != [] && Client(s.ticket) !in s.holder
    ensures SlotInv(Unstored(s, b)) && ForwardInv(Unstored(s, b))
  {
    var s' := Unstored(s, b);
    forall q, i: nat | q in s'.caps && Heap(s', q) && i < |s'.caps[q]| ensures SlotAt(s', q, i) {
      assert SlotAt(s, q, i);
      SlotStays(s, s', q, i);
    }
    forall q | q in s'.caps && Heap(s', q) && !HasCopyDispose(s'.flags[q]) ensures s'.caps[q] == [] {
      assert s.caps[q] == [];
    }
    forall y | y in s'.fwd ensures ForwardAt(s', y) { assert ForwardAt(s, y); ForwardStays(s, s', y); }
  }

  lemma UnstoredValid(s: State, b: Ref)
    requires Valid(s) && b in s.caps && Heap(s, b) && s.caps[b] != []
    ensures Valid(Unstored(s, b))
  {
    NewTicket(s);
    UnstoredCounts(s, b);
    UnstoredEdges(s, b);
    UnstoredSlots(s, b);
  }

  lemma UnstoredEdge(s: State, b: Ref, e: Edge)
    requires Valid(s) && b in s.caps && Heap(s, b) && s.caps[b] != [] && e in s.holder && e in Unstored(s, b).holder
    ensures EdgeAt(Unstored(s, b), e)
  {
    assert EdgeAt(s, e);
    NewTicket(s);
    if e.Slot? && e.b == b { assert e.i < |s.caps[b]| - 1; }
  }

  // ------------------------------------------------------------------ allocation and release

  predicate Unused(s: State, r: Ref) { r != 0 && r !in s.flags && r !in s.freed && r !in s.rank }

  /** The heap copy of a stack block with flags `f`, before its captures are fixed up. */
  ghost function Copied(s: State, r: Ref, f: nat, rank: nat): State {
    s.(flags := s.flags[r := HeapFlags(f, 1)], caps := s.caps[r := []], rank := s.rank[r := rank],
       holder := s.holder[Client(s.ticket) := r], ticket := s.ticket + 1)
  }

  lemma NotHeld(s: State, r: Ref)
    requires EdgeInv(s) && r !in s.flags
    ensures forall e | e in s.holder :: s.holder[e] != r
    ensures Holds(s.holder, r) == {}
  {
    assert forall e | e in s.holder :: EdgeAt(s, e);
  }

  /** Allocation leaves everything that was there as it was; `y` is a byref it redirects, or 0. */
  ghost predicate Extends(s: State, s': State, y: Ref) {
    && Kept(s, s') && s'.dying == s.dying && s'.ticket >= s.ticket
    && (forall b | b in s.caps :: b in s'.caps && s'.caps[b] == s.caps[b])
    && (forall z | z in s.fwd :: z in s'.fwd && (z != y ==> s'.fwd[z] == s.fwd[z]))
    && (forall o | o in s.rank :: o in s'.rank && s'.rank[o] == s.rank[o])
    && (forall e | e in s.holder :: e in s'.holder && s'.holder[e] == s.holder[e])
  }

  lemma ExtendsEdges(s: State, s': State, y: Ref)
    requires Valid(s) && Extends(s, s', y) && Frame(y) !in s.holder
    ensures forall e | e in s.holder :: EdgeAt(s', e)
  {
    forall e | e in s.holder ensures EdgeAt(s', e) {
      assert EdgeAt(s, e);
      EdgeStays(s, s', e);
    }
  }

  lemma ExtendsSlots(s: State, s': State, y: Ref)
    requires Valid(s) && Extends(s, s', y)
    ensures forall b, i: nat | b in s.caps && Heap(s', b) && i < |s'.caps[b]| :: SlotAt(s', b, i)
    ensures forall b | b in s.caps && Heap(s', b) && !HasCopyDispose(s'.flags[b]) :: s'.caps[b] == []
    ensures forall z | z in s.fwd && z != y :: ForwardAt(s', z)
    ensures forall o | o in s'.dying :: o in s'.caps && Heap(s', o)
  {
    forall b | b in s.caps
      ensures Heap(s', b) == Heap(s, b) && HasCopyDispose(s'.flags[b]) == HasCopyDispose(s.flags[b]) {
      SameKind(s, s', b);
    }
    forall b, i: nat | b in s.caps && Heap(s', b) && i < |s'.caps[b]| ensures SlotAt(s', b, i) {
      assert SlotAt(s, b, i);
      SlotStays(s, s', b, i);
    }
    forall z | z in s.fwd && z != y ensures ForwardAt(s', z) {
      assert ForwardAt(s, z);
      ForwardStays(s, s', z);
    }
  }

  /** What an extension adds is in order. */
  ghost predicate FreshGood(s: State, s': State, y: Ref) {
    && (forall e | e in s'.holder && e !in s.holder :: EdgeAt(s', e))
    && (forall b | b in s'.caps && b !in s.caps :: !Heap(s', b) || s'.caps[b] == [])
    && (forall z | z in s'.fwd && (z !in s.fwd || z == y) :: ForwardAt(s', z))
  }

  lemma ExtendsValid(s: State, s': State, y: Ref)
    requires Valid(s) && Extends(s, s', y) && Frame(y) !in s.holder
    requires NamesInv(s') && (forall q | q in s'.flags :: CountAt(s', q)) && FreshGood(s, s', y)
    ensures Valid(s')
  {
    ExtendsEdges(s, s', y);
    ExtendsSlots(s, s', y);
  }

  lemma CopiedNames(s: State, r: Ref, f: nat, rank: nat)
    requires NamesInv(s) && Unused(s, r)
    ensures NamesInv(Copied(s, r, f, rank))
  {
  }

  lemma CopiedExtends(s: State, r: Ref, f: nat, rank: nat)
    requires NamesInv(s) && Unused(s, r) && !NeedsFree(f) && Client(s.ticket) !in s.holder
    ensures NamesInv(Copied(s, r, f, rank)) && Extends(s, Copied(s, r, f, rank), 0) && Heap(Copied(s, r, f, rank), r)
  {
    CopiedNames(s, r, f, rank);
    HeapFlagsAre(f, 1);
  }

  lemma CopiedCounts(s: State, r: Ref, f: nat, rank: nat)
    requires CountInv(s) && Unused(s, r) && !NeedsFree(f) && Client(s.ticket) !in s.holder && Holds(s.holder, r) == {}
    requires s.dying <= s.flags.Keys
    ensures forall q | q in Copied(s, r, f, rank).flags :: CountAt(Copied(s, r, f, rank), q)
  {
    var s' := Copied(s, r, f, rank);
    HeapFlagsAre(f, 1);
    forall q | q in s'.flags ensures CountAt(s', q) {
      HoldsAdd(s.holder, Client(s.ticket), r, q);
      if q != r { assert CountAt(s, q); }
    }
  }

  lemma CopiedValid(s: State, r: Ref, f: nat, rank: nat)
    requires Valid(s) && Unused(s, r) && !NeedsFree(f)
    ensures Valid(Copied(s, r, f, rank)) && Extends(s, Copied(s, r, f, rank), 0)
  {
    NewTicket(s);
    NotHeld(s, r);
    NoFrameOfNull(s);
    CopiedExtends(s, r, f, rank);
    CopiedCounts(s, r, f, rank);
    ExtendsValid(s, Copied(s, r, f, rank), 0);
  }

  lemma NoFrameOfNull(s: State)
    requires NamesInv(s) && EdgeInv(s)
    ensures Frame(0) !in s.holder
  {
    assert forall e | e in s.holder :: EdgeAt(s, e) && (e.Frame? ==> e.y in s.fwd);
  }

  /** A stack byref moves to the heap: one hold for the block that captured it, one for its frame. */
  ghost function Promoted(s: State, y: Ref, c: Ref): State
    requires y in s.flags
  {
    s.(flags := s.flags[c := HeapFlags(s.flags[y], 2)], fwd := s.fwd[c := c][y := c],
       holder := s.holder[Frame(y) := c][Client(s.ticket) := c], ticket := s.ticket + 1)
  }

  lemma PromotedExtends(s: State, y: Ref, c: Ref)
    requires NamesInv(s) && y in s.fwd && !Heap(s, y) && Unused(s, c) && Client(s.ticket) !in s.holder
      && Frame(y) !in s.holder
    ensures NamesInv(Promoted(s, y, c)) && Extends(s, Promoted(s, y, c), y) && Heap(Promoted(s, y, c), c)
    ensures !Heap(Promoted(s, y, c), y)
  {
    HeapFlagsAre(s.flags[y], 2);
  }

  lemma PromotedFresh(s: State, y: Ref, c: Ref)
    requires NamesInv(s) && s.dying <= s.flags.Keys && y in s.fwd && !Heap(s, y) && Unused(s, c)
    ensures FreshGood(s, Promoted(s, y, c), y)
  {
    HeapFlagsAre(s.flags[y], 2);
  }

  lemma PromotedValid(s: State, y: Ref, c: Ref)
    requires Valid(s) && y in s.fwd && !Heap(s, y) && s.fwd[y] == y && Unused(s, c)
    ensures Valid(Promoted(s, y, c)) && Extends(s, Promoted(s, y, c), y)
  {
    NewTicket(s);
    NotHeld(s, c);
    NoFrame(s, y);
    PromotedExtends(s, y, c);
    PromotedCounts(s, y, c);
    PromotedFresh(s, y, c);
    ExtendsValid(s, Promoted(s, y, c), y);
  }

  lemma NoFrame(s: State, y: Ref)
    requires EdgeInv(s) && ForwardInv(s) && y in s.fwd && !Heap(s, y) && s.fwd[y] == y
    ensures Frame(y) !in s.holder
  {
    assert forall e | e in s.holder :: EdgeAt(s, e) && (e.Frame? && e.y == y ==> Heap(s, y));
  }

  lemma PromotedCounts(s: State, y: Ref, c: Ref)
    requires Valid(s) && y in s.flags && !NeedsFree(s.flags[y]) && Unused(s, c)
    requires Frame(y) !in s.holder && Client(s.ticket) !in s.holder && Holds(s.holder, c) == {}
    ensures CountInv(Promoted(s, y, c))
  {
    var s' := Promoted(s, y, c);
    HeapFlagsAre(s.flags[y], 2);
    forall q | q in s'.flags ensures CountAt(s', q) {
      HoldsAdd(s.holder, Frame(y), c, q);
      HoldsAdd(s.holder[Frame(y) := c], Client(s.ticket), c, q);
      if q != c { assert CountAt(s, q); }
    }
  }

  /** A dying block without captures is deallocated. */
  ghost function BlockFreed(s: State, b: Ref): State {
    s.(flags := s.flags - {b}, caps := s.caps - {b}, dying := s.dying - {b}, freed := s.freed + {b})
  }

  /** A byref whose last hold `k` is given up is deallocated. */
  ghost function ByrefDropped(s: State, k: nat): State
    requires Client(k) in s.holder && s.holder[Client(k)] in s.flags
  {
    var o := s.holder[Client(k)];
    var f := Dec(s.flags[o]);
    var h := s.holder - {Client(k)};
    if Count(f) == 0 then s.(flags := s.flags - {o}, fwd := s.fwd - {o}, holder := h, freed := s.freed + {o})
    else s.(flags := s.flags[o := f], holder := h)
  }

  /** Deallocation of `o`, to which nothing refers any more. */
  ghost predicate Removes(s: State, s': State, o: Ref) {
    && s'.flags.Keys == s.flags.Keys - {o} && (forall q | q in s'.flags :: s'.flags[q] == s.flags[q])
    && s'.caps == s.caps - {o} && s'.fwd == s.fwd - {o} && s'.freed == s.freed + {o}
    && s'.dying == s.dying - {o} && s'.rank == s.rank && s'.ticket == s.ticket
    && (forall e | e in s'.holder :: e in s.holder && s'.holder[e] == s.holder[e])
    && (forall e | e in s.holder && e !in s'.holder :: e.Client?)
    && (forall e | e in s'.holder :: s'.holder[e] != o && (e.Slot? ==> e.b != o) && (e.Frame? ==> e.y != o))
  }

  lemma RemovedEdges(s: State, s': State, o: Ref)
    requires NamesInv(s) && EdgeInv(s) && Removes(s, s', o)
    ensures EdgeInv(s')
  {
    forall e | e in s'.holder ensures EdgeAt(s', e) {
      assert EdgeAt(s, e);
      if e.Slot? { assert Target(s', s.caps[e.b][e.i]) == Target(s, s.caps[e.b][e.i]); }
    }
  }

  lemma RemovedSlotsStay(s: State, s': State, o: Ref)
    requires NamesInv(s) && SlotInv(s) && Removes(s, s', o) && Heap(s, o)
    ensures SlotInv(s')
  {
    forall b, i: nat | b in s'.caps && Heap(s', b) && i < |s'.caps[b]| ensures SlotAt(s', b, i) {
      assert SlotAt(s, b, i);
      var c := s.caps[b][i];
      assert Target(s, c) != 0 ==> Slot(b, i) in s'.holder && s'.holder[Slot(b, i)] != o;
    }
    forall b | b in s'.caps && Heap(s', b) && !HasCopyDispose(s'.flags[b]) ensures s'.caps[b] == [] {
      assert s.caps[b] == [];
    }
  }

  lemma RemovedSlots(s: State, s': State, o: Ref)
    requires NamesInv(s) && SlotInv(s) && ForwardInv(s) && Removes(s, s', o) && Heap(s, o)
    ensures SlotInv(s') && ForwardInv(s')
  {
    RemovedSlotsStay(s, s', o);
    forall y | y in s'.fwd ensures ForwardAt(s', y) {
      assert ForwardAt(s, y);
    }
  }

  lemma BlockFreedRemoves(s: State, b: Ref)
    requires NamesInv(s) && EdgeInv(s) && b in s.dying && b in s.caps && Heap(s, b) && s.caps[b] == []
    ensures Removes(s, BlockFreed(s, b), b)
  {
    forall e | e in s.holder ensures s.holder[e] != b && (e.Slot? ==> e.b != b) && (e.Frame? ==> e.y != b) {
      assert EdgeAt(s, e);
    }
    assert s.fwd - {b} == s.fwd;
  }

  lemma BlockFreedCounts(s: State, b: Ref)
    requires CountInv(s) && NamesInv(s)
    ensures CountInv(BlockFreed(s, b))
  {
    var s' := BlockFreed(s, b);
    forall q | q in s'.flags ensures CountAt(s', q) { assert CountAt(s, q); }
  }

  lemma BlockFreedValid(s: State, b: Ref)
    requires Valid(s) && b in s.dying && s.caps[b] == []
    ensures Valid(BlockFreed(s, b))
  {
    BlockFreedRemoves(s, b);
    BlockFreedCounts(s, b);
    RemovedEdges(s, BlockFreed(s, b), b);
    RemovedSlots(s, BlockFreed(s, b), b);
  }

  lemma ByrefDroppedCounts(s: State, k: nat)
    requires CountInv(s) && Client(k) in s.holder && s.holder[Client(k)] in s.flags && s.holder[Client(k)] !in s.dying
    requires NeedsFree(s.flags[s.holder[Client(k)]])
    ensures forall q | q in ByrefDropped(s, k).flags :: CountAt(ByrefDropped(s, k), q)
  {
    var s', o := ByrefDropped(s, k), s.holder[Client(k)];
    LatchingCount(s.flags[o]);
    forall q | q in s'.flags ensures CountAt(s', q) {
      assert CountAt(s, q);
      HoldsRemove(s.holder, Client(k), q);
    }
  }

  lemma ByrefStays(s: State, k: nat, o: Ref)
    requires Valid(s) && Client(k) in s.holder && o == s.holder[Client(k)] && o in s.fwd && Count(Dec(s.flags[o])) != 0
    requires forall e | e in s.holder :: s.holder[e] !in s.dying
    ensures var s' := ByrefDropped(s, k); NamesInv(s') && EdgeInv(s') && SlotInv(s') && ForwardInv(s')
    ensures forall q | q in s.dying :: q in ByrefDropped(s, k).caps && Heap(ByrefDropped(s, k), q)
  {
    LatchingCount(s.flags[o]);
    Unchanged(s, ByrefDropped(s, k));
  }

  lemma ByrefDroppedValid(s: State, k: nat)
    requires Valid(s) && Client(k) in s.holder && s.holder[Client(k)] in s.fwd
    ensures Valid(ByrefDropped(s, k))
  {
    var o := s.holder[Client(k)];
    assert EdgeAt(s, Client(k));
    LastHold(s, k);
    ByrefDroppedCounts(s, k);
    if Count(Dec(s.flags[o])) == 0 { ByrefGone(s, k, o); } else { ByrefStays(s, k, o); }
  }

  lemma ByrefGone(s: State, k: nat, o: Ref)
    requires Valid(s) && Client(k) in s.holder && o == s.holder[Client(k)] && o in s.fwd && Count(Dec(s.flags[o])) == 0
    ensures var s' := ByrefDropped(s, k); NamesInv(s') && EdgeInv(s') && SlotInv(s') && ForwardInv(s')
    ensures forall q | q in s.dying :: q in ByrefDropped(s, k).caps && Heap(ByrefDropped(s, k), q)
  {
    var s' := ByrefDropped(s, k);
    assert EdgeAt(s, Client(k));
    LastHold(s, k);
    forall e | e in s'.holder ensures s'.holder[e] != o && (e.Slot? ==> e.b != o) && (e.Frame? ==> e.y != o) {
      assert EdgeAt(s, e);
    }
    assert s.caps - {o} == s.caps && s.dying - {o} == s.dying;
    RemovedEdges(s, s', o);
    RemovedSlots(s, s', o);
  }

  // ------------------------------------------------------------------ stack objects

  /** A stack or global block is declared. */
  ghost function Declared(s: State, b: Ref, f: nat, cs: seq<Capture>, rank: nat): State {
    s.(flags := s.flags[b := f], caps := s.caps[b := cs], rank := s.rank[b := rank])
  }

  lemma DeclaredCounts(s: State, b: Ref, f: nat, cs: seq<Capture>, rank: nat)
    requires CountInv(s) && Unused(s, b) && !NeedsFree(f) && Count(f) == 0
    ensures forall q | q in Declared(s, b, f, cs, rank).flags :: CountAt(Declared(s, b, f, cs, rank), q)
  {
    var s' := Declared(s, b, f, cs, rank);
    forall q | q in s'.flags ensures CountAt(s', q) {
      if q != b { assert CountAt(s, q); }
    }
  }

  lemma DeclaredExtends(s: State, b: Ref, f: nat, cs: seq<Capture>, rank: nat)
    requires NamesInv(s) && Unused(s, b) && !NeedsFree(f) && Frame(0) !in s.holder
    ensures Extends(s, Declared(s, b, f, cs, rank), 0)
    ensures NamesInv(Declared(s, b, f, cs, rank)) && FreshGood(s, Declared(s, b, f, cs, rank), 0)
  {
  }

  lemma DeclaredValid(s: State, b: Ref, f: nat, cs: seq<Capture>, rank: nat)
    requires Valid(s) && Unused(s, b) && !NeedsFree(f) && Count(f) == 0
    ensures Valid(Declared(s, b, f, cs, rank))
  {
    NoFrameOfNull(s);
    DeclaredExtends(s, b, f, cs, rank);
    DeclaredCounts(s, b, f, cs, rank);
    ExtendsValid(s, Declared(s, b, f, cs, rank), 0);
  }

  /** A __block variable is declared. */
  ghost function ByrefDeclared(s: State, y: Ref, f: nat): State {
    s.(flags := s.flags[y := f], fwd := s.fwd[y := y])
  }

  lemma ByrefDeclaredExtends(s: State, y: Ref, f: nat)
    requires NamesInv(s) && Unused(s, y) && !NeedsFree(f) && Frame(0) !in s.holder
    ensures Extends(s, ByrefDeclared(s, y, f), 0)
    ensures NamesInv(ByrefDeclared(s, y, f)) && FreshGood(s, ByrefDeclared(s, y, f), 0)
  {
  }

  lemma ByrefDeclaredValid(s: State, y: Ref, f: nat)
    requires Valid(s) && Unused(s, y) && !NeedsFree(f) && Count(f) == 0
    ensures Valid(ByrefDeclared(s, y, f))
  {
    var s' := ByrefDeclared(s, y, f);
    NoFrameOfNull(s);
    ByrefDeclaredExtends(s, y, f);
    forall q | q in s'.flags ensures CountAt(s', q) {
      if q != y { assert CountAt(s, q); }
    }
    ExtendsValid(s, s', 0);
  }

  /** The scope of a __block variable ends: the hold of its frame, if any, is handed to its client. */
  ghost function Unframed(s: State, y: Ref): State {
    s.(flags := s.flags - {y}, fwd := s.fwd - {y},
       holder := if Frame(y) in s.holder then Moved(s.holder, Frame(y), Client(s.ticket)) else s.holder,
       ticket := s.ticket + 1)
  }

  lemma UnframedCounts(s: State, y: Ref)
    requires Valid(s) && y in s.fwd && !Heap(s, y) && Client(s.ticket) !in s.holder
    ensures CountInv(Unframed(s, y))
  {
    var s' := Unframed(s, y);
    forall q | q in s'.flags ensures CountAt(s', q) {
      assert CountAt(s, q);
      if Frame(y) in s.holder { MovedCounts(s.holder, Frame(y), Client(s.ticket), q); }
    }
  }

  lemma UnframedSlots(s: State, y: Ref)
    requires NamesInv(s) && SlotInv(s) && ForwardInv(s) && y in s.fwd && !Heap(s, y) && Client(s.ticket) !in s.holder
    ensures SlotInv(Unframed(s, y)) && ForwardInv(Unframed(s, y))
  {
    var s' := Unframed(s, y);
    forall b, i: nat | b in s'.caps && Heap(s', b) && i < |s'.caps[b]| ensures SlotAt(s', b, i) {
      assert SlotAt(s, b, i);
    }
    forall z | z in s'.fwd ensures ForwardAt(s', z) {
      assert ForwardAt(s, z);
    }
  }

  lemma UnframedValid(s: State, y: Ref)
    requires Valid(s) && y in s.fwd && !Heap(s, y)
    ensures Valid(Unframed(s, y))
  {
    NewTicket(s);
    UnframedCounts(s, y);
    UnframedEdges(s, y);
    UnframedSlots(s, y);
  }

  lemma UnframedEdges(s: State, y: Ref)
    requires Valid(s) && y in s.fwd && !Heap(s, y)
    ensures EdgeInv(Unframed(s, y))
  {
    NewTicket(s);
    forall e | e in Unframed(s, y).holder ensures EdgeAt(Unframed(s, y), e) {
      var d := if e in s.holder then e else Frame(y);
      assert EdgeAt(s, d);
      UnframedEdge(s, y, e, d);
    }
  }

  lemma UnframedEdge(s: State, y: Ref, e: Edge, d: Edge)
    requires NamesInv(s) && y in s.fwd && !Heap(s, y) && e in Unframed(s, y).holder
    requires d in s.holder && EdgeAt(s, d) && d == (if e in s.holder then e else Frame(y))
      && Client(s.ticket) !in s.holder
    ensures EdgeAt(Unframed(s, y), e)
  {
    assert e.Slot? && e in s.holder ==> Target(Unframed(s, y), s.caps[e.b][e.i]) == Target(s, s.caps[e.b][e.i]);
  }
}
