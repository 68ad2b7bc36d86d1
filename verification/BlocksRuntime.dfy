/**
 Copying and releasing blocks and byrefs (libblocksruntime/runtime.c, without garbage collection).
 Names of objects are never used twice, so `freed` lists every deallocation of a run.
*/
module BlocksRuntime {
  import opened BlockHolds

  // ------------------------------------------------------------------ what copying relies on and changes

  /** A block that may be copied: everything its stack part captures still exists and is in `base`. */
  ghost predicate Copyable(s: State, p: Ref, base: set<Ref>)
    decreases if p in s.rank then s.rank[p] else 0
  {
    p == 0 ||
    (&& p in s.caps && p in s.flags && p in s.rank && p in base
     && (Heap(s, p) || IsGlobal(s.flags[p])
         || ((HasCopyDispose(s.flags[p]) || s.caps[p] == [])
             && forall i | 0 <= i < |s.caps[p]| :: Capturable(s, p, i, base))))
  }

  ghost predicate Capturable(s: State, p: Ref, i: nat, base: set<Ref>)
    requires p in s.caps && i < |s.caps[p]| && p in s.rank
    decreases s.rank[p], 0
  {
    match s.caps[p][i]
    case OfBlock(q) => q == 0 || (q in s.rank && s.rank[q] < s.rank[p] && Copyable(s, q, base))
    case OfByref(y) => y in s.fwd
  }

  /** Copying only adds: old objects keep their flag bits, captures and holders. */
  ghost predicate Grows(s: State, s': State) {
    && Kept(s, s') && s'.dying == s.dying && s'.freed == s.freed && s'.ticket >= s.ticket
    && (forall b | b in s.caps :: b in s'.caps && s'.caps[b] == s.caps[b])
    && (forall b | b in s'.caps && b !in s.caps :: b !in s.flags && Heap(s', b) && Count(s'.flags[b]) == 1)
    && (forall y | y in s.fwd :: y in s'.fwd && (s'.fwd[y] == s.fwd[y] || (s.fwd[y] == y && !Heap(s, y))))
    && (forall o | o in s.rank :: o in s'.rank && s'.rank[o] == s.rank[o])
    && (forall e | e in s.holder :: e in s'.holder && s'.holder[e] == s.holder[e])
    && (forall o | o in s.flags && Latched(s.flags[o]) :: s'.flags[o] == s.flags[o])
  }

  /** The new holders: the client `k`, captures of new blocks, and frames of promoted byrefs. */
  ghost predicate NewHolders(s: State, s': State, k: nat) {
    forall e | e in s'.holder && e !in s.holder :: e == Client(k) || NewHolder(s, s', e)
  }

  ghost predicate NewHolder(s: State, s': State, e: Edge)
    requires e in s'.holder
  {
    (e.Slot? && e.b !in s.flags) || (e.Frame? && s'.holder[e] !in s.flags)
  }

  /** Blocks outside `base` keep their counts. */
  ghost predicate Spared(s: State, s': State, base: set<Ref>) {
    forall b | b in s.caps && b in s.flags && b !in base :: b in s'.flags && s'.flags[b] == s.flags[b]
  }

  lemma GrowsTrans(s: State, s1: State, s2: State, base: set<Ref>)
    requires Grows(s, s1) && Grows(s1, s2) && Spared(s, s1, base) && Spared(s1, s2, base) && base <= s.flags.Keys
    requires s1.caps.Keys <= s1.flags.Keys
    ensures Grows(s, s2) && Spared(s, s2, base)
  {
  }

  lemma {:induction false} CopyableStays(s: State, s': State, p: Ref, base: set<Ref>)
    requires Copyable(s, p, base) && Grows(s, s') && NamesInv(s)
    ensures Copyable(s', p, base)
    decreases if p in s.rank then s.rank[p] else 0
  {
    if p != 0 {
      SameKind(s, s', p);
      if !Heap(s, p) && !IsGlobal(s.flags[p]) {
        forall i | 0 <= i < |s'.caps[p]| ensures Capturable(s', p, i, base) {
          assert Capturable(s, p, i, base);
          var c := s.caps[p][i];
          if c.OfBlock? && c.p != 0 { CopyableStays(s, s', c.p, base); }
        }
      }
    }
  }

  /** A block that copying leaves alone: NULL, or on the heap, or global. */
  ghost predicate Shared(s: State, q: Ref) { q == 0 || Heap(s, q) || (q in s.flags && IsGlobal(s.flags[q])) }

  ghost function Depth(s: State, c: Capture): nat {
    if c.OfBlock? && !Shared(s, c.p) && c.p in s.rank then s.rank[c.p] + 1 else 0
  }

  /** What a copied capture is: the same object, the forwarding target, or for a stack block a heap block whose
      captures are, one by one, copies of its captures. */
  ghost predicate CopyOf(s: State, c: Capture, d: Capture)
    decreases Depth(s, c), 1
  {
    match c
    case OfBlock(q) => d.OfBlock? && (if Shared(s, q) then d.p == q else HeapCopy(s, q, d.p))
    case OfByref(y) => d.OfByref? && y in s.fwd && d.y == s.fwd[y] && Heap(s, d.y)
  }

  ghost predicate HeapCopy(s: State, q: Ref, r: Ref)
    requires !Shared(s, q)
    decreases if q in s.rank then s.rank[q] + 1 else 0, 0
  {
    && q in s.caps && q in s.rank && r in s.caps && r in s.rank && Heap(s, r) && s.rank[r] == s.rank[q]
    && q in s.flags && High(s.flags[r]) == High(s.flags[q]) + 0x100 && |s.caps[r]| == |s.caps[q]|
    && forall i | 0 <= i < |s.caps[q]| ::
         Depth(s, s.caps[q][i]) <= s.rank[q] && CopyOf(s, s.caps[q][i], s.caps[r][i])
  }

  /** All names in use, or used before, are below `brk`. */
  ghost predicate Below(s: State, brk: nat) {
    && brk > 0
    && (forall o | o in s.flags :: o < brk) && (forall o | o in s.freed :: o < brk)
          && (forall o | o in s.rank :: o < brk)
  }

  lemma BrkUnused(s: State, brk: nat)
    requires Below(s, brk)
    ensures Unused(s, brk)
  {
  }

  /** What one client hold more changes, as a whole. */
  ghost predicate Gains(s: State, s': State, o: Ref, base: set<Ref>) {
    && Grows(s, s') && Spared(s, s', base) && NewHolders(s, s', s.ticket)
    && Client(s.ticket) in s'.holder && s'.holder[Client(s.ticket)] == o && Heap(s', o)
  }

  lemma HeldGrows(s: State, o: Ref, base: set<Ref>)
    requires NamesInv(s) && Heap(s, o) && (o in s.caps ==> o in base) && Client(s.ticket) !in s.holder
    ensures Gains(s, Held(s, o), o, base) && Held(s, o).flags.Keys == s.flags.Keys
  {
    LatchingCount(s.flags[o]);
    assert Kept(s, Held(s, o));
    SameKind(s, Held(s, o), o);
  }

  lemma HeldGains(s: State, o: Ref, base: set<Ref>)
    requires Valid(s) && Heap(s, o) && o !in s.dying && (o in s.caps ==> o in base)
    ensures Valid(Held(s, o)) && Gains(s, Held(s, o), o, base) && Held(s, o).flags.Keys == s.flags.Keys
  {
    HeldValid(s, o);
    NewTicket(s);
    HeldGrows(s, o, base);
  }

  lemma ExtendsGrows(s: State, s': State, y: Ref)
    requires Extends(s, s', y) && s'.freed == s.freed && (y in s.fwd ==> s.fwd[y] == y && !Heap(s, y))
    requires forall o | o in s.flags :: s'.flags[o] == s.flags[o]
    requires forall b | b in s'.caps && b !in s.caps :: b !in s.flags && Heap(s', b) && Count(s'.flags[b]) == 1
    ensures Grows(s, s')
  {
  }

  /** The holders that an allocation adds. */
  lemma GainsFrom(s: State, s': State, o: Ref, base: set<Ref>)
    requires Grows(s, s') && o in s'.flags && NeedsFree(s'.flags[o]) && o !in s.flags
    requires forall b | b in s.flags :: s'.flags[b] == s.flags[b]
    requires Client(s.ticket) in s'.holder && s'.holder[Client(s.ticket)] == o
    requires forall e | e in s'.holder && e !in s.holder :: e == Client(s.ticket) || (e.Frame? && s'.holder[e] == o)
    ensures Gains(s, s', o, base)
  {
  }

  lemma PromotedNew(s: State, y: Ref, c: Ref, s': State)
    requires y in s.flags && !NeedsFree(s.flags[y]) && Below(s, c) && s' == Promoted(s, y, c)
    ensures Below(s', c + 1) && NeedsFree(s'.flags[c]) && (forall b | b in s.flags :: s'.flags[b] == s.flags[b])
  {
    HeapFlagsAre(s.flags[y], 2);
  }

  lemma PromotedGains(s: State, y: Ref, c: Ref, base: set<Ref>, s': State)
    requires Valid(s) && y in s.fwd && !Heap(s, y) && s.fwd[y] == y && Below(s, c) && s' == Promoted(s, y, c)
    ensures Valid(s') && Gains(s, s', c, base) && Below(s', c + 1)
  {
    BrkUnused(s, c);
    PromotedValid(s, y, c);
    PromotedNew(s, y, c, s');
    ExtendsGrows(s, s', y);
    GainsFrom(s, s', c, base);
  }

  lemma CopiedGrows(s: State, r: Ref, f: nat, rank: nat, base: set<Ref>, s': State)
    requires Below(s, r) && r !in s.flags && r !in s.caps && !NeedsFree(f) && s' == Copied(s, r, f, rank)
    requires Extends(s, s', 0) && 0 !in s.fwd && r != 0
    ensures Gains(s, s', r, base) && Below(s', r + 1) && HasCopyDispose(s'.flags[r]) == HasCopyDispose(f)
  {
    HeapFlagsAre(f, 1);
    ExtendsGrows(s, s', 0);
    GainsFrom(s, s', r, base);
  }

  lemma CopiedGains(s: State, r: Ref, f: nat, rank: nat, base: set<Ref>, s': State)
    requires Valid(s) && Below(s, r) && !NeedsFree(f) && s' == Copied(s, r, f, rank)
    ensures Valid(s') && Gains(s, s', r, base) && Below(s', r + 1)
    ensures r !in s.flags && HasCopyDispose(s'.flags[r]) == HasCopyDispose(f)
  {
    BrkUnused(s, r);
    CopiedValid(s, r, f, rank);
    CopiedGrows(s, r, f, rank, base, s');
  }

  lemma SharedStays(s: State, s': State, q: Ref)
    requires Grows(s, s') && (q == 0 || q in s.flags)
    ensures Shared(s', q) == Shared(s, q)
  {
    if q in s.flags { SameKind(s, s', q); }
  }

  lemma {:induction false} CopyOfStays(s: State, s': State, c: Capture, d: Capture)
    requires NamesInv(s) && ForwardInv(s) && Grows(s, s') && CopyOf(s, c, d)
    ensures CopyOf(s', c, d) && Depth(s', c) == Depth(s, c)
    decreases Depth(s, c), 1
  {
    match c
    case OfBlock(q) =>
      SharedStays(s, s', q);
      if !Shared(s, q) { HeapCopyStays(s, s', q, d.p); }
    case OfByref(y) =>
      assert ForwardAt(s, y);
      SameKind(s, s', d.y);
  }

  lemma {:induction false} HeapCopyStays(s: State, s': State, q: Ref, r: Ref)
    requires NamesInv(s) && ForwardInv(s) && Grows(s, s') && !Shared(s, q) && !Shared(s', q) && HeapCopy(s, q, r)
    ensures HeapCopy(s', q, r)
    decreases s.rank[q] + 1, 0
  {
    SameKind(s, s', r);
    forall i | 0 <= i < |s'.caps[q]|
      ensures Depth(s', s'.caps[q][i]) <= s'.rank[q] && CopyOf(s', s'.caps[q][i], s'.caps[r][i])
    {
      assert s'.caps[q][i] == s.caps[q][i] && s'.caps[r][i] == s.caps[r][i];
      CopyOfStays(s, s', s.caps[q][i], s.caps[r][i]);
    }
  }

  /** A capture stays a copy when the heap block `r` of higher rank gets another capture. */
  lemma {:induction false} CopyOfStored(s: State, s': State, r: Ref, c: Capture, d: Capture)
    requires s'.flags == s.flags && s'.fwd == s.fwd && s'.rank == s.rank && r in s.rank && Heap(s, r)
    requires forall b | b in s.caps && b != r :: b in s'.caps && s'.caps[b] == s.caps[b]
    requires CopyOf(s, c, d) && Depth(s, c) <= s.rank[r]
    ensures CopyOf(s', c, d)
    decreases Depth(s, c)
  {
    if c.OfBlock? && !Shared(s, c.p) {
      var q, p := c.p, d.p;
      forall i | 0 <= i < |s'.caps[q]|
        ensures Depth(s', s'.caps[q][i]) <= s'.rank[q] && CopyOf(s', s'.caps[q][i], s'.caps[p][i])
      {
        CopyOfStored(s, s', r, s.caps[q][i], s.caps[p][i]);
      }
    }
  }

  /** What _Block_object_assign may be given for a capture of a block of rank `bound`. */
  ghost predicate Assignable(s: State, c: Capture, base: set<Ref>, bound: nat) {
    match c
    case OfBlock(q) => q == 0 || (q in s.rank && s.rank[q] < bound && Copyable(s, q, base))
    case OfByref(y) => y in s.fwd
  }

  /** A capture that a heap block of rank `bound` may have. */
  ghost predicate Settled(s: State, d: Capture, bound: nat) {
    match d
    case OfBlock(p) => p == 0
      || (p in s.caps && p in s.flags && p in s.rank && s.rank[p] < bound && (Heap(s, p) || IsGlobal(s.flags[p])))
    case OfByref(y) => y in s.fwd && Heap(s, y)
  }

  /** The capture `d` was stored in the new block `r`, which took over the hold `j`. */
  lemma StoredGrows(s0: State, s: State, r: Ref, d: Capture, j: nat, k: nat, base: set<Ref>)
    requires Grows(s0, s) && Spared(s0, s, base) && r !in s0.flags && r !in s0.caps && r in s.caps
    requires Target(s, d) != 0 ==> Client(j) in s.holder && Client(j) !in s0.holder
    requires forall e | e in s.holder && e !in s0.holder ::
      e == Client(k) || (e == Client(j) && Target(s, d) != 0) || NewHolder(s0, s, e)
    requires Slot(r, |s.caps[r]|) !in s.holder
    ensures var s' := Stored(s, r, d, j); Grows(s0, s') && Spared(s0, s', base) && NewHolders(s0, s', k)
  {
  }

  lemma NewHoldersTrans(s0: State, s: State, s': State, k: nat, j: nat)
    requires NewHolders(s0, s, k) && NewHolders(s, s', j) && s0.flags.Keys <= s.flags.Keys
    requires forall e | e in s.holder :: e in s'.holder && s'.holder[e] == s.holder[e]
    ensures forall e | e in s'.holder && e !in s0.holder :: e == Client(k) || e == Client(j) || NewHolder(s0, s', e)
  {
  }

  /** The heap copy `r` of the stack block `p` has its first `n` captures; `s0` is the state before the copy. */
  ghost predicate Building(s0: State, s: State, p: Ref, r: Ref, n: nat, base: set<Ref>, k: nat) {
    && NamesInv(s0) && base <= s0.flags.Keys && p in s0.caps && p in s0.rank && r !in s0.flags
    && Valid(s) && GrownFrom(s0, s, base, k) && BeingBuilt(s, r, s0.rank[p], k)
    && |s.caps[r]| == n <= |s0.caps[p]| && Copies(s, s0.caps[p], s.caps[r])
    && p in s0.flags && High(s.flags[r]) == High(s0.flags[p]) + 0x100
  }

  ghost predicate GrownFrom(s0: State, s: State, base: set<Ref>, k: nat) {
    Grows(s0, s) && Spared(s0, s, base) && NewHolders(s0, s, k)
  }

  ghost predicate BeingBuilt(s: State, r: Ref, rank: nat, k: nat) {
    && s.dying == {} && r in s.caps && r in s.flags && r in s.rank && Heap(s, r) && s.rank[r] == rank
    && Client(k) in s.holder && s.holder[Client(k)] == r && s.ticket > k
  }

  /** The captures `ds` are copies of the first ones of `cs`. */
  ghost predicate Copies(s: State, cs: seq<Capture>, ds: seq<Capture>) {
    |ds| <= |cs| && forall j | 0 <= j < |ds| :: CopyOf(s, cs[j], ds[j])
  }

  lemma StillAssignable(s0: State, s: State, p: Ref, i: nat, base: set<Ref>)
    requires NamesInv(s0) && Grows(s0, s) && p in s0.caps && p in s0.rank && i < |s0.caps[p]|
      && Capturable(s0, p, i, base)
    ensures Assignable(s, s0.caps[p][i], base, s0.rank[p])
    ensures s0.caps[p][i].OfBlock? && s0.caps[p][i].p != 0 ==> s0.caps[p][i].p in s0.flags
  {
    var c := s0.caps[p][i];
    if c.OfBlock? && c.p != 0 { CopyableStays(s0, s, c.p, base); }
  }

  /** The next capture was assigned, but not yet stored. */
  ghost predicate Assigned(s1: State, s2: State, base: set<Ref>, d: Capture, j: nat, bound: nat) {
    && Valid(s2) && s2.dying == {} && Grows(s1, s2) && Spared(s1, s2, base) && NewHolders(s1, s2, j) && j >= s1.ticket
    && Settled(s2, d, bound) && (Target(s2, d) != 0 <==> Client(j) in s2.holder)
    && (Target(s2, d) != 0 ==> s2.holder[Client(j)] == Target(s2, d))
  }

  lemma AssignedGrows(s0: State, s1: State, s2: State, s3: State, r: Ref, base: set<Ref>, k: nat, d: Capture, j: nat,
      bound: nat)
    requires Valid(s1) && GrownFrom(s0, s1, base, k) && Assigned(s1, s2, base, d, j, bound)
    requires base <= s0.flags.Keys && s0.caps.Keys <= s0.flags.Keys && r !in s0.flags && r in s1.caps
      && s3 == Stored(s2, r, d, j)
    ensures GrownFrom(s0, s3, base, k)
  {
    GrowsTrans(s0, s1, s2, base);
    NewHoldersTrans(s0, s1, s2, k, j);
    FreeSlot(s2, r);
    OldTickets(s1, j);
    StoredGrows(s0, s2, r, d, j, k, base);
  }

  lemma AssignedStorable(s1: State, s2: State, r: Ref, d: Capture, j: nat, bound: nat)
    requires Kept(s1, s2) && r in s1.flags && Heap(s1, r) && HasCopyDispose(s1.flags[r])
    requires r in s2.caps && r in s2.rank && s2.rank[r] == bound && Settled(s2, d, bound)
    requires Target(s2, d) != 0 ==> Client(j) in s2.holder && s2.holder[Client(j)] == Target(s2, d)
    ensures Storable(s2, r, d, j) && HasCopyDispose(s2.flags[r])
  {
    SameKind(s1, s2, r);
  }

  lemma StoredBuilt(s2: State, s3: State, r: Ref, k: nat, d: Capture, j: nat, bound: nat)
    requires Storable(s2, r, d, j) && BeingBuilt(s2, r, bound, k) && j != k && s3 == Stored(s2, r, d, j)
    ensures BeingBuilt(s3, r, bound, k)
  {
  }

  lemma AssignedBuilt(s1: State, s2: State, s3: State, r: Ref, base: set<Ref>, k: nat, d: Capture, j: nat, bound: nat)
    requires Assigned(s1, s2, base, d, j, bound) && BeingBuilt(s1, r, bound, k) && HasCopyDispose(s1.flags[r])
    requires s3 == Stored(s2, r, d, j)
    ensures Storable(s2, r, d, j) && Valid(s3) && BeingBuilt(s3, r, bound, k) && HasCopyDispose(s3.flags[r])
  {
    AssignedStorable(s1, s2, r, d, j, bound);
    StoredValid(s2, r, d, j);
    StoredBuilt(s2, s3, r, k, d, j, bound);
  }

  lemma BuildOnCopies(s0: State, s1: State, s2: State, s3: State, p: Ref, r: Ref, n: nat, base: set<Ref>, k: nat,
                      d: Capture, j: nat)
    requires Building(s0, s1, p, r, n, base, k) && n < |s0.caps[p]| && r in s2.caps
    requires forall i | 0 <= i < |s0.caps[p]| :: Capturable(s0, p, i, base)
    requires Assigned(s1, s2, base, d, j, s0.rank[p]) && CopyOf(s2, s0.caps[p][n], d) && s3 == Stored(s2, r, d, j)
    ensures |s3.caps[r]| == n + 1 && Copies(s3, s0.caps[p], s3.caps[r])
  {
    GrowsTrans(s0, s1, s2, base);
    SameKind(s1, s2, r);
    BuiltCopies(s0, s1, s2, s3, p, r, base, d, j);
  }

  lemma BuildOn(s0: State, s1: State, s2: State, s3: State, p: Ref, r: Ref, n: nat, base: set<Ref>, k: nat,
      d: Capture, j: nat)
    requires Building(s0, s1, p, r, n, base, k) && n < |s0.caps[p]| && HasCopyDispose(s1.flags[r])
    requires forall i | 0 <= i < |s0.caps[p]| :: Capturable(s0, p, i, base)
    requires Assigned(s1, s2, base, d, j, s0.rank[p]) && CopyOf(s2, s0.caps[p][n], d) && s3 == Stored(s2, r, d, j)
    ensures Building(s0, s3, p, r, n + 1, base, k) && HasCopyDispose(s3.flags[r]) && Storable(s2, r, d, j)
  {
    AssignedBuilt(s1, s2, s3, r, base, k, d, j, s0.rank[p]);
    AssignedGrows(s0, s1, s2, s3, r, base, k, d, j, s0.rank[p]);
    BuildOnCopies(s0, s1, s2, s3, p, r, n, base, k, d, j);
  }

  lemma OldTickets(s: State, j: nat)
    requires EdgeInv(s) && j >= s.ticket
    ensures Client(j) !in s.holder
  {
    assert forall e | e in s.holder :: EdgeAt(s, e) && (e.Client? ==> e.k < s.ticket);
  }

  lemma Shallow(s0: State, s: State, p: Ref, i: nat, base: set<Ref>)
    requires NamesInv(s0) && Grows(s0, s) && p in s0.caps && p in s0.rank && i < |s0.caps[p]|
      && Capturable(s0, p, i, base)
    ensures Depth(s, s0.caps[p][i]) <= s0.rank[p]
  {
  }

  lemma BuiltCopy(s0: State, s2: State, s3: State, p: Ref, r: Ref, base: set<Ref>, i: nat, c: Capture, d: Capture)
    requires Grows(s0, s2) && p in s0.caps && p in s0.rank && NamesInv(s0) && i < |s0.caps[p]| && c == s0.caps[p][i]
    requires Capturable(s0, p, i, base) && CopyOf(s2, c, d)
    requires r in s2.rank && Heap(s2, r) && s2.rank[r] == s0.rank[p]
    requires s3.flags == s2.flags && s3.fwd == s2.fwd && s3.rank == s2.rank
    requires forall b | b in s2.caps && b != r :: b in s3.caps && s3.caps[b] == s2.caps[b]
    ensures CopyOf(s3, c, d)
  {
    Shallow(s0, s2, p, i, base);
    CopyOfStored(s2, s3, r, c, d);
  }

  lemma CopiesStay(s: State, s': State, cs: seq<Capture>, ds: seq<Capture>)
    requires NamesInv(s) && ForwardInv(s) && Grows(s, s') && Copies(s, cs, ds)
    ensures Copies(s', cs, ds)
  {
    forall i | 0 <= i < |ds| ensures CopyOf(s', cs[i], ds[i]) { CopyOfStays(s, s', cs[i], ds[i]); }
  }

  lemma CopiesStored(s0: State, s2: State, s3: State, p: Ref, r: Ref, base: set<Ref>, ds: seq<Capture>)
    requires Grows(s0, s2) && p in s0.caps && p in s0.rank && NamesInv(s0) && Copies(s2, s0.caps[p], ds)
    requires forall i | 0 <= i < |s0.caps[p]| :: Capturable(s0, p, i, base)
    requires r in s2.rank && Heap(s2, r) && s2.rank[r] == s0.rank[p]
    requires s3.flags == s2.flags && s3.fwd == s2.fwd && s3.rank == s2.rank
    requires forall b | b in s2.caps && b != r :: b in s3.caps && s3.caps[b] == s2.caps[b]
    ensures Copies(s3, s0.caps[p], ds)
  {
    forall i | 0 <= i < |ds| ensures CopyOf(s3, s0.caps[p][i], ds[i]) {
      BuiltCopy(s0, s2, s3, p, r, base, i, s0.caps[p][i], ds[i]);
    }
  }

  lemma CopiesLonger(s: State, cs: seq<Capture>, ds: seq<Capture>, d: Capture)
    requires Copies(s, cs, ds) && |ds| < |cs| && CopyOf(s, cs[|ds|], d)
    ensures Copies(s, cs, ds + [d])
  {
  }

  lemma BuiltCopies(s0: State, s1: State, s2: State, s3: State, p: Ref, r: Ref, base: set<Ref>, d: Capture, j: nat)
    requires NamesInv(s0) && NamesInv(s1) && ForwardInv(s1) && Grows(s0, s2) && Grows(s1, s2)
    requires p in s0.caps && p in s0.rank && r in s1.caps && r in s2.caps && s2.caps[r] == s1.caps[r]
    requires |s1.caps[r]| < |s0.caps[p]| && Copies(s1, s0.caps[p], s1.caps[r])
    requires forall i | 0 <= i < |s0.caps[p]| :: Capturable(s0, p, i, base)
    requires CopyOf(s2, s0.caps[p][|s1.caps[r]|], d) && (Target(s2, d) != 0 ==> Client(j) in s2.holder)
    requires r in s2.rank && Heap(s2, r) && s2.rank[r] == s0.rank[p]
    requires s3 == Stored(s2, r, d, j)
    ensures |s3.caps[r]| == |s1.caps[r]| + 1 && Copies(s3, s0.caps[p], s3.caps[r])
  {
    var ds := s1.caps[r];
    CopiesStay(s1, s2, s0.caps[p], ds);
    CopiesLonger(s2, s0.caps[p], ds, d);
    CopiesStored(s0, s2, s3, p, r, base, ds + [d]);
  }

  /** When all captures are in place, the heap block is a copy of the stack block. */
  lemma BuiltIsCopy(s0: State, s: State, p: Ref, r: Ref, base: set<Ref>, k: nat)
    requires p in s0.caps && p in s0.flags && !Shared(s0, p) && Building(s0, s, p, r, |s0.caps[p]|, base, k)
    requires forall i | 0 <= i < |s0.caps[p]| :: Capturable(s0, p, i, base)
    ensures !Shared(s, p) && HeapCopy(s, p, r)
  {
    SharedStays(s0, s, p);
    forall i | 0 <= i < |s.caps[p]|
      ensures Depth(s, s.caps[p][i]) <= s.rank[p] && CopyOf(s, s.caps[p][i], s.caps[r][i])
    {
      Shallow(s0, s, p, i, base);
    }
  }

  // ------------------------------------------------------------------ what releasing changes

  /** Releasing only takes away: the hold `k`, heap objects that nobody holds any more, and their captures. */
  ghost predicate Shrinks(s: State, s': State, k: nat) {
    && Survives(s, s') && s'.dying == s.dying && s.dying <= s'.caps.Keys
    && (forall b | b in s'.caps :: s'.caps[b] == s.caps[b])
    && (forall e | e in s.holder && e !in s'.holder :: e == Client(k) || (e.Slot? && e.b !in s'.flags))
    && Client(k) !in s'.holder
  }

  ghost predicate Survives(s: State, s': State) { SurvivingFlags(s, s') && SurvivingLinks(s, s') }

  /** Only unlatched heap objects disappear, and each one that does is recorded as freed. */
  ghost predicate SurvivingFlags(s: State, s': State) {
    && s'.flags.Keys <= s.flags.Keys && s'.freed == s.freed + (s.flags.Keys - s'.flags.Keys)
    && (forall o | o in s'.flags :: High(s'.flags[o]) == High(s.flags[o]) && s'.flags[o] <= s.flags[o])
    && (forall o | o in s.flags && o !in s'.flags :: Heap(s, o))
    && (forall o | o in s.flags && Latched(s.flags[o]) :: o in s'.flags && s'.flags[o] == s.flags[o])
  }

  ghost predicate SurvivingLinks(s: State, s': State) {
    && s'.caps.Keys == s.caps.Keys * s'.flags.Keys && s'.fwd.Keys == s.fwd.Keys * s'.flags.Keys
    && (forall y | y in s'.fwd :: s'.fwd[y] == s.fwd[y])
    && s'.rank == s.rank && s'.ticket >= s.ticket
    && (forall e | e in s'.holder :: e in s.holder && s'.holder[e] == s.holder[e])
  }

  /** The captures of the dying block `p` are being disposed of, the last ones first. */
  ghost predicate Disposing(s0: State, s: State, p: Ref, k: nat) {
    && Survives(s0, s) && s.dying == s0.dying + {p} && p !in s0.dying && p in s.caps && s0.dying <= s.caps.Keys
    && s.caps[p] <= s0.caps[p] && (forall b | b in s.caps && b != p :: s.caps[b] == s0.caps[b])
    && (forall e | e in s0.holder && e !in s.holder ::
          e == Client(k) || (e.Slot? && (e.b !in s.flags || (e.b == p && e.i >= |s.caps[p]|))))
    && Client(k) !in s.holder
  }

  lemma DropSurvives(s: State, k: nat, s': State, p: Ref)
    requires Client(k) in s.holder && p == s.holder[Client(k)] && p in s.flags && Heap(s, p) && s' == Dropped(s, k)
      && NamesInv(s)
    ensures Survives(s, s')
    ensures forall e | e in s.holder && e !in s'.holder :: e == Client(k)
  {
    LatchingCount(s.flags[p]);
    assert s.caps.Keys * s.flags.Keys == s.caps.Keys && s.fwd.Keys * s.flags.Keys == s.fwd.Keys;
    assert s.freed + (s.flags.Keys - s'.flags.Keys) == s.freed;
  }

  lemma DropDisposes(s: State, k: nat, s': State, p: Ref)
    requires Valid(s) && Client(k) in s.holder && p == s.holder[Client(k)] && p in s.caps && s' == Dropped(s, k)
    ensures Count(s'.flags[p]) == 0 ==> Disposing(s, s', p, k)
    ensures Count(s'.flags[p]) != 0 ==> Shrinks(s, s', k)
  {
    assert EdgeAt(s, Client(k));
    DropSurvives(s, k, s', p);
    assert forall o | o in s.dying :: o in s.caps;
  }

  lemma FreeFlags(s0: State, s: State, p: Ref, s': State)
    requires SurvivingFlags(s0, s) && p in s.flags && Heap(s0, p) && s' == BlockFreed(s, p) && Count(s.flags[p]) == 0
    ensures SurvivingFlags(s0, s')
  {
    assert s'.freed == s0.freed + (s0.flags.Keys - s'.flags.Keys);
  }

  lemma FreeLinks(s0: State, s: State, p: Ref, s': State)
    requires NamesInv(s0) && NamesInv(s) && SurvivingLinks(s0, s) && p in s.caps && s' == BlockFreed(s, p)
    ensures SurvivingLinks(s0, s')
  {
    assert s.fwd.Keys * (s.flags.Keys - {p}) == s.fwd.Keys * s.flags.Keys;
  }

  lemma FreedShrinks(s0: State, s: State, p: Ref, k: nat, n: Ref)
    requires NamesInv(s0) && Valid(s) && Disposing(s0, s, p, k) && s.caps[p] == [] && Heap(s0, p) && Below(s, n)
    ensures Shrinks(s0, BlockFreed(s, p), k) && Valid(BlockFreed(s, p)) && Below(BlockFreed(s, p), n)
  {
    FreeShrinks(s0, s, p, k, BlockFreed(s, p));
    BlockFreedValid(s, p);
  }

  lemma FreeShrinks(s0: State, s: State, p: Ref, k: nat, s': State)
    requires NamesInv(s0) && Valid(s) && Disposing(s0, s, p, k) && s.caps[p] == [] && Heap(s0, p)
      && s' == BlockFreed(s, p)
    ensures Shrinks(s0, s', k)
  {
    assert CountAt(s, p);
    FreeFlags(s0, s, p, s');
    FreeLinks(s0, s, p, s');
  }

  /** A capture that was taken out of a block of rank `bound`, and the hold `t` it came with. */
  ghost predicate Taken(s: State, c: Capture, t: nat, bound: nat) {
    match c
    case OfBlock(q) =>
      && (q != 0 ==> q in s.caps && q in s.rank && s.rank[q] < bound)
      && (if Heap(s, q) then Client(t) in s.holder && s.holder[Client(t)] == q else Client(t) !in s.holder)
    case OfByref(y) => y in s.fwd && Heap(s, y) && Client(t) in s.holder && s.holder[Client(t)] == y
  }

  lemma LastTaken(s: State, p: Ref, s': State)
    requires Valid(s) && p in s.dying && p in s.rank && s.caps[p] != [] && s' == Unstored(s, p)
    ensures Taken(s', s.caps[p][|s.caps[p]| - 1], s.ticket, s.rank[p])
  {
    var n := |s.caps[p]| - 1;
    assert SlotAt(s, p, n);
    NewTicket(s);
    assert Slot(p, n) in s.holder ==> EdgeAt(s, Slot(p, n));
  }

  lemma ByrefFlags(s: State, k: nat, o: Ref, s': State)
    requires NamesInv(s) && Client(k) in s.holder && o == s.holder[Client(k)] && o in s.fwd && Heap(s, o)
      && s' == ByrefDropped(s, k)
    ensures SurvivingFlags(s, s')
  {
    LatchingCount(s.flags[o]);
    assert s'.freed == s.freed + (s.flags.Keys - s'.flags.Keys);
  }

  lemma ByrefSurvives(s: State, k: nat, o: Ref, s': State)
    requires NamesInv(s) && Client(k) in s.holder && o == s.holder[Client(k)] && o in s.fwd && Heap(s, o)
      && s' == ByrefDropped(s, k)
    ensures Survives(s, s') && s'.caps == s.caps && s'.dying == s.dying
  {
    ByrefFlags(s, k, o, s');
    assert s.caps.Keys * s'.flags.Keys == s.caps.Keys;
  }

  lemma ByrefShrinks(s: State, k: nat, o: Ref, s': State)
    requires Valid(s) && Client(k) in s.holder && o == s.holder[Client(k)] && o in s.fwd && s' == ByrefDropped(s, k)
    ensures Shrinks(s, s', k)
  {
    assert EdgeAt(s, Client(k));
    ByrefSurvives(s, k, o, s');
    assert forall q | q in s.dying :: q in s.caps;
  }

  lemma Nothing(s: State, k: nat)
    requires Valid(s) && Client(k) !in s.holder
    ensures Shrinks(s, s, k)
  {
    assert s.caps.Keys * s.flags.Keys == s.caps.Keys && s.fwd.Keys * s.flags.Keys == s.fwd.Keys;
    assert s.freed + (s.flags.Keys - s.flags.Keys) == s.freed;
    assert forall o | o in s.dying :: o in s.caps;
  }

  /** One capture more was taken out of the dying block, and what it referred to released. */
  lemma DisposeOn(s0: State, s1: State, s2: State, s3: State, p: Ref, k: nat)
    requires Disposing(s0, s1, p, k) && s1.caps[p] != [] && s2 == Unstored(s1, p) && Shrinks(s2, s3, s1.ticket)
    requires Client(s1.ticket) !in s1.holder && s1.ticket > k && Client(s1.ticket) !in s0.holder
    ensures Disposing(s0, s3, p, k)
  {
    DisposeSurvives(s0, s1, s2, s3, p);
  }

  lemma DisposeLinks(s0: State, s1: State, s2: State, s3: State, p: Ref)
    requires SurvivingLinks(s0, s1) && p in s1.caps && s1.caps[p] != [] && s2 == Unstored(s1, p)
    requires SurvivingLinks(s2, s3) && s3.flags.Keys <= s1.flags.Keys
    requires Client(s1.ticket) !in s1.holder && Client(s1.ticket) !in s3.holder
    ensures SurvivingLinks(s0, s3)
  {
    assert s3.caps.Keys == s0.caps.Keys * s3.flags.Keys;
    assert s3.fwd.Keys == s0.fwd.Keys * s3.flags.Keys;
  }

  lemma DisposeSurvives(s0: State, s1: State, s2: State, s3: State, p: Ref)
    requires Survives(s0, s1) && p in s1.caps && s1.caps[p] != [] && s2 == Unstored(s1, p) && Shrinks(s2, s3, s1.ticket)
    requires Client(s1.ticket) !in s1.holder
    ensures Survives(s0, s3)
  {
    FlagsTrans(s0, s1, s2, s3);
    DisposeLinks(s0, s1, s2, s3, p);
  }

  lemma FlagsTrans(s0: State, s1: State, s2: State, s3: State)
    requires SurvivingFlags(s0, s1) && SurvivingFlags(s2, s3) && s2.flags == s1.flags && s2.freed == s1.freed
    ensures SurvivingFlags(s0, s3)
  {
    assert s3.flags.Keys <= s1.flags.Keys;
    forall o | o in s0.flags && o !in s3.flags ensures Heap(s0, o) {
      if o in s1.flags { assert Heap(s2, o); }
    }
  }

  class Runtime {
    var flags: map<Ref, nat>
    var caps: map<Ref, seq<Capture>>
    var fwd: map<Ref, Ref>
    var brk: nat                      // malloc: the next unused name
    ghost var holder: map<Edge, Ref>
    ghost var freed: set<Ref>
    ghost var dying: set<Ref>
    ghost var rank: map<Ref, nat>
    ghost var ticket: nat

    ghost function S(): State
      reads this
    {
      State(flags, caps, fwd, holder, freed, dying, rank, ticket)
    }

    ghost predicate Ok()
      reads this
    {
      Valid(S()) && Below(S(), brk)
    }

    /** The state becomes `s`, whose memory part is already in place. */
    ghost method Record(s: State)
      requires s.flags == flags && s.caps == caps && s.fwd == fwd
      modifies `holder, `freed, `dying, `rank, `ticket
      ensures S() == s
    {
      holder, freed, dying, rank, ticket := s.holder, s.freed, s.dying, s.rank, s.ticket;
    }

    /** The byref `src` is still on the stack: it is copied to the heap, and forwards there. */
    method PromoteByref(src: Ref, ghost base: set<Ref>) returns (copy: Ref)
      requires Ok() && src in fwd && src in flags && fwd[src] == src && !Heap(S(), src)
      modifies this
      ensures Ok() && copy in fwd && src in fwd && fwd[src] == copy
      ensures Gains(old(S()), S(), copy, base)
      ensures copy in flags && High(flags[copy]) == High(old(flags)[src]) + 0x100
    {
      HeapFlagsAre(flags[src], 2);
      ghost var s, s' := S(), Promoted(S(), src, brk);
      copy := brk;
      PromotedGains(s, src, copy, base, s');
      MoveByref(src, s');
    }

    /** The stores that move a byref to the heap. */
    method MoveByref(src: Ref, ghost s': State)
      requires src in flags && s' == Promoted(S(), src, brk)
      modifies this
      ensures S() == s' && brk == old(brk) + 1
    {
      var copy, f := brk, HeapFlags(flags[src], 2);
      flags, fwd, brk := flags[copy := f], fwd[copy := copy][src := copy], brk + 1;
      Record(s');
    }

    /** latching_incr_int on a heap object that a client takes hold of. */
    method Retain(o: Ref, ghost base: set<Ref>)
      requires Ok() && Heap(S(), o) && o !in dying && (o in caps ==> o in base)
      modifies this
      ensures Ok() && Gains(old(S()), S(), o, base) && caps == old(caps) && fwd == old(fwd)
    {
      ghost var s := S();
      HeldGains(s, o, base);
      flags := flags[o := Inc(flags[o])];
      Record(Held(s, o));
    }

    /** _Block_byref_assign_copy: the heap byref behind `src`, with one more hold. */
    method ByrefAssignCopy(src: Ref, ghost base: set<Ref>) returns (dest: Ref, ghost k: nat)
      requires Ok() && src in fwd && dying == {}
      modifies this
      ensures Ok() && src in fwd && fwd[src] == dest && dest in fwd
      ensures k == old(ticket) && Gains(old(S()), S(), dest, base)
      ensures src in old(flags) && !Heap(old(S()), old(fwd)[src]) ==>
        dest in flags && High(flags[dest]) == High(old(flags)[src]) + 0x100
    {
      ghost var s := S();
      assert ForwardAt(s, src) && CountAt(s, src);
      dest, k := fwd[src], ticket;
      assert CountAt(s, dest);
      if Count(flags[dest]) == 0 {
        dest := PromoteByref(src, base);
      } else if NeedsFree(flags[dest]) {
        Retain(dest, base);
      }
    }

    /** _Block_object_assign, for the captures that need help. */
    method ObjectAssign(c: Capture, ghost base: set<Ref>, ghost bound: nat) returns (d: Capture, ghost k: nat)
      requires Ok() && dying == {} && base <= flags.Keys && Assignable(S(), c, base, bound)
      modifies this
      ensures Ok() && CopyOf(S(), c, d) && Assigned(old(S()), S(), base, d, k, bound)
      ensures c.OfBlock? && !Shared(old(S()), c.p) ==> d.p !in old(flags)
      decreases bound + 1, 0
    {
      match c
      case OfBlock(q) =>
        var w;
        w, k := Copy(q, base);
        d := OfBlock(w);
      case OfByref(y) =>
        var z;
        z, k := ByrefAssignCopy(y, base);
        d := OfByref(z);
    }

    /** _Block_copy_internal: NULL, global and heap blocks stand for themselves, a stack block is copied. */
    method Copy(p: Ref, ghost base: set<Ref>) returns (r: Ref, ghost k: nat)
      requires Ok() && dying == {} && base <= flags.Keys && Copyable(S(), p, base)
      modifies this
      ensures Ok() && dying == {} && k >= old(ticket)
      ensures Grows(old(S()), S()) && Spared(old(S()), S(), base) && NewHolders(old(S()), S(), k)
      ensures CopyOf(S(), OfBlock(p), OfBlock(r))
      ensures r != 0 ==> r in caps && r in flags && r in rank && (Heap(S(), r) || IsGlobal(flags[r]))
      ensures r != 0 ==> p in old(rank) && rank[r] == old(rank)[p]
      ensures Heap(S(), r) <==> Client(k) in holder
      ensures Heap(S(), r) ==> holder[Client(k)] == r
      ensures !Shared(old(S()), p) ==>
        p in caps && r !in old(flags) && caps[p] == old(caps)[p] && !Shared(S(), p) && HeapCopy(S(), p, r)
      decreases (if p != 0 && p in rank then rank[p] + 1 else 0), 3
    {
      k := ticket;
      NewTicket(S());
      if p == 0 {
        r := 0;
      } else if NeedsFree(flags[p]) {
        Retain(p, base);
        r := p;
      } else if IsGlobal(flags[p]) {
        r := p;
      } else {
        r := CopyStack(p, base, k);
      }
    }

    /** A new heap block with the flags of the stack block `p` and no captures yet. */
    method Allocate(p: Ref, ghost base: set<Ref>) returns (r: Ref)
      requires Ok() && p in flags && p in rank && !NeedsFree(flags[p])
      modifies this
      ensures Ok() && Gains(old(S()), S(), r, base) && r !in old(flags) && r in caps && caps[r] == []
      ensures r in rank && rank[r] == rank[p] && r in flags && HasCopyDispose(flags[r]) == HasCopyDispose(old(flags)[p])
      ensures High(flags[r]) == High(old(flags)[p]) + 0x100
    {
      CopiedGains(S(), brk, flags[p], rank[p], base, Copied(S(), brk, flags[p], rank[p]));
      HeapFlagsAre(flags[p], 1);
      r := Malloc(flags[p], rank[p]);
    }

    /** malloc() of a block without captures yet, with the flags of a heap block and the count 1. */
    method Malloc(f: nat, ghost rk: nat) returns (r: Ref)
      requires !NeedsFree(f)
      modifies this
      ensures r == old(brk) && brk == r + 1 && S() == Copied(old(S()), r, f, rk)
    {
      ghost var s := S();
      r := brk;
      flags, caps, brk := flags[r := HeapFlags(f, 1)], caps[r := []], brk + 1;
      Record(Copied(s, r, f, rk));
    }

    /** The heap copy of a stack block: its copy helper fixes up one capture after the other. */
    method CopyStack(p: Ref, ghost base: set<Ref>, ghost k: nat) returns (r: Ref)
      requires Ok() && dying == {} && base <= flags.Keys && Copyable(S(), p, base) && k == ticket
      requires p != 0 && !Heap(S(), p) && !IsGlobal(flags[p])
      modifies this
      ensures Ok() && Building(old(S()), S(), p, r, |old(caps)[p]|, base, k)
      ensures !Shared(S(), p) && HeapCopy(S(), p, r)
      decreases rank[p] + 1, 2
    {
      ghost var s0 := S();
      var cs := caps[p];
      r := Allocate(p, base);
      assert Building(s0, S(), p, r, 0, base, k);
      if HasCopyDispose(flags[r]) {
        for i := 0 to |cs|
          invariant Ok() && Building(s0, S(), p, r, i, base, k) && HasCopyDispose(flags[r])
        {
          FixUp(s0, p, i, r, base, k, cs);
        }
      }
      BuiltIsCopy(s0, S(), p, r, base, k);
    }

    /** The store of a copy helper: the heap block `r` gets the capture `d` and takes over the hold `j`. */
    method Store(r: Ref, d: Capture, ghost j: nat)
      requires Ok() && Storable(S(), r, d, j)
      modifies `caps, `holder, `freed, `dying, `rank, `ticket
      ensures Ok() && S() == Stored(old(S()), r, d, j)
    {
      ghost var s := S();
      StoredValid(s, r, d, j);
      caps := caps[r := caps[r] + [d]];
      Record(Stored(s, r, d, j));
    }

    /** The copy helper handles capture `i` of the stack block `p`, for its heap copy `r`. */
    method FixUp(ghost s0: State, ghost p: Ref, i: nat, r: Ref, ghost base: set<Ref>, ghost k: nat, cs: seq<Capture>)
      requires Ok() && Building(s0, S(), p, r, i, base, k) && HasCopyDispose(flags[r])
      requires cs == s0.caps[p] && i < |cs| && forall j | 0 <= j < |cs| :: Capturable(s0, p, j, base)
      modifies this
      ensures Ok() && Building(s0, S(), p, r, i + 1, base, k) && HasCopyDispose(flags[r])
      decreases s0.rank[p] + 1, 1
    {
      ghost var s1 := S();
      StillAssignable(s0, s1, p, i, base);
      var d;
      ghost var j;
      d, j := ObjectAssign(cs[i], base, s0.rank[p]);
      ghost var s2 := S();
      BuildOn(s0, s1, s2, Stored(s2, r, d, j), p, r, i, base, k, d, j);
      Store(r, d, j);
    }

    // ------------------------------------------------------------------ releasing

    /** _Block_byref_release of the heap byref `arg`, by the holder `k`. */
    method ByrefRelease(arg: Ref, ghost k: nat)
      requires Ok() && arg in fwd && Heap(S(), arg) && Client(k) in holder && holder[Client(k)] == arg
      modifies this
      ensures Ok() && Shrinks(old(S()), S(), k)
    {
      ghost var s := S();
      assert ForwardAt(s, arg) && EdgeAt(s, Client(k)) && CountAt(s, arg);
      var shared := fwd[arg];
      ByrefDroppedValid(s, k);
      ByrefShrinks(s, k, shared, ByrefDropped(s, k));
      if NeedsFree(flags[shared]) && Count(flags[shared]) > 0 {
        var f := Dec(flags[shared]);
        if Count(f) == 0 {
          flags, fwd := flags - {shared}, fwd - {shared};
        } else {
          flags := flags[shared := f];
        }
        Record(ByrefDropped(s, k));
      }
    }

    /** The count of the heap block `p` goes down by the hold `k`. */
    method Decrement(p: Ref, ghost k: nat)
      requires Ok() && Heap(S(), p) && p in caps && Client(k) in holder && holder[Client(k)] == p
      modifies this
      ensures Ok() && S() == Dropped(old(S()), k)
    {
      ghost var s := S();
      DroppedValid(s, k);
      flags := flags[p := Dec(flags[p])];
      Record(Dropped(s, k));
    }

    /** _Block_release by the holder `k`, if `p` is a heap block; other blocks are left alone. */
    method Release(p: Ref, ghost k: nat)
      requires Ok() && (p != 0 ==> p in caps && p in rank)
      requires Heap(S(), p) ==> Client(k) in holder && holder[Client(k)] == p
      requires !Heap(S(), p) ==> Client(k) !in holder
      modifies this
      ensures Ok() && Shrinks(old(S()), S(), k)
      decreases (if p != 0 && p in rank then rank[p] + 1 else 0), 3
    {
      ghost var s := S();
      if p == 0 { Nothing(s, k); return; }
      assert CountAt(s, p);
      if NeedsFree(flags[p]) {
        DropDisposes(s, k, Dropped(s, k), p);
        Decrement(p, k);
        if Count(flags[p]) > 0 { return; }
        Dispose(p, k, s);
      } else {
        Nothing(s, k);
      }
    }

    /** The count of the heap block `p` reached zero: its captures are disposed of, and it is deallocated. */
    method Dispose(p: Ref, ghost k: nat, ghost s0: State)
      requires Ok() && Valid(s0) && Disposing(s0, S(), p, k) && p in rank && Heap(s0, p) && k < s0.ticket
      modifies this
      ensures Ok() && Shrinks(s0, S(), k)
      decreases rank[p] + 1, 2
    {
      ghost var rk := rank[p];
      while caps[p] != []
        invariant Ok() && Disposing(s0, S(), p, k) && p in rank && rank[p] == rk
        decreases |caps[p]|
      {
        DisposeLast(p, k, s0);
      }
      Deallocate(p, k, s0);
    }

    method Deallocate(p: Ref, ghost k: nat, ghost s0: State)
      requires Ok() && NamesInv(s0) && Disposing(s0, S(), p, k) && Heap(s0, p) && caps[p] == []
      modifies this
      ensures Ok() && Shrinks(s0, S(), k)
    {
      FreedShrinks(s0, S(), p, k, brk);
      Free(p);
    }

    /** free(): the memory of `p` is gone. */
    method Free(p: Ref)
      modifies this
      ensures S() == BlockFreed(old(S()), p) && brk == old(brk)
    {
      ghost var s := S();
      flags, caps := flags - {p}, caps - {p};
      Record(BlockFreed(s, p));
    }

    /** _Block_object_dispose for the last capture of the dying block `p`. */
    method DisposeLast(p: Ref, ghost k: nat, ghost s0: State)
      requires Ok() && EdgeInv(s0) && Disposing(s0, S(), p, k) && p in rank && caps[p] != [] && k < s0.ticket
      modifies this
      ensures Ok() && Disposing(s0, S(), p, k) && |caps[p]| == |old(caps[p])| - 1
      decreases rank[p] + 1, 1
    {
      ghost var s1 := S();
      ghost var t := ticket;
      var c := TakeLast(p);
      ghost var s2 := S();
      ObjectDispose(c, t, rank[p]);
      OldTickets(s0, t);
      OldTickets(s1, t);
      DisposeOn(s0, s1, s2, S(), p, k);
      assert caps[p] == s2.caps[p];
    }

    /** _Block_object_dispose: releases a block or a byref that a block of rank `bound` captured. */
    method ObjectDispose(c: Capture, ghost t: nat, ghost bound: nat)
      requires Ok() && Taken(S(), c, t, bound)
      modifies this
      ensures Ok() && Shrinks(old(S()), S(), t)
      decreases bound + 1, 0
    {
      match c
      case OfBlock(q) => Release(q, t);
      case OfByref(y) => ByrefRelease(y, t);
    }

    /** The last capture is taken out of a dying block. */
    method TakeLast(p: Ref) returns (c: Capture)
      requires Ok() && p in dying && p in caps && caps[p] != [] && p in rank
      modifies this
      ensures Ok() && S() == Unstored(old(S()), p) && Taken(S(), c, old(ticket), rank[p])
    {
      ghost var s := S();
      c := caps[p][|caps[p]| - 1];
      UnstoredValid(s, p);
      LastTaken(s, p, Unstored(s, p));
      caps := caps[p := caps[p][..|caps[p]| - 1]];
      Record(Unstored(s, p));
    }

    // ------------------------------------------------------------------ scopes

    constructor ()
      ensures Ok() && flags == map[] && holder == map[] && freed == {} && dying == {}
    {
      flags, caps, fwd, brk := map[], map[], map[], 1;
      holder, freed, dying, rank, ticket := map[], {}, {}, map[], 0;
    }

    /** A block literal: on the stack, or global. */
    method DeclareBlock(f: nat, cs: seq<Capture>, ghost rk: nat) returns (b: Ref)
      requires Ok() && !NeedsFree(f) && Count(f) == 0
      modifies this
      ensures Ok() && S() == Declared(old(S()), b, f, cs, rk) && b !in old(flags)
    {
      ghost var s := S();
      b := brk;
      BrkUnused(s, b);
      DeclaredValid(s, b, f, cs, rk);
      flags, caps, brk := flags[b := f], caps[b := cs], brk + 1;
      Record(Declared(s, b, f, cs, rk));
    }

    /** A __block variable. */
    method DeclareByref(f: nat) returns (y: Ref)
      requires Ok() && !NeedsFree(f) && Count(f) == 0
      modifies this
      ensures Ok() && S() == ByrefDeclared(old(S()), y, f) && y !in old(flags)
    {
      ghost var s := S();
      y := brk;
      BrkUnused(s, y);
      ByrefDeclaredValid(s, y, f);
      flags, fwd, brk := flags[y := f], fwd[y := y], brk + 1;
      Record(ByrefDeclared(s, y, f));
    }

    /** The end of a __block variable's scope: _Block_object_dispose gives up the share of the stack frame. */
    method LeaveScope(y: Ref)
      requires Ok() && y in fwd && !Heap(S(), y) && y in flags
      modifies this
      ensures Ok() && y !in flags && Shrinks(Unframed(old(S()), y), S(), old(ticket))
    {
      ghost var s := S();
      assert ForwardAt(s, y);
      var target := fwd[y];
      ghost var t := ticket;
      NewTicket(s);
      UnframedValid(s, y);
      if target == y { NoFrame(s, y); Nothing(Unframed(s, y), t); }
      Pop(y);
      if target != y { ByrefRelease(target, t); }
    }

    /** The stack memory of `y` is gone. */
    method Pop(y: Ref)
      modifies this
      ensures S() == Unframed(old(S()), y) && brk == old(brk)
    {
      ghost var s := S();
      flags, fwd := flags - {y}, fwd - {y};
      Record(Unframed(s, y));
    }
  }
}
