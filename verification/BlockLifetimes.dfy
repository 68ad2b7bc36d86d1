/**
 What the reference counts of the Blocks runtime guarantee over whole lifetimes: an object that has
 not latched lives exactly as long as somebody holds it, and a copy that is released again leaves
 everything else as it was.
*/
module BlockLifetimes {
  import opened BlockHolds
  import opened BlocksRuntime

  /** Holders and heap objects: whatever is held is alive, and whatever is alive and has not latched is held. */
  lemma LiveIffHeld(s: State, o: Ref)
    requires Valid(s) && s.dying == {}
    ensures Holds(s.holder, o) != {} ==> Heap(s, o) && o !in s.freed
    ensures Heap(s, o) && !Latched(s.flags[o]) ==> Holds(s.holder, o) != {} && Count(s.flags[o]) == |Holds(s.holder, o)|
  {
    if o in s.flags { assert CountAt(s, o); }
    forall e | e in Holds(s.holder, o) ensures Heap(s, o) { assert EdgeAt(s, e); }
  }

  /** Forwarding is idempotent: a byref is reached in one step, from the stack or from the heap. */
  lemma ForwardingIdempotent(s: State, y: Ref)
    requires Valid(s) && y in s.fwd
    ensures s.fwd[y] in s.fwd && s.fwd[s.fwd[y]] == s.fwd[y]
  {
    assert ForwardAt(s, y);
    if s.fwd[y] in s.fwd { assert ForwardAt(s, s.fwd[y]); }
  }

  /** A finite set in which every element is below another one is empty. */
  lemma {:induction false} NoneHighest(xs: set<Ref>, rank: map<Ref, nat>)
    requires forall x | x in xs :: x in rank
    requires forall x | x in xs :: exists y :: y in xs && rank[x] < rank[y]
    ensures xs == {}
  {
    if xs != {} {
      var top := Highest(xs, rank);
      assert false;
    }
  }

  lemma {:induction false} Highest(xs: set<Ref>, rank: map<Ref, nat>) returns (top: Ref)
    requires xs != {} && forall x | x in xs :: x in rank
    ensures top in xs && forall x | x in xs :: rank[x] <= rank[top]
    decreases |xs|
  {
    var x :| x in xs;
    if xs == {x} {
      top := x;
    } else {
      var rest := xs - {x};
      assert |rest| < |xs|;
      var y := Highest(rest, rank);
      top := if rank[x] > rank[y] then x else y;
    }
  }

  /** A copy (`s0` to `s1`) whose result is released again (`s1` to `s2`) by its client `k`. */
  ghost predicate RoundTrip(s0: State, s1: State, s2: State, k: nat) {
    && Valid(s0) && Valid(s1) && Valid(s2) && s0.dying == {}
    && Grows(s0, s1) && NewHolders(s0, s1, k) && k >= s0.ticket && Shrinks(s1, s2, k)
  }

  /** An edge of the final state is old, or belongs to a block that the copy made, or to a promoted byref's frame. */
  lemma FinalEdge(s0: State, s1: State, s2: State, k: nat, e: Edge)
    requires RoundTrip(s0, s1, s2, k) && e in s2.holder
    ensures e in s0.holder ==> s2.holder[e] == s0.holder[e] && s0.holder[e] in s0.flags
    ensures e !in s0.holder ==>
      (e.Slot? && e.b !in s0.flags && e.b in s2.caps)
          || (e.Frame? && s2.holder[e] !in s0.flags && s2.holder[e] in s2.fwd)
  {
    assert EdgeAt(s2, e);
    if e in s0.holder { assert EdgeAt(s0, e); }
    if e.Frame? && e !in s0.holder { assert ForwardAt(s2, e.y); }
  }

  /** An old edge disappears only together with the block whose capture it is. */
  lemma OldEdgeGone(s0: State, s1: State, s2: State, k: nat, e: Edge)
    requires RoundTrip(s0, s1, s2, k) && e in s0.holder && e !in s2.holder
    ensures e.Slot? && e.b in s0.caps && e.b !in s2.flags
  {
    assert EdgeAt(s0, e);
    assert e in s1.holder;
  }

  /** A capture refers to a block of smaller rank. */
  lemma SlotRank(s: State, e: Edge)
    requires Valid(s) && e in s.holder && e.Slot? && s.holder[e] in s.caps
    ensures e.b in s.caps && s.rank[s.holder[e]] < s.rank[e.b]
  {
    assert EdgeAt(s, e);
    assert SlotAt(s, e.b, e.i);
  }

  lemma HeldCopy(s0: State, s1: State, s2: State, k: nat, b: Ref)
    requires RoundTrip(s0, s1, s2, k) && b in s2.caps && b !in s0.caps
    ensures b !in s0.flags && exists e :: e in s2.holder && s2.holder[e] == b
  {
    assert b in s1.caps && Count(s1.flags[b]) == 1;
    assert High(s2.flags[b]) == High(s1.flags[b]) && s2.flags[b] <= s1.flags[b];
    assert CountAt(s2, b);
    assert Count(s2.flags[b]) <= 1;
    assert Holds(s2.holder, b) != {};
    var e :| e in Holds(s2.holder, b);
    assert e in s2.holder && s2.holder[e] == b;
  }

  /** A copy that is still there is held by a copy of higher rank. */
  lemma HigherCopy(s0: State, s1: State, s2: State, k: nat, b: Ref) returns (c: Ref)
    requires RoundTrip(s0, s1, s2, k) && b in s2.caps && b !in s0.caps
    ensures c in s2.caps && c !in s0.caps && s2.rank[b] < s2.rank[c]
  {
    HeldCopy(s0, s1, s2, k, b);
    var e :| e in s2.holder && s2.holder[e] == b;
    FinalEdge(s0, s1, s2, k, e);
    SlotRank(s2, e);
    c := e.b;
  }

  lemma CopiesFreed(s0: State, s1: State, s2: State, k: nat)
    requires RoundTrip(s0, s1, s2, k)
    ensures s2.caps.Keys <= s0.caps.Keys
  {
    var left := s2.caps.Keys - s0.caps.Keys;
    forall b | b in left ensures exists c :: c in left && s2.rank[b] < s2.rank[c] {
      var c := HigherCopy(s0, s1, s2, k, b);
      assert c in left;
    }
    NoneHighest(left, s2.rank);
  }

  /** An old object that disappeared was captured by an old block that disappeared too. */
  lemma HigherGone(s0: State, s1: State, s2: State, k: nat, o: Ref) returns (e: Edge)
    requires RoundTrip(s0, s1, s2, k) && o in s0.flags && o !in s2.flags
    ensures e in s0.holder && e.Slot? && s0.holder[e] == o && e.b in s0.caps && e.b !in s2.flags
  {
    assert Heap(s1, o);
    SameKind(s0, s1, o);
    assert CountAt(s0, o);
    assert !Latched(s0.flags[o]);
    assert Holds(s0.holder, o) != {};
    e :| e in Holds(s0.holder, o);
    assert e in s2.holder ==> EdgeAt(s2, e);
    OldEdgeGone(s0, s1, s2, k, e);
  }

  lemma BlocksStay(s0: State, s1: State, s2: State, k: nat)
    requires RoundTrip(s0, s1, s2, k)
    ensures s0.caps.Keys <= s2.flags.Keys
  {
    var gone := s0.caps.Keys - s2.flags.Keys;
    forall b | b in gone ensures exists c :: c in gone && s0.rank[b] < s0.rank[c] {
      var e := HigherGone(s0, s1, s2, k, b);
      SlotRank(s0, e);
      assert e.b in gone;
    }
    NoneHighest(gone, s0.rank);
  }

  lemma OldStay(s0: State, s1: State, s2: State, k: nat, o: Ref)
    requires RoundTrip(s0, s1, s2, k) && s0.caps.Keys <= s2.flags.Keys && o in s0.flags
    ensures o in s2.flags
  {
    if o !in s2.flags {
      var _ := HigherGone(s0, s1, s2, k, o);
      assert false;
    }
  }

  /** The holders after the round trip: the old ones, and the frames of promoted byrefs. */
  ghost predicate SameHolders(s0: State, s2: State) {
    && (forall e | e in s0.holder :: e in s2.holder && s2.holder[e] == s0.holder[e])
    && (forall e | e in s2.holder && e !in s0.holder :: s2.holder[e] !in s0.flags)
  }

  lemma HoldersRestored(s0: State, s1: State, s2: State, k: nat)
    requires RoundTrip(s0, s1, s2, k) && s2.caps.Keys <= s0.caps.Keys && s0.caps.Keys <= s2.flags.Keys
    ensures SameHolders(s0, s2)
  {
    forall e | e in s0.holder ensures e in s2.holder && s2.holder[e] == s0.holder[e] {
      if e !in s2.holder { OldEdgeGone(s0, s1, s2, k, e); }
      FinalEdge(s0, s1, s2, k, e);
    }
    forall e | e in s2.holder && e !in s0.holder ensures s2.holder[e] !in s0.flags {
      FinalEdge(s0, s1, s2, k, e);
    }
  }

  lemma SameCount(s0: State, s2: State, o: Ref)
    requires SameHolders(s0, s2) && o in s0.flags && o in s2.flags && CountAt(s0, o) && CountAt(s2, o)
    requires High(s0.flags[o]) == High(s2.flags[o]) && !Latched(s0.flags[o]) && !Latched(s2.flags[o])
    requires s0.dying == {} && s2.dying == {}
    ensures s2.flags[o] == s0.flags[o]
  {
    assert Holds(s2.holder, o) == Holds(s0.holder, o);
  }

  /** What the flags words go through, for an old object. */
  lemma TripFlags(s0: State, s1: State, s2: State, k: nat, o: Ref)
    requires RoundTrip(s0, s1, s2, k) && o in s0.flags && o in s2.flags
    ensures High(s2.flags[o]) == High(s0.flags[o]) && CountAt(s0, o) && CountAt(s2, o)
    ensures Latched(s0.flags[o]) ==> s2.flags[o] == s0.flags[o]
  {
    assert o in s1.flags;
  }

  lemma FlagsRestored(s0: State, s1: State, s2: State, k: nat, o: Ref)
    requires RoundTrip(s0, s1, s2, k) && o in s0.flags && o in s2.flags && SameHolders(s0, s2)
    ensures Latched(s2.flags[o]) || s2.flags[o] == s0.flags[o]
  {
    TripFlags(s0, s1, s2, k, o);
    if !Latched(s2.flags[o]) && !Latched(s0.flags[o]) { SameCount(s0, s2, o); }
  }

  lemma CapsRestored(s0: State, s1: State, s2: State, k: nat)
    requires Grows(s0, s1) && Shrinks(s1, s2, k)
    requires s2.caps.Keys <= s0.caps.Keys && s0.caps.Keys <= s2.flags.Keys
    ensures s2.caps == s0.caps
  {
    assert s2.caps.Keys == s0.caps.Keys;
    assert forall b | b in s0.caps :: s2.caps[b] == s1.caps[b] == s0.caps[b];
  }

  lemma NewBlocksFreed(s0: State, s1: State, s2: State, k: nat)
    requires NamesInv(s1) && Grows(s0, s1) && Shrinks(s1, s2, k) && s2.caps.Keys <= s0.caps.Keys
    ensures forall b | b in s1.caps && b !in s0.caps :: b in s2.freed && b !in s0.freed
  {
  }

  lemma NewByrefsOnly(s0: State, s1: State, s2: State, k: nat)
    requires NamesInv(s0) && NamesInv(s2) && s2.caps.Keys <= s0.caps.Keys
    ensures forall o | o in s2.flags && o !in s0.flags :: o in s2.fwd
  {
  }

  lemma BlocksRestored(s0: State, s1: State, s2: State, k: nat)
    requires NamesInv(s0) && NamesInv(s2) && Grows(s0, s1) && Shrinks(s1, s2, k) && NamesInv(s1)
    requires s2.caps.Keys <= s0.caps.Keys && s0.caps.Keys <= s2.flags.Keys
    ensures s2.caps == s0.caps
    ensures forall b | b in s1.caps && b !in s0.caps :: b in s2.freed && b !in s0.freed
    ensures forall o | o in s2.flags && o !in s0.flags :: o in s2.fwd
  {
    CapsRestored(s0, s1, s2, k);
    NewBlocksFreed(s0, s1, s2, k);
    NewByrefsOnly(s0, s1, s2, k);
  }

  /** Copy then release: the copies are gone, every older object is alive with the flags word it had,
      unless its count latched on the way, and all that is new is byrefs that moved to the heap. */
  lemma RoundTripRestores(s0: State, s1: State, s2: State, k: nat)
    requires RoundTrip(s0, s1, s2, k)
    ensures s2.caps == s0.caps
    ensures forall o | o in s0.flags :: o in s2.flags && (Latched(s2.flags[o]) || s2.flags[o] == s0.flags[o])
    ensures forall o | o in s2.flags && o !in s0.flags :: o in s2.fwd
    ensures forall b | b in s1.caps && b !in s0.caps :: b in s2.freed && b !in s0.freed
  {
    CopiesFreed(s0, s1, s2, k);
    BlocksStay(s0, s1, s2, k);
    BlocksRestored(s0, s1, s2, k);
    HoldersRestored(s0, s1, s2, k);
    forall o | o in s0.flags ensures o in s2.flags && (Latched(s2.flags[o]) || s2.flags[o] == s0.flags[o]) {
      OldStay(s0, s1, s2, k, o);
      FlagsRestored(s0, s1, s2, k, o);
    }
  }

  /** _Block_copy followed by _Block_release of its result; `between` is the state after the copy. */
  method CopyAndRelease(rt: Runtime, p: Ref) returns (ghost between: State)
    requires rt.Ok() && rt.dying == {} && Copyable(rt.S(), p, rt.flags.Keys)
    modifies rt
    ensures rt.Ok() && rt.caps == old(rt.caps) && Grows(old(rt.S()), between)
    ensures forall o | o in old(rt.flags) :: o in rt.flags && (Latched(rt.flags[o]) || rt.flags[o] == old(rt.flags)[o])
    ensures forall o | o in rt.flags && o !in old(rt.flags) :: o in rt.fwd
    ensures forall b | b in between.caps && b !in old(rt.caps) :: b !in old(rt.freed) && b in rt.freed && b !in rt.flags
    ensures p != 0 && !Heap(old(rt.S()), p) && !IsGlobal(old(rt.flags)[p]) ==>
      exists b :: b in between.caps && b !in old(rt.caps)
  {
    ghost var s0 := rt.S();
    var r;
    ghost var k;
    r, k := rt.Copy(p, rt.flags.Keys);
    between := rt.S();
    rt.Release(r, k);
    RoundTripRestores(s0, between, rt.S(), k);
    assert r != 0 && r !in old(rt.flags) ==> r in between.caps && r !in old(rt.caps);
  }
}
