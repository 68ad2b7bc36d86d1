/**
 The table of kernel event registrations shared by event sources (libdispatch/src/source_kevent.c):
 sources with the same identifier and filter share one entry, whose flags are the union of what its
 sources ask for. A flags word is the set of its bits.
*/
module KeventTable {
  import opened TailQueue

  type Source = nat
  type Entry = nat
  type Flags = set<nat>

  const HASH_SIZE: nat := 256

  /** The filters that matter here: all but Kernel have statically allocated entries. */
  datatype Filter = Timer | CustomAdd | CustomOr | Kernel(number: int)

  predicate Static(f: Filter) { !f.Kernel? }

  /** dk_kevent.ident, dk_kevent.filter, dk_kevent.fflags and dk_sources. */
  datatype Kevent = Kevent(ident: nat, filter: Filter, fflags: Flags, sources: seq<Source>)

  datatype State = State(
    buckets: seq<seq<Entry>>,
    kevent: map<Entry, Kevent>,
    dkev: map<Source, Entry>,      // ds_dkev; a source outside the map has none
    installed: set<Source>,
    mask: map<Source, Flags>,      // ds_pending_data_mask
    table: set<Entry>,             // the entries in the buckets
    key: map<Source, Key>)         // history: what each source was created for

  type Key = (nat, Filter)

  function KeyOf(e: Kevent): Key { (e.ident, e.filter) }

  function Hash(ident: nat): nat { ident % HASH_SIZE }

  /** What a list of sources asks for together. */
  function Union(q: seq<Source>, mask: map<Source, Flags>): Flags {
    if q == [] then {} else (if q[0] in mask then mask[q[0]] else {}) + Union(q[1..], mask)
  }

  lemma {:induction false} UnionAppend(q: seq<Source>, mask: map<Source, Flags>, ds: Source)
    requires ds in mask
    ensures Union(q + [ds], mask) == Union(q, mask) + mask[ds]
    decreases |q|
  {
    if q == [] {
      assert (q + [ds])[1..] == [];
    } else {
      UnionAppend(q[1..], mask, ds);
      assert (q + [ds])[1..] == q[1..] + [ds];
    }
  }

  lemma {:induction false} UnionRemove(q: seq<Source>, mask: map<Source, Flags>, ds: Source)
    requires ds in q && ds in mask
    ensures Union(q, mask) == Union(Removed(q, ds), mask) + mask[ds]
    decreases |q|
  {
    if q[0] != ds {
      UnionRemove(q[1..], mask, ds);
      var rest := Removed(q[1..], ds);
      assert Removed(q, ds) == [q[0]] + rest && ([q[0]] + rest)[1..] == rest;
    }
  }

  // ------------------------------------------------------------------ invariant

  /** Every entry of the table is in the bucket of its identifier, and in no other one. */
  ghost predicate Placement(s: State) {
    && |s.buckets| == HASH_SIZE && s.table <= s.kevent.Keys
    && (forall h | 0 <= h < HASH_SIZE :: Distinct(s.buckets[h]))
    && (forall k | k in s.table :: k in s.buckets[Hash(s.kevent[k].ident)])
    && (forall h, k | 0 <= h < HASH_SIZE && k in s.buckets[h] :: k in s.table && Hash(s.kevent[k].ident) == h)
  }

  predicate SameKey(a: Kevent, b: Kevent) { a.ident == b.ident && a.filter == b.filter }

  /** At most one entry for an identifier and a filter. */
  ghost predicate Unique(s: State)
    requires s.table <= s.kevent.Keys
  {
    forall k, l | k in s.table && l in s.table && SameKey(s.kevent[k], s.kevent[l]) :: k == l
  }

  /** An entry that is not static has sources, and its flags are exactly what they ask for. */
  ghost predicate ExactAt(s: State, k: Entry)
    requires k in s.kevent
  {
    && Distinct(s.kevent[k].sources)
    && (!Static(s.kevent[k].filter) ==>
          s.kevent[k].sources != [] && s.kevent[k].fflags == Union(s.kevent[k].sources, s.mask))
  }

  ghost predicate Exact(s: State)
    requires s.table <= s.kevent.Keys
  {
    forall k | k in s.table :: ExactAt(s, k)
  }

  /** The entry of a source is one for its identifier and filter. An installed source is in the list of its
      entry; until then the entry is its own. */
  ghost predicate LinkAt(s: State, x: Source)
    requires x in s.dkev
  {
    var k := s.dkev[x];
    && x in s.mask && k in s.kevent && x in s.key && KeyOf(s.kevent[k]) == s.key[x]
    && if x in s.installed then k in s.table && x in s.kevent[k].sources
       else k !in s.table && s.kevent[k].fflags == s.mask[x] && s.kevent[k].sources == []
  }

  ghost predicate Links(s: State)
    requires s.table <= s.kevent.Keys
  {
    && (forall x | x in s.dkev :: LinkAt(s, x))
    && (forall k, x | k in s.table && x in s.kevent[k].sources :: x in s.installed && x in s.dkev && s.dkev[x] == k)
    && (forall x, y | x in s.dkev && y in s.dkev && x !in s.installed && s.dkev[x] == s.dkev[y] :: x == y)
  }

  ghost predicate Valid(s: State) { Placement(s) && Unique(s) && Exact(s) && Links(s) }

  // ------------------------------------------------------------------ steps

  /** The entry `k` is there already: `ds` joins it, and its own entry is freed. */
  function Joined(s: State, ds: Source, k: Entry): State
    requires ds in s.dkev && k in s.kevent && s.dkev[ds] in s.kevent && s.dkev[ds] != k
  {
    var own := s.dkev[ds];
    var e := s.kevent[k];
    s.(kevent := (s.kevent - {own})[k := e.(fflags := e.fflags + s.kevent[own].fflags, sources := e.sources + [ds])],
       dkev := s.dkev[ds := k], installed := s.installed + {ds})
  }

  lemma JoinedLink(s: State, ds: Source, k: Entry, x: Source)
    requires s.table <= s.kevent.Keys && Links(s) && ds in s.dkev && ds !in s.installed && k in s.table
    requires s.dkev[ds] in s.kevent && s.dkev[ds] !in s.table && x in s.dkev
    requires SameKey(s.kevent[k], s.kevent[s.dkev[ds]])
    ensures LinkAt(Joined(s, ds, k), x)
  {
    assert LinkAt(s, x) && LinkAt(s, ds);
  }

  lemma JoinedOwners(s: State, ds: Source, k: Entry)
    requires s.table <= s.kevent.Keys && Links(s) && ds in s.dkev && ds !in s.installed && k in s.table
    requires s.dkev[ds] in s.kevent && s.dkev[ds] !in s.table
    ensures var s' := Joined(s, ds, k);
      forall l, x | l in s'.table && x in s'.kevent[l].sources :: x in s'.installed && x in s'.dkev && s'.dkev[x] == l
  {
  }

  lemma JoinedApart(s: State, ds: Source, k: Entry)
    requires s.table <= s.kevent.Keys && Links(s) && ds in s.dkev && ds !in s.installed && k in s.table
    requires s.dkev[ds] in s.kevent && s.dkev[ds] !in s.table
    ensures var s' := Joined(s, ds, k);
      forall x, y | x in s'.dkev && y in s'.dkev && x !in s'.installed && s'.dkev[x] == s'.dkev[y] :: x == y
  {
    assert forall x | x in s.dkev :: LinkAt(s, x);
  }

  lemma JoinedLinks(s: State, ds: Source, k: Entry)
    requires Placement(s) && Links(s) && ds in s.dkev && ds !in s.installed && k in s.table
    requires s.dkev[ds] in s.kevent && s.dkev[ds] !in s.table && SameKey(s.kevent[k], s.kevent[s.dkev[ds]])
    ensures Links(Joined(s, ds, k))
  {
    forall x | x in Joined(s, ds, k).dkev ensures LinkAt(Joined(s, ds, k), x) { JoinedLink(s, ds, k, x); }
    JoinedOwners(s, ds, k);
    JoinedApart(s, ds, k);
  }

  lemma JoinedExact(s: State, ds: Source, k: Entry)
    requires Placement(s) && Exact(s) && ds in s.dkev && ds in s.mask && k in s.table && ds !in s.kevent[k].sources
    requires s.dkev[ds] in s.kevent && s.dkev[ds] !in s.table && s.kevent[s.dkev[ds]].fflags == s.mask[ds]
    ensures Exact(Joined(s, ds, k))
  {
    var s' := Joined(s, ds, k);
    UnionAppend(s.kevent[k].sources, s.mask, ds);
    assert ExactAt(s, k);
    forall l | l in s'.table ensures ExactAt(s', l) { assert ExactAt(s, l); }
  }

  lemma JoinedValid(s: State, ds: Source, k: Entry)
    requires Valid(s) && ds in s.dkev && ds !in s.installed && k in s.table && s.dkev[ds] in s.kevent
    requires SameKey(s.kevent[k], s.kevent[s.dkev[ds]])
    ensures s.dkev[ds] != k && s.dkev[ds] in s.kevent && s.kevent[s.dkev[ds]].fflags == s.mask[ds]
      && Valid(Joined(s, ds, k))
  {
    assert LinkAt(s, ds);
    JoinedLinks(s, ds, k);
    JoinedExact(s, ds, k);
    JoinedPlacement(s, ds, k);
  }

  lemma JoinedPlacement(s: State, ds: Source, k: Entry)
    requires Placement(s) && Unique(s) && ds in s.dkev && k in s.table && s.dkev[ds] in s.kevent
      && s.dkev[ds] !in s.table
    ensures Placement(Joined(s, ds, k)) && Unique(Joined(s, ds, k))
  {
    var s' := Joined(s, ds, k);
    assert forall l | l in s.table :: SameKey(s'.kevent[l], s.kevent[l]);
  }

  /** The first source with its identifier and filter: its own entry goes into the table. */
  function Inserted(s: State, ds: Source): State
    requires ds in s.dkev && s.dkev[ds] in s.kevent && |s.buckets| == HASH_SIZE
  {
    var k := s.dkev[ds];
    var h := Hash(s.kevent[k].ident);
    s.(buckets := s.buckets[h := s.buckets[h] + [k]],
      kevent := s.kevent[k := s.kevent[k].(sources := s.kevent[k].sources + [ds])],
       installed := s.installed + {ds}, table := s.table + {k})
  }

  lemma InsertedPlacement(s: State, ds: Source)
    requires Placement(s) && ds in s.dkev && s.dkev[ds] in s.kevent && s.dkev[ds] !in s.table
    ensures Placement(Inserted(s, ds))
  {
  }

  lemma InsertedExact(s: State, ds: Source)
    requires Placement(s) && Exact(s) && ds in s.dkev && s.dkev[ds] in s.kevent && s.dkev[ds] !in s.table
      && ds in s.mask
    requires s.kevent[s.dkev[ds]].sources == [] && s.kevent[s.dkev[ds]].fflags == s.mask[ds]
    ensures Inserted(s, ds).table <= Inserted(s, ds).kevent.Keys && Exact(Inserted(s, ds))
  {
    var s', k := Inserted(s, ds), s.dkev[ds];
    UnionAppend([], s.mask, ds);
    assert [] + [ds] == [ds];
    forall l | l in s'.table ensures ExactAt(s', l) { if l != k { assert ExactAt(s, l); } }
  }

  lemma InsertedLink(s: State, ds: Source, x: Source)
    requires Placement(s) && Links(s) && ds in s.dkev && ds !in s.installed && s.dkev[ds] in s.kevent && x in s.dkev
    ensures LinkAt(Inserted(s, ds), x)
  {
    assert LinkAt(s, x) && LinkAt(s, ds);
  }

  lemma InsertedLinks(s: State, ds: Source)
    requires Placement(s) && Links(s) && ds in s.dkev && ds !in s.installed && s.dkev[ds] in s.kevent
      && s.dkev[ds] !in s.table
    requires s.kevent[s.dkev[ds]].sources == []
    ensures Inserted(s, ds).table <= Inserted(s, ds).kevent.Keys && Links(Inserted(s, ds))
  {
    var s' := Inserted(s, ds);
    forall x | x in s'.dkev ensures LinkAt(s', x) { InsertedLink(s, ds, x); }
  }

  lemma InsertedValid(s: State, ds: Source)
    requires Valid(s) && ds in s.dkev && ds !in s.installed && s.dkev[ds] in s.kevent
    requires forall l | l in s.table :: !SameKey(s.kevent[l], s.kevent[s.dkev[ds]])
    ensures Valid(Inserted(s, ds)) && s.dkev[ds] !in s.table && s.kevent[s.dkev[ds]].fflags == s.mask[ds]
  {
    assert LinkAt(s, ds);
    InsertedPlacement(s, ds);
    InsertedExact(s, ds);
    InsertedLinks(s, ds);
  }

  /** The last source of the entry `k` leaves: the entry is removed and freed, unless it is static. */
  function Emptied(s: State, ds: Source, k: Entry): State
    requires k in s.kevent && |s.buckets| == HASH_SIZE
  {
    var h := Hash(s.kevent[k].ident);
    if Static(s.kevent[k].filter) then s.(kevent := s.kevent[k := s.kevent[k].(sources := [])], dkev := s.dkev - {ds})
    else s.(buckets := s.buckets[h := Removed(s.buckets[h], k)], kevent := s.kevent - {k}, dkev := s.dkev - {ds},
        table := s.table - {k})
  }

  /** `ds` leaves the entry `k`, whose other sources are `rest`; flags nobody asks for any more go. */
  function Thinned(s: State, ds: Source, k: Entry, rest: seq<Source>): State
    requires k in s.kevent && ds in s.mask
  {
    var all := Union(rest, s.mask);
    var fflags := if s.mask[ds] - all != {} then all else s.kevent[k].fflags;
    s.(kevent := s.kevent[k := s.kevent[k].(sources := rest, fflags := fflags)], dkev := s.dkev - {ds})
  }

  lemma EmptiedPlaced(s: State, ds: Source, k: Entry)
    requires Placement(s) && k in s.table
    ensures Placement(Emptied(s, ds, k))
  {
    RemovedKeeps(s.buckets[Hash(s.kevent[k].ident)], k);
    if Static(s.kevent[k].filter) {} else {}
  }

  lemma EmptiedUnique(s: State, ds: Source, k: Entry)
    requires Placement(s) && Unique(s) && k in s.table && Placement(Emptied(s, ds, k))
    ensures Unique(Emptied(s, ds, k))
  {
    var s' := Emptied(s, ds, k);
    assert forall l | l in s'.table :: SameKey(s'.kevent[l], s.kevent[l]);
  }

  lemma EmptiedPlacement(s: State, ds: Source, k: Entry)
    requires Placement(s) && Unique(s) && k in s.table
    ensures Placement(Emptied(s, ds, k)) && Unique(Emptied(s, ds, k))
  {
    EmptiedPlaced(s, ds, k);
    EmptiedUnique(s, ds, k);
  }

  lemma EmptiedExact(s: State, ds: Source, k: Entry)
    requires Placement(s) && Exact(s) && k in s.table && ds in s.dkev
    ensures Emptied(s, ds, k).table <= Emptied(s, ds, k).kevent.Keys && Exact(Emptied(s, ds, k))
  {
    var s' := Emptied(s, ds, k);
    forall l | l in s'.table ensures ExactAt(s', l) { assert ExactAt(s, l); }
  }

  lemma EmptiedLink(s: State, ds: Source, k: Entry, x: Source)
    requires Placement(s) && Links(s) && k in s.table && x in s.dkev && x != ds
    requires forall y | y in s.kevent[k].sources :: y == ds
    ensures LinkAt(Emptied(s, ds, k), x)
  {
    assert LinkAt(s, x);
  }

  lemma EmptiedOwners(s: State, ds: Source, k: Entry)
    requires Placement(s) && Links(s) && k in s.table && ds in s.dkev && s.dkev[ds] == k
    requires Emptied(s, ds, k).table <= Emptied(s, ds, k).kevent.Keys
    ensures var s' := Emptied(s, ds, k);
      forall l, x | l in s'.table && x in s'.kevent[l].sources :: x in s'.installed && x in s'.dkev && s'.dkev[x] == l
  {
  }

  lemma EmptiedLinks(s: State, ds: Source, k: Entry)
    requires Placement(s) && Links(s) && k in s.table && ds in s.dkev && s.dkev[ds] == k
    requires forall x | x in s.kevent[k].sources :: x == ds
    requires Emptied(s, ds, k).table <= Emptied(s, ds, k).kevent.Keys
    ensures Links(Emptied(s, ds, k))
  {
    forall x | x in Emptied(s, ds, k).dkev ensures LinkAt(Emptied(s, ds, k), x) { EmptiedLink(s, ds, k, x); }
    EmptiedOwners(s, ds, k);
  }

  lemma EmptiedValid(s: State, ds: Source, k: Entry)
    requires Valid(s) && k in s.table && ds in s.dkev && s.dkev[ds] == k
    requires forall x | x in s.kevent[k].sources :: x == ds
    ensures Valid(Emptied(s, ds, k))
  {
    EmptiedPlacement(s, ds, k);
    EmptiedExact(s, ds, k);
    EmptiedLinks(s, ds, k);
  }

  lemma ThinnedPlacement(s: State, ds: Source, k: Entry, rest: seq<Source>)
    requires Placement(s) && Unique(s) && k in s.table && ds in s.mask
    ensures Placement(Thinned(s, ds, k, rest)) && Unique(Thinned(s, ds, k, rest))
  {
    var s' := Thinned(s, ds, k, rest);
    assert forall l | l in s'.table :: SameKey(s'.kevent[l], s.kevent[l]);
  }

  lemma ThinnedExact(s: State, ds: Source, k: Entry, rest: seq<Source>)
    requires Placement(s) && Exact(s) && k in s.table && ds in s.mask && ds in s.kevent[k].sources
    requires rest == Removed(s.kevent[k].sources, ds) && rest != []
    ensures Thinned(s, ds, k, rest).table <= Thinned(s, ds, k, rest).kevent.Keys && Exact(Thinned(s, ds, k, rest))
  {
    var s' := Thinned(s, ds, k, rest);
    assert ExactAt(s, k);
    RemovedKeeps(s.kevent[k].sources, ds);
    UnionRemove(s.kevent[k].sources, s.mask, ds);
    forall l | l in s'.table ensures ExactAt(s', l) { assert ExactAt(s, l); }
  }

  lemma ThinnedLink(s: State, ds: Source, k: Entry, rest: seq<Source>, x: Source)
    requires Placement(s) && Links(s) && k in s.table && ds in s.mask && x in s.dkev && x != ds
    requires forall y :: y in rest <==> y in s.kevent[k].sources && y != ds
    ensures LinkAt(Thinned(s, ds, k, rest), x)
  {
    assert LinkAt(s, x);
  }

  lemma ThinnedLinks(s: State, ds: Source, k: Entry, rest: seq<Source>)
    requires Placement(s) && Links(s) && k in s.table && ds in s.mask && ds in s.dkev && s.dkev[ds] == k
      && ds in s.installed
    requires forall x :: x in rest <==> x in s.kevent[k].sources && x != ds
    ensures Thinned(s, ds, k, rest).table <= Thinned(s, ds, k, rest).kevent.Keys && Links(Thinned(s, ds, k, rest))
  {
    var s' := Thinned(s, ds, k, rest);
    forall x | x in s'.dkev ensures LinkAt(s', x) { ThinnedLink(s, ds, k, rest, x); }
  }

  lemma ThinnedValid(s: State, ds: Source, k: Entry, rest: seq<Source>)
    requires Valid(s) && k in s.table && ds in s.dkev && s.dkev[ds] == k && ds in s.mask && ds in s.kevent[k].sources
      && ds in s.installed
    requires rest == Removed(s.kevent[k].sources, ds) && rest != []
    ensures Valid(Thinned(s, ds, k, rest))
  {
    assert ExactAt(s, k);
    RemovedKeeps(s.kevent[k].sources, ds);
    ThinnedPlacement(s, ds, k, rest);
    ThinnedExact(s, ds, k, rest);
    ThinnedLinks(s, ds, k, rest);
  }

  /** dispatch_source_create: a source with an entry `own` of its own. */
  function Created(s: State, ds: Source, own: Entry, ident: nat, filter: Filter, m: Flags): State {
    s.(kevent := s.kevent[own := Kevent(ident, filter, m, [])], dkev := s.dkev[ds := own], mask := s.mask[ds := m],
       key := s.key[ds := (ident, filter)])
  }

  lemma {:induction false} UnionFrame(q: seq<Source>, mask: map<Source, Flags>, ds: Source, m: Flags)
    requires ds !in q
    ensures Union(q, mask[ds := m]) == Union(q, mask)
    decreases |q|
  {
    if q != [] { UnionFrame(q[1..], mask, ds, m); }
  }

  lemma CreatedPlacement(s: State, ds: Source, own: Entry, ident: nat, filter: Filter, m: Flags)
    requires Placement(s) && Unique(s) && own !in s.kevent
    ensures Placement(Created(s, ds, own, ident, filter, m)) && Unique(Created(s, ds, own, ident, filter, m))
  {
  }

  lemma CreatedExact(s: State, ds: Source, own: Entry, ident: nat, filter: Filter, m: Flags)
    requires s.table <= s.kevent.Keys && Exact(s) && own !in s.kevent
    requires forall k | k in s.table :: ds !in s.kevent[k].sources
    ensures Exact(Created(s, ds, own, ident, filter, m))
  {
    var s' := Created(s, ds, own, ident, filter, m);
    forall k | k in s'.table ensures ExactAt(s', k) {
      assert ExactAt(s, k);
      UnionFrame(s.kevent[k].sources, s.mask, ds, m);
    }
  }

  lemma CreatedLink(s: State, ds: Source, own: Entry, ident: nat, filter: Filter, m: Flags, x: Source)
    requires s.table <= s.kevent.Keys && Links(s) && ds !in s.dkev && ds !in s.installed && own !in s.kevent
    requires x in s.dkev || x == ds
    ensures LinkAt(Created(s, ds, own, ident, filter, m), x)
  {
    if x != ds { assert LinkAt(s, x); }
  }

  lemma CreatedApart(s: State, ds: Source, own: Entry, ident: nat, filter: Filter, m: Flags)
    requires s.table <= s.kevent.Keys && Links(s) && ds !in s.dkev && own !in s.kevent
    ensures var s' := Created(s, ds, own, ident, filter, m);
      forall x, y | x in s'.dkev && y in s'.dkev && x !in s'.installed && s'.dkev[x] == s'.dkev[y] :: x == y
  {
    assert forall x | x in s.dkev :: LinkAt(s, x) && s.dkev[x] != own;
  }

  lemma CreatedLinks(s: State, ds: Source, own: Entry, ident: nat, filter: Filter, m: Flags)
    requires s.table <= s.kevent.Keys && Links(s) && ds !in s.dkev && ds !in s.installed && own !in s.kevent
    ensures Links(Created(s, ds, own, ident, filter, m))
  {
    var s' := Created(s, ds, own, ident, filter, m);
    forall x | x in s'.dkev ensures LinkAt(s', x) { CreatedLink(s, ds, own, ident, filter, m, x); }
    CreatedApart(s, ds, own, ident, filter, m);
  }

  lemma CreatedValid(s: State, ds: Source, own: Entry, ident: nat, filter: Filter, m: Flags)
    requires Valid(s) && ds !in s.dkev && ds !in s.mask && ds !in s.installed && own !in s.kevent
    ensures Valid(Created(s, ds, own, ident, filter, m))
  {
    CreatedPlacement(s, ds, own, ident, filter, m);
    CreatedExact(s, ds, own, ident, filter, m);
    CreatedLinks(s, ds, own, ident, filter, m);
  }

  // ------------------------------------------------------------------ what merging and releasing promise

  /** Entries other than `k` are as they were, if they are still there; those of the table are. */
  ghost predicate OthersKept(s: State, s': State, k: Entry) {
    && (forall l | l in s.table && l in s.kevent && l != k :: l in s'.table && l in s'.kevent)
    && (forall l | l in s.kevent && l != k && l in s'.kevent :: s'.kevent[l] == s.kevent[l])
  }

  /** The sources other than `ds` keep their entries. */
  ghost predicate SourcesKept(s: State, s': State, ds: Source) {
    forall x | x in s.dkev && x != ds :: x in s'.dkev && s'.dkev[x] == s.dkev[x]
  }

  /** `ds` was merged: it shares the entry of its key, whose flags gained exactly what the kernel is told, and
      nothing else changed. */
  ghost predicate Merged(s: State, s': State, ds: Source, resume: bool, gained: Flags) {
    && s'.mask == s.mask && s'.key == s.key && s'.installed == s.installed + {ds} && SourcesKept(s, s', ds)
    && ds in s.mask && ds in s.dkev && s.dkev[ds] in s.kevent && ds in s'.dkev
    && var k := s'.dkev[ds];
       && k in s'.kevent && SameKey(s'.kevent[k], s.kevent[s.dkev[ds]])
       && s'.table == s.table + {k} && OthersKept(s, s', k) && ds in s'.kevent[k].sources
       && (k in s.table ==>
             && k in s.kevent && s'.kevent[k].fflags == s.kevent[k].fflags + s.mask[ds]
             && gained == s'.kevent[k].fflags - s.kevent[k].fflags && resume == (gained != {}))
       && (k !in s.table ==> resume && gained == s'.kevent[k].fflags == s.mask[ds])
  }

  /** `lost` is what only `ds` asks for, unless the whole entry goes with it. */
  ghost predicate Forgone(s: State, ds: Source, lost: Flags)
    requires ds in s.dkev && s.dkev[ds] in s.kevent
  {
    var q := s.kevent[s.dkev[ds]].sources;
    ds in s.mask && lost == if q == [ds] then {} else s.mask[ds] - Union(Removed(q, ds), s.mask)
  }

  /** `ds` was released: the entry stays iff it is static or has other sources, `lost` is what its flags lost, and
      nothing else changed. */
  ghost predicate Released(s: State, s': State, ds: Source, lost: Flags) {
    && s'.mask == s.mask && s'.key == s.key && s'.installed == s.installed && s'.dkev == s.dkev - {ds}
    && s'.table <= s.table && ds in s.dkev && s.dkev[ds] in s.kevent
    && var k := s.dkev[ds];
       && OthersKept(s, s', k)
       && (k in s'.table <==> Static(s.kevent[k].filter) || s.kevent[k].sources != [ds])
       && (k in s'.table ==> k in s'.kevent && SameKey(s'.kevent[k], s.kevent[k]))
       && (k in s'.table && !Static(s.kevent[k].filter) ==> lost == s.kevent[k].fflags - s'.kevent[k].fflags)
       && Forgone(s, ds, lost)
  }

  /** Two installed sources share an entry exactly when they were created for the same identifier and filter. */
  lemma SharedExactly(s: State, a: Source, b: Source)
    requires Valid(s) && a in s.dkev && b in s.dkev && a in s.installed && b in s.installed
    ensures a in s.key && b in s.key && (s.dkev[a] == s.dkev[b] <==> s.key[a] == s.key[b])
  {
    assert LinkAt(s, a) && LinkAt(s, b);
    assert KeyOf(s.kevent[s.dkev[a]]) == KeyOf(s.kevent[s.dkev[b]]) ==>
      SameKey(s.kevent[s.dkev[a]], s.kevent[s.dkev[b]]);
  }

  lemma JoinedMerged(s: State, ds: Source, k: Entry, gained: Flags)
    requires Valid(s) && ds in s.dkev && ds !in s.installed && k in s.table && s.dkev[ds] != k && s.dkev[ds] in s.kevent
    requires ds in s.mask && s.kevent[s.dkev[ds]].fflags == s.mask[ds] && s.dkev[ds] !in s.table
    requires SameKey(s.kevent[k], s.kevent[s.dkev[ds]])
    requires gained == s.mask[ds] - s.kevent[k].fflags
    ensures Merged(s, Joined(s, ds, k), ds, gained != {}, gained)
  {
  }

  lemma InsertedMerged(s: State, ds: Source)
    requires Placement(s) && ds in s.dkev && s.dkev[ds] in s.kevent && s.dkev[ds] !in s.table
    requires ds in s.mask && s.kevent[s.dkev[ds]].fflags == s.mask[ds]
    ensures Merged(s, Inserted(s, ds), ds, true, s.mask[ds])
  {
  }

  lemma EmptiedReleased(s: State, ds: Source, k: Entry)
    requires Placement(s) && ds in s.dkev && s.dkev[ds] == k && k in s.table && s.kevent[k].sources == [ds]
      && ds in s.mask
    ensures Released(s, Emptied(s, ds, k), ds, {})
  {
  }

  lemma ThinnedReleased(s: State, ds: Source, k: Entry, rest: seq<Source>)
    requires Valid(s) && k in s.table && ds in s.dkev && s.dkev[ds] == k && ds in s.mask && ds in s.kevent[k].sources
    requires rest == Removed(s.kevent[k].sources, ds) && rest != []
    ensures Released(s, Thinned(s, ds, k, rest), ds, s.mask[ds] - Union(rest, s.mask))
  {
    assert ExactAt(s, k);
    RemovedKeeps(s.kevent[k].sources, ds);
    UnionRemove(s.kevent[k].sources, s.mask, ds);
    assert Removed([ds], ds) == [];
  }

  // ------------------------------------------------------------------ the operations

  class Table {
    var buckets: seq<seq<Entry>>
    var kevent: map<Entry, Kevent>
    var dkev: map<Source, Entry>
    var installed: set<Source>
    var mask: map<Source, Flags>
    ghost var table: set<Entry>
    ghost var key: map<Source, Key>

    ghost function S(): State
      reads this
    {
      State(buckets, kevent, dkev, installed, mask, table, key)
    }

    /** _dispatch_source_init_tail_queue_array: only the static entries, without sources. */
    constructor (statics: map<Entry, Kevent>, placed: seq<seq<Entry>>)
      requires forall k | k in statics :: Static(statics[k].filter) && statics[k].sources == []
      requires Placement(State(placed, statics, map[], {}, map[], statics.Keys, map[]))
        && Unique(State(placed, statics, map[], {}, map[], statics.Keys, map[]))
      ensures Valid(S()) && dkev == map[]
    {
      buckets, kevent, dkev, installed, mask := placed, statics, map[], {}, map[];
      table, key := statics.Keys, map[];
      new;
      assert forall k | k in table :: ExactAt(S(), k);
    }

    /** _dispatch_kevent_find. */
    method Find(ident: nat, filter: Filter) returns (found: bool, k: Entry)
      requires Placement(S())
      ensures found ==> k in table && kevent[k].ident == ident && kevent[k].filter == filter
      ensures !found ==> forall l | l in table :: kevent[l].ident != ident || kevent[l].filter != filter
    {
      var q := buckets[Hash(ident)];
      found, k := false, 0;
      for i := 0 to |q|
        invariant forall j | 0 <= j < i :: kevent[q[j]].ident != ident || kevent[q[j]].filter != filter
      {
        if kevent[q[i]].ident == ident && kevent[q[i]].filter == filter { return true, q[i]; }
      }
    }

    /** The stores of dispatch_source_create. */
    method Note(ds: Source, own: Entry, ident: nat, filter: Filter, m: Flags)
      modifies this
      ensures S() == Created(old(S()), ds, own, ident, filter, m)
    {
      kevent, dkev, mask := kevent[own := Kevent(ident, filter, m, [])], dkev[ds := own], mask[ds := m];
      key := key[ds := (ident, filter)];
    }

    /** dispatch_source_create, for the part that concerns the table. */
    method Create(ds: Source, own: Entry, ident: nat, filter: Filter, m: Flags)
      requires Valid(S()) && ds !in dkev && ds !in mask && ds !in installed && own !in kevent
      modifies this
      ensures Valid(S()) && S() == Created(old(S()), ds, own, ident, filter, m)
      ensures ds in dkev && dkev[ds] == own && ds in mask && mask[ds] == m && ds in key && key[ds] == (ident, filter)
      ensures OthersKept(old(S()), S(), own) && SourcesKept(old(S()), S(), ds) && table == old(table)
    {
      CreatedValid(S(), ds, own, ident, filter, m);
      Note(ds, own, ident, filter, m);
    }

    /** `ds` becomes a source of the entry `k`, and its own entry is freed. */
    method Enlist(ds: Source, k: Entry)
      requires ds in dkev && k in kevent && dkev[ds] in kevent && dkev[ds] != k
      modifies this
      ensures S() == Joined(old(S()), ds, k)
    {
      var own, e := dkev[ds], kevent[k];
      kevent := (kevent - {own})[k := e.(fflags := e.fflags + kevent[own].fflags, sources := e.sources + [ds])];
      dkev, installed := dkev[ds := k], installed + {ds};
    }

    /** The entry `k` is there already. */
    method Join(ds: Source, k: Entry) returns (gained: Flags)
      requires Valid(S()) && ds in dkev && ds !in installed && k in table && dkev[ds] in kevent
      requires SameKey(kevent[k], kevent[dkev[ds]])
      modifies this
      ensures Valid(S()) && Merged(old(S()), S(), ds, gained != {}, gained)
    {
      assert LinkAt(S(), ds);
      JoinedValid(S(), ds, k);
      gained := kevent[dkev[ds]].fflags - kevent[k].fflags;
      JoinedMerged(S(), ds, k, gained);
      Enlist(ds, k);
    }

    /** _dispatch_kevent_insert, and the source as the first one of the entry. */
    method Place(ds: Source)
      requires ds in dkev && dkev[ds] in kevent && |buckets| == HASH_SIZE
      modifies this
      ensures S() == Inserted(old(S()), ds)
    {
      var own := dkev[ds];
      var h := Hash(kevent[own].ident);
      buckets := buckets[h := buckets[h] + [own]];
      kevent := kevent[own := kevent[own].(sources := kevent[own].sources + [ds])];
      installed, table := installed + {ds}, table + {own};
    }

    /** There is no entry yet: the source's own one goes into its bucket. */
    method Insert(ds: Source)
      requires Valid(S()) && ds in dkev && ds !in installed && dkev[ds] in kevent
      requires forall l | l in table :: !SameKey(kevent[l], kevent[dkev[ds]])
      modifies this
      ensures Valid(S()) && ds in old(mask) && Merged(old(S()), S(), ds, true, old(mask)[ds])
    {
      assert LinkAt(S(), ds);
      InsertedValid(S(), ds);
      InsertedMerged(S(), ds);
      Place(ds);
    }

    /** _dispatch_kevent_merge: `resume` says whether the kernel is told, and `gained` what is new for it. */
    method Merge(ds: Source) returns (resume: bool, gained: Flags)
      requires Valid(S()) && (ds !in installed ==> ds in dkev)
      modifies this
      ensures Valid(S())
      ensures ds in old(installed) ==> S() == old(S()) && !resume
      ensures ds !in old(installed) ==> Merged(old(S()), S(), ds, resume, gained)
    {
      resume, gained := false, {};
      if ds in installed { return; }
      assert LinkAt(S(), ds);
      var own := dkev[ds];
      var found, k := Find(kevent[own].ident, kevent[own].filter);
      if found {
        gained := Join(ds, k);
        resume := gained != {};
      } else {
        gained, resume := kevent[own].fflags, true;
        Insert(ds);
      }
    }

    /** _dispatch_kevent_dispose, and the removal of the last source before it. */
    method Empty(ds: Source, k: Entry)
      requires k in kevent && |buckets| == HASH_SIZE
      modifies this
      ensures S() == Emptied(old(S()), ds, k)
    {
      dkev := dkev - {ds};
      if Static(kevent[k].filter) {
        kevent := kevent[k := kevent[k].(sources := [])];
      } else {
        var h := Hash(kevent[k].ident);
        buckets := buckets[h := Removed(buckets[h], k)];
        kevent, table := kevent - {k}, table - {k};
      }
    }

    /** The last source of its entry leaves. */
    method ReleaseLast(ds: Source)
      requires Valid(S()) && ds in dkev && dkev[ds] in table && kevent[dkev[ds]].sources == [ds]
      modifies this
      ensures Valid(S()) && Released(old(S()), S(), ds, {})
    {
      assert LinkAt(S(), ds);
      EmptiedValid(S(), ds, dkev[ds]);
      EmptiedReleased(S(), ds, dkev[ds]);
      Empty(ds, dkev[ds]);
    }

    /** Other sources stay with the entry. */
    method ReleaseOne(ds: Source, rest: seq<Source>) returns (lost: Flags)
      requires Valid(S()) && ds in dkev && dkev[ds] in table && ds in mask && ds in installed
      requires ds in kevent[dkev[ds]].sources && rest == Removed(kevent[dkev[ds]].sources, ds) && rest != []
      modifies this
      ensures Valid(S()) && Released(old(S()), S(), ds, lost)
    {
      ghost var s := S();
      var k := dkev[ds];
      ThinnedValid(s, ds, k, rest);
      ThinnedReleased(s, ds, k, rest);
      var all := Union(rest, mask);
      lost := mask[ds] - all;
      kevent := kevent[k := kevent[k].(sources := rest, fflags := if lost != {} then all else kevent[k].fflags)];
      dkev := dkev - {ds};
      assert S() == Thinned(s, ds, k, rest);
    }

    /** _dispatch_kevent_release: `lost` is what the kernel is told to drop. */
    method Release(ds: Source) returns (lost: Flags)
      requires Valid(S()) && ds in dkev && ds in installed
      modifies this
      ensures Valid(S()) && Released(old(S()), S(), ds, lost)
    {
      assert LinkAt(S(), ds);
      assert ExactAt(S(), dkev[ds]);
      var rest := Removed(kevent[dkev[ds]].sources, ds);
      RemovedKeeps(kevent[dkev[ds]].sources, ds);
      if rest == [] {
        LastOne(kevent[dkev[ds]].sources, ds);
        lost := {};
        ReleaseLast(ds);
      } else {
        lost := ReleaseOne(ds, rest);
      }
    }
  }

  /** Two sources that were created for one identifier and filter share their entry once both are merged, and the
      kernel hears of the second one only if it asks for more. */
  method MergeTwo(t: Table, a: Source, b: Source) returns (resume: bool, gained: Flags)
    requires Valid(t.S()) && a in t.dkev && b in t.dkev && a != b && a !in t.installed && b !in t.installed
    requires a in t.key && b in t.key && t.key[a] == t.key[b]
    modifies t
    ensures Valid(t.S()) && a in t.dkev && b in t.dkev && t.dkev[a] == t.dkev[b] && t.dkev[a] in t.table
    ensures a in t.mask && b in t.mask && resume == (gained != {}) && gained <= t.mask[b] && gained !! t.mask[a]
  {
    var _, _ := t.Merge(a);
    resume, gained := t.Merge(b);
    assert LinkAt(t.S(), a);
    SharedExactly(t.S(), a, b);
    assert t.dkev[b] in old(t.table) + {t.dkev[a]};
  }

  /** A source that is created for an identifier, a filter and a mask has, once it is merged, the entry of that
      identifier and filter, which asks the kernel for all its flags. */
  method CreateAndMerge(t: Table, ds: Source, own: Entry, ident: nat, filter: Filter, m: Flags)
    requires Valid(t.S()) && ds !in t.dkev && ds !in t.mask && ds !in t.installed && own !in t.kevent
    modifies t
    ensures Valid(t.S()) && ds in t.installed && ds in t.dkev && t.dkev[ds] in t.table && t.dkev[ds] in t.kevent
    ensures var e := t.kevent[t.dkev[ds]]; e.ident == ident && e.filter == filter && ds in e.sources && m <= e.fflags
  {
    t.Create(ds, own, ident, filter, m);
    var _, _ := t.Merge(ds);
    assert LinkAt(t.S(), ds);
  }

  lemma LastOne(q: seq<Source>, ds: Source)
    requires ds in q && Removed(q, ds) == []
    ensures q == [ds]
  {
  }
}
