/**
 The index of knotes by identifier that every filter keeps (libkqueue/src/common/knote.c): a
 red-black tree ordered by the bytes of the identifier.
*/
module KnoteIndex {
  import opened RedBlackShape
  import RedBlackTree

  type Byte = b: int | 0 <= b < 256

  /** sizeof(a->kev.ident). */
  const IDENT_SIZE: nat := 8

  /** The bytes of an identifier; all have the same number of them. */
  type Ident = a: seq<Byte> | |a| == IDENT_SIZE witness [0, 0, 0, 0, 0, 0, 0, 0]

  /** memcmp of two byte strings of the same length. */
  function Memcmp(a: seq<Byte>, b: seq<Byte>): int
    requires |a| == |b|
  {
    if a == [] then 0 else if a[0] != b[0] then a[0] - b[0] else Memcmp(a[1..], b[1..])
  }

  /** The number whose digits are the bytes, in the order in which memcmp looks at them. */
  function Rank(a: seq<Byte>): nat {
    if a == [] then 0 else 256 * Rank(a[..|a| - 1]) + a[|a| - 1]
  }

  /** The last bytes decide only if all bytes before them are equal. */
  lemma {:induction false} MemcmpLast(a: seq<Byte>, b: seq<Byte>)
    requires |a| == |b| > 0
    ensures var n := |a| - 1; var first := Memcmp(a[..n], b[..n]);
      Memcmp(a, b) == if first != 0 then first else a[n] as int - b[n] as int
  {
    if |a| > 1 {
      var n := |a| - 1;
      MemcmpLast(a[1..], b[1..]);
      assert a[1..][..n - 1] == a[..n][1..] && b[1..][..n - 1] == b[..n][1..];
    }
  }

  /** knote_cmp orders identifiers as their ranks are ordered, and tells different ones apart. */
  lemma {:induction false} CmpIsRankOrder(a: seq<Byte>, b: seq<Byte>)
    requires |a| == |b|
    ensures Memcmp(a, b) < 0 <==> Rank(a) < Rank(b)
    ensures Memcmp(a, b) > 0 <==> Rank(a) > Rank(b)
    ensures Memcmp(a, b) == 0 <==> a == b
    decreases |a|
  {
    if a != [] {
      var n := |a| - 1;
      CmpIsRankOrder(a[..n], b[..n]);
      MemcmpLast(a, b);
      assert a == a[..n] + [a[n]] && b == b[..n] + [b[n]];
    }
  }

  /** The rank of an identifier stands for it: no two identifiers share one. */
  lemma RankTellsApart(a: Ident, b: Ident)
    ensures Rank(a) == Rank(b) <==> a == b
  {
    CmpIsRankOrder(a, b);
  }

  /** The key of a knote is the rank of its identifier. */
  class Filter {
    const tree: RedBlackTree.Tree
    ghost var index: map<int, Node>
    var deleted: set<Node>     // the knotes whose KNFL_KNOTE_DELETED flag is set

    /** The tree holds exactly the indexed knotes. */
    ghost predicate Valid()
      reads this, tree, tree.repr
    {
      && tree.Valid()
      && (forall x | x in tree.repr :: x.key in index && index[x.key] == x)
      && (forall key | key in index :: index[key] in tree.repr && index[key].key == key)
    }

    constructor ()
      ensures Valid() && index == map[] && deleted == {} && fresh(tree) && tree.repr == {}
    {
      tree := new RedBlackTree.Tree();
      index, deleted := map[], {};
    }

    /** knote_lookup. */
    method Lookup(ident: Ident) returns (r: Node?)
      requires Valid()
      ensures r == if Rank(ident) in index then index[Rank(ident)] else null
    {
      r := tree.Find(Rank(ident));
    }

    /** knote_insert: a knote whose identifier is already indexed is dropped silently. */
    method Insert(kn: Node)
      requires Valid() && kn !in tree.repr
      modifies this, tree, tree.repr, kn
      ensures Valid() && deleted == old(deleted) && tree.repr <= old(tree.repr) + {kn}
      ensures index == if kn.key in old(index) then old(index) else old(index)[kn.key := kn]
    {
      var r := tree.Insert(kn);
      if r == null { index := index[kn.key := kn]; }
    }

    /** knote_delete: -1 for a second deletion; a knote that is no longer the indexed one is only flagged. */
    method Delete(kn: Node) returns (status: int)
      requires Valid()
      modifies this, tree, tree.repr
      ensures Valid() && tree.repr <= old(tree.repr)
      ensures kn in old(deleted) ==> status == -1 && index == old(index) && deleted == old(deleted)
      ensures kn !in old(deleted) ==>
        && status == 0 && deleted == old(deleted) + {kn}
        && index == if kn.key in old(index) && old(index)[kn.key] == kn then old(index) - {kn.key} else old(index)
    {
      if kn in deleted { return -1; }
      var tmp := tree.Find(kn.key);
      if tmp == kn {
        tree.Remove(kn);
        index := index - {kn.key};
      }
      deleted := deleted + {kn};
      status := 0;
    }
  }

  datatype Op = Put(kn: Node) | Drop(kn: Node)

  /** The finite map, and the flagged knotes, that a history of insertions and deletions stands for. */
  ghost function Replayed(ops: seq<Op>): (map<int, Node>, set<Node>) {
    if ops == [] then (map[], {}) else
      var (index, deleted) := Replayed(ops[..|ops| - 1]);
      var op := ops[|ops| - 1];
      match op
      case Put(kn) => (if kn.key in index then index else index[kn.key := kn], deleted)
      case Drop(kn) =>
        if kn in deleted then (index, deleted)
        else (if kn.key in index && index[kn.key] == kn then index - {kn.key} else index, deleted + {kn})
  }

  /** A knote is inserted only while it is not in the index. */
  ghost predicate Sensible(ops: seq<Op>) {
    forall i :: 0 <= i < |ops| && ops[i].Put? ==> Absent(Replayed(ops[..i]).0, ops[i].kn)
  }

  ghost predicate Absent(index: map<int, Node>, kn: Node) { kn.key in index ==> index[kn.key] != kn }

  /** Over every history the tree stands for the finite map of that history, so that every lookup
      answers as the map does. */
  method Replay(ops: seq<Op>, ident: Ident) returns (f: Filter, r: Node?)
    requires Sensible(ops)
    modifies set i | 0 <= i < |ops| :: ops[i].kn
    ensures f.Valid() && f.index == Replayed(ops).0
    ensures r == if Rank(ident) in Replayed(ops).0 then Replayed(ops).0[Rank(ident)] else null
  {
    f := new Filter();
    ghost var knotes := set i | 0 <= i < |ops| :: ops[i].kn;
    for n := 0 to |ops|
      invariant f.Valid() && fresh(f) && fresh(f.tree) && f.tree.repr <= knotes
      invariant f.index == Replayed(ops[..n]).0 && f.deleted == Replayed(ops[..n]).1
    {
      assert ops[..n + 1][..n] == ops[..n];
      match ops[n]
      case Put(kn) => f.Insert(kn);
      case Drop(kn) => var _ := f.Delete(kn);
    }
    assert ops[..|ops|] == ops;
    r := f.Lookup(ident);
  }
}
