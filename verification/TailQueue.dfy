/** The TAILQ lists of queue.h as sequences: insertion at a place, and removal. */
module TailQueue {

  ghost predicate Distinct(q: seq<nat>) { forall i, j :: 0 <= i < j < |q| ==> q[i] != q[j] }

  /** `ds` in front of position `k`. */
  function Placed(q: seq<nat>, k: nat, ds: nat): seq<nat>
    requires k <= |q|
  {
    q[..k] + [ds] + q[k..]
  }

  lemma PlacedDistinct(q: seq<nat>, k: nat, ds: nat)
    requires k <= |q| && Distinct(q) && ds !in q
    ensures Distinct(Placed(q, k, ds)) && forall x :: x in Placed(q, k, ds) <==> x == ds || x in q
  {
    var p := Placed(q, k, ds);
    assert forall x :: x in p <==> x in q[..k] || x == ds || x in q[k..];
    assert q == q[..k] + q[k..];
    forall i, j | 0 <= i < j < |p| ensures p[i] != p[j] {
      var i', j' := if i < k then i else i - 1, if j < k then j else j - 1;
      if i == k { assert p[j] == q[j'] && p[j] in q; }
      else if j == k { assert p[i] == q[i'] && p[i] in q; }
      else { assert q[i'] != q[j']; }
    }
  }

  /** TAILQ_REMOVE. */
  function Removed(q: seq<nat>, ds: nat): (r: seq<nat>)
    ensures |r| <= |q|
  {
    if q == [] then [] else if q[0] == ds then q[1..] else [q[0]] + Removed(q[1..], ds)
  }

  lemma {:induction false} RemovedKeeps(q: seq<nat>, ds: nat)
    requires Distinct(q)
    ensures Distinct(Removed(q, ds)) && forall x :: x in Removed(q, ds) <==> x in q && x != ds
    decreases |q|
  {
    if q != [] {
      assert q == [q[0]] + q[1..];
      if q[0] != ds {
        RemovedKeeps(q[1..], ds);
        var r, p := Removed(q[1..], ds), Removed(q, ds);
        assert p == [q[0]] + r;
        assert q[0] !in r;
        forall i, j | 0 <= i < j < |p| ensures p[i] != p[j] {
          assert p[j] == r[j - 1] && p[j] in r;
          if i > 0 { assert r[i - 1] != r[j - 1]; }
        }
      }
    }
  }

  lemma {:induction false} NotThere(q: seq<nat>, ds: nat)
    requires ds !in q
    ensures Removed(q, ds) == q
    decreases |q|
  {
    if q != [] { NotThere(q[1..], ds); }
  }
}
