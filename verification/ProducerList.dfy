/**
 The intrusive multi-producer list under every dispatch queue.

 A producer first exchanges the tail and only later stores the link that makes
 its items reachable (libdispatch/src/queue_internal.h, _dispatch_queue_push_list).
 The history variable `log` lists the items in the order of the tail exchanges, so
 the list is described by positions in `log`: a position whose link has not been
 stored yet is in `debtor`, which names the producer that still owes the store.
*/
module ProducerList {
  import opened TailQueue

  type Item = nat
  type Thread = nat

  /** The do_next fields: an item outside the map has a NULL link. */
  type Links = map<Item, Item>

  ghost predicate Disjoint(a: seq<Item>, b: seq<Item>) {
    forall x :: x in a ==> x !in b
  }

  /** `seg` is a private list that ends in NULL, as handed to _dispatch_queue_push_list. */
  ghost predicate Chained(next: Links, seg: seq<Item>) {
    && seg != []
    && Distinct(seg)
    && (forall i :: 0 <= i < |seg| - 1 ==> LinkAt<Thread>(seg, next, map[], i))
    && seg[|seg| - 1] !in next
  }

  ghost predicate SameLink(next: Links, next': Links, x: Item) {
    && (x in next <==> x in next')
    && (x in next ==> next[x] == next'[x])
  }

  ghost predicate SameExcept(next: Links, next': Links, seg: seq<Item>) {
    forall x: Item :: x !in seg ==> SameLink(next, next', x)
  }

  /** From position `lo` on, every link is either stored or owed by exactly one producer. */
  ghost predicate Linked<D>(log: seq<Item>, next: Links, lo: nat, debtor: map<int, D>) {
    && lo <= |log|
    && Distinct(log[lo..])
    && (forall p :: lo <= p < |log| - 1 ==> LinkAt(log, next, debtor, p))
    && (forall p :: p in debtor ==> lo <= p < |log| - 1)
    && (lo < |log| ==> log[|log| - 1] !in next)
  }

  ghost predicate LinkAt<D>(log: seq<Item>, next: Links, debtor: map<int, D>, p: nat)
    requires p < |log| - 1
  {
    if p in debtor then log[p] !in next else log[p] in next && next[log[p]] == log[p + 1]
  }

  lemma DistinctAt(log: seq<Item>, lo: nat, i: nat, j: nat)
    requires lo <= i < |log| && lo <= j < |log| && Distinct(log[lo..]) && i != j
    ensures log[i] != log[j]
  {
    assert log[lo..][i - lo] == log[i] && log[lo..][j - lo] == log[j];
  }

  /** Preparing a private list touches no link of the shared list. */
  lemma PreparePreservesLinked<D>(log: seq<Item>, next: Links, next': Links, lo: nat, debtor: map<int, D>,
      seg: seq<Item>)
    requires Linked(log, next, lo, debtor) && SameExcept(next, next', seg) && Disjoint(seg, log[lo..])
    ensures Linked(log, next', lo, debtor)
  {
    forall p | lo <= p < |log|
      ensures SameLink(next, next', log[p])
    {
      assert log[lo..][p - lo] == log[p];
    }
    forall p | lo <= p < |log| - 1 ensures LinkAt(log, next', debtor, p) {
      assert LinkAt(log, next, debtor, p);
      assert SameLink(next, next', log[p]);
    }
  }

  /** The debt map after a tail exchange by `t`: a debt arises iff the list was not empty. */
  ghost function AddDebt<D>(debtor: map<int, D>, log: seq<Item>, lo: nat, t: D): map<int, D>
    requires lo <= |log|
  {
    if lo < |log| then debtor[|log| - 1 := t] else debtor
  }

  lemma DistinctConcat(a: seq<Item>, b: seq<Item>)
    requires Distinct(a) && Distinct(b) && Disjoint(b, a)
    ensures Distinct(a + b)
  {
    var c := a + b;
    forall i, j | 0 <= i < j < |c| ensures c[i] != c[j] {
      if i < |a| <= j {
        assert c[j] == b[j - |a|] && c[j] in b;
      }
    }
  }

  /** Exchanging the tail appends the list and leaves exactly the joining link owed. */
  lemma ExchangePreservesLinked<D>(log: seq<Item>, next: Links, lo: nat, debtor: map<int, D>, seg: seq<Item>, t: D)
    requires Linked(log, next, lo, debtor) && Chained(next, seg) && Disjoint(seg, log[lo..])
    ensures Linked(log + seg, next, lo, AddDebt(debtor, log, lo, t))
  {
    var log' := log + seg;
    var debtor' := AddDebt(debtor, log, lo, t);
    assert Distinct(log'[lo..]) by {
      DistinctConcat(log[lo..], seg);
      assert log'[lo..] == log[lo..] + seg;
    }
    forall p | lo <= p < |log'| - 1 ensures LinkAt(log', next, debtor', p) {
      JoinedLinkAt(log, next, lo, debtor, seg, t, p);
    }
  }

  lemma JoinedLinkAt<D>(log: seq<Item>, next: Links, lo: nat, debtor: map<int, D>, seg: seq<Item>, t: D, p: nat)
    requires Linked(log, next, lo, debtor) && Chained(next, seg) && lo <= p < |log| + |seg| - 1
    ensures LinkAt(log + seg, next, AddDebt(debtor, log, lo, t), p)
  {
    if p < |log| - 1 {
      assert LinkAt(log, next, debtor, p);
    } else if p >= |log| {
      var i := p - |log|;
      assert LinkAt<Thread>(seg, next, map[], i);
    }
  }

  /** Storing the owed link settles exactly that debt. */
  lemma StoreLinkPreservesLinked<D>(log: seq<Item>, next: Links, lo: nat, debtor: map<int, D>, p: nat)
    requires Linked(log, next, lo, debtor) && p in debtor
    ensures Linked(log, next[log[p] := log[p + 1]], lo, debtor - {p})
  {
    var next' := next[log[p] := log[p + 1]];
    forall q | lo <= q < |log| - 1 ensures LinkAt(log, next', debtor - {p}, q) {
      assert LinkAt(log, next, debtor, q);
      if q != p { DistinctAt(log, lo, p, q); }
    }
    DistinctAt(log, lo, p, |log| - 1);
  }

  /** The front item may leave once its link is settled (or it is the last item). */
  lemma AdvancePreservesLinked<D>(log: seq<Item>, next: Links, lo: nat, debtor: map<int, D>)
    requires Linked(log, next, lo, debtor) && lo < |log| && lo !in debtor
    ensures Linked(log, next, lo + 1, debtor)
  {
    assert log[lo + 1..] == log[lo..][1..];
    forall p | lo + 1 <= p < |log| - 1 ensures LinkAt(log, next, debtor, p) {
      assert LinkAt(log, next, debtor, p);
    }
  }

  /** A link of the list that reads as non-NULL leads to the next item in tail-exchange order. */
  lemma ReadLink<D>(log: seq<Item>, next: Links, lo: nat, debtor: map<int, D>, p: nat)
    requires Linked(log, next, lo, debtor) && lo <= p < |log|
    ensures log[p] in next ==> p + 1 < |log| && next[log[p]] == log[p + 1] && p !in debtor
    ensures log[p] !in next ==> p == |log| - 1 || p in debtor
  {
    if p < |log| - 1 { assert LinkAt(log, next, debtor, p); }
  }

  /** A private list is untouched by stores to other items. */
  lemma ChainedFrame(next: Links, next': Links, seg: seq<Item>, changed: seq<Item>)
    requires Chained(next, seg) && SameExcept(next, next', changed) && Disjoint(seg, changed)
    ensures Chained(next', seg)
  {
    forall i | 0 <= i < |seg| ensures SameLink(next, next', seg[i]) {
      assert seg[i] in seg;
    }
    forall i | 0 <= i < |seg| - 1 ensures LinkAt<Thread>(seg, next', map[], i) {
      assert LinkAt<Thread>(seg, next, map[], i);
      assert SameLink(next, next', seg[i]);
    }
  }

  /** Putting an unlinked item back in front of the list leaves at most its own link owed. */
  lemma PutBackPreservesLinked<D>(log: seq<Item>, next: Links, lo: nat, debtor: map<int, D>, d: D)
    requires lo < |log| && Linked(log, next, lo + 1, debtor) && Distinct(log[lo..]) && log[lo] !in next
    ensures Linked(log, next, lo, if lo + 1 < |log| then debtor[lo := d] else debtor)
  {
    var debtor' := if lo + 1 < |log| then debtor[lo := d] else debtor;
    forall p | lo <= p < |log| - 1 ensures LinkAt(log, next, debtor', p) {
      if p > lo { assert LinkAt(log, next, debtor, p); }
    }
  }

  /** With no debts left, following the links from the front yields exactly the rest of the log. */
  lemma SettledIsChained<D>(log: seq<Item>, next: Links, lo: nat, debtor: map<int, D>)
    requires Linked(log, next, lo, debtor) && lo < |log| && debtor == map[]
    ensures Chained(next, log[lo..])
  {
    var seg := log[lo..];
    forall i | 0 <= i < |seg| - 1 ensures LinkAt<Thread>(seg, next, map[], i) {
      assert LinkAt(log, next, debtor, lo + i);
    }
  }
}
