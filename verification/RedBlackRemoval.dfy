/**
 What RB_REMOVE does to the links before it repairs the colours: it splices out a node that has at
 most one child, or splices out the successor and lets it take the place of the removed node.
*/
module RedBlackRemoval {
  import opened RedBlackShape

  // ------------------------------------------------------------------ splicing out a node

  /** The only child `child` of `x` takes the place of `x` below `par`. */
  function Spliced(m: Mem, x: Node, child: Node?, par: Node?): Mem {
    var m1 := if child != null then Set(m, ParentOf(child), par) else m;
    Set(m1, LinkTo(m1, par, x), child)
  }

  /** The subtree of a node without a left or without a right child. */
  function Only(t: T): T
    requires t.N?
  {
    if t.left.E? then t.right else t.left
  }

  lemma SpliceCtx(m: Mem, x: Node, child: Node?, par: Node?, t: T, k: Ctx)
    requires Focus(m, x, par, t, k) && t.N? && (child != null ==> child in Nodes(t) && child != x)
    ensures CtxRep(Spliced(m, x, child, par), child, par, k)
    ensures Spliced(m, x, child, par) == Set(if child != null then Set(m, ParentOf(child), par) else m, Hole(k), child)
  {
    var m1 := if child != null then Set(m, ParentOf(child), par) else m;
    HoleIs(m, x, par, t, k);
    assert LinkTo(m1, par, x) == LinkTo(m, par, x);
    assert Same(m, m1, CtxNodes(k));
    CtxFrame(m, m1, x, par, k);
    CtxSet(m1, x, child, par, k);
  }

  lemma Splice(m: Mem, x: Node, child: Node?, par: Node?, t: T, k: Ctx)
    requires Focus(m, x, par, t, k) && t.N? && (t.left.E? || t.right.E?) && Rep(m, child, Only(t))
    ensures Focus(Spliced(m, x, child, par), child, par, Only(t), k)
  {
    RepRoot(m, child, Only(t));
    SpliceCtx(m, x, child, par, t, k);
    SpliceRep(m, child, par, Only(t), Hole(k));
  }

  lemma SpliceRep(m: Mem, child: Node?, par: Node?, t: T, l: Loc)
    requires Rep(m, child, t) && Dist(t) && (l.KidOf? ==> l.x !in Nodes(t)) && !l.ParentOf?
    ensures Rep(Set(if child != null then Set(m, ParentOf(child), par) else m, l, child), child, t)
  {
    var m' := Set(if child != null then Set(m, ParentOf(child), par) else m, l, child);
    assert forall n | n in Nodes(t) :: SameButParent(m, m', n) && (n != child ==> Parent(m, n) == Parent(m', n));
    RepFrame(m, m', child, t);
  }

  lemma SplicedOk(t: T, k: Ctx)
    requires t.N? && (t.left.E? || t.right.E?) && Ok(t) && CtxOk(k, BlackHeight(t), IsRed(t))
    ensures t.c.Black? ==> ShortFocus(Only(t), k)
    ensures t.c.Red? ==> Only(t).E? && CtxOk(k, 0, false)
  {
    assert BlackHeight(E) == 0;
    if t.c.Red? { CtxWeaken(k, BlackHeight(t)); }
  }

  lemma SplicedParts(a: seq<Node>, l: seq<Node>, x: Node, r: seq<Node>, b: seq<Node>)
    ensures a + (l + [x] + r) + b == a + l + [x] + (r + b)
    ensures l == [] ==> a + r + b == a + l + (r + b)
    ensures r == [] ==> a + l + b == a + l + (r + b)
  {
  }

  lemma SplicedFlat(t: T, k: Ctx)
    requires t.N? && (t.left.E? || t.right.E?)
    ensures Flat(t, k) == Before(k) + Inorder(t.left) + [t.x] + (Inorder(t.right) + After(k))
    ensures Flat(Only(t), k) == Before(k) + Inorder(t.left) + (Inorder(t.right) + After(k))
  {
    assert Inorder(E) == [];
    SplicedParts(Before(k), Inorder(t.left), t.x, Inorder(t.right), After(k));
  }

  // ------------------------------------------------------------------ the order without one node

  lemma Without(a: seq<Node>, x: Node, b: seq<Node>)
    requires Sorted(a + [x] + b)
    ensures Sorted(a + b) && Elems(a + b) == Elems(a + [x] + b) - {x}
  {
    var zs, ws := a + [x] + b, a + b;
    SortedParts(a, x, b);
    forall i, j | 0 <= i < j < |ws| ensures Rising(ws, i, j) {
      assert Rising(zs, if i < |a| then i else i + 1, if j < |a| then j else j + 1);
    }
  }

  // ------------------------------------------------------------------ a path inside a context

  /** The context `b` inside the context `k`. */
  function Glue(b: Ctx, k: Ctx): Ctx {
    match b
    case Top => k
    case In(s, c, x, sib, up) => In(s, c, x, sib, Glue(up, k))
  }

  predicate AllLeft(b: Ctx) { b.In? ==> b.s.Left? && AllLeft(b.up) }

  lemma {:induction false} UpTo(m: Mem, p: Node?, par: Node?, t: T, b: Ctx, k: Ctx)
    requires Focus(m, p, par, t, Glue(b, k)) && k.In?
    ensures Focus(m, Kid(m, k.s, k.x), k.x, Plug(b, t), k)
    decreases b
  {
    if b.In? {
      Up(m, p, par, t, Glue(b, k));
      UpTo(m, b.x, Parent(m, b.x), Mk(b.s, b.c, t, b.x, b.sib), b.up, k);
    }
  }

  /** Back to the hole of `b`, which has the address `q` and the parent `below`. */
  lemma {:induction false} DownTo(m: Mem, p: Node?, t: T, b: Ctx, k: Ctx, q: Node?)
    requires k.In? && Focus(m, p, k.x, Plug(b, t), k) && (if t.N? then q == t.x else q == null)
    ensures Focus(m, q, if b.In? then b.x else k.x, t, Glue(b, k))
    decreases b
  {
    if b.In? {
      DownTo(m, p, Mk(b.s, b.c, t, b.x, b.sib), b.up, k, b.x);
      DownMk(m, b.x, if b.up.In? then b.up.x else k.x, b.s, b.c, t, b.x, b.sib, Glue(b.up, k), q);
    } else {
      RepRoot(m, p, t);
    }
  }

  lemma Associates(a: seq<Node>, b: seq<Node>, c: seq<Node>)
    ensures (a + b) + c == a + (b + c)
  {
  }

  lemma {:induction false} GlueBefore(b: Ctx, k: Ctx)
    ensures Before(Glue(b, k)) == Before(k) + Before(b)
    decreases b
  {
    if b.In? {
      GlueBefore(b.up, k);
      Associates(Before(k), Before(b.up), if b.s.Left? then [] else Inorder(b.sib) + [b.x]);
    }
  }

  lemma {:induction false} GlueAfter(b: Ctx, k: Ctx)
    ensures After(Glue(b, k)) == After(b) + After(k)
    decreases b
  {
    if b.In? {
      GlueAfter(b.up, k);
      Associates(if b.s.Left? then [b.x] + Inorder(b.sib) else [], After(b.up), After(k));
    }
  }

  lemma {:induction false} NothingBefore(b: Ctx)
    requires AllLeft(b)
    ensures Before(b) == []
    decreases b
  {
    if b.In? { NothingBefore(b.up); }
  }

  lemma GlueFlat(b: Ctx, k: Ctx)
    ensures Before(Glue(b, k)) == Before(k) + Before(b)
    ensures After(Glue(b, k)) == After(b) + After(k)
    ensures AllLeft(b) ==> Before(b) == []
  {
    GlueBefore(b, k);
    GlueAfter(b, k);
    if AllLeft(b) { NothingBefore(b); }
  }

  /** The colours of a context do not depend on which node is where. */
  lemma {:induction false} GlueOk(b: Ctx, k: Ctx, k': Ctx, h: nat, red: bool)
    requires CtxOk(Glue(b, k), h, red)
    requires k.In? && k'.In? && k' == k.(x := k'.x)
    ensures CtxOk(Glue(b, k'), h, red)
    decreases b
  {
    if b.In? { GlueOk(b.up, k, k', h + Tick(b.c), b.c.Red?); }
  }

  // ------------------------------------------------------------------ one node in the place of another

  /** The fields of `old` are copied to `elm`, and the neighbours of `old` are made to point to `elm`. */
  function Substituted(m: Mem, old_: Node, elm: Node): Mem {
    var l, r, par := Kid(m, Left, old_), Kid(m, Right, old_), Parent(m, old_);
    var m1 := Set(Set(Set(SetColor(m, elm, ColorOf(m, old_)), KidOf(Left, elm), l), KidOf(Right, elm), r),
      ParentOf(elm), par);
    var m2 := Set(m1, LinkTo(m1, par, old_), elm);
    var m3 := if l != null then Set(m2, ParentOf(l), elm) else m2;
    if r != null then Set(m3, ParentOf(r), elm) else m3
  }

  /** The nodes around `x`, pairwise different and different from `elm`. */
  predicate Hub(m: Mem, x: Node, elm: Node, l: Node?, r: Node?, par: Node?) {
    && l == Kid(m, Left, x) && r == Kid(m, Right, x) && par == Parent(m, x)
    && elm != x && l != x && r != x && par != x && l != elm && r != elm && par != elm
    && (l != null ==> l != r && l != par) && (r != null ==> r != par)
  }

  lemma SubstitutedAt(m: Mem, x: Node, elm: Node, l: Node?, r: Node?, par: Node?)
    requires Hub(m, x, elm, l, r, par)
    ensures var m' := Substituted(m, x, elm);
      && Kid(m', Left, elm) == l && Kid(m', Right, elm) == r && Parent(m', elm) == par
          && ColorOf(m', elm) == ColorOf(m, x)
      && Get(m', RootOf) == Get(Set(m, LinkTo(m, par, x), elm), RootOf)
  {
  }

  lemma SubstitutedKids(m: Mem, x: Node, elm: Node, l: Node?, r: Node?, par: Node?)
    requires Hub(m, x, elm, l, r, par)
    ensures var m' := Substituted(m, x, elm);
      && (l != null ==> SameButParent(m, m', l) && Parent(m', l) == elm)
      && (r != null ==> SameButParent(m, m', r) && Parent(m', r) == elm)
  {
  }

  lemma SubstitutedElsewhere(m: Mem, x: Node, elm: Node, l: Node?, r: Node?, par: Node?, n: Node)
    requires Hub(m, x, elm, l, r, par) && n != elm && n != l && n != r
    ensures SameAt(Set(m, LinkTo(m, par, x), elm), Substituted(m, x, elm), n)
  {
  }

  lemma IsHub(m: Mem, x: Node, elm: Node, par: Node?, t: T, k: Ctx)
    requires Focus(m, x, par, t, k) && t.N? && elm !in Nodes(t) && elm !in CtxNodes(k)
    ensures Hub(m, x, elm, Kid(m, Left, x), Kid(m, Right, x), par)
    ensures par != null ==> par in CtxNodes(k)
  {
    RepRoot(m, Kid(m, Left, x), t.left);
    RepRoot(m, Kid(m, Right, x), t.right);
  }

  lemma SubstitutedSub(m: Mem, x: Node, elm: Node, l: Node?, r: Node?, par: Node?, p: Node?, t: T)
    requires Hub(m, x, elm, l, r, par) && Rep(m, p, t) && Dist(t) && elm !in Nodes(t)
      && (par != null ==> par !in Nodes(t))
    requires (l != null && l in Nodes(t) ==> p == l) && (r != null && r in Nodes(t) ==> p == r)
    ensures Rep(Substituted(m, x, elm), p, t)
  {
    var m' := Substituted(m, x, elm);
    SubstitutedKids(m, x, elm, l, r, par);
    forall n | n in Nodes(t) ensures SameButParent(m, m', n) && (n != p ==> Parent(m, n) == Parent(m', n)) {
      if n != l && n != r {
        SubstitutedElsewhere(m, x, elm, l, r, par, n);
        LinkElsewhere(m, par, x, elm, n);
      }
    }
    RepFrame(m, m', p, t);
  }

  lemma SubstitutedCtx(m: Mem, x: Node, elm: Node, par: Node?, t: T, k: Ctx)
    requires Focus(m, x, par, t, k) && t.N? && elm !in Nodes(t) && elm !in CtxNodes(k)
    ensures CtxRep(Substituted(m, x, elm), elm, par, k)
  {
    var l, r := Kid(m, Left, x), Kid(m, Right, x);
    IsHub(m, x, elm, par, t, k);
    RepRoot(m, l, t.left);
    RepRoot(m, r, t.right);
    HoleIs(m, x, par, t, k);
    CtxSet(m, x, elm, par, k);
    SubstitutedAt(m, x, elm, l, r, par);
    var m1 := Set(m, LinkTo(m, par, x), elm);
    forall n | n in CtxNodes(k) ensures SameAt(m1, Substituted(m, x, elm), n) {
      SubstitutedElsewhere(m, x, elm, l, r, par, n);
    }
    CtxFrame(m1, Substituted(m, x, elm), elm, par, k);
  }

  lemma SubstitutedSubs(m: Mem, x: Node, elm: Node, par: Node?, t: T, k: Ctx)
    requires Focus(m, x, par, t, k) && t.N? && elm !in Nodes(t) && elm !in CtxNodes(k)
    ensures var m' := Substituted(m, x, elm);
      && Rep(m', Kid(m, Left, x), t.left) && ParentIs(m', Kid(m, Left, x), elm)
      && Rep(m', Kid(m, Right, x), t.right) && ParentIs(m', Kid(m, Right, x), elm)
  {
    var l, r := Kid(m, Left, x), Kid(m, Right, x);
    IsHub(m, x, elm, par, t, k);
    SubstitutedKids(m, x, elm, l, r, par);
    RepRoot(m, l, t.left);
    RepRoot(m, r, t.right);
    SubstitutedSub(m, x, elm, l, r, par, l, t.left);
    SubstitutedSub(m, x, elm, l, r, par, r, t.right);
  }

  lemma Substitute(m: Mem, x: Node, elm: Node, par: Node?, t: T, k: Ctx)
    requires Focus(m, x, par, t, k) && t.N? && elm !in Nodes(t) && elm !in CtxNodes(k)
    ensures Focus(Substituted(m, x, elm), elm, par, N(t.c, t.left, elm, t.right), k)
  {
    IsHub(m, x, elm, par, t, k);
    SubstitutedCtx(m, x, elm, par, t, k);
    SubstitutedAt(m, x, elm, Kid(m, Left, x), Kid(m, Right, x), par);
    SubstitutedSubs(m, x, elm, par, t, k);
  }

  // ------------------------------------------------------------------ finding the places

  /** The focus on a given node of the tree. */
  lemma {:induction false} FocusOn(m: Mem, p: Node?, par: Node?, t: T, k: Ctx, x: Node) returns (u: T, j: Ctx)
    requires Focus(m, p, par, t, k) && x in Nodes(t) && Ok(t) && CtxOk(k, BlackHeight(t), IsRed(t))
    ensures Focus(m, x, Parent(m, x), u, j) && u.N? && u.x == x && Flat(u, j) == Flat(t, k)
    ensures Ok(u) && CtxOk(j, BlackHeight(u), IsRed(u))
    decreases t
  {
    if t.x == x {
      u, j := t, k;
    } else {
      var s := if x in Nodes(t.left) then Left else Right;
      Down(m, p, par, t, k, s);
      DownOk(t, k, s);
      u, j := FocusOn(m, Kid(m, s, t.x), t.x, Sub(s, t), In(s, t.c, t.x, Sub(Other(s), t), k), x);
    }
  }

  /** While the successor is looked for: the focus is in the right subtree of `x`, on its left spine. */
  predicate Spine(m: Mem, elm: Node?, par: Node?, e: T, b: Ctx, k: Ctx) {
    && Focus(m, elm, par, e, Glue(b, k)) && AllLeft(b) && Ok(e) && CtxOk(Glue(b, k), BlackHeight(e), IsRed(e))
  }

  lemma SpineDown(m: Mem, elm: Node, par: Node?, e: T, b: Ctx, k: Ctx)
    requires Spine(m, elm, par, e, b, k) && e.N?
    ensures Spine(m, Kid(m, Left, elm), elm, e.left, In(Left, e.c, e.x, e.right, b), k)
    ensures Flat(e.left, Glue(In(Left, e.c, e.x, e.right, b), k)) == Flat(e, Glue(b, k))
  {
    Down(m, elm, par, e, Glue(b, k), Left);
    DownOk(e, Glue(b, k), Left);
  }

  /** The order of the nodes around the successor `e.x` of `k.x`, and what it is without `k.x`. */
  lemma SuccessorFlat(e: T, b: Ctx, k: Ctx, k': Ctx)
    requires e.N? && e.left.E? && AllLeft(b) && k.In? && k.s.Right? && k' == In(Right, k.c, e.x, k.sib, k.up)
    ensures var a, z := Before(k.up) + Inorder(k.sib), [e.x] + Inorder(e.right) + After(Glue(b, k));
      Flat(e, Glue(b, k)) == a + [k.x] + z && Flat(e.right, Glue(b, k')) == a + z
  {
    GlueFlat(b, k);
    GlueFlat(b, k');
    assert Inorder(e) == [e.x] + Inorder(e.right) by { assert Inorder(E) == []; }
    assert Before(Glue(b, k)) == Before(k) && Before(Glue(b, k')) == Before(k');
    Regroup(Before(k.up), Inorder(k.sib), k.x, e.x, Inorder(e.right), After(Glue(b, k)));
  }

  lemma Regroup(p: seq<Node>, q: seq<Node>, o: Node, x: Node, r: seq<Node>, z: seq<Node>)
    ensures (p + (q + [o])) + ([x] + r) + z == (p + q) + [o] + ([x] + r + z)
    ensures (p + (q + [x])) + r + z == (p + q) + ([x] + r + z)
  {
  }

  /** The successor `elm` was spliced out; it now takes the place of `k.x`. */
  lemma Succeed(m: Mem, elm: Node, child: Node?, par: Node?, tc: T, b: Ctx, k: Ctx)
    requires k.In? && k.s.Right? && Focus(m, child, par, tc, Glue(b, k))
    requires elm !in Nodes(tc) && elm !in CtxNodes(Glue(b, k))
    ensures Focus(Substituted(m, k.x, elm), child, if b.In? then b.x else elm, tc,
                  Glue(b, In(Right, k.c, elm, k.sib, k.up)))
  {
    RepRoot(m, child, tc);
    UpTo(m, child, par, tc, b, k);
    var r := Plug(b, tc);
    Up(m, Kid(m, Right, k.x), k.x, r, k);
    var t := N(k.c, k.sib, k.x, r);
    GlueNodes(tc, b, k);
    Substitute(m, k.x, elm, Parent(m, k.x), t, k.up);
    SucceedDown(Substituted(m, k.x, elm), elm, child, Parent(m, k.x), tc, b, k);
  }

  lemma SucceedDown(m: Mem, elm: Node, child: Node?, par: Node?, tc: T, b: Ctx, k: Ctx)
    requires k.In? && k.s.Right? && Focus(m, elm, par, N(k.c, k.sib, elm, Plug(b, tc)), k.up)
    requires if tc.N? then child == tc.x else child == null
    ensures Focus(m, child, if b.In? then b.x else elm, tc, Glue(b, In(Right, k.c, elm, k.sib, k.up)))
  {
    var t, k' := N(k.c, k.sib, elm, Plug(b, tc)), In(Right, k.c, elm, k.sib, k.up);
    Down(m, elm, par, t, k.up, Right);
    DownTo(m, Kid(m, Right, elm), tc, b, k', child);
  }

  lemma {:induction false} GlueNodes(t: T, b: Ctx, k: Ctx)
    ensures Nodes(Plug(b, t)) + CtxNodes(k) == Nodes(t) + CtxNodes(Glue(b, k))
    decreases b
  {
    if b.In? {
      GlueNodes(Mk(b.s, b.c, t, b.x, b.sib), b.up, k);
    }
  }

  /** The neighbours of `k.x` after the successor was spliced out. */
  lemma HubAt(m: Mem, elm: Node, child: Node?, par: Node?, tc: T, b: Ctx, k: Ctx, nodes: set<Node>)
    requires k.In? && k.s.Right? && k.sib.N? && Focus(m, child, par, tc, Glue(b, k))
    requires elm !in Nodes(tc) && elm !in CtxNodes(Glue(b, k)) && Nodes(tc) + CtxNodes(Glue(b, k)) <= nodes
    ensures Hub(m, k.x, elm, Kid(m, Left, k.x), Kid(m, Right, k.x), Parent(m, k.x)) && k.x in nodes
    ensures Kid(m, Left, k.x) != null && Kid(m, Left, k.x) in nodes
    ensures Kid(m, Right, k.x) != null ==> Kid(m, Right, k.x) in nodes
    ensures Parent(m, k.x) != null ==> Parent(m, k.x) in nodes
  {
    UpTo(m, child, par, tc, b, k);
    var r := Plug(b, tc);
    Up(m, Kid(m, Right, k.x), k.x, r, k);
    GlueNodes(tc, b, k);
    IsHub(m, k.x, elm, Parent(m, k.x), N(k.c, k.sib, k.x, r), k.up);
    RepRoot(m, Kid(m, Left, k.x), k.sib);
    RepRoot(m, Kid(m, Right, k.x), r);
  }

  /** Without its root, a tree shows the same nodes minus the root. */
  lemma SplicedNodes(e: T, k: Ctx, nodes: set<Node>)
    requires e.N? && e.left.E? && Dist(e) && CtxDist(k) && Nodes(e) !! CtxNodes(k) && Nodes(e) + CtxNodes(k) == nodes
    ensures e.x !in Nodes(e.right) && e.x !in CtxNodes(k) && Nodes(e.right) + CtxNodes(k) <= nodes
  {
    assert Nodes(E) == {};
  }

  /** What RB_REMOVE has achieved when the successor has taken the place of `k.x`. */
  lemma SucceededShows(e: T, b: Ctx, k: Ctx, k': Ctx, nodes: set<Node>) returns (order: seq<Node>)
    requires e.N? && e.left.E? && AllLeft(b) && k.In? && k.s.Right? && k' == In(Right, k.c, e.x, k.sib, k.up)
    requires Shows(e, Glue(b, k), Flat(e, Glue(b, k)), nodes) && Sorted(Flat(e, Glue(b, k)))
    ensures Shows(e.right, Glue(b, k'), order, nodes - {k.x}) && Sorted(order)
  {
    SuccessorFlat(e, b, k, k');
    var a, z := Before(k.up) + Inorder(k.sib), [e.x] + Inorder(e.right) + After(Glue(b, k));
    Without(a, k.x, z);
    order := a + z;
    FlatElems(e, Glue(b, k));
    FlatElems(e.right, Glue(b, k'));
  }

  lemma SucceededOk(e: T, b: Ctx, k: Ctx, k': Ctx)
    requires e.N? && e.left.E? && Ok(e) && CtxOk(Glue(b, k), BlackHeight(e), IsRed(e))
    requires k.In? && k.s.Right? && k' == In(Right, k.c, e.x, k.sib, k.up)
    ensures e.c.Black? ==> ShortFocus(e.right, Glue(b, k'))
    ensures e.c.Red? ==> e.right.E? && CtxOk(Glue(b, k'), 0, false)
  {
    GlueOk(b, k, k', BlackHeight(e), IsRed(e));
    SplicedOk(e, Glue(b, k'));
  }

  lemma SpineParent(m: Mem, elm: Node, par: Node, e: T, b: Ctx, k: Ctx)
    requires Spine(m, elm, par, e, b, k) && e.N? && k.In? && par == if b.In? then b.x else k.x
    ensures Parent(m, elm) == par && (par == k.x <==> b.Top?)
  {
    RepRoot(m, elm, e);
    if b.In? { GlueHas(b.up, k); }
  }

  lemma {:induction false} GlueHas(b: Ctx, k: Ctx)
    requires k.In?
    ensures k.x in CtxNodes(Glue(b, k))
    decreases b
  {
    if b.In? { GlueHas(b.up, k); }
  }
}
