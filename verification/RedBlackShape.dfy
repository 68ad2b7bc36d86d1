/**
 The red-black tree of libkqueue/src/common/tree.h: nodes with left, right, parent and colour
 fields that are rewritten in place. The two mirror images of each macro are one body here, with
 the side as a parameter.

 The memory of a tree is described by a value tree and, during an operation, by a focus: the
 subtree at a pointer and the context around it.
*/
module RedBlackShape {

  datatype Color = Red | Black

  datatype Side = Left | Right

  function Other(s: Side): Side { if s.Left? then Right else Left }

  class Node {
    var left: Node?
    var right: Node?
    var parent: Node?
    var color: Color
    const key: int

    constructor (k: int)
      ensures key == k
    {
      left, right, parent, color, key := null, null, null, Red, k;
    }
  }

  // ------------------------------------------------------------------ memory as a value

  /** The pointer fields of a tree and its nodes. */
  datatype Loc = RootOf | KidOf(s: Side, x: Node) | ParentOf(x: Node)

  datatype Mem = Mem(ptr: map<Loc, Node?>, color: map<Node, Color>)

  function Get(m: Mem, l: Loc): Node? { if l in m.ptr then m.ptr[l] else null }

  function Set(m: Mem, l: Loc, p: Node?): Mem { Mem(m.ptr[l := p], m.color) }

  function Kid(m: Mem, s: Side, x: Node): Node? { Get(m, KidOf(s, x)) }

  function Parent(m: Mem, x: Node): Node? { Get(m, ParentOf(x)) }

  function ColorOf(m: Mem, x: Node): Color { if x in m.color then m.color[x] else Black }

  function SetColor(m: Mem, x: Node, c: Color): Mem { Mem(m.ptr, m.color[x := c]) }

  /** The field that holds the child `p` of `par`, or the root if there is no parent. */
  function LinkTo(m: Mem, par: Node?, p: Node?): Loc {
    if par == null then RootOf else KidOf(if Kid(m, Left, par) == p then Left else Right, par)
  }

  predicate SameAt(m: Mem, m': Mem, x: Node) {
    SameButParent(m, m', x) && Parent(m, x) == Parent(m', x)
  }

  predicate SameButParent(m: Mem, m': Mem, x: Node) {
    Kid(m, Left, x) == Kid(m', Left, x) && Kid(m, Right, x) == Kid(m', Right, x) && ColorOf(m, x) == ColorOf(m', x)
  }

  ghost predicate Same(m: Mem, m': Mem, xs: set<Node>) { forall x | x in xs :: SameAt(m, m', x) }

  // ------------------------------------------------------------------ trees and contexts

  datatype T = E | N(c: Color, left: T, x: Node, right: T)

  function Sub(s: Side, t: T): T
    requires t.N?
  {
    if s.Left? then t.left else t.right
  }

  /** A node whose subtree on side `s` is `near`. */
  function Mk(s: Side, c: Color, near: T, x: Node, far: T): T {
    if s.Left? then N(c, near, x, far) else N(c, far, x, near)
  }

  function Nodes(t: T): set<Node> {
    match t
    case E => {}
    case N(_, l, x, r) => Nodes(l) + {x} + Nodes(r)
  }

  predicate Dist(t: T) {
    match t
    case E => true
    case N(_, l, x, r) => x !in Nodes(l) && x !in Nodes(r) && Nodes(l) !! Nodes(r) && Dist(l) && Dist(r)
  }

  predicate ParentIs(m: Mem, p: Node?, par: Node?) { p != null ==> Parent(m, p) == par }

  /** The subtree at `p` is `t`; the parent link of `p` itself is left open. */
  predicate Rep(m: Mem, p: Node?, t: T)
    decreases t
  {
    match t
    case E => p == null
    case N(c, l, x, r) =>
      && p == x && ColorOf(m, x) == c
      && Rep(m, Kid(m, Left, x), l) && ParentIs(m, Kid(m, Left, x), x)
      && Rep(m, Kid(m, Right, x), r) && ParentIs(m, Kid(m, Right, x), x)
  }

  /** What surrounds a subtree: from its parent `x`, whose child on side `s` it is, up to the root. */
  datatype Ctx = Top | In(s: Side, c: Color, x: Node, sib: T, up: Ctx)

  function CtxNodes(k: Ctx): set<Node> {
    match k
    case Top => {}
    case In(_, _, x, sib, up) => {x} + Nodes(sib) + CtxNodes(up)
  }

  predicate CtxDist(k: Ctx) {
    match k
    case Top => true
    case In(_, _, x, sib, up) =>
      && x !in Nodes(sib) && x !in CtxNodes(up) && Nodes(sib) !! CtxNodes(up) && Dist(sib) && CtxDist(up)
  }

  predicate CtxRep(m: Mem, p: Node?, par: Node?, k: Ctx)
    decreases k
  {
    match k
    case Top => par == null && Get(m, RootOf) == p
    case In(s, c, x, sib, up) =>
      && par == x && ColorOf(m, x) == c && Kid(m, s, x) == p
      && Rep(m, Kid(m, Other(s), x), sib) && ParentIs(m, Kid(m, Other(s), x), x)
      && CtxRep(m, x, Parent(m, x), up)
  }

  /** The memory holds `t` at `p`, with parent `par`, inside the context `k`. */
  predicate Focus(m: Mem, p: Node?, par: Node?, t: T, k: Ctx) {
    && Rep(m, p, t) && ParentIs(m, p, par) && CtxRep(m, p, par, k)
    && Dist(t) && CtxDist(k) && Nodes(t) !! CtxNodes(k)
  }

  function Plug(k: Ctx, t: T): T {
    match k
    case Top => t
    case In(s, c, x, sib, up) => Plug(up, Mk(s, c, t, x, sib))
  }

  // ------------------------------------------------------------------ in-order sequence

  function Inorder(t: T): seq<Node> {
    match t
    case E => []
    case N(_, l, x, r) => Inorder(l) + [x] + Inorder(r)
  }

  function Before(k: Ctx): seq<Node> {
    match k
    case Top => []
    case In(s, _, x, sib, up) => Before(up) + if s.Left? then [] else Inorder(sib) + [x]
  }

  function After(k: Ctx): seq<Node> {
    match k
    case Top => []
    case In(s, _, x, sib, up) => (if s.Left? then [x] + Inorder(sib) else []) + After(up)
  }

  function Flat(t: T, k: Ctx): seq<Node> { Before(k) + Inorder(t) + After(k) }

  lemma FlatTop(t: T)
    ensures Flat(t, Top) == Inorder(t)
  {
  }

  lemma {:induction false} PlugInorder(k: Ctx, t: T)
    ensures Inorder(Plug(k, t)) == Flat(t, k)
  {
    if k.In? { PlugInorder(k.up, Mk(k.s, k.c, t, k.x, k.sib)); }
  }

  // ------------------------------------------------------------------ frames

  lemma {:induction false} RepFrame(m: Mem, m': Mem, p: Node?, t: T)
    requires Rep(m, p, t) && Dist(t)
    requires forall x | x in Nodes(t) :: SameButParent(m, m', x) && (x != p ==> Parent(m, x) == Parent(m', x))
    ensures Rep(m', p, t)
    decreases t
  {
    if t.N? {
      assert SameButParent(m, m', t.x);
      RepRoot(m, Kid(m, Left, t.x), t.left);
      RepRoot(m, Kid(m, Right, t.x), t.right);
      RepFrame(m, m', Kid(m, Left, t.x), t.left);
      RepFrame(m, m', Kid(m, Right, t.x), t.right);
    }
  }

  lemma RepRoot(m: Mem, p: Node?, t: T)
    requires Rep(m, p, t)
    ensures p != null <==> t.N?
    ensures p != null ==> p in Nodes(t) && t.x == p
  {
  }

  lemma {:induction false} CtxFrame(m: Mem, m': Mem, p: Node?, par: Node?, k: Ctx)
    requires CtxRep(m, p, par, k) && CtxDist(k) && Same(m, m', CtxNodes(k)) && Get(m, RootOf) == Get(m', RootOf)
    ensures CtxRep(m', p, par, k)
    decreases k
  {
    if k.In? {
      assert SameAt(m, m', k.x);
      RepRoot(m, Kid(m, Other(k.s), k.x), k.sib);
      RepFrame(m, m', Kid(m, Other(k.s), k.x), k.sib);
      CtxFrame(m, m', k.x, Parent(m, k.x), k.up);
    }
  }

  /** The field that holds the subtree a context surrounds. */
  function Hole(k: Ctx): Loc { if k.Top? then RootOf else KidOf(k.s, k.x) }

  lemma KidSame(m: Mem, s: Side, x: Node, q: Node?, xs: set<Node>)
    requires x !in xs
    ensures Same(m, Set(m, KidOf(s, x), q), xs)
  {
  }

  lemma CtxSet(m: Mem, p: Node?, q: Node?, par: Node?, k: Ctx)
    requires CtxRep(m, p, par, k) && CtxDist(k)
    ensures CtxRep(Set(m, Hole(k), q), q, par, k)
  {
    if k.In? {
      var m' := Set(m, Hole(k), q);
      KidSame(m, k.s, k.x, q, Nodes(k.sib));
      KidSame(m, k.s, k.x, q, CtxNodes(k.up));
      RepRoot(m, Kid(m, Other(k.s), k.x), k.sib);
      RepFrame(m, m', Kid(m, Other(k.s), k.x), k.sib);
      CtxFrame(m, m', k.x, Parent(m, k.x), k.up);
    }
  }

  // ------------------------------------------------------------------ moving the focus

  lemma Down(m: Mem, p: Node?, par: Node?, t: T, k: Ctx, s: Side)
    requires Focus(m, p, par, t, k) && t.N?
    ensures Focus(m, Kid(m, s, t.x), t.x, Sub(s, t), In(s, t.c, t.x, Sub(Other(s), t), k))
    ensures Flat(Sub(s, t), In(s, t.c, t.x, Sub(Other(s), t), k)) == Flat(t, k)
  {
    FlatDown(t, k, s);
  }

  lemma Shift(a: seq<Node>, l: seq<Node>, x: Node, r: seq<Node>, b: seq<Node>)
    ensures a + l + (([x] + r) + b) == a + (l + [x] + r) + b
    ensures (a + (l + [x])) + r + b == a + (l + [x] + r) + b
  {
  }

  lemma FlatDown(t: T, k: Ctx, s: Side)
    requires t.N?
    ensures Flat(Sub(s, t), In(s, t.c, t.x, Sub(Other(s), t), k)) == Flat(t, k)
  {
    Shift(Before(k), Inorder(t.left), t.x, Inorder(t.right), After(k));
    var k' := In(s, t.c, t.x, Sub(Other(s), t), k);
    if s.Left? {
      assert Before(k') == Before(k) + [] == Before(k);
    } else {
      assert After(k') == [] + After(k) == After(k);
    }
  }

  lemma Up(m: Mem, p: Node?, par: Node?, t: T, k: Ctx)
    requires Focus(m, p, par, t, k) && k.In?
    ensures Focus(m, k.x, Parent(m, k.x), Mk(k.s, k.c, t, k.x, k.sib), k.up)
    ensures Flat(Mk(k.s, k.c, t, k.x, k.sib), k.up) == Flat(t, k)
  {
    FlatDown(Mk(k.s, k.c, t, k.x, k.sib), k.up, k.s);
  }

  /** The child test of the source finds the field the focus hangs from. */
  lemma HoleIs(m: Mem, p: Node?, par: Node?, t: T, k: Ctx)
    requires Focus(m, p, par, t, k) && (k.In? ==> t.N? || k.sib.N?)
    ensures LinkTo(m, par, p) == Hole(k)
  {
    if k.In? {
      RepRoot(m, p, t);
      RepRoot(m, Kid(m, Other(k.s), k.x), k.sib);
    }
  }

  lemma Paint(m: Mem, p: Node?, par: Node?, t: T, k: Ctx, c: Color)
    requires Focus(m, p, par, t, k) && t.N?
    ensures Focus(SetColor(m, t.x, c), p, par, N(c, t.left, t.x, t.right), k)
  {
    var m' := SetColor(m, t.x, c);
    SetColorSame(m, t.x, c, Nodes(t.left));
    SetColorSame(m, t.x, c, Nodes(t.right));
    SetColorSame(m, t.x, c, CtxNodes(k));
    RepFrame(m, m', Kid(m, Left, t.x), t.left);
    RepFrame(m, m', Kid(m, Right, t.x), t.right);
    CtxFrame(m, m', p, par, k);
  }

  lemma SetColorSame(m: Mem, x: Node, c: Color, xs: set<Node>)
    requires x !in xs
    ensures Same(m, SetColor(m, x, c), xs)
  {
  }

  // ------------------------------------------------------------------ rotation

  /** RB_ROTATE_LEFT for the left side, RB_ROTATE_RIGHT for the right one. */
  function Rotated(m: Mem, s: Side, x: Node): Mem
    requires Kid(m, Other(s), x) != null
  {
    var y := Kid(m, Other(s), x);
    var b := Kid(m, s, y);
    var m1 := Set(m, KidOf(Other(s), x), b);
    var m2 := if b != null then Set(m1, ParentOf(b), x) else m1;
    var m3 := Set(m2, ParentOf(y), Parent(m2, x));
    var m4 := Set(m3, LinkTo(m3, Parent(m3, x), x), y);
    Set(Set(m4, KidOf(s, y), x), ParentOf(x), y)
  }

  /** The nodes a rotation reads and writes are among `nodes`. */
  predicate Rotatable(m: Mem, s: Side, x: Node, nodes: set<Node>) {
    var y := Kid(m, Other(s), x);
    && x in nodes && y != null && y in nodes
    && (Kid(m, s, y) != null ==> Kid(m, s, y) in nodes)
    && (Parent(m, x) != null ==> Parent(m, x) in nodes)
  }

  /** The nodes a rotation writes to, pairwise different. */
  predicate Pivot(m: Mem, s: Side, x: Node, y: Node, b: Node?, par: Node?) {
    && y == Kid(m, Other(s), x) && b == Kid(m, s, y) && par == Parent(m, x)
    && x != y && b != x && b != y && par != x && par != y && (b != null ==> b != par)
  }

  lemma RotatedPivot(m: Mem, s: Side, x: Node, y: Node, b: Node?, par: Node?)
    requires Pivot(m, s, x, y, b, par)
    ensures var m' := Rotated(m, s, x);
      && Kid(m', s, x) == Kid(m, s, x) && Kid(m', Other(s), x) == b && Parent(m', x) == y
      && Kid(m', s, y) == x && Kid(m', Other(s), y) == Kid(m, Other(s), y) && Parent(m', y) == par
  {
  }

  lemma RotatedInner(m: Mem, s: Side, x: Node, y: Node, b: Node, par: Node?)
    requires Pivot(m, s, x, y, b, par)
    ensures SameButParent(m, Rotated(m, s, x), b) && Parent(Rotated(m, s, x), b) == x
  {
  }

  lemma RotatedAt(m: Mem, s: Side, x: Node, y: Node, b: Node?, par: Node?)
    requires Pivot(m, s, x, y, b, par)
    ensures var m' := Rotated(m, s, x);
      && Kid(m', s, x) == Kid(m, s, x) && Kid(m', Other(s), x) == b && Parent(m', x) == y
      && Kid(m', s, y) == x && Kid(m', Other(s), y) == Kid(m, Other(s), y) && Parent(m', y) == par
      && (b != null ==> SameButParent(m, m', b) && Parent(m', b) == x)
      && m'.color == m.color
  {
    RotatedPivot(m, s, x, y, b, par);
    if b != null { RotatedInner(m, s, x, y, b, par); }
  }

  lemma RotatedKids(m: Mem, s: Side, x: Node, y: Node, b: Node?, par: Node?, n: Node, side: Side)
    requires Pivot(m, s, x, y, b, par) && n != x && n != y
    ensures Kid(Rotated(m, s, x), side, n) == Kid(Set(m, LinkTo(m, par, x), y), side, n)
  {
    if b == null {} else {}
  }

  lemma RotatedRest(m: Mem, s: Side, x: Node, y: Node, b: Node?, par: Node?)
    requires Pivot(m, s, x, y, b, par)
    ensures Get(Rotated(m, s, x), RootOf) == Get(Set(m, LinkTo(m, par, x), y), RootOf)
    ensures Rotated(m, s, x).color == m.color
  {
    if b == null {} else {}
  }

  lemma RotatedElsewhere(m: Mem, s: Side, x: Node, y: Node, b: Node?, par: Node?, n: Node)
    requires Pivot(m, s, x, y, b, par) && n != x && n != y && n != b
    ensures SameAt(Set(m, LinkTo(m, par, x), y), Rotated(m, s, x), n)
  {
    RotatedKids(m, s, x, y, b, par, n, Left);
    RotatedKids(m, s, x, y, b, par, n, Right);
    RotatedRest(m, s, x, y, b, par);
  }

  lemma LinkElsewhere(m: Mem, par: Node?, p: Node?, q: Node?, n: Node)
    requires n != par
    ensures SameAt(m, Set(m, LinkTo(m, par, p), q), n)
  {
  }

  lemma RepMk(m: Mem, p: Node?, s: Side, c: Color, near: T, x: Node, far: T)
    requires Rep(m, p, Mk(s, c, near, x, far))
    ensures p == x && ColorOf(m, x) == c
    ensures Rep(m, Kid(m, s, x), near) && ParentIs(m, Kid(m, s, x), x)
    ensures Rep(m, Kid(m, Other(s), x), far) && ParentIs(m, Kid(m, Other(s), x), x)
  {
  }

  lemma IsPivot(m: Mem, s: Side, x: Node, y: Node, par: Node?, a: T, b: T, d: T, cx: Color, cy: Color, k: Ctx)
    requires Focus(m, x, par, Mk(s, cx, a, x, Mk(s, cy, b, y, d)), k)
    ensures Pivot(m, s, x, y, Kid(m, s, y), par) && ColorOf(m, x) == cx && ColorOf(m, y) == cy
    ensures Rep(m, Kid(m, s, x), a) && ParentIs(m, Kid(m, s, x), x)
    ensures Rep(m, Kid(m, s, y), b) && ParentIs(m, Kid(m, s, y), y)
    ensures Rep(m, Kid(m, Other(s), y), d) && ParentIs(m, Kid(m, Other(s), y), y)
  {
    RotatedNodes(s, x, y, a, b, d, cx, cy);
    RepMk(m, x, s, cx, a, x, Mk(s, cy, b, y, d));
    RepMk(m, y, s, cy, b, y, d);
    RepRoot(m, Kid(m, s, y), b);
  }

  lemma RotatedCtx(m: Mem, s: Side, x: Node, y: Node, par: Node?, t: T, k: Ctx)
    requires Focus(m, x, par, t, k) && Pivot(m, s, x, y, Kid(m, s, y), par)
    requires y in Nodes(t) && (Kid(m, s, y) != null ==> Kid(m, s, y) in Nodes(t))
    ensures CtxRep(Rotated(m, s, x), y, par, k)
  {
    HoleIs(m, x, par, t, k);
    CtxSet(m, x, y, par, k);
    var m1 := Set(m, LinkTo(m, par, x), y);
    RepRoot(m, x, t);
    RotatedRest(m, s, x, y, Kid(m, s, y), par);
    forall n | n in CtxNodes(k) ensures SameAt(m1, Rotated(m, s, x), n) {
      RotatedElsewhere(m, s, x, y, Kid(m, s, y), par, n);
    }
    CtxFrame(m1, Rotated(m, s, x), y, par, k);
  }

  /** A subtree below the rotated nodes is not touched, except for its parent link. */
  lemma RotatedSub(m: Mem, s: Side, x: Node, y: Node, b: Node?, par: Node?, p: Node?, t: T)
    requires Pivot(m, s, x, y, b, par) && Rep(m, p, t) && Dist(t)
    requires x !in Nodes(t) && y !in Nodes(t) && (par != null ==> par !in Nodes(t))
    requires b != null && b in Nodes(t) ==> p == b
    ensures Rep(Rotated(m, s, x), p, t)
    ensures p != null && p != b ==> Parent(Rotated(m, s, x), p) == Parent(m, p)
  {
    var m' := Rotated(m, s, x);
    RotatedAt(m, s, x, y, b, par);
    RepRoot(m, p, t);
    forall n | n in Nodes(t) ensures SameButParent(m, m', n) && (n != b ==> Parent(m, n) == Parent(m', n)) {
      if n != b {
        RotatedElsewhere(m, s, x, y, b, par, n);
        LinkElsewhere(m, par, x, y, n);
      }
    }
    RepFrame(m, m', p, t);
  }

  /** The three subtrees a rotation moves stay as they are, below their new parents. */
  lemma RotatedParts(m: Mem, s: Side, x: Node, y: Node, par: Node?, a: T, b: T, d: T, cx: Color, cy: Color, k: Ctx)
    requires Focus(m, x, par, Mk(s, cx, a, x, Mk(s, cy, b, y, d)), k) && y == Kid(m, Other(s), x)
    ensures var m' := Rotated(m, s, x);
      && Rep(m', Kid(m, s, x), a) && ParentIs(m', Kid(m, s, x), x)
      && Rep(m', Kid(m, s, y), b) && ParentIs(m', Kid(m, s, y), x)
      && Rep(m', Kid(m, Other(s), y), d) && ParentIs(m', Kid(m, Other(s), y), y)
  {
    IsPivot(m, s, x, y, par, a, b, d, cx, cy, k);
    RotatedNodes(s, x, y, a, b, d, cx, cy);
    var w := Kid(m, s, y);
    RotatedAt(m, s, x, y, w, par);
    RepRoot(m, Kid(m, s, x), a);
    RepRoot(m, w, b);
    RepRoot(m, Kid(m, Other(s), y), d);
    assert par != null ==> par in CtxNodes(k);
    RotatedSub(m, s, x, y, w, par, Kid(m, s, x), a);
    RotatedSub(m, s, x, y, w, par, w, b);
    RotatedSub(m, s, x, y, w, par, Kid(m, Other(s), y), d);
  }

  /** A rotation moves `y` above `x`. */
  lemma Rotate(m: Mem, s: Side, x: Node, y: Node, par: Node?, a: T, b: T, d: T, cx: Color, cy: Color, k: Ctx)
    requires Focus(m, x, par, Mk(s, cx, a, x, Mk(s, cy, b, y, d)), k)
    ensures Kid(m, Other(s), x) == y && Rotatable(m, s, x, Nodes(Mk(s, cx, a, x, Mk(s, cy, b, y, d))) + CtxNodes(k))
    ensures Focus(Rotated(m, s, x), y, par, Mk(s, cy, Mk(s, cx, a, x, b), y, d), k)
  {
    IsPivot(m, s, x, y, par, a, b, d, cx, cy, k);
    RotatedNodes(s, x, y, a, b, d, cx, cy);
    RepRoot(m, Kid(m, s, y), b);
    RotatedCtx(m, s, x, y, par, Mk(s, cx, a, x, Mk(s, cy, b, y, d)), k);
    RotatedAt(m, s, x, y, Kid(m, s, y), par);
    RotatedParts(m, s, x, y, par, a, b, d, cx, cy, k);
    var m' := Rotated(m, s, x);
    MkRep(m', s, cx, a, x, b);
    MkRep(m', s, cy, Mk(s, cx, a, x, b), y, d);
  }

  lemma MkRep(m: Mem, s: Side, c: Color, near: T, x: Node, far: T)
    requires ColorOf(m, x) == c
    requires Rep(m, Kid(m, s, x), near) && ParentIs(m, Kid(m, s, x), x)
    requires Rep(m, Kid(m, Other(s), x), far) && ParentIs(m, Kid(m, Other(s), x), x)
    ensures Rep(m, x, Mk(s, c, near, x, far))
  {
  }

  lemma RotatedNodes(s: Side, x: Node, y: Node, a: T, b: T, d: T, cx: Color, cy: Color)
    requires Dist(Mk(s, cx, a, x, Mk(s, cy, b, y, d)))
    ensures var t, t' := Mk(s, cx, a, x, Mk(s, cy, b, y, d)), Mk(s, cy, Mk(s, cx, a, x, b), y, d);
      && Dist(t') && Nodes(t') == Nodes(t) == Nodes(a) + Nodes(b) + Nodes(d) + {x, y}
      && x !in Nodes(a) + Nodes(b) + Nodes(d) && y !in Nodes(a) + Nodes(b) + Nodes(d)
      && Nodes(a) !! Nodes(b) && Nodes(a) !! Nodes(d) && Nodes(b) !! Nodes(d)
      && Dist(a) && Dist(b) && Dist(d)
  {
    if s.Left? {
      assert Nodes(N(cx, a, x, N(cy, b, y, d))) == Nodes(a) + Nodes(b) + Nodes(d) + {x, y};
    } else {
      assert Nodes(N(cx, N(cy, d, y, b), x, a)) == Nodes(a) + Nodes(b) + Nodes(d) + {x, y};
    }
  }

  lemma RotatedInorder(s: Side, x: Node, y: Node, a: T, b: T, d: T, cx: Color, cy: Color)
    ensures Inorder(Mk(s, cy, Mk(s, cx, a, x, b), y, d)) == Inorder(Mk(s, cx, a, x, Mk(s, cy, b, y, d)))
  {
    if s.Left? {
      assert Inorder(a) + [x] + (Inorder(b) + [y] + Inorder(d)) == Inorder(a) + [x] + Inorder(b) + [y] + Inorder(d);
    } else {
      assert Inorder(d) + [y] + (Inorder(b) + [x] + Inorder(a)) == Inorder(d) + [y] + Inorder(b) + [x] + Inorder(a);
    }
  }

  // ------------------------------------------------------------------ colours

  predicate IsRed(t: T) { t.N? && t.c.Red? }

  function Tick(c: Color): nat { if c.Black? then 1 else 0 }

  function Colored(t: T, c: Color): T
    requires t.N?
  {
    N(c, t.left, t.x, t.right)
  }

  /** Black nodes on the leftmost path, and on every path of a tree that is Ok. */
  function BlackHeight(t: T): nat {
    match t
    case E => 0
    case N(c, l, _, _) => BlackHeight(l) + Tick(c)
  }

  /** No red node has a red child, and all paths have equally many black nodes. */
  predicate Ok(t: T) {
    match t
    case E => true
    case N(c, l, _, r) => Ok(l) && Ok(r) && BlackHeight(l) == BlackHeight(r) && (c.Red? ==> !IsRed(l) && !IsRed(r))
  }

  /** The same, but the colour of the root is ignored. */
  predicate OkBelow(t: T) {
    t.N? ==> Ok(t.left) && Ok(t.right) && BlackHeight(t.left) == BlackHeight(t.right)
  }

  lemma MkOk(s: Side, c: Color, near: T, x: Node, far: T)
    requires Ok(near) && Ok(far) && BlackHeight(near) == BlackHeight(far)
    ensures var t := Mk(s, c, near, x, far);
      && OkBelow(t) && IsRed(t) == c.Red? && BlackHeight(t) == BlackHeight(near) + Tick(c)
      && (Ok(t) <==> (c.Red? ==> !IsRed(near) && !IsRed(far)))
  {
  }

  /** Plugging in an Ok tree of black height `h`, with a red root or not, gives an Ok tree with a black root. */
  predicate CtxOk(k: Ctx, h: nat, red: bool) {
    match k
    case Top => !red
    case In(_, c, _, sib, up) =>
      && Ok(sib) && BlackHeight(sib) == h && (c.Red? ==> !red && !IsRed(sib))
      && CtxOk(up, h + Tick(c), c.Red?)
  }

  lemma {:induction false} PlugOk(k: Ctx, t: T)
    requires Ok(t) && CtxOk(k, BlackHeight(t), IsRed(t))
    ensures Ok(Plug(k, t)) && !IsRed(Plug(k, t))
    decreases k
  {
    if k.In? { PlugOk(k.up, Mk(k.s, k.c, t, k.x, k.sib)); }
  }

  lemma CtxWeaken(k: Ctx, h: nat)
    requires CtxOk(k, h, true)
    ensures CtxOk(k, h, false)
  {
  }

  lemma {:induction false} ToTop(m: Mem, p: Node?, par: Node?, t: T, k: Ctx)
    requires Focus(m, p, par, t, k)
    ensures Focus(m, Get(m, RootOf), null, Plug(k, t), Top)
    decreases k
  {
    if k.In? {
      Up(m, p, par, t, k);
      ToTop(m, k.x, Parent(m, k.x), Mk(k.s, k.c, t, k.x, k.sib), k.up);
    }
  }

  lemma MkOther(s: Side, c: Color, near: T, x: Node, far: T)
    ensures Mk(s, c, near, x, far) == Mk(Other(s), c, far, x, near)
  {
  }

  /** Painting the child on side `s` of the focus. */
  lemma PaintNear(m: Mem, p: Node?, par: Node?, s: Side, c0: Color, near: T, x: Node, far: T, k: Ctx, c: Color)
    requires Focus(m, p, par, Mk(s, c0, near, x, far), k) && near.N?
    ensures Focus(SetColor(m, near.x, c), p, par, Mk(s, c0, Colored(near, c), x, far), k)
  {
    var t := Mk(s, c0, near, x, far);
    Down(m, p, par, t, k, s);
    var q, k' := Kid(m, s, x), In(s, c0, x, far, k);
    assert Sub(s, t) == near && Sub(Other(s), t) == far;
    Paint(m, q, x, near, k', c);
    Up(SetColor(m, near.x, c), q, x, Colored(near, c), k');
  }

  lemma PaintFar(m: Mem, p: Node?, par: Node?, s: Side, c0: Color, near: T, x: Node, far: T, k: Ctx, c: Color)
    requires Focus(m, p, par, Mk(s, c0, near, x, far), k) && far.N?
    ensures Focus(SetColor(m, far.x, c), p, par, Mk(s, c0, near, x, Colored(far, c)), k)
  {
    MkOther(s, c0, near, x, far);
    PaintNear(m, p, par, Other(s), c0, far, x, near, k, c);
    MkOther(s, c0, near, x, Colored(far, c));
  }

  // ------------------------------------------------------------------ insertion: the cases of the loop

  /** What holds while a red node `t` may still have a red parent. */
  predicate RedFocus(t: T, k: Ctx) { IsRed(t) && Ok(t) && CtxOk(k, BlackHeight(t), false) }

  /** A red parent is not the root, and the grandparent is black. */
  lemma Grandparent(t: T, k: Ctx)
    requires RedFocus(t, k) && k.In? && k.c.Red?
    ensures k.up.In? && k.up.c.Black? && Ok(k.up.sib) && BlackHeight(k.up.sib) == BlackHeight(t)
    ensures Ok(k.sib) && !IsRed(k.sib) && BlackHeight(k.sib) == BlackHeight(t)
    ensures CtxOk(k.up.up, BlackHeight(t) + 1, false)
  {
    assert CtxOk(k.up, BlackHeight(t), true);
  }

  /** What the source reads around a red node with a red parent. */
  lemma InsertView(m: Mem, x: Node, t: T, k: Ctx)
    requires Focus(m, x, Parent(m, x), t, k) && RedFocus(t, k) && k.In? && k.c.Red?
    ensures var g := k.up;
      && g.In? && Parent(m, x) == k.x && Parent(m, k.x) == g.x
      && {k.x, g.x} <= CtxNodes(k) && Nodes(g.sib) <= CtxNodes(k)
      && (Kid(m, Left, g.x) == k.x <==> g.s.Left?)
      && Rep(m, Kid(m, Other(g.s), g.x), g.sib)
      && (Kid(m, Other(g.s), k.x) == x <==> k.s == Other(g.s))
      && (Kid(m, Left, k.x) == x <==> k.s.Left?)
  {
    Grandparent(t, k);
    HoleIs(m, x, k.x, t, k);
    Up(m, x, k.x, t, k);
    var tp := Mk(k.s, k.c, t, k.x, k.sib);
    HoleIs(m, k.x, k.up.x, tp, k.up);
    RepRoot(m, Kid(m, Other(k.s), k.x), k.sib);
    RepRoot(m, x, t);
  }

  /** The uncle is red: both move their blackness up one level. */
  lemma UncleRed(m: Mem, x: Node, t: T, k: Ctx, t': T)
    requires Focus(m, x, Parent(m, x), t, k) && k.In? && k.up.In? && k.up.sib.N?
    requires t' == Mk(k.up.s, Red, Mk(k.s, Black, t, k.x, k.sib), k.up.x, Colored(k.up.sib, Black))
    ensures var g := k.up;
      var m' := SetColor(SetColor(SetColor(m, g.sib.x, Black), k.x, Black), g.x, Red);
      Focus(m', g.x, Parent(m', g.x), t', g.up) && Flat(t', g.up) == Flat(t, k)
  {
    var g, u := k.up, k.up.sib;
    Up(m, x, Parent(m, x), t, k);
    var tp := Mk(k.s, k.c, t, k.x, k.sib);
    Up(m, k.x, Parent(m, k.x), tp, g);
    var m1 := SetColor(m, u.x, Black);
    PaintFar(m, g.x, Parent(m, g.x), g.s, g.c, tp, g.x, u, g.up, Black);
    var m2 := SetColor(m1, k.x, Black);
    PaintNear(m1, g.x, Parent(m, g.x), g.s, g.c, tp, g.x, Colored(u, Black), g.up, Black);
    var tp' := Mk(k.s, Black, t, k.x, k.sib);
    assert Colored(tp, Black) == tp';
    Paint(m2, g.x, Parent(m, g.x), Mk(g.s, g.c, tp', g.x, Colored(u, Black)), g.up, Red);
    InorderMk(k.s, k.c, Black, t, t, k.x, k.sib, k.sib);
    InorderMk(g.s, g.c, Red, tp, tp', g.x, u, Colored(u, Black));
  }

  lemma UncleRedOk(t: T, k: Ctx, t': T)
    requires RedFocus(t, k) && k.In? && k.c.Red? && k.up.In? && IsRed(k.up.sib)
    requires t' == Mk(k.up.s, Red, Mk(k.s, Black, t, k.x, k.sib), k.up.x, Colored(k.up.sib, Black))
    ensures RedFocus(t', k.up.up)
  {
    Grandparent(t, k);
    MkOk(k.s, Black, t, k.x, k.sib);
    MkOk(k.up.s, Red, Mk(k.s, Black, t, k.x, k.sib), k.up.x, Colored(k.up.sib, Black));
  }

  lemma UncleRedPlan(m: Mem, x: Node, t: T, k: Ctx, t': T, order: seq<Node>, nodes: set<Node>)
    requires Focus(m, x, Parent(m, x), t, k) && RedFocus(t, k) && Shows(t, k, order, nodes)
    requires k.In? && k.c.Red? && k.up.In? && IsRed(k.up.sib)
    requires t' == Mk(k.up.s, Red, Mk(k.s, Black, t, k.x, k.sib), k.up.x, Colored(k.up.sib, Black))
    ensures var g := k.up;
      var m' := SetColor(SetColor(SetColor(m, g.sib.x, Black), k.x, Black), g.x, Red);
      Focus(m', g.x, Parent(m', g.x), t', g.up)
    ensures RedFocus(t', k.up.up) && Shows(t', k.up.up, order, nodes)
  {
    UncleRed(m, x, t, k, t');
    UncleRedOk(t, k, t');
    StillShows(t, k, t', k.up.up, order, nodes);
  }

  /** The order of the nodes does not depend on their colours. */
  lemma InorderMk(s: Side, c: Color, c': Color, near: T, near': T, x: Node, far: T, far': T)
    requires Inorder(near) == Inorder(near') && Inorder(far) == Inorder(far')
    ensures Inorder(Mk(s, c, near, x, far)) == Inorder(Mk(s, c', near', x, far'))
  {
  }

  /** A red node on the inner side of its red parent is rotated above it. */
  lemma InnerRotate(m: Mem, x: Node, b: T, d: T, k: Ctx)
    requires k.In? && Focus(m, x, Parent(m, x), Mk(Other(k.s), Red, b, x, d), k)
    ensures Rotatable(m, Other(k.s), k.x, Nodes(Mk(Other(k.s), Red, b, x, d)) + CtxNodes(k))
    ensures var m', s := Rotated(m, Other(k.s), k.x), Other(k.s);
      var t' := Mk(s, k.c, k.sib, k.x, b);
      Focus(m', k.x, x, t', In(s, Red, x, d, k.up)) && Parent(m', k.x) == x
      && Flat(t', In(s, Red, x, d, k.up)) == Flat(Mk(s, Red, b, x, d), k)
  {
    var s := Other(k.s);
    var t := Mk(s, Red, b, x, d);
    Up(m, x, Parent(m, x), t, k);
    MkOther(k.s, k.c, t, k.x, k.sib);
    Rotate(m, s, k.x, x, Parent(m, k.x), k.sib, b, d, k.c, Red, k.up);
    RotatedInorder(s, k.x, x, k.sib, b, d, k.c, Red);
    var m' := Rotated(m, s, k.x);
    var low := Mk(s, k.c, k.sib, k.x, b);
    var top := Mk(s, Red, low, x, d);
    Down(m', x, Parent(m, k.x), top, k.up, s);
    assert Sub(s, top) == low && Sub(Other(s), top) == d;
    RepMk(m', x, s, Red, low, x, d);
    RepRoot(m', Kid(m', s, x), low);
  }

  /** The parent of an outer red node becomes black and is rotated above the grandparent. */
  lemma OuterRotate(m: Mem, x: Node, t: T, k: Ctx)
    requires k.In? && k.up.In? && k.up.s == k.s && Focus(m, x, Parent(m, x), t, k) && t.N?
    ensures var g := k.up;
      var m1 := SetColor(SetColor(m, k.x, Black), g.x, Red);
      var k' := In(k.s, Black, k.x, Mk(k.s, Red, k.sib, g.x, g.sib), g.up);
      && Rotatable(m1, Other(k.s), g.x, Nodes(t) + CtxNodes(k))
      && Focus(Rotated(m1, Other(k.s), g.x), x, Parent(Rotated(m1, Other(k.s), g.x), x), t, k')
      && Flat(t, k') == Flat(t, k)
  {
    var g, s := k.up, Other(k.s);
    Up(m, x, Parent(m, x), t, k);
    var tp := Mk(k.s, k.c, t, k.x, k.sib);
    Up(m, k.x, Parent(m, k.x), tp, g);
    PaintNear(m, g.x, Parent(m, g.x), g.s, g.c, tp, g.x, g.sib, g.up, Black);
    var tp' := Mk(k.s, Black, t, k.x, k.sib);
    assert Colored(tp, Black) == tp';
    var m0 := SetColor(m, k.x, Black);
    Paint(m0, g.x, Parent(m, g.x), Mk(g.s, g.c, tp', g.x, g.sib), g.up, Red);
    var m1 := SetColor(m0, g.x, Red);
    MkOther(g.s, Red, tp', g.x, g.sib);
    MkOther(k.s, Black, t, k.x, k.sib);
    Rotate(m1, s, g.x, k.x, Parent(m, g.x), g.sib, k.sib, t, Red, Black, g.up);
    OuterDown(Rotated(m1, s, g.x), x, t, k, Parent(m, g.x));
    OuterFlat(t, k);
  }

  lemma OuterDown(m: Mem, x: Node, t: T, k: Ctx, par: Node?)
    requires k.In? && k.up.In? && t.N? && t.x == x
    requires var s := Other(k.s); Focus(m, k.x, par, Mk(s, Black, Mk(s, Red, k.up.sib, k.up.x, k.sib), k.x, t), k.up.up)
    ensures Focus(m, x, Parent(m, x), t, In(k.s, Black, k.x, Mk(k.s, Red, k.sib, k.up.x, k.up.sib), k.up.up))
  {
    var s := Other(k.s);
    MkOther(s, Red, k.up.sib, k.up.x, k.sib);
    var low := Mk(k.s, Red, k.sib, k.up.x, k.up.sib);
    MkOther(s, Black, low, k.x, t);
    var top := Mk(k.s, Black, t, k.x, low);
    assert Sub(k.s, top) == t && Sub(s, top) == low;
    Down(m, k.x, par, top, k.up.up, k.s);
    RepRoot(m, Kid(m, k.s, k.x), t);
  }

  lemma OuterFlat(t: T, k: Ctx)
    requires k.In? && k.up.In? && k.up.s == k.s
    ensures Flat(t, In(k.s, Black, k.x, Mk(k.s, Red, k.sib, k.up.x, k.up.sib), k.up.up)) == Flat(t, k)
  {
    var g, s := k.up, Other(k.s);
    var k' := In(k.s, Black, k.x, Mk(k.s, Red, k.sib, g.x, g.sib), g.up);
    var tp := Mk(k.s, Black, t, k.x, k.sib);
    RotatedInorder(s, g.x, k.x, g.sib, k.sib, t, Red, Black);
    FlatUp(t, k');
    FlatUp(t, k);
    FlatUp(Mk(k.s, k.c, t, k.x, k.sib), g);
    MkOther(g.s, Red, tp, g.x, g.sib);
    MkOther(k.s, Black, t, k.x, k.sib);
    MkOther(k.s, Red, k.sib, g.x, g.sib);
    MkOther(k.s, Black, t, k.x, Mk(k.s, Red, k.sib, g.x, g.sib));
    InorderMk(k.s, k.c, Black, t, t, k.x, k.sib, k.sib);
    InorderMk(g.s, g.c, Red, Mk(k.s, k.c, t, k.x, k.sib), tp, g.x, g.sib, g.sib);
  }

  /** After the rotations the node in focus has a black parent. */
  lemma OuterOk(t: T, k: Ctx, k': Ctx)
    requires RedFocus(t, k) && k.In? && k.c.Red? && k.up.In? && !IsRed(k.up.sib) && k.up.s == k.s
    requires k' == In(k.s, Black, k.x, Mk(k.s, Red, k.sib, k.up.x, k.up.sib), k.up.up)
    ensures RedFocus(t, k')
  {
    Grandparent(t, k);
    MkOk(k.s, Red, k.sib, k.up.x, k.up.sib);
  }

  /** The inner rotation leaves the old parent as the outer red node. */
  lemma InnerOk(s: Side, x: Node, b: T, d: T, k: Ctx)
    requires k.In? && k.c.Red? && s == Other(k.s) && RedFocus(Mk(s, Red, b, x, d), k)
    ensures RedFocus(Mk(s, Red, k.sib, k.x, b), In(s, Red, x, d, k.up))
  {
    Grandparent(Mk(s, Red, b, x, d), k);
    assert Ok(b) && Ok(d) && BlackHeight(b) == BlackHeight(d) && !IsRed(b) && !IsRed(d);
    MkOk(s, Red, b, x, d);
    MkOk(s, Red, k.sib, k.x, b);
    assert CtxOk(k.up, BlackHeight(d), true);
  }

  lemma FlatUp(t: T, k: Ctx)
    requires k.In?
    ensures Flat(Mk(k.s, k.c, t, k.x, k.sib), k.up) == Flat(t, k)
  {
    FlatDown(Mk(k.s, k.c, t, k.x, k.sib), k.up, k.s);
  }

  // ------------------------------------------------------------------ removal: the cases of the loop

  /** What holds while the subtree `t` is one black node short. */
  predicate ShortFocus(t: T, k: Ctx) { OkBelow(t) && CtxOk(k, BlackHeight(t) + 1, false) }

  /** The sibling of a short subtree exists. */
  lemma Sibling(t: T, k: Ctx)
    requires ShortFocus(t, k) && k.In?
    ensures k.sib.N? && Ok(k.sib) && BlackHeight(k.sib) == BlackHeight(t) + 1
    ensures k.c.Red? ==> !IsRed(k.sib)
    ensures CtxOk(k.up, BlackHeight(t) + 1 + Tick(k.c), k.c.Red?)
  {
  }

  lemma SubMk(s: Side, t: T)
    requires t.N?
    ensures t == Mk(s, t.c, Sub(s, t), t.x, Sub(Other(s), t))
  {
  }

  lemma SubsOf(s: Side, c: Color, near: T, x: Node, far: T)
    ensures Sub(s, Mk(s, c, near, x, far)) == near && Sub(Other(s), Mk(s, c, near, x, far)) == far
  {
  }

  /** The focus moves to the subtree on side `s`, whose address is known. */
  lemma DownMk(m: Mem, p: Node?, par: Node?, s: Side, c: Color, near: T, x: Node, far: T, k: Ctx, q: Node?)
    requires Focus(m, p, par, Mk(s, c, near, x, far), k) && (if near.N? then q == near.x else q == null)
    ensures Focus(m, q, x, near, In(s, c, x, far, k)) && p == x
    ensures Flat(near, In(s, c, x, far, k)) == Flat(Mk(s, c, near, x, far), k)
  {
    SubsOf(s, c, near, x, far);
    Down(m, p, par, Mk(s, c, near, x, far), k, s);
    RepRoot(m, Kid(m, s, x), near);
  }

  /** The focus moves to the sibling. */
  lemma Across(m: Mem, p: Node?, par: Node?, t: T, k: Ctx, q: Node?)
    requires Focus(m, p, par, t, k) && k.In? && (if k.sib.N? then q == k.sib.x else q == null)
    ensures Focus(m, q, k.x, k.sib, In(Other(k.s), k.c, k.x, t, k.up)) && par == k.x
  {
    Up(m, p, par, t, k);
    MkOther(k.s, k.c, t, k.x, k.sib);
    DownMk(m, k.x, Parent(m, k.x), Other(k.s), k.c, k.sib, k.x, t, k.up, q);
  }

  lemma LiftFar(m: Mem, par: Node?, s: Side, c: Color, t: T, x: Node, near: T, w: Node, far: T, k: Ctx)
    requires Focus(m, x, par, Mk(s, c, t, x, Mk(s, Red, near, w, far)), k)
    ensures var m1 := SetColor(SetColor(m, w, Black), x, Red);
      && Rotatable(m1, s, x, Nodes(Mk(s, c, t, x, Mk(s, Red, near, w, far))) + CtxNodes(k))
      && Focus(Rotated(m1, s, x), w, par, Mk(s, Black, Mk(s, Red, t, x, near), w, far), k)
  {
    var sib, sib' := Mk(s, Red, near, w, far), Mk(s, Black, near, w, far);
    PaintFar(m, x, par, s, c, t, x, sib, k, Black);
    assert Colored(sib, Black) == sib';
    Paint(SetColor(m, w, Black), x, par, Mk(s, c, t, x, sib'), k, Red);
    assert Colored(Mk(s, c, t, x, sib'), Red) == Mk(s, Red, t, x, sib');
    Rotate(SetColor(SetColor(m, w, Black), x, Red), s, x, w, par, t, near, far, Red, Black, k);
  }

  lemma UpNodes(t: T, k: Ctx, c: Color)
    requires k.In?
    ensures Nodes(Mk(k.s, c, t, k.x, k.sib)) + CtxNodes(k.up) == Nodes(t) + CtxNodes(k)
  {
  }

  lemma SiblingRedTurn(m: Mem, p: Node?, t: T, k: Ctx, near: T, w: Node, far: T)
    requires k.In? && Focus(m, p, k.x, t, k) && k.sib == Mk(k.s, Red, near, w, far)
    ensures var m1 := SetColor(SetColor(m, w, Black), k.x, Red);
      && Rotatable(m1, k.s, k.x, Nodes(t) + CtxNodes(k))
      && Focus(Rotated(m1, k.s, k.x), w, Parent(m, k.x), Mk(k.s, Black, Mk(k.s, Red, t, k.x, near), w, far), k.up)
  {
    Up(m, p, k.x, t, k);
    LiftFar(m, Parent(m, k.x), k.s, k.c, t, k.x, near, w, far, k.up);
    UpNodes(t, k, k.c);
  }

  lemma DownTwice(m: Mem, p: Node?, par: Node?, s: Side, t: T, x: Node, near: T, w: Node, far: T, k: Ctx)
    requires Focus(m, w, par, Mk(s, Black, Mk(s, Red, t, x, near), w, far), k)
    requires if t.N? then p == t.x else p == null
    ensures Focus(m, p, x, t, In(s, Red, x, near, In(s, Black, w, far, k)))
  {
    DownMk(m, w, par, s, Black, Mk(s, Red, t, x, near), w, far, k, x);
    DownMk(m, x, w, s, Red, t, x, near, In(s, Black, w, far, k), p);
  }

  /** The sibling is red: it is rotated above the parent, and the new sibling is black. */
  lemma SiblingRed(m: Mem, p: Node?, t: T, k: Ctx, near: T, w: Node, far: T)
    requires k.In? && Focus(m, p, k.x, t, k) && k.sib == Mk(k.s, Red, near, w, far)
    ensures var m1 := SetColor(SetColor(m, w, Black), k.x, Red);
      var k' := In(k.s, Red, k.x, near, In(k.s, Black, w, far, k.up));
      && Rotatable(m1, k.s, k.x, Nodes(t) + CtxNodes(k))
      && Focus(Rotated(m1, k.s, k.x), p, k.x, t, k') && Flat(t, k') == Flat(t, k)
  {
    RepRoot(m, p, t);
    SiblingRedTurn(m, p, t, k, near, w, far);
    var m' := Rotated(SetColor(SetColor(m, w, Black), k.x, Red), k.s, k.x);
    DownTwice(m', p, Parent(m, k.x), k.s, t, k.x, near, w, far, k.up);
    SiblingRedFlat(t, k, near, w, far);
  }

  lemma SiblingRedFlat(t: T, k: Ctx, near: T, w: Node, far: T)
    requires k.In? && k.sib == Mk(k.s, Red, near, w, far)
    ensures Flat(t, In(k.s, Red, k.x, near, In(k.s, Black, w, far, k.up))) == Flat(t, k)
  {
    var s, sib' := k.s, Mk(k.s, Black, near, w, far);
    var k1 := In(s, Black, w, far, k.up);
    FlatUp(t, k);
    FlatUp(t, In(s, Red, k.x, near, k1));
    FlatUp(Mk(s, Red, t, k.x, near), k1);
    InorderMk(s, Red, Black, near, near, w, far, far);
    InorderMk(s, k.c, Red, t, t, k.x, k.sib, sib');
    RotatedInorder(s, k.x, w, t, near, far, Red, Black);
  }

  lemma SiblingRedOk(t: T, k: Ctx, near: T, w: Node, far: T, k': Ctx)
    requires ShortFocus(t, k) && k.In? && k.sib == Mk(k.s, Red, near, w, far)
    requires k' == In(k.s, Red, k.x, near, In(k.s, Black, w, far, k.up))
    ensures ShortFocus(t, k') && !IsRed(near)
  {
    Sibling(t, k);
    SubsOf(k.s, Red, near, w, far);
    assert Ok(near) && Ok(far) && BlackHeight(near) == BlackHeight(far) && !IsRed(near) && !IsRed(far);
    assert CtxOk(k'.up, BlackHeight(t) + 1, true);
  }

  /** The sibling and its children are black: the sibling becomes red and the parent is short. */
  lemma SiblingBlack(m: Mem, p: Node?, t: T, k: Ctx)
    requires k.In? && Focus(m, p, k.x, t, k) && k.sib.N?
    ensures var m', t' := SetColor(m, k.sib.x, Red), Mk(k.s, k.c, t, k.x, Colored(k.sib, Red));
      Focus(m', k.x, Parent(m', k.x), t', k.up) && Flat(t', k.up) == Flat(t, k)
  {
    Up(m, p, k.x, t, k);
    PaintFar(m, k.x, Parent(m, k.x), k.s, k.c, t, k.x, k.sib, k.up, Red);
    InorderMk(k.s, k.c, k.c, t, t, k.x, k.sib, Colored(k.sib, Red));
  }

  lemma SiblingBlackOk(t: T, k: Ctx, t': T)
    requires ShortFocus(t, k) && !IsRed(t) && k.In? && k.sib.N? && !IsRed(k.sib) && !IsRed(k.sib.left)
      && !IsRed(k.sib.right)
    requires t' == Mk(k.s, k.c, t, k.x, Colored(k.sib, Red))
    ensures ShortFocus(t', k.up)
  {
    Sibling(t, k);
    MkOk(k.s, k.c, t, k.x, Colored(k.sib, Red));
    if k.c.Red? { CtxWeaken(k.up, BlackHeight(t) + 1); }
  }

  /** The red child on side `s` is painted black and rotated above its parent, which becomes red. */
  lemma LiftNear(m: Mem, par: Node?, s: Side, n1: T, v: Node, n2: T, w: Node, far: T, k: Ctx)
    requires Focus(m, w, par, Mk(s, Black, Mk(s, Red, n1, v, n2), w, far), k)
    ensures var m1 := SetColor(SetColor(m, v, Black), w, Red);
      && Rotatable(m1, Other(s), w, Nodes(Mk(s, Black, Mk(s, Red, n1, v, n2), w, far)) + CtxNodes(k))
      && Focus(Rotated(m1, Other(s), w), v, par, Mk(s, Black, n1, v, Mk(s, Red, n2, w, far)), k)
  {
    var nv, nv' := Mk(s, Red, n1, v, n2), Mk(s, Black, n1, v, n2);
    PaintNear(m, w, par, s, Black, nv, w, far, k, Black);
    assert Colored(nv, Black) == nv';
    Paint(SetColor(m, v, Black), w, par, Mk(s, Black, nv', w, far), k, Red);
    assert Colored(Mk(s, Black, nv', w, far), Red) == Mk(s, Red, nv', w, far);
    MkOther(s, Red, nv', w, far);
    MkOther(s, Black, n1, v, n2);
    Rotate(SetColor(SetColor(m, v, Black), w, Red), Other(s), w, v, par, far, n2, n1, Red, Black, k);
    MkOther(s, Red, n2, w, far);
    MkOther(s, Black, n1, v, Mk(s, Red, n2, w, far));
  }

  lemma InnerAcross(m: Mem, p: Node?, t: T, s: Side, c: Color, x: Node, up: Ctx, n1: T, v: Node, n2: T, w: Node, far: T)
    requires Focus(m, w, x, Mk(s, Black, Mk(s, Red, n1, v, n2), w, far), In(Other(s), c, x, t, up))
    requires if t.N? then p == t.x else p == null
    ensures var m1 := SetColor(SetColor(m, v, Black), w, Red);
      && Rotatable(m1, Other(s), w,
          Nodes(Mk(s, Black, Mk(s, Red, n1, v, n2), w, far)) + CtxNodes(In(Other(s), c, x, t, up)))
      && Focus(Rotated(m1, Other(s), w), p, x, t, In(s, c, x, Mk(s, Black, n1, v, Mk(s, Red, n2, w, far)), up))
  {
    var ks := In(Other(s), c, x, t, up);
    LiftNear(m, x, s, n1, v, n2, w, far, ks);
    var m' := Rotated(SetColor(SetColor(m, v, Black), w, Red), Other(s), w);
    Across(m', v, x, Mk(s, Black, n1, v, Mk(s, Red, n2, w, far)), ks, p);
    assert Other(Other(s)) == s;
  }

  /** Only the nearer child of the black sibling is red: it is rotated above the sibling. */
  lemma SiblingInner(m: Mem, p: Node?, t: T, k: Ctx, n1: T, v: Node, n2: T, w: Node, far: T)
    requires k.In? && Focus(m, p, k.x, t, k) && k.sib == Mk(k.s, Black, Mk(k.s, Red, n1, v, n2), w, far)
    ensures var m1 := SetColor(SetColor(m, v, Black), w, Red);
      var k' := In(k.s, k.c, k.x, Mk(k.s, Black, n1, v, Mk(k.s, Red, n2, w, far)), k.up);
      && Rotatable(m1, Other(k.s), w, Nodes(t) + CtxNodes(k))
      && Focus(Rotated(m1, Other(k.s), w), p, k.x, t, k') && Flat(t, k') == Flat(t, k)
  {
    RepRoot(m, p, t);
    InnerFlat(t, k, n1, v, n2, w, far);
    Across(m, p, k.x, t, k, w);
    InnerAcross(m, p, t, k.s, k.c, k.x, k.up, n1, v, n2, w, far);
  }

  lemma InnerFlat(t: T, k: Ctx, n1: T, v: Node, n2: T, w: Node, far: T)
    requires k.In? && k.sib == Mk(k.s, Black, Mk(k.s, Red, n1, v, n2), w, far)
    ensures Flat(t, In(k.s, k.c, k.x, Mk(k.s, Black, n1, v, Mk(k.s, Red, n2, w, far)), k.up)) == Flat(t, k)
  {
    var s, sib' := k.s, Mk(k.s, Black, n1, v, Mk(k.s, Red, n2, w, far));
    RotatedInorder(s, v, w, n1, n2, far, Black, Red);
    InorderMk(s, Red, Black, n1, n1, v, n2, n2);
    InorderMk(s, Black, Red, Mk(s, Red, n1, v, n2), Mk(s, Black, n1, v, n2), w, far, far);
    InorderMk(s, k.c, k.c, t, t, k.x, k.sib, sib');
    FlatUp(t, k);
    FlatUp(t, In(s, k.c, k.x, sib', k.up));
  }

  lemma SiblingInnerOk(t: T, k: Ctx, n1: T, v: Node, n2: T, w: Node, far: T, k': Ctx)
    requires ShortFocus(t, k) && k.In? && !IsRed(far) && k.sib == Mk(k.s, Black, Mk(k.s, Red, n1, v, n2), w, far)
    requires k' == In(k.s, k.c, k.x, Mk(k.s, Black, n1, v, Mk(k.s, Red, n2, w, far)), k.up)
    ensures ShortFocus(t, k')
  {
    var s := k.s;
    Sibling(t, k);
    SubsOf(s, Black, Mk(s, Red, n1, v, n2), w, far);
    SubsOf(s, Red, n1, v, n2);
    assert Ok(Mk(s, Red, n1, v, n2)) && Ok(far) && Ok(n1) && Ok(n2) && !IsRed(n2);
    MkOk(s, Red, n1, v, n2);
    MkOk(s, Red, n2, w, far);
    MkOk(s, Black, n1, v, Mk(s, Red, n2, w, far));
  }

  /** The three stores to colours before the last rotation. */
  lemma OuterPainted(m: Mem, par: Node?, s: Side, c: Color, t: T, x: Node, near: T, w: Node, far: T, k: Ctx)
    requires Focus(m, x, par, Mk(s, c, t, x, Mk(s, Black, near, w, far)), k) && far.N?
    ensures var m1 := SetColor(SetColor(SetColor(m, w, c), x, Black), far.x, Black);
      Focus(m1, x, par, Mk(s, Black, t, x, Mk(s, c, near, w, Colored(far, Black))), k)
  {
    var sib, sib1 := Mk(s, Black, near, w, far), Mk(s, c, near, w, far);
    PaintFar(m, x, par, s, c, t, x, sib, k, c);
    assert Colored(sib, c) == sib1;
    var ma := SetColor(m, w, c);
    Paint(ma, x, par, Mk(s, c, t, x, sib1), k, Black);
    assert Colored(Mk(s, c, t, x, sib1), Black) == Mk(s, Black, t, x, sib1);
    PaintDeep(SetColor(ma, x, Black), x, par, s, t, x, c, near, w, far, k);
  }

  lemma SiblingOuterFlat(t: T, k: Ctx, near: T, w: Node, far: T)
    requires k.In? && k.sib == Mk(k.s, Black, near, w, far) && far.N?
    ensures var t' := Mk(k.s, k.c, Mk(k.s, Black, t, k.x, near), w, Colored(far, Black));
      Flat(t', k.up) == Flat(t, k)
  {
    var s, x, c := k.s, k.x, k.c;
    RotatedInorder(s, x, w, t, near, Colored(far, Black), Black, c);
    InorderMk(s, Black, c, near, near, w, far, Colored(far, Black));
    InorderMk(s, c, Black, t, t, x, k.sib, Mk(s, c, near, w, Colored(far, Black)));
    FlatUp(t, k);
  }

  /** The painted sibling is rotated above the parent. */
  lemma OuterTurned(m: Mem, par: Node?, s: Side, c: Color, t: T, x: Node, near: T, w: Node, far: T, k: Ctx)
    requires far.N? && Focus(m, x, par, Mk(s, Black, t, x, Mk(s, c, near, w, Colored(far, Black))), k)
    ensures Rotatable(m, s, x, Nodes(Mk(s, Black, t, x, Mk(s, Black, near, w, far))) + CtxNodes(k))
    ensures Focus(Rotated(m, s, x), w, par, Mk(s, c, Mk(s, Black, t, x, near), w, Colored(far, Black)), k)
  {
    Rotate(m, s, x, w, par, t, near, Colored(far, Black), Black, c, k);
    assert Nodes(Colored(far, Black)) == Nodes(far);
    assert Nodes(Mk(s, c, near, w, Colored(far, Black))) == Nodes(Mk(s, Black, near, w, far));
  }

  lemma SiblingOuterTurn(m: Mem, p: Node?, t: T, k: Ctx, near: T, w: Node, far: T)
    requires k.In? && Focus(m, p, k.x, t, k) && k.sib == Mk(k.s, Black, near, w, far) && far.N?
    ensures var m1 := SetColor(SetColor(SetColor(m, w, k.c), k.x, Black), far.x, Black);
      var t' := Mk(k.s, k.c, Mk(k.s, Black, t, k.x, near), w, Colored(far, Black));
      && Rotatable(m1, k.s, k.x, Nodes(Mk(k.s, Black, t, k.x, k.sib)) + CtxNodes(k.up))
      && Focus(Rotated(m1, k.s, k.x), w, Parent(m, k.x), t', k.up)
  {
    var par := Parent(m, k.x);
    Up(m, p, k.x, t, k);
    OuterPainted(m, par, k.s, k.c, t, k.x, near, w, far, k.up);
    var m1 := SetColor(SetColor(SetColor(m, w, k.c), k.x, Black), far.x, Black);
    OuterTurned(m1, par, k.s, k.c, t, k.x, near, w, far, k.up);
  }

  /** The farther child of the black sibling is red: one rotation makes up for the missing black node. */
  lemma SiblingOuter(m: Mem, p: Node?, t: T, k: Ctx, near: T, w: Node, far: T)
    requires k.In? && Focus(m, p, k.x, t, k) && k.sib == Mk(k.s, Black, near, w, far) && far.N?
    ensures var m1 := SetColor(SetColor(SetColor(m, w, k.c), k.x, Black), far.x, Black);
      var t' := Mk(k.s, k.c, Mk(k.s, Black, t, k.x, near), w, Colored(far, Black));
      && Rotatable(m1, k.s, k.x, Nodes(t) + CtxNodes(k))
      && Focus(Rotated(m1, k.s, k.x), w, Parent(m, k.x), t', k.up) && Flat(t', k.up) == Flat(t, k)
  {
    SiblingOuterTurn(m, p, t, k, near, w, far);
    UpNodes(t, k, Black);
    SiblingOuterFlat(t, k, near, w, far);
  }

  /** Painting the far child of the far child black. */
  lemma PaintDeep(m: Mem, p: Node?, par: Node?, s: Side, t: T, x: Node, c: Color, near: T, w: Node, far: T, k: Ctx)
    requires Focus(m, p, par, Mk(s, Black, t, x, Mk(s, c, near, w, far)), k) && far.N? && p == x
    ensures Focus(SetColor(m, far.x, Black), p, par, Mk(s, Black, t, x, Mk(s, c, near, w, Colored(far, Black))), k)
  {
    var sib, sib' := Mk(s, c, near, w, far), Mk(s, c, near, w, Colored(far, Black));
    MkOther(s, Black, t, x, sib);
    DownMk(m, p, par, Other(s), Black, sib, x, t, k, w);
    var ks := In(Other(s), Black, x, t, k);
    PaintFar(m, w, x, s, c, near, w, far, ks, Black);
    Up(SetColor(m, far.x, Black), w, x, sib', ks);
    MkOther(s, Black, t, x, sib');
  }

  lemma SiblingOuterOk(t: T, k: Ctx, near: T, w: Node, far: T, t': T)
    requires ShortFocus(t, k) && !IsRed(t) && k.In? && IsRed(far) && k.sib == Mk(k.s, Black, near, w, far)
    requires t' == Mk(k.s, k.c, Mk(k.s, Black, t, k.x, near), w, Colored(far, Black))
    ensures Ok(t') && CtxOk(k.up, BlackHeight(t'), IsRed(t'))
  {
    Sibling(t, k);
    SubsOf(k.s, Black, near, w, far);
    MkOk(k.s, Black, near, w, far);
    assert Ok(near) && Ok(far);
    MkOk(k.s, Black, t, k.x, near);
    MkOk(k.s, k.c, Mk(k.s, Black, t, k.x, near), w, Colored(far, Black));
  }

  // ------------------------------------------------------------------ which nodes there are

  ghost function Elems(xs: seq<Node>): set<Node> { set x | x in xs }

  function Depth(k: Ctx): nat {
    match k
    case Top => 0
    case In(_, _, _, _, up) => Depth(up) + 1
  }

  lemma {:induction false} InorderElems(t: T)
    ensures Elems(Inorder(t)) == Nodes(t)
  {
    if t.N? {
      InorderElems(t.left);
      InorderElems(t.right);
      assert Inorder(t) == Inorder(t.left) + [t.x] + Inorder(t.right);
    }
  }

  lemma {:induction false} FlatElems(t: T, k: Ctx)
    ensures Elems(Flat(t, k)) == Nodes(t) + CtxNodes(k)
    decreases k
  {
    if k.In? {
      FlatUp(t, k);
      FlatElems(Mk(k.s, k.c, t, k.x, k.sib), k.up);
    } else {
      InorderElems(t);
      assert Flat(t, k) == Inorder(t);
    }
  }

  /** The focus shows all nodes of the tree, in their order. */
  ghost predicate Shows(t: T, k: Ctx, order: seq<Node>, nodes: set<Node>) {
    Flat(t, k) == order && Nodes(t) + CtxNodes(k) == nodes
  }

  lemma StillShows(t: T, k: Ctx, t': T, k': Ctx, order: seq<Node>, nodes: set<Node>)
    requires Shows(t, k, order, nodes) && Flat(t', k') == Flat(t, k)
    ensures Shows(t', k', order, nodes)
  {
    FlatElems(t, k);
    FlatElems(t', k');
  }

  lemma {:induction false} RootNode(t: T, k: Ctx)
    requires t.N?
    ensures Plug(k, t).N?
    decreases k
  {
    if k.In? { RootNode(Mk(k.s, k.c, t, k.x, k.sib), k.up); }
  }

  /** When no red node has a red parent any more, painting the root black makes the tree Ok. */
  lemma BlackRootOk(t: T, k: Ctx)
    requires RedFocus(t, k) && Plug(k, t).N? && (k.In? ==> k.c.Black?)
    ensures Ok(Colored(Plug(k, t), Black)) && !IsRed(Colored(Plug(k, t), Black))
  {
    if k.In? { PlugOk(k, t); }
  }

  // ------------------------------------------------------------------ what the removal loop reads

  lemma {:induction false} RootInCtx(m: Mem, p: Node?, par: Node?, k: Ctx)
    requires CtxRep(m, p, par, k) && k.In?
    ensures Get(m, RootOf) != null && Get(m, RootOf) in CtxNodes(k)
    decreases k
  {
    if k.up.In? { RootInCtx(m, k.x, Parent(m, k.x), k.up); }
  }

  lemma RootIs(m: Mem, p: Node?, par: Node?, t: T, k: Ctx)
    requires Focus(m, p, par, t, k)
    ensures Get(m, RootOf) == p <==> k.Top?
    ensures par == null <==> k.Top?
  {
    RepRoot(m, p, t);
    if k.In? { RootInCtx(m, p, par, k); }
  }

  /** The parent, the sibling and its children, as the source finds them. */
  lemma RemoveView(m: Mem, p: Node?, par: Node?, t: T, k: Ctx)
    requires Focus(m, p, par, t, k) && k.In? && k.sib.N?
    ensures par == k.x && (Kid(m, Left, k.x) == p <==> k.s.Left?)
    ensures Kid(m, Other(k.s), k.x) == k.sib.x && k.x in CtxNodes(k) && Nodes(k.sib) <= CtxNodes(k)
    ensures SubView(m, k.s, k.sib) && SubView(m, Other(k.s), k.sib) && ColorOf(m, k.sib.x) == k.sib.c
  {
    HoleIs(m, p, par, t, k);
    RepRoot(m, Kid(m, Left, k.sib.x), k.sib.left);
    RepRoot(m, Kid(m, Right, k.sib.x), k.sib.right);
  }

  /** The child of `t` on side `s` in memory. */
  predicate SubView(m: Mem, s: Side, t: T)
    requires t.N?
  {
    var p, u := Kid(m, s, t.x), Sub(s, t);
    && (p == null <==> u.E?)
    && (p != null ==> p == u.x && p in Nodes(t) && ColorOf(m, p) == u.c)
  }

  /** The rounds RB_REMOVE_COLOR has left at most. */
  function Rounds(t: T, k: Ctx): nat { if IsRed(t) then 0 else Depth(k) + 1 }

  /** The side of the short subtree, as the source finds it. */
  lemma ShortSide(m: Mem, p: Node?, par: Node?, t: T, k: Ctx)
    requires Focus(m, p, par, t, k) && ShortFocus(t, k) && k.In?
    ensures k.sib.N? && par == k.x && (Kid(m, Left, k.x) == p <==> k.s.Left?) && k.x in CtxNodes(k)
  {
    Sibling(t, k);
    RemoveView(m, p, par, t, k);
  }

  /** What one case of RB_REMOVE_COLOR has to do, and what comes of it: the sibling is red. */
  lemma LiftSiblingPlan(m: Mem, p: Node?, t: T, k: Ctx, w: Node, k': Ctx, order: seq<Node>, nodes: set<Node>)
    requires k.In? && Focus(m, p, k.x, t, k) && ShortFocus(t, k) && Shows(t, k, order, nodes)
    requires IsRed(k.sib) && k.sib.x == w
    requires k' == In(k.s, Red, k.x, Sub(k.s, k.sib), In(k.s, Black, w, Sub(Other(k.s), k.sib), k.up))
    ensures var m1 := SetColor(SetColor(m, w, Black), k.x, Red);
      Rotatable(m1, k.s, k.x, nodes) && Focus(Rotated(m1, k.s, k.x), p, k.x, t, k')
    ensures ShortFocus(t, k') && Shows(t, k', order, nodes) && !IsRed(k'.sib)
  {
    var near, far := Sub(k.s, k.sib), Sub(Other(k.s), k.sib);
    SubMk(k.s, k.sib);
    SiblingRed(m, p, t, k, near, w, far);
    SiblingRedOk(t, k, near, w, far, k');
    StillShows(t, k, t, k', order, nodes);
  }

  /** Only the nearer child of the black sibling is red. */
  lemma LiftNephewPlan(m: Mem, p: Node?, t: T, k: Ctx, w: Node, v: Node, sib': T, order: seq<Node>, nodes: set<Node>)
    requires k.In? && Focus(m, p, k.x, t, k) && ShortFocus(t, k) && Shows(t, k, order, nodes)
    requires k.sib.N? && k.sib.x == w && k.sib.c.Black?
    requires IsRed(Sub(k.s, k.sib)) && Sub(k.s, k.sib).x == v && !IsRed(Sub(Other(k.s), k.sib))
    requires var s, near := k.s, Sub(k.s, k.sib);
      sib' == Mk(s, Black, Sub(s, near), v, Mk(s, Red, Sub(Other(s), near), w, Sub(Other(s), k.sib)))
    ensures var m1 := SetColor(SetColor(m, v, Black), w, Red);
      Rotatable(m1, Other(k.s), w, nodes) && Focus(Rotated(m1, Other(k.s), w), p, k.x, t, k.(sib := sib'))
    ensures ShortFocus(t, k.(sib := sib')) && Shows(t, k.(sib := sib'), order, nodes)
    ensures sib'.N? && sib'.c.Black? && IsRed(Sub(Other(k.s), sib'))
  {
    var near, far := Sub(k.s, k.sib), Sub(Other(k.s), k.sib);
    var n1, n2 := Sub(k.s, near), Sub(Other(k.s), near);
    SubMk(k.s, k.sib);
    SubMk(k.s, near);
    SiblingInner(m, p, t, k, n1, v, n2, w, far);
    SiblingInnerOk(t, k, n1, v, n2, w, far, k.(sib := sib'));
    StillShows(t, k, t, k.(sib := sib'), order, nodes);
  }

  /** The farther child of the black sibling is red. */
  lemma LiftLastPlan(m: Mem, p: Node?, t: T, k: Ctx, w: Node, f: Node, t': T, order: seq<Node>, nodes: set<Node>)
    requires k.In? && Focus(m, p, k.x, t, k) && ShortFocus(t, k) && !IsRed(t) && Shows(t, k, order, nodes)
    requires k.sib.N? && k.sib.x == w && k.sib.c.Black? && IsRed(Sub(Other(k.s), k.sib))
    requires Sub(Other(k.s), k.sib).x == f
    requires var near, far := Sub(k.s, k.sib), Sub(Other(k.s), k.sib);
      t' == Mk(k.s, k.c, Mk(k.s, Black, t, k.x, near), w, Colored(far, Black))
    ensures var m1 := SetColor(SetColor(SetColor(m, w, k.c), k.x, Black), f, Black);
      Rotatable(m1, k.s, k.x, nodes) && Focus(Rotated(m1, k.s, k.x), w, Parent(m, k.x), t', k.up)
    ensures Ok(t') && CtxOk(k.up, BlackHeight(t'), IsRed(t')) && Shows(t', k.up, order, nodes)
  {
    var near, far := Sub(k.s, k.sib), Sub(Other(k.s), k.sib);
    SubMk(k.s, k.sib);
    SiblingOuter(m, p, t, k, near, w, far);
    SiblingOuterOk(t, k, near, w, far, t');
    StillShows(t, k, t', k.up, order, nodes);
  }

  /** A short subtree with a red root, or at the top, is repaired by a black root. */
  lemma ShortDone(t: T, k: Ctx, t': T)
    requires ShortFocus(t, k) && (IsRed(t) || k.Top?)
    requires t' == if t.N? then Colored(t, Black) else t
    ensures Ok(t') && !IsRed(t') && CtxOk(k, BlackHeight(t'), false)
  {
  }

  /** A balanced focus is a balanced whole tree. */
  lemma Assemble(m: Mem, p: Node?, par: Node?, t: T, k: Ctx, order: seq<Node>, nodes: set<Node>)
    requires Focus(m, p, par, t, k) && Shows(t, k, order, nodes) && Ok(t) && CtxOk(k, BlackHeight(t), IsRed(t))
    ensures Focus(m, Get(m, RootOf), null, Plug(k, t), Top) && Shows(Plug(k, t), Top, order, nodes)
    ensures Ok(Plug(k, t)) && !IsRed(Plug(k, t))
  {
    ToTop(m, p, par, t, k);
    PlugInorder(k, t);
    PlugOk(k, t);
    StillShows(t, k, Plug(k, t), Top, order, nodes);
  }

  // ------------------------------------------------------------------ search order

  ghost predicate Sorted(xs: seq<Node>) { forall i, j :: 0 <= i < j < |xs| ==> Rising(xs, i, j) }

  predicate Rising(xs: seq<Node>, i: nat, j: nat)
    requires i < |xs| && j < |xs|
  {
    xs[i].key < xs[j].key
  }

  /** A key that is in the tree can only be in the subtree in focus. */
  ghost predicate Narrowed(k: Ctx, key: int) {
    && (forall x | x in Before(k) :: x.key < key)
    && (forall x | x in After(k) :: key < x.key)
  }

  lemma SortedParts(xs: seq<Node>, x: Node, ys: seq<Node>)
    requires Sorted(xs + [x] + ys)
    ensures forall y | y in xs :: y.key < x.key
    ensures forall y | y in ys :: x.key < y.key
  {
    var zs := xs + [x] + ys;
    forall y | y in xs ensures y.key < x.key {
      var i :| 0 <= i < |xs| && xs[i] == y;
      assert Rising(zs, i, |xs|);
    }
    forall y | y in ys ensures x.key < y.key {
      var i :| 0 <= i < |ys| && ys[i] == y;
      assert Rising(zs, |xs|, |xs| + 1 + i);
    }
  }

  /** Going to the side where the key must be keeps the search narrowed. */
  lemma Parted(a: seq<Node>, l: seq<Node>, x: Node, r: seq<Node>, b: seq<Node>)
    ensures a + (l + [x] + r) + b == (a + l) + [x] + (r + b)
  {
  }

  lemma Around(a: seq<Node>, l: seq<Node>, x: Node, r: seq<Node>, b: seq<Node>)
    requires Sorted(a + (l + [x] + r) + b)
    ensures forall y | y in l :: y.key < x.key
    ensures forall y | y in r :: x.key < y.key
  {
    Parted(a, l, x, r, b);
    SortedParts(a + l, x, r + b);
    assert forall y | y in l :: y in a + l;
    assert forall y | y in r :: y in r + b;
  }

  lemma Narrow(t: T, k: Ctx, key: int, s: Side)
    requires t.N? && Sorted(Flat(t, k)) && Narrowed(k, key)
    requires if s.Left? then key < t.x.key else t.x.key < key
    ensures Narrowed(In(s, t.c, t.x, Sub(Other(s), t), k), key)
  {
    Around(Before(k), Inorder(t.left), t.x, Inorder(t.right), After(k));
    if s.Left? {} else {}
  }

  lemma InsertSorted(a: seq<Node>, x: Node, b: seq<Node>)
    requires Sorted(a + b) && (forall y | y in a :: y.key < x.key) && (forall y | y in b :: x.key < y.key)
    ensures Sorted(a + [x] + b)
  {
    var zs, ws := a + [x] + b, a + b;
    forall i, j | 0 <= i < j < |zs| ensures Rising(zs, i, j) {
      var i', j' := if i < |a| then i else i - 1, if j < |a| then j else j - 1;
      if i == |a| { assert zs[j] in b; }
      else if j == |a| { assert zs[i] in a; }
      else { assert Rising(ws, i', j'); }
    }
  }

  lemma FlatOne(k: Ctx, x: Node)
    ensures Flat(N(Red, E, x, E), k) == Before(k) + [x] + After(k)
  {
    assert Inorder(E) == [];
    assert Inorder(N(Red, E, x, E)) == [x];
  }

  /** A node hung into the empty place that a search for its key ends at keeps the order. */
  lemma SortedInsert(k: Ctx, x: Node)
    requires Sorted(Before(k) + After(k)) && Narrowed(k, x.key)
    ensures Sorted(Flat(N(Red, E, x, E), k))
  {
    InsertSorted(Before(k), x, After(k));
    FlatOne(k, x);
  }

  /** A new red leaf in an empty place. */
  lemma Attach(m: Mem, m1: Mem, x: Node, par: Node?, k: Ctx)
    requires Focus(m, null, par, E, k) && x !in CtxNodes(k)
    requires Same(m, m1, CtxNodes(k)) && Get(m, RootOf) == Get(m1, RootOf)
    requires Kid(m1, Left, x) == null && Kid(m1, Right, x) == null && Parent(m1, x) == par && ColorOf(m1, x) == Red
    ensures Focus(Set(m1, Hole(k), x), x, par, N(Red, E, x, E), k)
  {
    CtxFrame(m, m1, null, par, k);
    CtxSet(m1, null, x, par, k);
  }

  lemma AttachOk(k: Ctx, x: Node)
    requires CtxOk(k, 0, false)
    ensures RedFocus(N(Red, E, x, E), k)
  {
    assert Ok(E) && BlackHeight(E) == 0;
  }

  lemma DownOk(t: T, k: Ctx, s: Side)
    requires t.N? && Ok(t) && CtxOk(k, BlackHeight(t), IsRed(t))
    ensures var u := Sub(s, t); Ok(u) && CtxOk(In(s, t.c, t.x, Sub(Other(s), t), k), BlackHeight(u), IsRed(u))
  {
  }

  lemma LeafShows(k: Ctx, x: Node)
    ensures var t := N(Red, E, x, E); Shows(t, k, Flat(t, k), CtxNodes(k) + {x})
  {
    assert Nodes(E) == {};
    assert Nodes(N(Red, E, x, E)) == {x};
  }

  lemma FlatLeaf(k: Ctx)
    ensures Flat(E, k) == Before(k) + After(k)
  {
    assert Inorder(E) == [];
  }

  lemma LeafSorted(k: Ctx, x: Node)
    requires Sorted(Flat(E, k)) && Narrowed(k, x.key)
    ensures Sorted(Flat(N(Red, E, x, E), k))
  {
    FlatLeaf(k);
    SortedInsert(k, x);
  }

  lemma LeafFits(k: Ctx, x: Node, nodes: set<Node>)
    requires CtxOk(k, 0, false) && Sorted(Flat(E, k)) && Narrowed(k, x.key) && CtxNodes(k) == nodes
    ensures var t := N(Red, E, x, E);
      RedFocus(t, k) && Shows(t, k, Flat(t, k), nodes + {x}) && Sorted(Flat(t, k))
  {
    AttachOk(k, x);
    LeafShows(k, x);
    LeafSorted(k, x);
  }

  // ------------------------------------------------------------------ height

  function Pow2(n: nat): nat { if n == 0 then 1 else 2 * Pow2(n - 1) }

  function Height(t: T): nat {
    match t
    case E => 0
    case N(_, l, _, r) => 1 + if Height(l) > Height(r) then Height(l) else Height(r)
  }

  lemma {:induction false} HeightByBlack(t: T)
    requires Ok(t)
    ensures Height(t) <= 2 * BlackHeight(t) + if IsRed(t) then 1 else 0
  {
    if t.N? {
      HeightByBlack(t.left);
      HeightByBlack(t.right);
    }
  }

  lemma {:induction false} SizeByBlack(t: T)
    requires Ok(t) && Dist(t)
    ensures Pow2(BlackHeight(t)) <= |Nodes(t)| + 1
  {
    if t.N? {
      SizeByBlack(t.left);
      SizeByBlack(t.right);
      NodesSize(t);
    }
  }

  lemma NodesSize(t: T)
    requires t.N? && Dist(t)
    ensures |Nodes(t)| == |Nodes(t.left)| + 1 + |Nodes(t.right)|
  {
    var l, r := Nodes(t.left), Nodes(t.right);
    assert |l + {t.x}| == |l| + 1;
    assert (l + {t.x}) !! r;
  }

  lemma {:induction false} Pow2Monotone(a: nat, b: nat)
    requires a <= b
    ensures Pow2(a) <= Pow2(b)
    decreases b - a
  {
    if a < b { Pow2Monotone(a, b - 1); }
  }

  lemma {:induction false} Pow2Double(n: nat)
    ensures Pow2(2 * n) == Pow2(n) * Pow2(n)
  {
    if n > 0 {
      Pow2Double(n - 1);
      assert Pow2(2 * n) == 2 * Pow2(2 * n - 1) == 4 * Pow2(2 * (n - 1));
    }
  }

  lemma HeightBound(t: T)
    requires Ok(t) && !IsRed(t) && Dist(t)
    ensures Pow2(Height(t)) <= (|Nodes(t)| + 1) * (|Nodes(t)| + 1)
  {
    HeightByBlack(t);
    SizeByBlack(t);
    Pow2Monotone(Height(t), 2 * BlackHeight(t));
    Pow2Double(BlackHeight(t));
    Squares(Pow2(BlackHeight(t)), |Nodes(t)| + 1);
  }

  lemma Squares(a: nat, b: nat)
    requires a <= b
    ensures a * a <= b * b
  {
  }
}
