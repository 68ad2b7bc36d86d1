/**
 The operations of the red-black tree in libkqueue/src/common/tree.h on nodes in the heap:
 RB_INSERT, RB_REMOVE and RB_FIND with their colour repairs. Every store goes through one of the
 Put methods, which say what it does to the memory of the tree.
*/
module RedBlackTree {
  import opened RedBlackShape
  import opened RedBlackRemoval

  class Tree {
    var root: Node?
    ghost var repr: set<Node>
    ghost var model: T

    /** The fields of the tree and its nodes as a value; the stores below keep it up to date. */
    ghost var mem: Mem

    ghost predicate Synced()
      reads `root, `mem, `repr, repr
    {
      && Get(mem, RootOf) == root
      && forall x | x in repr :: SyncedAt(x)
    }

    ghost predicate SyncedAt(x: Node)
      reads `mem, x
    {
      && Kid(mem, Left, x) == x.left && Kid(mem, Right, x) == x.right
      && Parent(mem, x) == x.parent && ColorOf(mem, x) == x.color
    }

    function Child(s: Side, x: Node): Node?
      reads x
    {
      if s.Left? then x.left else x.right
    }

    method PutKid(s: Side, x: Node, p: Node?)
      requires Synced() && x in repr
      modifies x, `mem
      ensures Synced() && mem == Set(old(mem), KidOf(s, x), p)
    {
      if s.Left? { PutLeft(x, p); } else { PutRight(x, p); }
    }

    method PutLeft(x: Node, p: Node?)
      requires Synced() && x in repr
      modifies x, `mem
      ensures Synced() && mem == Set(old(mem), KidOf(Left, x), p)
    {
      x.left := p;
      mem := Set(mem, KidOf(Left, x), p);
    }

    method PutRight(x: Node, p: Node?)
      requires Synced() && x in repr
      modifies x, `mem
      ensures Synced() && mem == Set(old(mem), KidOf(Right, x), p)
    {
      x.right := p;
      mem := Set(mem, KidOf(Right, x), p);
    }

    method PutParent(x: Node, p: Node?)
      requires Synced() && x in repr
      modifies x, `mem
      ensures Synced() && mem == Set(old(mem), ParentOf(x), p)
    {
      x.parent := p;
      mem := Set(mem, ParentOf(x), p);
    }

    method PutColor(x: Node, c: Color)
      requires Synced() && x in repr
      modifies x, `mem
      ensures Synced() && mem == SetColor(old(mem), x, c)
    {
      x.color := c;
      mem := SetColor(mem, x, c);
    }

    /** Makes `q` the child of `par` in the place of `p`, or the root. */
    method Relink(par: Node?, p: Node?, q: Node?)
      requires Synced() && (par != null ==> par in repr)
      modifies `root, `mem, par
      ensures Synced() && mem == Set(old(mem), LinkTo(old(mem), par, p), q)
    {
      if par != null {
        assert SyncedAt(par);
        if par.left == p { PutKid(Left, par, q); } else { PutKid(Right, par, q); }
      } else {
        root := q;
        mem := Set(mem, RootOf, q);
      }
    }

    /** RB_ROTATE_LEFT and RB_ROTATE_RIGHT. */
    method RotateAt(s: Side, x: Node)
      requires Synced() && Rotatable(mem, s, x, repr)
      modifies `root, `mem, repr
      ensures Synced() && mem == Rotated(old(mem), s, x)
    {
      assert SyncedAt(x);
      var y := Child(Other(s), x);
      var b := Child(s, y);
      assert SyncedAt(x);
      assert SyncedAt(y);
      PutKid(Other(s), x, b);
      if b != null { PutParent(b, x); }
      assert SyncedAt(x);
      PutParent(y, x.parent);
      assert SyncedAt(x);
      Relink(x.parent, x, y);
      PutKid(s, y, x);
      PutParent(x, y);
    }

    // ------------------------------------------------------------------ insertion

    /** Two stores to colours and a rotation. */
    method PaintAndRotate(a: Node, ca: Color, b: Node, cb: Color, s: Side, x: Node)
      requires Synced() && a in repr && b in repr && Rotatable(SetColor(SetColor(mem, a, ca), b, cb), s, x, repr)
      modifies `root, `mem, repr
      ensures Synced() && mem == Rotated(SetColor(SetColor(old(mem), a, ca), b, cb), s, x)
    {
      PutColor(a, ca);
      PutColor(b, cb);
      RotateAt(s, x);
    }

    /** Three stores to colours. */
    method PaintThree(a: Node, ca: Color, b: Node, cb: Color, c: Node, cc: Color)
      requires Synced() && a in repr && b in repr && c in repr
      modifies `mem, repr
      ensures Synced() && mem == SetColor(SetColor(SetColor(old(mem), a, ca), b, cb), c, cc)
    {
      PutColor(a, ca);
      PutColor(b, cb);
      PutColor(c, cc);
    }

    /** The uncle of `elm` is red. */
    method MoveUp(elm: Node, parent: Node, gparent: Node, uncle: Node, ghost t: T, ghost k: Ctx, ghost order: seq<Node>)
      returns (ghost t': T)
      requires Synced() && Focus(mem, elm, Parent(mem, elm), t, k) && RedFocus(t, k) && Shows(t, k, order, repr)
      requires {elm, parent, gparent, uncle} <= repr
      requires k.In? && k.c.Red? && k.up.In? && k.x == parent && k.up.x == gparent && IsRed(k.up.sib)
        && k.up.sib.x == uncle
      modifies `mem, repr
      ensures Synced() && Focus(mem, gparent, Parent(mem, gparent), t', k.up.up) && RedFocus(t', k.up.up)
        && Shows(t', k.up.up, order, repr)
    {
      t' := Mk(k.up.s, Red, Mk(k.s, Black, t, k.x, k.sib), k.up.x, Colored(k.up.sib, Black));
      UncleRedPlan(mem, elm, t, k, t', order, repr);
      PaintThree(uncle, Black, parent, Black, gparent, Red);
    }

    /** `elm` is the inner child: it is rotated above its parent. */
    method RotateInner(elm: Node, parent: Node, s: Side, ghost t: T, ghost k: Ctx, ghost order: seq<Node>)
      returns (ghost t': T, ghost k': Ctx)
      requires Synced() && Focus(mem, elm, Parent(mem, elm), t, k) && RedFocus(t, k) && Shows(t, k, order, repr)
      requires k.In? && k.c.Red? && k.x == parent && k.s == Other(s) && k.up.In?
      modifies `root, `mem, repr
      ensures Synced() && Focus(mem, parent, Parent(mem, parent), t', k') && RedFocus(t', k')
        && Shows(t', k', order, repr)
      ensures k'.In? && k'.c.Red? && k'.x == elm && k'.s == s && k'.up == k.up
    {
      ghost var b, d := Sub(s, t), Sub(Other(s), t);
      SubMk(s, t);
      RepRoot(mem, elm, t);
      assert t == Mk(s, Red, b, elm, d) && s == Other(k.s);
      InnerRotate(mem, elm, b, d, k);
      InnerOk(s, elm, b, d, k);
      t', k' := Mk(s, Red, k.sib, k.x, b), In(s, Red, elm, d, k.up);
      StillShows(t, k, t', k', order, repr);
      RotateAt(s, parent);
    }

    /** `elm` is the outer child: its parent becomes black and is rotated above the grandparent. */
    method RotateOuter(elm: Node, parent: Node, gparent: Node, ghost t: T, ghost k: Ctx, ghost order: seq<Node>,
        s: Side)
      returns (ghost k': Ctx)
      requires Synced() && Focus(mem, elm, Parent(mem, elm), t, k) && RedFocus(t, k) && Shows(t, k, order, repr)
      requires k.In? && k.c.Red? && k.x == parent && k.s == s && k.up.In? && k.up.s == s && k.up.x == gparent
        && !IsRed(k.up.sib)
      requires parent in repr && gparent in repr
      modifies `root, `mem, repr
      ensures Synced() && Focus(mem, elm, Parent(mem, elm), t, k') && RedFocus(t, k') && Shows(t, k', order, repr)
      ensures Depth(k') < Depth(k)
    {
      OuterRotate(mem, elm, t, k);
      k' := In(k.s, Black, k.x, Mk(k.s, Red, k.sib, k.up.x, k.up.sib), k.up.up);
      OuterOk(t, k, k');
      StillShows(t, k, t, k', order, repr);
      PutColor(parent, Black);
      PutColor(gparent, Red);
      RotateAt(Other(s), gparent);
    }

    /** `elm` and its parent are red, and its uncle is not. */
    method RotateUp(elm: Node, parent: Node, gparent: Node, s: Side, ghost t: T, ghost k: Ctx, ghost order: seq<Node>)
      returns (elm': Node, ghost t': T, ghost k': Ctx)
      requires Synced() && Focus(mem, elm, Parent(mem, elm), t, k) && RedFocus(t, k) && Shows(t, k, order, repr)
      requires {elm, parent, gparent} <= repr && (Child(Other(s), parent) == elm <==> k.In? && k.s == Other(s))
      requires k.In? && k.c.Red? && k.x == parent && k.up.In? && k.up.s == s && k.up.x == gparent && !IsRed(k.up.sib)
      modifies `root, `mem, repr
      ensures Synced() && Focus(mem, elm', Parent(mem, elm'), t', k') && RedFocus(t', k') && Shows(t', k', order, repr)
      ensures elm' in repr && Depth(k') < Depth(k)
    {
      if Child(Other(s), parent) == elm {
        t', k' := RotateInner(elm, parent, s, t, k, order);
        elm' := parent;
        k' := RotateOuter(elm', elm, gparent, t', k', order, s);
      } else {
        elm', t' := elm, t;
        k' := RotateOuter(elm', parent, gparent, t', k, order, s);
      }
    }

    /** One round of RB_INSERT_COLOR. */
    method InsertStep(elm: Node, parent: Node, ghost t: T, ghost k: Ctx, ghost order: seq<Node>)
      returns (elm': Node, ghost t': T, ghost k': Ctx)
      requires Synced() && Focus(mem, elm, Parent(mem, elm), t, k) && RedFocus(t, k) && Shows(t, k, order, repr)
      requires elm in repr && k.In? && k.c.Red? && k.x == parent
      modifies `root, `mem, repr
      ensures Synced() && Focus(mem, elm', Parent(mem, elm'), t', k') && RedFocus(t', k') && Shows(t', k', order, repr)
      ensures elm' in repr && Depth(k') < Depth(k)
    {
      InsertView(mem, elm, t, k);
      assert SyncedAt(parent);
      var gparent := parent.parent;
      assert SyncedAt(gparent);
      var s := if gparent.left == parent then Left else Right;
      var uncle := Child(Other(s), gparent);
      RepRoot(mem, uncle, k.up.sib);
      assert uncle != null ==> SyncedAt(uncle);
      if uncle != null && uncle.color == Red {
        t' := MoveUp(elm, parent, gparent, uncle, t, k, order);
        elm', k' := gparent, k.up.up;
      } else {
        elm', t', k' := RotateUp(elm, parent, gparent, s, t, k, order);
      }
    }

    /** RB_INSERT_COLOR: repairs the colours above a new red node. */
    method InsertColor(x: Node, ghost t0: T, ghost k0: Ctx, ghost order: seq<Node>) returns (ghost top: T)
      requires Synced() && x in repr && Focus(mem, x, Parent(mem, x), t0, k0) && RedFocus(t0, k0)
        && Shows(t0, k0, order, repr)
      modifies `root, `mem, repr
      ensures Synced() && Focus(mem, root, null, top, Top) && Ok(top) && !IsRed(top) && Shows(top, Top, order, repr)
    {
      var elm := x;
      ghost var t, k := t0, k0;
      assert SyncedAt(elm);
      while elm.parent != null && elm.parent.color == Red
        invariant Synced() && elm in repr && SyncedAt(elm)
        invariant Focus(mem, elm, Parent(mem, elm), t, k) && RedFocus(t, k) && Shows(t, k, order, repr)
        decreases Depth(k)
      {
        assert SyncedAt(elm.parent);
        elm, t, k := InsertStep(elm, elm.parent, t, k, order);
        assert SyncedAt(elm);
      }
      assert elm.parent != null ==> SyncedAt(elm.parent);
      top := BlackenRoot(t, k, order, elm);
    }

    method BlackenRoot(ghost t: T, ghost k: Ctx, ghost order: seq<Node>, ghost elm: Node) returns (ghost top: T)
      requires Synced() && Focus(mem, elm, Parent(mem, elm), t, k) && RedFocus(t, k) && Shows(t, k, order, repr)
      requires k.In? ==> k.c.Black?
      modifies `mem, repr
      ensures Synced() && Focus(mem, root, null, top, Top) && Ok(top) && !IsRed(top) && Shows(top, Top, order, repr)
    {
      ToTop(mem, elm, Parent(mem, elm), t, k);
      PlugInorder(k, t);
      ghost var whole := Plug(k, t);
      StillShows(t, k, whole, Top, order, repr);
      RootNode(t, k);
      Paint(mem, root, null, whole, Top, Black);
      top := Colored(whole, Black);
      StillShows(whole, Top, top, Top, order, repr);
      BlackRootOk(t, k);
      PutColor(root, Black);
    }

    // ------------------------------------------------------------------ removal

    /** The sibling `tmp` is red. */
    method LiftSibling(elm: Node?, parent: Node, tmp: Node, s: Side, ghost t: T, ghost k: Ctx, ghost order: seq<Node>)
      returns (ghost k': Ctx)
      requires Synced() && Focus(mem, elm, parent, t, k) && ShortFocus(t, k) && Shows(t, k, order, repr)
      requires {parent, tmp} <= repr && k.In? && k.s == s && k.x == parent && IsRed(k.sib) && k.sib.x == tmp
      modifies `root, `mem, repr
      ensures Synced() && Focus(mem, elm, parent, t, k') && ShortFocus(t, k') && Shows(t, k', order, repr)
      ensures k'.In? && k'.s == s && k'.x == parent && k'.c.Red? && !IsRed(k'.sib)
    {
      k' := In(s, Red, parent, Sub(s, k.sib), In(s, Black, tmp, Sub(Other(s), k.sib), k.up));
      LiftSiblingPlan(mem, elm, t, k, tmp, k', order, repr);
      PaintAndRotate(tmp, Black, parent, Red, s, parent);
    }

    /** The sibling `tmp` and its children are black. */
    method PaintSibling(elm: Node?, parent: Node, tmp: Node, ghost t: T, ghost k: Ctx, ghost order: seq<Node>)
      returns (ghost t': T)
      requires Synced() && Focus(mem, elm, parent, t, k) && ShortFocus(t, k) && !IsRed(t) && Shows(t, k, order, repr)
      requires tmp in repr && k.In? && k.x == parent && k.sib.N? && k.sib.x == tmp
      requires !IsRed(k.sib) && !IsRed(k.sib.left) && !IsRed(k.sib.right)
      modifies `mem, repr
      ensures Synced() && Focus(mem, parent, Parent(mem, parent), t', k.up) && ShortFocus(t', k.up)
        && Shows(t', k.up, order, repr)
      ensures IsRed(t') == k.c.Red?
    {
      t' := Mk(k.s, k.c, t, k.x, Colored(k.sib, Red));
      SiblingBlack(mem, elm, t, k);
      SiblingBlackOk(t, k, t');
      StillShows(t, k, t', k.up, order, repr);
      PutColor(tmp, Red);
    }

    /** Of the children of the black sibling `tmp` only the nearer one, `v`, is red. */
    method LiftNephew(elm: Node?, parent: Node, tmp: Node, v: Node, s: Side, ghost t: T, ghost k: Ctx,
        ghost order: seq<Node>)
      returns (ghost k': Ctx)
      requires Synced() && Focus(mem, elm, parent, t, k) && ShortFocus(t, k) && Shows(t, k, order, repr)
      requires {tmp, v} <= repr && k.In? && k.s == s && k.x == parent && k.sib.N? && k.sib.x == tmp && k.sib.c.Black?
      requires IsRed(Sub(s, k.sib)) && Sub(s, k.sib).x == v && !IsRed(Sub(Other(s), k.sib))
      modifies `root, `mem, repr
      ensures Synced() && Focus(mem, elm, parent, t, k') && ShortFocus(t, k') && Shows(t, k', order, repr)
      ensures k'.In? && k'.s == s && k'.x == parent && k'.sib.N? && k'.sib.c.Black? && IsRed(Sub(Other(s), k'.sib))
        && k'.up == k.up
    {
      ghost var near := Sub(s, k.sib);
      ghost var sib' := Mk(s, Black, Sub(s, near), v, Mk(s, Red, Sub(Other(s), near), tmp, Sub(Other(s), k.sib)));
      LiftNephewPlan(mem, elm, t, k, tmp, v, sib', order, repr);
      k' := k.(sib := sib');
      PaintAndRotate(v, Black, tmp, Red, Other(s), tmp);
    }

    /** The farther child `f` of the black sibling `tmp` is red: the last rotation. */
    method LiftLast(elm: Node?, parent: Node, tmp: Node, f: Node, s: Side, ghost t: T, ghost k: Ctx,
        ghost order: seq<Node>)
      returns (ghost t': T)
      requires Synced() && Focus(mem, elm, parent, t, k) && ShortFocus(t, k) && !IsRed(t) && Shows(t, k, order, repr)
      requires {parent, tmp, f} <= repr && k.In? && k.s == s && k.x == parent && k.sib.N? && k.sib.x == tmp
        && k.sib.c.Black?
      requires IsRed(Sub(Other(s), k.sib)) && Sub(Other(s), k.sib).x == f
      modifies `root, `mem, repr
      ensures Synced() && Focus(mem, tmp, Parent(mem, tmp), t', k.up) && Shows(t', k.up, order, repr)
      ensures Ok(t') && CtxOk(k.up, BlackHeight(t'), IsRed(t'))
    {
      t' := Mk(s, k.c, Mk(s, Black, t, parent, Sub(s, k.sib)), tmp, Colored(Sub(Other(s), k.sib), Black));
      LiftLastPlan(mem, elm, t, k, tmp, f, t', order, repr);
      assert SyncedAt(parent);
      PutColor(tmp, parent.color);
      PaintAndRotate(parent, Black, f, Black, s, parent);
    }

    /** The sibling `tmp` is black and has a red child. */
    method Rebalance(elm: Node?, parent: Node, tmp: Node, s: Side, ghost t: T, ghost k: Ctx, ghost order: seq<Node>)
      returns (ghost top: Node, ghost t': T)
      requires Synced() && Focus(mem, elm, parent, t, k) && ShortFocus(t, k) && !IsRed(t) && Shows(t, k, order, repr)
      requires k.In? && k.s == s && k.x == parent && k.sib.N? && k.sib.x == tmp && k.sib.c.Black?
      requires IsRed(k.sib.left) || IsRed(k.sib.right)
      modifies `root, `mem, repr
      ensures Synced() && Focus(mem, top, Parent(mem, top), t', k.up) && Shows(t', k.up, order, repr)
      ensures Ok(t') && CtxOk(k.up, BlackHeight(t'), IsRed(t')) && t'.N?
    {
      RemoveView(mem, elm, parent, t, k);
      assert SyncedAt(tmp);
      var f := Child(Other(s), tmp);
      assert f != null ==> SyncedAt(f);
      var w := tmp;
      ghost var k1 := k;
      if f == null || f.color == Black {
        var v := Child(s, tmp);
        k1 := LiftNephew(elm, parent, tmp, v, s, t, k, order);
        RemoveView(mem, elm, parent, t, k1);
        assert SyncedAt(parent);
        w := Child(Other(s), parent);
        assert SyncedAt(w);
        f := Child(Other(s), w);
      }
      t' := LiftLast(elm, parent, w, f, s, t, k1, order);
      top := w;
    }

    /** The sibling of the short subtree at `elm`, made black if it was red. */
    method BlackSibling(elm: Node?, parent: Node, s: Side, ghost t: T, ghost k: Ctx, ghost order: seq<Node>)
      returns (tmp: Node, ghost k': Ctx)
      requires Synced() && Focus(mem, elm, parent, t, k) && ShortFocus(t, k) && Shows(t, k, order, repr)
      requires k.In? && k.s == s && k.x == parent && k.sib.N?
      modifies `root, `mem, repr
      ensures Synced() && Focus(mem, elm, parent, t, k') && ShortFocus(t, k') && Shows(t, k', order, repr)
      ensures k'.In? && k'.s == s && k'.x == parent && k'.sib.N? && k'.sib.x == tmp && k'.sib.c.Black?
      ensures k' == k || k'.c.Red?
    {
      RemoveView(mem, elm, parent, t, k);
      assert SyncedAt(parent);
      tmp, k' := Child(Other(s), parent), k;
      assert SyncedAt(tmp);
      if tmp.color == Red {
        k' := LiftSibling(elm, parent, tmp, s, t, k, order);
        Sibling(t, k');
        RemoveView(mem, elm, parent, t, k');
        assert SyncedAt(parent);
        tmp := Child(Other(s), parent);
      }
    }

    /** The sibling `tmp` is black: move the shortage up, or end it. */
    method Absorb(elm: Node?, parent: Node, tmp: Node, s: Side, ghost t: T, ghost k: Ctx, ghost order: seq<Node>)
      returns (done: bool, ghost top: Node, ghost t': T)
      requires Synced() && Focus(mem, elm, parent, t, k) && ShortFocus(t, k) && !IsRed(t) && Shows(t, k, order, repr)
      requires k.In? && k.s == s && k.x == parent && k.sib.N? && k.sib.x == tmp && k.sib.c.Black?
      modifies `root, `mem, repr
      ensures Synced() && Focus(mem, top, Parent(mem, top), t', k.up) && Shows(t', k.up, order, repr) && t'.N?
      ensures done ==> Ok(t') && CtxOk(k.up, BlackHeight(t'), IsRed(t'))
      ensures !done ==> top == parent && ShortFocus(t', k.up) && IsRed(t') == k.c.Red?
    {
      RemoveView(mem, elm, parent, t, k);
      assert SyncedAt(tmp) && (tmp.left != null ==> SyncedAt(tmp.left)) && (tmp.right != null ==> SyncedAt(tmp.right));
      if (tmp.left == null || tmp.left.color == Black) && (tmp.right == null || tmp.right.color == Black) {
        done, top := false, parent;
        t' := PaintSibling(elm, parent, tmp, t, k, order);
      } else {
        done := true;
        top, t' := Rebalance(elm, parent, tmp, s, t, k, order);
      }
    }

    /** One round of RB_REMOVE_COLOR; the last one leaves the whole tree repaired. */
    method RemoveStep(elm: Node?, parent: Node, ghost t: T, ghost k: Ctx, ghost order: seq<Node>)
      returns (done: bool, ghost top: Node, ghost t': T, ghost k': Ctx)
      requires Synced() && Focus(mem, elm, parent, t, k) && ShortFocus(t, k) && !IsRed(t) && k.In?
        && Shows(t, k, order, repr)
      modifies `root, `mem, repr
      ensures Synced() && Focus(mem, top, Parent(mem, top), t', k') && Shows(t', k', order, repr) && t'.N?
      ensures done ==> Ok(t') && CtxOk(k', BlackHeight(t'), IsRed(t'))
      ensures !done ==> top == parent && ShortFocus(t', k') && Rounds(t', k') < Rounds(t, k)
    {
      ShortSide(mem, elm, parent, t, k);
      assert SyncedAt(parent);
      var s := if parent.left == elm then Left else Right;
      var tmp;
      ghost var k1;
      tmp, k1 := BlackSibling(elm, parent, s, t, k, order);
      done, top, t' := Absorb(elm, parent, tmp, s, t, k1, order);
      k' := k1.up;
    }

    /** The tree is repaired below `top`; painting the root black changes nothing. */
    method Finish(ghost top: Node, ghost t: T, ghost k: Ctx, ghost order: seq<Node>) returns (ghost whole: T)
      requires Synced() && Focus(mem, top, Parent(mem, top), t, k) && Shows(t, k, order, repr) && t.N?
      requires Ok(t) && CtxOk(k, BlackHeight(t), IsRed(t))
      modifies `mem, repr
      ensures Synced() && Focus(mem, root, null, whole, Top) && Ok(whole) && !IsRed(whole)
        && Shows(whole, Top, order, repr)
    {
      Assemble(mem, top, Parent(mem, top), t, k, order, repr);
      RootNode(t, k);
      whole := Plug(k, t);
      Paint(mem, root, null, whole, Top, Black);
      assert Colored(whole, Black) == whole;
      PutColor(root, Black);
    }

    /** The short subtree has a red root or is the whole tree: a black root repairs it. */
    method FinishShort(elm: Node?, ghost par: Node?, ghost t: T, ghost k: Ctx, ghost order: seq<Node>)
        returns (ghost whole: T)
      requires Synced() && Focus(mem, elm, par, t, k) && Shows(t, k, order, repr) && ShortFocus(t, k)
        && (IsRed(t) || k.Top?)
      modifies `mem, repr
      ensures Synced() && Focus(mem, root, null, whole, Top) && Ok(whole) && !IsRed(whole)
        && Shows(whole, Top, order, repr)
    {
      RepRoot(mem, elm, t);
      ghost var t' := if t.N? then Colored(t, Black) else t;
      ShortDone(t, k, t');
      StillShows(t, k, t', k, order, repr);
      if elm != null {
        Paint(mem, elm, par, t, k, Black);
        PutColor(elm, Black);
      }
      Assemble(mem, elm, par, t', k, order, repr);
      whole := Plug(k, t');
    }

    /** RB_REMOVE_COLOR: repairs the tree around a subtree that lost a black node. */
    method RemoveColor(parent0: Node?, elm0: Node?, ghost t0: T, ghost k0: Ctx, ghost order: seq<Node>)
        returns (ghost whole: T)
      requires Synced() && Focus(mem, elm0, parent0, t0, k0) && ShortFocus(t0, k0) && Shows(t0, k0, order, repr)
      modifies `root, `mem, repr
      ensures Synced() && Focus(mem, root, null, whole, Top) && Ok(whole) && !IsRed(whole)
        && Shows(whole, Top, order, repr)
    {
      var elm, parent := elm0, parent0;
      ghost var t, k := t0, k0;
      RootIs(mem, elm, parent, t, k);
      RepRoot(mem, elm, t);
      assert elm != null ==> SyncedAt(elm);
      while (elm == null || elm.color == Black) && elm != root
        invariant Synced() && Focus(mem, elm, parent, t, k) && ShortFocus(t, k) && Shows(t, k, order, repr)
        invariant elm == root <==> k.Top?
        invariant elm == null <==> t.E?
        invariant elm != null ==> elm in repr && elm.color == t.c
        decreases Rounds(t, k)
      {
        var done;
        ghost var top;
        done, top, t, k := RemoveStep(elm, parent, t, k, order);
        if done {
          whole := Finish(top, t, k, order);
          return;
        }
        elm := parent;
        assert SyncedAt(elm);
        parent := elm.parent;
        RootIs(mem, elm, parent, t, k);
      }
      whole := FinishShort(elm, parent, t, k, order);
    }

    // ------------------------------------------------------------------ the operations

    /** The nodes form a red-black search tree with consistent parent links. */
    ghost predicate Valid()
      reads this, repr
    {
      && Synced() && Focus(mem, root, null, model, Top) && Shows(model, Top, Inorder(model), repr)
      && Ok(model) && !IsRed(model) && Sorted(Inorder(model))
    }

    /** RB_INIT. */
    constructor ()
      ensures Valid() && repr == {}
    {
      root, repr, model, mem := null, {}, E, Mem(map[], map[]);
    }

    /** RB_FIND. */
    method Find(key: int) returns (r: Node?)
      requires Valid()
      ensures r != null ==> r in repr && r.key == key
      ensures r == null ==> forall x | x in repr :: x.key != key
    {
      var tmp := root;
      ghost var par: Node?, t, k := null, model, Top;
      while tmp != null
        invariant Focus(mem, tmp, par, t, k) && Shows(t, k, Inorder(model), repr) && Narrowed(k, key)
        decreases t
      {
        RepRoot(mem, tmp, t);
        assert SyncedAt(tmp);
        if key == tmp.key { return tmp; }
        var s := if key < tmp.key then Left else Right;
        Narrow(t, k, key, s);
        Down(mem, tmp, par, t, k, s);
        ghost var t', k' := Sub(s, t), In(s, t.c, t.x, Sub(Other(s), t), k);
        StillShows(t, k, t', k', Inorder(model), repr);
        par, t, k := tmp, t', k';
        tmp := Child(s, tmp);
      }
      RepRoot(mem, tmp, t);
      NotThere(k, key);
      r := null;
    }

    lemma NotThere(k: Ctx, key: int)
      requires Narrowed(k, key) && Shows(E, k, Inorder(model), repr)
      ensures forall x | x in repr :: x.key != key
    {
      FlatElems(E, k);
      forall x | x in repr ensures x.key != key {
        assert x in Flat(E, k);
        assert x in Before(k) || x in After(k);
      }
    }

    /** What RB_INSERT knows while it walks down: the place for `key` is in the subtree at `p`. */
    ghost predicate Descent(p: Node?, par: Node?, t: T, k: Ctx, key: int)
      reads this
    {
      && Focus(mem, p, par, t, k) && Shows(t, k, Inorder(model), repr) && Narrowed(k, key)
      && Ok(t) && CtxOk(k, BlackHeight(t), IsRed(t))
    }

    lemma Descend(p: Node, par: Node?, t: T, k: Ctx, key: int, s: Side)
      requires Descent(p, par, t, k, key) && Sorted(Inorder(model)) && p in repr && SyncedAt(p)
      requires if s.Left? then key < p.key else p.key < key
      ensures t.N? && t.x == p && Descent(Child(s, p), p, Sub(s, t), In(s, t.c, t.x, Sub(Other(s), t), k), key)
    {
      RepRoot(mem, p, t);
      Narrow(t, k, key, s);
      Down(mem, p, par, t, k, s);
      DownOk(t, k, s);
      StillShows(t, k, Sub(s, t), In(s, t.c, t.x, Sub(Other(s), t), k), Inorder(model), repr);
    }

    /** The tree takes over the node `x`. */
    ghost method Adopt(x: Node)
      requires Synced() && x !in repr
      modifies `repr, `mem
      ensures repr == old(repr) + {x} && Synced() && Same(old(mem), mem, old(repr))
        && Get(mem, RootOf) == Get(old(mem), RootOf)
    {
      ghost var m := mem;
      mem := Set(Set(Set(SetColor(mem, x, x.color), KidOf(Left, x), x.left), KidOf(Right, x), x.right), ParentOf(x),
          x.parent);
      forall y | y in repr ensures SameAt(m, mem, y) && SyncedAt(y) {
        assert SameAt(m, mem, y);
      }
      repr := repr + {x};
    }

    /** RB_SET: `x` becomes a red leaf below `parent`. */
    method SetLeaf(x: Node, parent: Node?)
      requires Synced() && x in repr
      modifies `mem, x
      ensures Synced() && Same(old(mem), mem, repr - {x}) && Get(mem, RootOf) == Get(old(mem), RootOf)
      ensures Kid(mem, Left, x) == null && Kid(mem, Right, x) == null && Parent(mem, x) == parent
        && ColorOf(mem, x) == Red
    {
      PutParent(x, parent);
      PutKid(Left, x, null);
      PutKid(Right, x, null);
      PutColor(x, Red);
    }

    /** The store that makes `x` reachable. */
    method Link(x: Node, parent: Node?, s: Side)
      requires Synced() && (parent != null ==> parent in repr)
      modifies `root, `mem, parent
      ensures Synced() && mem == Set(old(mem), if parent == null then RootOf else KidOf(s, parent), x)
    {
      if parent != null {
        PutKid(s, parent, x);
      } else {
        root := x;
        mem := Set(mem, RootOf, x);
      }
    }

    /** `x` becomes a red leaf in the empty place `k`. */
    method Hang(x: Node, parent: Node?, s: Side, ghost k: Ctx)
      requires Synced() && Descent(null, parent, E, k, x.key) && Sorted(Inorder(model)) && x !in repr
      requires k.In? ==> k.s == s
      modifies `root, `repr, `mem, repr, x
      ensures repr == old(repr) + {x} && Synced()
      ensures Focus(mem, x, parent, N(Red, E, x, E), k)
    {
      ghost var m := mem;
      Adopt(x);
      ghost var m0 := mem;
      SetLeaf(x, parent);
      assert Same(m, mem, CtxNodes(k)) by {
        forall y | y in CtxNodes(k) ensures SameAt(m, mem, y) {
          assert SameAt(m, m0, y) && SameAt(m0, mem, y);
        }
      }
      Attach(m, mem, x, parent, k);
      Link(x, parent, s);
    }

    method HangLeaf(x: Node, parent: Node?, s: Side, ghost k: Ctx) returns (ghost leaf: T)
      requires Synced() && Descent(null, parent, E, k, x.key) && Sorted(Inorder(model)) && x !in repr
      requires k.In? ==> k.s == s
      modifies `root, `repr, `mem, repr, x
      ensures repr == old(repr) + {x} && Synced() && Focus(mem, x, Parent(mem, x), leaf, k)
      ensures RedFocus(leaf, k) && Shows(leaf, k, Flat(leaf, k), repr) && Sorted(Flat(leaf, k))
    {
      leaf := N(Red, E, x, E);
      LeafFits(k, x, repr);
      Hang(x, parent, s, k);
    }

    /** The colours above the new node are repaired. */
    method Settle(x: Node, ghost leaf: T, ghost k: Ctx)
      requires x in repr && Synced() && Focus(mem, x, Parent(mem, x), leaf, k)
      requires RedFocus(leaf, k) && Shows(leaf, k, Flat(leaf, k), repr) && Sorted(Flat(leaf, k))
      modifies this, repr
      ensures Valid() && repr == old(repr)
    {
      model := InsertColor(x, leaf, k, Flat(leaf, k));
      FlatTop(model);
    }

    /** The descent of RB_INSERT: the node with the key, or the place below `parent` on side `s` for one. */
    method Seek(key: int) returns (tmp: Node?, parent: Node?, s: Side, ghost t: T, ghost k: Ctx)
      requires Valid()
      ensures Descent(tmp, parent, t, k, key) && (k.In? ==> k.s == s)
      ensures tmp != null ==> tmp in repr && tmp.key == key
    {
      tmp, parent, s := root, null, Right;
      t, k := model, Top;
      while tmp != null
        invariant Descent(tmp, parent, t, k, key) && (k.In? ==> k.s == s)
        decreases t
      {
        RepRoot(mem, tmp, t);
        assert SyncedAt(tmp);
        if key == tmp.key { return; }
        s := if key < tmp.key then Left else Right;
        Descend(tmp, parent, t, k, key, s);
        parent := tmp;
        tmp := Child(s, tmp);
        t, k := Sub(s, t), In(s, t.c, t.x, Sub(Other(s), t), k);
      }
    }

    /** RB_INSERT: adds `x`, unless a node with its key is there, which is then returned. */
    method Insert(x: Node) returns (r: Node?)
      requires Valid() && x !in repr
      modifies this, repr, x
      ensures Valid()
      ensures r != null ==> r in old(repr) && r.key == x.key && repr == old(repr) && model == old(model)
      ensures r == null ==> repr == old(repr) + {x} && forall y | y in old(repr) :: y.key != x.key
    {
      var parent, s;
      ghost var t, k;
      r, parent, s, t, k := Seek(x.key);
      if r != null { return; }
      RepRoot(mem, null, t);
      NotThere(k, x.key);
      ghost var leaf := HangLeaf(x, parent, s, k);
      Settle(x, leaf, k);
    }

    /** `child` takes the place of its parent `x`. */
    method SpliceOut(x: Node, child: Node?, parent: Node?)
      requires Synced() && x in repr && (child != null ==> child in repr) && (parent != null ==> parent in repr)
      modifies `root, `mem, repr
      ensures Synced() && mem == Spliced(old(mem), x, child, parent)
    {
      if child != null { PutParent(child, parent); }
      Relink(parent, x, child);
    }

    /** `elm` takes over the fields and the neighbours of `x`. */
    method TakeOver(x: Node, elm: Node)
      requires Synced() && x in repr && elm in repr && elm != x && x.left != null && x.left in repr && x.left != x
      requires (x.right != null ==> x.right in repr) && (x.parent != null ==> x.parent in repr)
      requires Hub(mem, x, elm, x.left, x.right, x.parent)
      modifies `root, `mem, repr
      ensures Synced() && mem == Substituted(old(mem), x, elm)
    {
      assert SyncedAt(x);
      var l, r, par := x.left, x.right, x.parent;
      PutColor(elm, x.color);
      PutKid(Left, elm, l);
      PutKid(Right, elm, r);
      PutParent(elm, par);
      Relink(par, x, elm);
      PutParent(l, elm);
      if r != null { PutParent(r, elm); }
    }

    /** The end of RB_REMOVE: the colours are repaired if a black node is missing. */
    method Repair(color: Color, parent: Node?, child: Node?, ghost t: T, ghost k: Ctx, ghost order: seq<Node>)
      requires Synced() && Focus(mem, child, parent, t, k) && Shows(t, k, order, repr) && Sorted(order)
      requires color.Black? ==> ShortFocus(t, k)
      requires color.Red? ==> t.E? && CtxOk(k, 0, false)
      modifies this, repr
      ensures Valid() && repr == old(repr)
    {
      if color == Black {
        model := RemoveColor(parent, child, t, k, order);
      } else {
        assert Ok(t) && BlackHeight(t) == 0;
        Assemble(mem, child, parent, t, k, order, repr);
        model := Plug(k, t);
      }
      FlatTop(model);
    }

    /** RB_REMOVE of a node with at most one child. */
    method RemoveOnly(x: Node, ghost t: T, ghost k: Ctx)
      requires Synced() && Focus(mem, x, Parent(mem, x), t, k) && t.N? && Shows(t, k, Flat(t, k), repr)
        && Sorted(Flat(t, k))
      requires Ok(t) && CtxOk(k, BlackHeight(t), IsRed(t)) && (t.left.E? || t.right.E?) && x in repr
      modifies this, repr
      ensures Valid() && repr == old(repr) - {x}
    {
      assert SyncedAt(x);
      RepRoot(mem, x.left, t.left);
      RepRoot(mem, x.right, t.right);
      var child := if x.left == null then x.right else x.left;
      var parent := x.parent;
      var color := x.color;
      Splice(mem, x, child, parent, t, k);
      SplicedOk(t, k);
      assert parent != null ==> parent in CtxNodes(k);
      SpliceOut(x, child, parent);
      ghost var order := Leave(x, t, k);
      Repair(color, parent, child, Only(t), k, order);
    }

    ghost method Leave(x: Node, t: T, k: Ctx) returns (order: seq<Node>)
      requires Synced() && t.N? && t.x == x && (t.left.E? || t.right.E?) && Shows(t, k, Flat(t, k), repr)
        && Sorted(Flat(t, k))
      modifies `repr
      ensures repr == old(repr) - {x} && Synced() && Shows(Only(t), k, order, repr) && Sorted(order)
    {
      var a, b := Before(k) + Inorder(t.left), Inorder(t.right) + After(k);
      SplicedFlat(t, k);
      Without(a, x, b);
      order := a + b;
      FlatElems(t, k);
      FlatElems(Only(t), k);
      repr := repr - {x};
    }

    /** The leftmost node of the right subtree of `x`. */
    method Successor(x: Node, ghost t: T, ghost k: Ctx, ghost kx: Ctx) returns (elm: Node, ghost e: T, ghost b: Ctx)
      requires Synced() && Focus(mem, x, Parent(mem, x), t, k) && t.N? && t.right.N? && Shows(t, k, Flat(t, k), repr)
      requires Ok(t) && CtxOk(k, BlackHeight(t), IsRed(t)) && x in repr && kx == In(Right, t.c, x, t.left, k)
      ensures Spine(mem, elm, Parent(mem, elm), e, b, kx) && e.N? && e.x == elm && e.left.E? && elm in repr
      ensures Shows(e, Glue(b, kx), Flat(t, k), repr)
      ensures Parent(mem, elm) == x <==> b.Top?
      ensures b.In? ==> Parent(mem, elm) == b.x
    {
      Down(mem, x, Parent(mem, x), t, k, Right);
      DownOk(t, k, Right);
      assert SyncedAt(x);
      elm, e, b := x.right, t.right, Top;
      ghost var par := x;
      StillShows(t, k, e, kx, Flat(t, k), repr);
      RepRoot(mem, elm, e);
      assert SyncedAt(elm);
      while elm.left != null
        invariant Spine(mem, elm, par, e, b, kx) && Shows(e, Glue(b, kx), Flat(t, k), repr)
        invariant e.N? && e.x == elm && elm in repr && SyncedAt(elm)
        invariant par == if b.In? then b.x else x
        decreases e
      {
        SpineDown(mem, elm, par, e, b, kx);
        StillShows(e, Glue(b, kx), e.left, Glue(In(Left, e.c, e.x, e.right, b), kx), Flat(t, k), repr);
        RepRoot(mem, elm.left, e.left);
        par, elm, e, b := elm, elm.left, e.left, In(Left, e.c, e.x, e.right, b);
        assert SyncedAt(elm);
      }
      RepRoot(mem, elm.left, e.left);
      SpineParent(mem, elm, par, e, b, kx);
    }

    /** The successor `elm`, which was found, takes the place of `x`, and the colours are repaired. */
    method Replace(x: Node, elm: Node, ghost e: T, ghost b: Ctx, ghost k: Ctx)
      requires Synced() && Spine(mem, elm, Parent(mem, elm), e, b, k) && e.N? && e.x == elm && e.left.E?
      requires Shows(e, Glue(b, k), Flat(e, Glue(b, k)), repr) && Sorted(Flat(e, Glue(b, k)))
      requires k.In? && k.s.Right? && k.x == x && k.sib.N?
      requires (Parent(mem, elm) == x <==> b.Top?) && (b.In? ==> Parent(mem, elm) == b.x)
      modifies this, repr
      ensures Valid() && repr == old(repr) - {x}
    {
      var color, child, parent := Promote(x, elm, e, b, k);
      Vacate(x, color, child, parent, e, b, k, In(Right, k.c, elm, k.sib, k.up));
    }

    /** RB_REMOVE of a node with two children: its successor takes its place. */
    method RemoveInner(x: Node, ghost t: T, ghost k: Ctx)
      requires Synced() && Focus(mem, x, Parent(mem, x), t, k) && t.N? && t.left.N? && t.right.N?
      requires Shows(t, k, Flat(t, k), repr) && Sorted(Flat(t, k))
      requires Ok(t) && CtxOk(k, BlackHeight(t), IsRed(t)) && x in repr
      modifies this, repr
      ensures Valid() && repr == old(repr) - {x}
    {
      ghost var kx := In(Right, t.c, x, t.left, k);
      var elm;
      ghost var e, b;
      elm, e, b := Successor(x, t, k, kx);
      Replace(x, elm, e, b, kx);
    }

    /** `x` has been replaced: it leaves the tree, and the colours are repaired. */
    method Vacate(x: Node, color: Color, child: Node?, parent: Node?, ghost e: T, ghost b: Ctx, ghost k: Ctx,
        ghost k': Ctx)
      requires e.N? && e.left.E? && AllLeft(b) && Ok(e) && CtxOk(Glue(b, k), BlackHeight(e), IsRed(e)) && color == e.c
      requires Shows(e, Glue(b, k), Flat(e, Glue(b, k)), repr) && Sorted(Flat(e, Glue(b, k)))
      requires k.In? && k.s.Right? && k.x == x && k' == In(Right, k.c, e.x, k.sib, k.up)
      requires Synced() && Focus(mem, child, parent, e.right, Glue(b, k'))
      modifies this, repr
      ensures Valid() && repr == old(repr) - {x}
    {
      SucceededOk(e, b, k, k');
      ghost var order := SucceededShows(e, b, k, k', repr);
      repr := repr - {x};
      Repair(color, parent, child, e.right, Glue(b, k'), order);
    }

    /** The successor `elm` is spliced out and takes over the place of `x`. */
    method Promote(x: Node, elm: Node, ghost e: T, ghost b: Ctx, ghost k: Ctx)
        returns (color: Color, child: Node?, parent: Node?)
      requires Synced() && Spine(mem, elm, Parent(mem, elm), e, b, k) && e.N? && e.x == elm && e.left.E?
      requires Nodes(e) + CtxNodes(Glue(b, k)) == repr && k.In? && k.s.Right? && k.x == x && k.sib.N?
      requires (Parent(mem, elm) == x <==> b.Top?) && (b.In? ==> Parent(mem, elm) == b.x)
      modifies `root, `mem, repr
      ensures Synced() && Focus(mem, child, parent, e.right, Glue(b, In(Right, k.c, elm, k.sib, k.up))) && color == e.c
    {
      assert SyncedAt(elm);
      RepRoot(mem, elm.right, e.right);
      child, parent, color := elm.right, elm.parent, elm.color;
      Splice(mem, elm, child, parent, e, Glue(b, k));
      SplicedNodes(e, Glue(b, k), repr);
      assert parent in CtxNodes(Glue(b, k));
      SpliceOut(elm, child, parent);
      HubAt(mem, elm, child, parent, e.right, b, k, repr);
      Succeed(mem, elm, child, parent, e.right, b, k);
      if parent == x { parent := elm; }
      assert SyncedAt(x);
      TakeOver(x, elm);
    }

    /** RB_REMOVE: takes `x` out and keeps everything else. */
    method Remove(x: Node)
      requires Valid() && x in repr
      modifies this, repr
      ensures Valid() && repr == old(repr) - {x}
    {
      ghost var t, k := FocusOn(mem, root, null, model, Top, x);
      FlatTop(model);
      StillShows(model, Top, t, k, Inorder(model), repr);
      assert SyncedAt(x);
      RepRoot(mem, x.left, t.left);
      RepRoot(mem, x.right, t.right);
      if x.left == null || x.right == null {
        RemoveOnly(x, t, k);
      } else {
        RemoveInner(x, t, k);
      }
    }

    /** The height is at most 2 * lg(n + 1) for a tree of n nodes. */
    lemma Balanced()
      requires Valid()
      ensures Pow2(Height(model)) <= (|repr| + 1) * (|repr| + 1)
    {
      assert repr == Nodes(model);
      HeightBound(model);
    }
  }
}
