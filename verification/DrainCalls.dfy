/**
 What becomes of the calls on the list of one queue (module SerialDrain), in every run: a pushed list
 joins the queue once, and a drain that is not told to stop runs everything there is.
*/
module DrainCalls {
  import opened Options
  import opened ProducerList
  import opened SerialDrain

  /** A run together with the action of each of its steps. */
  ghost predicate ActionRun(run: seq<State>, acts: seq<Action>) {
    && |run| == |acts| + 1 && Init(run[0])
    && (forall i: nat | i < |acts| :: StepAt(run, acts, i))
  }

  ghost predicate StepAt(run: seq<State>, acts: seq<Action>, i: nat)
    requires i < |acts| < |run|
  {
    ActionStep(run[i], run[i + 1], acts[i])
  }

  ghost predicate ActionStep(s: State, s': State, a: Action) { Enabled(s, a) && s' == Next(s, a) }

  lemma RunOf(run: seq<State>, acts: seq<Action>)
    requires ActionRun(run, acts)
    ensures IsRun(run)
  {
    forall i | 0 <= i < |run| - 1 ensures Step(run[i], run[i + 1]) { assert StepAt(run, acts, i); }
  }

  // ------------------------------------------------------------------ pushing

  predicate By(a: Action, t: Thread) { a.Produce? && a.t == t }

  predicate Pushes(a: Action, t: Thread, seg: seq<Item>) { By(a, t) && a.p.Prepare? && a.p.seg == seg }

  /** The list has been appended. */
  predicate Past(c: PC) { c.Outside? || c.OwesLink? || c.OwesHead? }

  /** What a step means for the push of the list `seg` by thread `t`. */
  ghost predicate PushMove(s: State, s': State, a: Action, t: Thread, seg: seq<Item>) {
    var c, c' := At(s, t), At(s', t);
    && (!By(a, t) ==> c' == c)
    && (By(a, t) && c == Prepared(seg) ==> s'.log == s.log + seg && Past(c'))
    && (By(a, t) && Past(c) ==> s'.log == s.log && (!c.Outside? ==> Past(c')))
    && (Pushes(a, t, seg) ==> c.Outside? && c' == Prepared(seg))
  }

  lemma PushStep(s: State, s': State, a: Action, t: Thread, seg: seq<Item>)
    requires ActionStep(s, s', a)
    ensures PushMove(s, s', a, t, seg)
  {
    LogEffect(s, a);
    if a.Produce? && a.p.SwingTail? { if s.tail.None? {} else {} }
  }

  ghost predicate PushAt(run: seq<State>, acts: seq<Action>, t: Thread, i: nat, seg: seq<Item>)
    requires i < |acts| < |run|
  {
    PushMove(run[i], run[i + 1], acts[i], t, seg)
  }

  /** How far the push is at state `n`, if `k` is the step at which it appends, or `n` if that is still to come. */
  ghost predicate PushInv(run: seq<State>, acts: seq<Action>, t: Thread, j: nat, n: nat, k: nat, seg: seq<Item>)
    requires n <= |acts| < |run|
  {
    && j < k <= n && (k == n ==> At(run[n], t) == Prepared(seg))
    && (k < n ==> Past(At(run[n], t)) && By(acts[k], t) && run[k + 1].log == run[k].log + seg)
    && (forall i | j <= i < n && i != k && By(acts[i], t) :: run[i + 1].log == run[i].log)
  }

  lemma PushOn(run: seq<State>, acts: seq<Action>, t: Thread, j: nat, n: nat, k: nat, seg: seq<Item>)
    requires j + 1 < n <= |acts| < |run| && PushInv(run, acts, t, j, n - 1, k, seg)
    requires PushAt(run, acts, t, n - 1, seg) && !At(run[n - 1], t).Outside?
    ensures PushInv(run, acts, t, j, n, if k == n - 1 && !By(acts[n - 1], t) then n else k, seg)
  {
  }

  lemma {:induction false} PushCall(run: seq<State>, acts: seq<Action>, t: Thread, j: nat, n: nat, seg: seq<Item>)
      returns (k: nat)
    requires j < n <= |acts| < |run| && Pushes(acts[j], t, seg)
    requires forall i: nat | j <= i < n :: PushAt(run, acts, t, i, seg)
    requires forall i | j < i < n :: !At(run[i], t).Outside?
    ensures PushInv(run, acts, t, j, n, k, seg)
    decreases n
  {
    assert PushAt(run, acts, t, n - 1, seg);
    if j == n - 1 { return n; }
    k := PushCall(run, acts, t, j, n - 1, seg);
    PushOn(run, acts, t, j, n, k, seg);
    if k == n - 1 && !By(acts[n - 1], t) { k := n; }
  }

  /** A push appends its list exactly once before it returns. */
  lemma PushTheorem(run: seq<State>, acts: seq<Action>, t: Thread, j: nat, n: nat, seg: seq<Item>) returns (k: nat)
    requires ActionRun(run, acts) && j < n <= |acts| && Pushes(acts[j], t, seg) && At(run[n], t).Outside?
    requires forall i | j < i < n :: !At(run[i], t).Outside?
    ensures j < k < n && By(acts[k], t) && run[k + 1].log == run[k].log + seg
    ensures forall i | j <= i < n && i != k && By(acts[i], t) :: run[i + 1].log == run[i].log
  {
    forall i: nat | j <= i < n ensures PushAt(run, acts, t, i, seg) {
      assert StepAt(run, acts, i);
      PushStep(run[i], run[i + 1], acts[i], t, seg);
    }
    k := PushCall(run, acts, t, j, n, seg);
  }

  // ------------------------------------------------------------------ draining

  /** The drainer puts an item back. */
  predicate Putting(d: DrainPC) { d.PutHead? || d.PutCas? || d.PutSpin? || d.PutFirst? || d.PutNext? }

  /** No producer has a store to make. */
  ghost predicate Calm(s: State) { forall t :: At(s, t).Outside? || At(s, t).Prepared? }

  /** What the drainer can rely on when no producer has a store to make. */
  ghost predicate Clear(s: State) {
    && |s.executed| <= |s.log|
    && (s.d.SpinHead? || s.d.ReadHead? || s.d.PutSpin? ==> s.head.Some?)
    && ((s.d.ReadNext? || s.d.CasTail?) && s.d.dc !in s.next ==> s.tail == Some(s.d.dc))
    && (s.d.Decide? ==> |s.executed| < |s.log|)
    && (s.d.TestTail? && s.tail.None? ==> s.executed == s.log)
  }

  lemma IsClear(s: State)
    requires Inv(s) && Calm(s)
    ensures Clear(s)
  {
    assert !s.phase.HeadOwed?;
    if (s.d.ReadNext? || s.d.CasTail?) && s.d.dc !in s.next { LinkClear(s); }
  }

  lemma NoDebts(s: State)
    requires DebtInv(s) && Calm(s) && !s.d.PutNext?
    ensures forall p :: p !in s.debtor
  {
  }

  lemma LinkClear(s: State)
    requires PhaseInv(s) && ListInv(s) && DebtInv(s) && Calm(s)
    requires (s.d.ReadNext? || s.d.CasTail?) && s.d.dc !in s.next
    ensures s.tail == Some(s.d.dc)
  {
    ReadLink(s.log, s.next, Base(s), s.debtor, |s.executed|);
    NoDebts(s);
  }

  /** How many steps the drain has left if it is not told to stop and no producer interferes. */
  function StepsLeft(s: State): nat
    requires |s.executed| <= |s.log| && (s.d.Decide? ==> |s.executed| < |s.log|)
  {
    var r := 8 * (|s.log| - |s.executed|);
    match s.d
    case Away => 0
    case TestTail => r + 5
    case SpinHead => r + 4
    case ReadHead => r + 3
    case ClearHead(_) => r + 2
    case ReadNext(_) => r + 1
    case CasTail(dc) => if s.tail == Some(dc) then r else r + 2
    case Decide(_, _) => r - 1
    case PutHead(_) => 1
    case PutCas(_) => 4
    case PutSpin(_) => 3
    case PutFirst(_, _) => 2
    case PutNext(_, _) => 1
  }

  lemma PutCloser(s: State, s': State)
    requires ActionStep(s, s', Drain(false)) && Clear(s) && Clear(s') && Putting(s.d)
    ensures StepsLeft(s') < StepsLeft(s)
  {
    match s.d
    case PutHead(_) =>
    case PutCas(_) =>
    case PutSpin(_) =>
    case PutFirst(_, _) =>
    case PutNext(_, _) =>
  }

  lemma Closer(s: State, s': State)
    requires ActionStep(s, s', Drain(false)) && Clear(s) && Clear(s') && !s.d.Away?
    ensures StepsLeft(s') < StepsLeft(s) && s'.log == s.log && (Putting(s'.d) ==> Putting(s.d))
    ensures s'.d.Away? && !Putting(s.d) ==> s'.executed == s'.log
  {
    LogEffect(s, Drain(false));
    match s.d
    case TestTail =>
    case SpinHead =>
    case ReadHead =>
    case ClearHead(_) =>
    case ReadNext(_) =>
    case CasTail(_) =>
    case Decide(_, _) =>
    case _ => PutCloser(s, s');
  }

  /** A step of the drain alone. */
  ghost predicate Falls(run: seq<State>, i: nat)
    requires i + 1 < |run|
  {
    var s, s' := run[i], run[i + 1];
    && Clear(s) && Clear(s') && StepsLeft(s') < StepsLeft(s) && s'.log == s.log && (Putting(s'.d) ==> Putting(s.d))
    && (s'.d.Away? && !Putting(s.d) ==> s'.executed == s'.log)
  }

  lemma ClearAt(run: seq<State>, acts: seq<Action>, n: nat)
    requires ActionRun(run, acts) && n <= |acts| && Calm(run[n])
    ensures Clear(run[n])
  {
    RunOf(run, acts);
    RunInv(run, n);
    IsClear(run[n]);
  }

  lemma FallsAt(run: seq<State>, acts: seq<Action>, i: nat)
    requires ActionRun(run, acts) && i < |acts| && acts[i] == Drain(false) && !run[i].d.Away? && Calm(run[i])
    ensures Falls(run, i) && Calm(run[i + 1])
  {
    assert StepAt(run, acts, i);
    ClearAt(run, acts, i);
    ClearAt(run, acts, i + 1);
    Closer(run[i], run[i + 1]);
  }

  lemma {:induction false} CalmStays(run: seq<State>, acts: seq<Action>, m: nat, n: nat)
    requires ActionRun(run, acts) && m <= n <= |acts| && Calm(run[m])
    requires forall i | m <= i < n :: acts[i] == Drain(false)
    ensures Calm(run[n])
    decreases n
  {
    if m < n {
      CalmStays(run, acts, m, n - 1);
      assert StepAt(run, acts, n - 1);
    }
  }

  lemma {:induction false} Falling(run: seq<State>, m: nat, n: nat)
    requires m <= n < |run| && Clear(run[m]) && forall i: nat | m <= i < n :: Falls(run, i)
    ensures Clear(run[n]) && n - m + StepsLeft(run[n]) <= StepsLeft(run[m]) && run[n].log == run[m].log
    ensures Putting(run[n].d) ==> Putting(run[m].d)
    decreases n
  {
    if m < n {
      Falling(run, m, n - 1);
      assert Falls(run, n - 1);
    }
  }

  /** A drain that nobody interferes with and that is not told to stop comes to its end within a number of steps that
      the items give; unless it was putting an item back already, it has then run all of them. */
  lemma AloneTheorem(run: seq<State>, acts: seq<Action>, m: nat, n: nat)
    requires ActionRun(run, acts) && m <= n <= |acts| && Calm(run[m])
    requires forall i | m <= i < n :: acts[i] == Drain(false) && !run[i].d.Away?
    ensures Clear(run[m]) && n - m <= StepsLeft(run[m]) && run[n].log == run[m].log
    ensures m < n && run[n].d.Away? && !Putting(run[m].d) ==> run[n].executed == run[n].log
  {
    ClearAt(run, acts, m);
    forall i: nat | m <= i < n ensures Falls(run, i) {
      CalmStays(run, acts, m, i);
      FallsAt(run, acts, i);
    }
    Falling(run, m, n);
    if m < n {
      Falling(run, m, n - 1);
      assert Falls(run, n - 1);
    }
  }
}
