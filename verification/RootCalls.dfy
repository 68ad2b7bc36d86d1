/**
 What becomes of the calls on a root queue (module RootQueue), in every run: a pushed list joins the
 queue once, a worker runs each item it is handed, and it leaves only when the queue is empty or
 another worker is on its way.
*/
module RootCalls {
  import opened Options
  import opened ProducerList
  import opened RootQueue

  /** A run together with the thread and the action of each of its steps. */
  ghost predicate ActionRun(run: seq<State>, acts: seq<(Thread, Action)>) {
    && |run| == |acts| + 1 && Init(run[0])
    && (forall i: nat | i < |acts| :: StepAt(run, acts, i))
  }

  ghost predicate StepAt(run: seq<State>, acts: seq<(Thread, Action)>, i: nat)
    requires i < |acts| < |run|
  {
    ActionStep(run[i], run[i + 1], acts[i])
  }

  ghost predicate ActionStep(s: State, s': State, o: (Thread, Action)) {
    Enabled(s, o.0, o.1) && s' == Next(s, o.0, o.1)
  }

  lemma RunOf(run: seq<State>, acts: seq<(Thread, Action)>)
    requires ActionRun(run, acts)
    ensures IsRun(run)
  {
    forall i | 0 <= i < |run| - 1 ensures Step(run[i], run[i + 1]) { assert StepAt(run, acts, i); }
  }

  /** Step `j` starts a call of thread `t`, which has not returned before state `n`. */
  ghost predicate Call(run: seq<State>, acts: seq<(Thread, Action)>, t: Thread, j: nat, n: nat) {
    && ActionRun(run, acts) && j < n <= |acts| && acts[j].0 == t && (acts[j].1.Prepare? || acts[j].1.StartWorker?)
    && (forall i | j < i < n :: !At(run[i], t).Outside?)
  }

  ghost predicate Returned(run: seq<State>, acts: seq<(Thread, Action)>, t: Thread, j: nat, n: nat) {
    Call(run, acts, t, j, n) && At(run[n], t).Outside?
  }

  // ------------------------------------------------------------------ pushing

  /** The list has been appended; what is left is to link it and to wake a worker. */
  predicate Past(c: PC) { c.Outside? || c.OwesLink? || c.OwesHead? || (InWakeup(c) && c.after.Leave?) }

  /** What a step means for the push of the list `seg` by thread `t`. */
  ghost predicate PushMove(s: State, s': State, o: (Thread, Action), t: Thread, seg: seq<Item>) {
    var c, c' := At(s, t), At(s', t);
    && (o.0 != t ==> c' == c)
    && (o.0 == t && c == Prepared(seg) ==> s'.log == s.log + seg && Past(c'))
    && (o.0 == t && Past(c) ==> s'.log == s.log && (!c.Outside? ==> Past(c')))
    && (o.0 == t && o.1.Prepare? && o.1.seg == seg ==> c.Outside? && c' == Prepared(seg))
  }

  lemma PushStep(s: State, s': State, o: (Thread, Action), t: Thread, seg: seq<Item>)
    requires ActionStep(s, s', o)
    ensures PushMove(s, s', o, t, seg)
  {
    LogEffect(s, o.0, o.1);
    match o.1
    case SwingTail => if s.tail.None? {} else {}
    case ReadTailForWake =>
    case SetPending =>
    case AddWorkItem =>
    case StoreHead =>
    case _ =>
  }

  /** How far the push is at state `n`, if `k` is the step at which it appends, or `n` if that is still to come. */
  ghost predicate PushInv(run: seq<State>, acts: seq<(Thread, Action)>, t: Thread, j: nat, n: nat, k: nat,
      seg: seq<Item>)
    requires n <= |acts| < |run|
  {
    && j < k <= n && (k == n ==> At(run[n], t) == Prepared(seg))
    && (k < n ==> Past(At(run[n], t)) && acts[k].0 == t && run[k + 1].log == run[k].log + seg)
    && (forall i | j <= i < n && i != k && acts[i].0 == t :: run[i + 1].log == run[i].log)
  }

  ghost predicate PushAt(run: seq<State>, acts: seq<(Thread, Action)>, t: Thread, i: nat, seg: seq<Item>)
    requires i < |acts| < |run|
  {
    PushMove(run[i], run[i + 1], acts[i], t, seg)
  }

  lemma PushOn(run: seq<State>, acts: seq<(Thread, Action)>, t: Thread, j: nat, n: nat, k: nat, seg: seq<Item>)
    requires j + 1 < n <= |acts| < |run| && PushInv(run, acts, t, j, n - 1, k, seg)
    requires PushAt(run, acts, t, n - 1, seg) && !At(run[n - 1], t).Outside?
    ensures PushInv(run, acts, t, j, n, if k == n - 1 && acts[n - 1].0 != t then n else k, seg)
  {
  }

  lemma {:induction false} PushCall(run: seq<State>, acts: seq<(Thread, Action)>, t: Thread, j: nat, n: nat,
      seg: seq<Item>)
      returns (k: nat)
    requires j < n <= |acts| < |run| && acts[j].0 == t && acts[j].1.Prepare? && acts[j].1.seg == seg
    requires forall i: nat | j <= i < n :: PushAt(run, acts, t, i, seg)
    requires forall i | j < i < n :: !At(run[i], t).Outside?
    ensures PushInv(run, acts, t, j, n, k, seg)
    decreases n
  {
    assert PushAt(run, acts, t, n - 1, seg);
    if j == n - 1 { return n; }
    k := PushCall(run, acts, t, j, n - 1, seg);
    PushOn(run, acts, t, j, n, k, seg);
    if k == n - 1 && acts[n - 1].0 != t { k := n; }
  }

  /** A push appends its list exactly once before it returns. */
  lemma PushTheorem(run: seq<State>, acts: seq<(Thread, Action)>, t: Thread, j: nat, n: nat) returns (k: nat)
    requires Returned(run, acts, t, j, n) && acts[j].1.Prepare?
    ensures j < k < n && acts[k].0 == t && run[k + 1].log == run[k].log + acts[j].1.seg
    ensures forall i | j <= i < n && i != k && acts[i].0 == t :: run[i + 1].log == run[i].log
  {
    var seg := acts[j].1.seg;
    forall i: nat | j <= i < n ensures PushAt(run, acts, t, i, seg) {
      assert StepAt(run, acts, i);
      PushStep(run[i], run[i + 1], acts[i], t, seg);
    }
    k := PushCall(run, acts, t, j, n, seg);
  }

  // ------------------------------------------------------------------ running

  lemma HandStep(s: State, s': State, o: (Thread, Action))
    requires ActionStep(s, s', o) && (ClaimOf(At(s, o.0)).Deliver? ==> ClaimOf(At(s, o.0)).pos !in s.given)
    ensures At(s', o.0).Running? <==> s'.given != s.given
    ensures At(s', o.0).Running? ==>
      var d := ClaimOf(At(s, o.0)); d.Deliver? && d.pos !in s.given && s'.given == s.given[d.pos := o.0]
    ensures At(s, o.0).Running? ==> o.1.FinishItem? && At(s', o.0).PopExchange?
  {
    match o.1
    case ReadTailForWake => HandWake(s, s', o);
    case SetPending => HandWake(s, s', o);
    case AddWorkItem => HandWake(s, s', o);
    case CasTail => if s.tail == Some(At(s, o.0).item) {} else {}
    case _ => HandOther(s, s', o);
  }

  lemma HandWake(s: State, s': State, o: (Thread, Action))
    requires ActionStep(s, s', o) && InWakeup(At(s, o.0))
      && (At(s, o.0).after.Deliver? ==> At(s, o.0).after.pos !in s.given)
    ensures At(s', o.0).Running? <==> s'.given != s.given
    ensures At(s', o.0).Running? ==>
      var d := At(s, o.0).after; d.Deliver? && d.pos !in s.given && s'.given == s.given[d.pos := o.0]
  {
    match o.1
    case ReadTailForWake => if s.tail.None? {} else {}
    case SetPending => if s.pending {} else {}
    case AddWorkItem =>
  }

  lemma HandOther(s: State, s': State, o: (Thread, Action))
    requires ActionStep(s, s', o) && !Returns(o.1)
    ensures s'.given == s.given && !At(s', o.0).Running?
    ensures At(s, o.0).Running? ==> o.1.FinishItem? && At(s', o.0).PopExchange?
  {
    match o.1
    case Prepare(_, _) => HandPush(s, s', o);
    case SwingTail => HandPush(s, s', o);
    case StoreLink => HandPush(s, s', o);
    case StoreHead => HandPush(s, s', o);
    case ExchangeHead => match s.head { case Null => case Mediator => case First(_) => }
    case _ =>
  }

  lemma HandPush(s: State, s': State, o: (Thread, Action))
    requires ActionStep(s, s', o) && (o.1.Prepare? || o.1.SwingTail? || o.1.StoreLink? || o.1.StoreHead?)
    ensures s'.given == s.given && !At(s', o.0).Running? && !At(s, o.0).Running?
  {
    match o.1
    case SwingTail => if s.tail.None? {} else {}
    case _ =>
  }

  /** A thread starts to run an item exactly when it is handed one, which is the item it has claimed, and after it has
      run it comes back for another. */
  lemma RunTheorem(run: seq<State>, acts: seq<(Thread, Action)>, n: nat)
    requires ActionRun(run, acts) && n < |acts|
    ensures var s, s', t := run[n], run[n + 1], acts[n].0;
      && (At(s', t).Running? <==> s'.given != s.given)
      && (At(s', t).Running? ==> exists k: nat :: HandsOver(s, s', t, k))
      && (At(s, t).Running? ==> At(s', t).PopExchange?)
  {
    RunOf(run, acts);
    RunInv(run, n);
    assert StepAt(run, acts, n);
    var s, t := run[n], acts[n].0;
    if ClaimOf(At(s, t)).Deliver? { assert GoodClaim(s, t, ClaimOf(At(s, t))); }
    HandStep(s, run[n + 1], acts[n]);
    if At(run[n + 1], t).Running? { assert HandsOver(s, run[n + 1], t, ClaimOf(At(s, t)).pos); }
  }

  /** Position `k`, which thread `t` has claimed, is handed to it. */
  ghost predicate HandsOver(s: State, s': State, t: Thread, k: nat) {
    && k < |s.claims| <= |s.log| && s.claims[k] == t && k !in s.given && s'.given == s.given[k := t]
    && ClaimOf(At(s, t)) == Deliver(s.log[k], k)
  }

  // ------------------------------------------------------------------ leaving

  /** At step `i` the worker `t` finds the queue empty, or another worker in the middle of it. */
  ghost predicate FindsNull(run: seq<State>, acts: seq<(Thread, Action)>, t: Thread, i: nat)
    requires i < |acts| < |run|
  {
    acts[i] == (t, ExchangeHead) && run[i].head.Null?
  }

  ghost predicate FindsMediator(run: seq<State>, acts: seq<(Thread, Action)>, t: Thread, i: nat)
    requires i < |acts| < |run|
  {
    acts[i] == (t, ExchangeHead) && run[i].head.Mediator?
  }

  ghost predicate SawNull(run: seq<State>, acts: seq<(Thread, Action)>, t: Thread, j: nat, n: nat)
    requires n <= |acts| < |run|
  {
    exists i: nat :: j < i < n && FindsNull(run, acts, t, i)
  }

  ghost predicate SawMediator(run: seq<State>, acts: seq<(Thread, Action)>, t: Thread, j: nat, n: nat)
    requires n <= |acts| < |run|
  {
    exists i: nat :: j < i < n && FindsMediator(run, acts, t, i)
  }

  /** The step finds nothing to do, or a worker already requested, or requests one. */
  predicate Asks(s: State, s': State, a: Action) {
    (a.ReadTailForWake? && s.tail.None?) || (a.SetPending? && s.pending) || s'.requests == s.requests + 1
  }

  predicate Works(c: PC) {
    c.WorkerStart? || c.PopExchange? || c.PopEmpty? || OwnsFront(c) || InWakeup(c) || c.Running?
  }

  lemma WorkerStep(s: State, s': State, o: (Thread, Action))
    requires ActionStep(s, s', o) && Works(At(s, o.0))
    ensures var c, c' := At(s, o.0), At(s', o.0);
      && (c'.Outside? || Works(c'))
      && (c'.Outside? ==> o.1.Unmediate? || (InWakeup(c) && c.after.Leave? && Asks(s, s', o.1)))
      && (c'.PopEmpty? ==> o.1.ExchangeHead? && s.head.Null?)
      && (InWakeup(c') && c'.after.Leave? ==>
            (InWakeup(c) && c.after.Leave?) || (o.1.ExchangeHead? && s.head.Mediator?))
  {
    match o.1
    case ReadTailForWake =>
    case SetPending =>
    case AddWorkItem =>
    case CasTail => if s.tail == Some(At(s, o.0).item) {} else {}
    case ExchangeHead =>
    case ReadNext =>
    case Spin =>
    case _ =>
  }

  ghost predicate WorkerInv(run: seq<State>, acts: seq<(Thread, Action)>, t: Thread, j: nat, n: nat)
    requires n <= |acts| < |run|
  {
    var c := At(run[n], t);
    && Works(c) && (c.PopEmpty? ==> SawNull(run, acts, t, j, n))
    && (InWakeup(c) && c.after.Leave? ==> SawMediator(run, acts, t, j, n))
  }

  lemma SawMore(run: seq<State>, acts: seq<(Thread, Action)>, t: Thread, j: nat, n: nat)
    requires j + 1 < n <= |acts| < |run|
    ensures SawNull(run, acts, t, j, n) <==> SawNull(run, acts, t, j, n - 1) || FindsNull(run, acts, t, n - 1)
    ensures SawMediator(run, acts, t, j, n) <==>
      SawMediator(run, acts, t, j, n - 1) || FindsMediator(run, acts, t, n - 1)
  {
  }

  lemma {:induction false} WorkerCall(run: seq<State>, acts: seq<(Thread, Action)>, t: Thread, j: nat, n: nat)
    requires Call(run, acts, t, j, n) && acts[j].1.StartWorker? && !At(run[n], t).Outside?
    ensures WorkerInv(run, acts, t, j, n)
    decreases n
  {
    assert StepAt(run, acts, n - 1);
    if j < n - 1 {
      WorkerCall(run, acts, t, j, n - 1);
      if acts[n - 1].0 == t { WorkerStep(run[n - 1], run[n], acts[n - 1]); }
      SawMore(run, acts, t, j, n);
    }
  }

  /** A worker leaves only if it found the queue empty, or if it met another worker in the middle of it and made sure
      that a worker is on its way as long as there are items. */
  lemma LeaveTheorem(run: seq<State>, acts: seq<(Thread, Action)>, t: Thread, j: nat, n: nat)
    requires Returned(run, acts, t, j, n) && acts[j].1.StartWorker?
    ensures (acts[n - 1] == (t, Unmediate) && SawNull(run, acts, t, j, n))
         || (acts[n - 1].0 == t && Asks(run[n - 1], run[n], acts[n - 1].1) && SawMediator(run, acts, t, j, n))
  {
    assert StepAt(run, acts, j);
    assert StepAt(run, acts, n - 1);
    WorkerCall(run, acts, t, j, n - 1);
    assert acts[n - 1].0 == t;
    WorkerStep(run[n - 1], run[n], acts[n - 1]);
    SawMore(run, acts, t, j, n);
  }

  // ------------------------------------------------------------------ progress

  /** What the thread does next. */
  function Does(c: PC): Action
    requires !c.Outside?
  {
    match c
    case Prepared(_) => SwingTail
    case OwesLink(_, _, _) => StoreLink
    case OwesHead(_) => StoreHead
    case WakeReadTail(_) => ReadTailForWake
    case WakeSetPending(_) => SetPending
    case WakeRequest(_) => AddWorkItem
    case WorkerStart => ClearPending
    case PopExchange => ExchangeHead
    case PopEmpty => Unmediate
    case PopReadNext(_, _) => ReadNext
    case PopClearHead(_, _) => ClearHead
    case PopCasTail(_, _) => CasTail
    case PopSpin(_, _) => Spin
    case PopStoreHead(_, _, _) => RestoreHead
    case Running => FinishItem
  }

  /** The thread has left, or waits for a producer that has put its list behind this item and has yet to store the link;
      a list that is pushed is not empty. */
  predicate Settled(s: State, t: Thread) {
    var c := At(s, t);
    c.Outside? || (c.PopSpin? && c.item !in s.next) || (c.Prepared? && c.seg == [])
  }

  /** How many steps thread `t` has left if no other thread interferes. */
  function StepsLeft(s: State, t: Thread): nat
    requires |s.claims| <= |s.log|
  {
    var r := 10 * (|s.log| - |s.claims|);
    match At(s, t)
    case Outside => 0
    case Prepared(_) => 5
    case OwesLink(_, _, _) => 1
    case OwesHead(_) => 4
    case WakeReadTail(a) => if a.Leave? then 3 else r + 9
    case WakeSetPending(a) => if a.Leave? then 2 else r + 8
    case WakeRequest(a) => if a.Leave? then 1 else r + 7
    case WorkerStart => r + 6
    case PopExchange => r + 5
    case PopEmpty => 1
    case PopReadNext(_, _) => r + 14
    case PopClearHead(_, _) => r + 13
    case PopCasTail(_, _) => r + 12
    case PopSpin(_, _) => r + 11
    case PopStoreHead(_, _, _) => r + 10
    case Running => r + 6
  }

  lemma PopCloser(s: State, s': State, o: (Thread, Action))
    requires ActionStep(s, s', o) && (OwnsFront(At(s, o.0)) || At(s, o.0).PopExchange?) && !Settled(s, o.0)
    requires |s.claims| <= |s.log| && (s.head.First? ==> |s.claims| < |s.log|) && |s'.claims| <= |s'.log|
    ensures StepsLeft(s', o.0) < StepsLeft(s, o.0)
  {
    LogEffect(s, o.0, o.1);
    match At(s, o.0)
    case PopExchange => match s.head { case Null => case Mediator => case First(_) => }
    case PopCasTail(i, _) => if s.tail == Some(i) {} else {}
    case _ =>
  }

  lemma Closer(s: State, s': State, o: (Thread, Action))
    requires ActionStep(s, s', o) && !At(s, o.0).Outside? && !Settled(s, o.0)
    requires |s.claims| <= |s.log| && (s.head.First? ==> |s.claims| < |s.log|) && |s'.claims| <= |s'.log|
    ensures StepsLeft(s', o.0) < StepsLeft(s, o.0)
  {
    LogEffect(s, o.0, o.1);
    match At(s, o.0)
    case WakeReadTail(_) =>
    case WakeSetPending(_) =>
    case WakeRequest(_) =>
    case Prepared(_) => if s.tail.None? {} else {}
    case OwesLink(_, _, _) =>
    case OwesHead(_) =>
    case WorkerStart =>
    case PopEmpty =>
    case Running =>
    case _ => PopCloser(s, s', o);
  }

  ghost predicate Falls(run: seq<State>, t: Thread, i: nat)
    requires i + 1 < |run|
  {
    && |run[i].claims| <= |run[i].log| && |run[i + 1].claims| <= |run[i + 1].log|
    && StepsLeft(run[i + 1], t) < StepsLeft(run[i], t)
  }

  lemma FallsAt(run: seq<State>, acts: seq<(Thread, Action)>, i: nat)
    requires ActionRun(run, acts) && i < |acts| && !Settled(run[i], acts[i].0)
    ensures Falls(run, acts[i].0, i)
  {
    FrontAt(run, acts, i);
    FrontAt(run, acts, i + 1);
    assert StepsLeft(run[i + 1], acts[i].0) < StepsLeft(run[i], acts[i].0) by {
      assert StepAt(run, acts, i);
      Closer(run[i], run[i + 1], acts[i]);
    }
  }

  lemma FrontAt(run: seq<State>, acts: seq<(Thread, Action)>, n: nat)
    requires ActionRun(run, acts) && n <= |acts|
    ensures |run[n].claims| <= |run[n].log| && (run[n].head.First? ==> |run[n].claims| < |run[n].log|)
  {
    RunOf(run, acts);
    RunInv(run, n);
    HeadIsFront(run[n]);
  }

  lemma {:induction false} Falling(run: seq<State>, t: Thread, m: nat, n: nat)
    requires m <= n < |run| && |run[m].claims| <= |run[m].log| && forall i: nat | m <= i < n :: Falls(run, t, i)
    ensures |run[n].claims| <= |run[n].log| && n - m + StepsLeft(run[n], t) <= StepsLeft(run[m], t)
    decreases n
  {
    if m < n {
      Falling(run, t, m, n - 1);
      assert Falls(run, t, n - 1);
    }
  }

  /** No thread loops on its own: as long as no other thread interferes, a producer and a worker take only a bounded
      number of steps, and can always take the next one, until they have left or wait for the link of a producer. */
  lemma AloneTheorem(run: seq<State>, acts: seq<(Thread, Action)>, t: Thread, m: nat, n: nat)
    requires ActionRun(run, acts) && m <= n <= |acts|
    requires forall i | m <= i < n :: acts[i].0 == t && !Settled(run[i], t)
    ensures |run[m].claims| <= |run[m].log| && n - m <= StepsLeft(run[m], t)
    ensures !Settled(run[n], t) ==> Enabled(run[n], t, Does(At(run[n], t)))
  {
    FrontAt(run, acts, m);
    forall i: nat | m <= i < n ensures Falls(run, t, i) { FallsAt(run, acts, i); }
    Falling(run, t, m, n);
  }
}
