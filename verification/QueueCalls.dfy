/**
 What becomes of the calls on a dispatch queue (module QueueLock), in every run: items are served in
 the order in which they were pushed and none is thrown away, every synchronous call runs its
 function exactly once, and suspension and retargeting do what they are asked to.
*/
module QueueCalls {
  import opened Options
  import opened QueueLock
  import opened QueueRuns

  /** A run together with the thread and the operation of each of its steps. */
  ghost predicate OpRun(run: seq<State>, ops: seq<(Thread, Op)>) {
    && |run| == |ops| + 1 && Init(run[0])
    && (forall i: nat | i < |ops| :: StepAt(run, ops, i))
  }

  ghost predicate StepAt(run: seq<State>, ops: seq<(Thread, Op)>, i: nat)
    requires i < |ops| < |run|
  {
    OpStep(run[i], run[i + 1], ops[i])
  }

  ghost predicate OpStep(s: State, s': State, o: (Thread, Op)) {
    Enabled(s, o.0, o.1) && s' == Next(s, o.0, o.1)
  }

  lemma RunOf(run: seq<State>, ops: seq<(Thread, Op)>)
    requires OpRun(run, ops)
    ensures IsRun(run)
  {
    forall i | 0 <= i < |run| - 1 ensures Step(run[i], run[i + 1]) { assert StepAt(run, ops, i); }
  }

  // ------------------------------------------------------------------ items

  /** The thread has taken an item off the list: it is about to run it, to grant its turn to the thread that waits
      for it, or to redirect it to the root queue. */
  predicate Serving(c: PC) { c.Drain? && (c.d.DrainRun? || c.d.DrainGrant? || c.d.DrainRedirect?) }

  function ServedItem(c: PC): Item
    requires Serving(c)
  {
    if c.d.DrainRun? then c.d.ran else if c.d.DrainGrant? then SyncSlow(c.d.u) else Async
  }

  /** How an item is to be served: a waiting reader is let in, plain work of a wide queue is redirected, and all other
      items are run by the drain itself. */
  predicate ServedRightly(width: nat, c: PC)
    requires Serving(c)
  {
    var i := ServedItem(c);
    (i.SyncSlow? <==> c.d.DrainGrant?) && (c.d.DrainRedirect? <==> i.Async? && width != 1)
  }

  /** What a step of thread `t` does to the list: nothing, or it appends the item that is being pushed, or it takes the
      first item off and serves it. */
  ghost predicate ItemMove(s: State, s': State, t: Thread) {
    var c, c' := At(s, t), At(s', t);
    && s'.width == s.width
    && if Serving(c') then ServedRightly(s.width, c') && s.items == [ServedItem(c')] + s'.items && !c.Push?
       else s'.items == if c.Push? then s.items + [c.item] else s.items
  }

  // Most steps do not touch the work of the queue; the others are looked at one by one.

  predicate DrainsItem(c: PC) { c.Drain? && (c.d.DrainKind? || c.d.DrainRun? || c.d.DrainRedirect?) }

  predicate Quiet(c: PC, op: Op) {
    if op.Go? then !c.Push? && !DrainsItem(c) else !op.Suspend? && !op.Resume? && !op.TakeFromRoot?
  }

  predicate SameWork(s: State, s': State) {
    && s'.width == s.width && s'.items == s.items && s'.queued == s.queued && s'.target == s.target
    && s'.rootItems == s.rootItems && s'.hand == s.hand && s'.suspends == s.suspends
  }

  lemma QuietTest(s: State, t: Thread)
    requires Enabled(s, t, Go) && At(s, t).Drain?
    requires var d := At(s, t).d; d.DrainTail? || d.DrainTake? || d.DrainSuspended? || d.DrainWidth? || d.DrainTarget?
    ensures SameWork(s, Next(s, t, Go)) && !Serving(At(Next(s, t, Go), t))
  {
    match At(s, t).d
    case DrainTail =>
    case DrainTake =>
    case _ =>
  }

  lemma QuietGrant(s: State, t: Thread)
    requires Enabled(s, t, Go) && At(s, t).Drain? && (At(s, t).d.DrainGrant? || At(s, t).d.DrainHandOff?)
    ensures SameWork(s, Next(s, t, Go)) && !Serving(At(Next(s, t, Go), t))
  {
  }

  lemma QuietDrain(s: State, t: Thread)
    requires Enabled(s, t, Go) && At(s, t).Drain? && !DrainsItem(At(s, t))
    ensures SameWork(s, Next(s, t, Go)) && !Serving(At(Next(s, t, Go), t))
  {
    match At(s, t).d
    case DrainGrant(_, _) => QuietGrant(s, t);
    case DrainHandOff(_, _) => QuietGrant(s, t);
    case DrainPut =>
    case DrainEnd =>
    case InvRelease(_, _) =>
    case _ => QuietTest(s, t);
  }

  lemma QuietGo(s: State, t: Thread)
    requires Enabled(s, t, Go) && !At(s, t).Drain? && !At(s, t).Push?
    ensures SameWork(s, Next(s, t, Go)) && !Serving(At(Next(s, t, Go), t))
  {
    match At(s, t)
    case Waking(_, _) =>
    case Sync(_) =>
    case Bar(_) =>
    case Invoke(_) =>
    case IdleCheck =>
    case InAsync =>
  }

  lemma QuietStep(s: State, s': State, o: (Thread, Op))
    requires OpStep(s, s', o) && Quiet(At(s, o.0), o.1)
    ensures SameWork(s, s') && !Serving(At(s', o.0))
  {
    if o.1.Go? {
      if At(s, o.0).Drain? { QuietDrain(s, o.0); } else { QuietGo(s, o.0); }
    }
  }

  /** The other operations. */
  lemma LoudStart(s: State, s': State, o: (Thread, Op))
    requires OpStep(s, s', o) && !o.1.Go? && !Quiet(At(s, o.0), o.1)
    ensures var root, more := if o.1.TakeFromRoot? then 1 else 0, if o.1.Suspend? then 1 else if o.1.Resume? then -1
      else 0;
      SameWork(s, s'.(rootItems := s.rootItems, suspends := s.suspends)) && !Serving(At(s', o.0))
      && s'.rootItems == s.rootItems - root && s'.suspends == s.suspends + more
  {
    match o.1
    case Suspend =>
    case Resume =>
    case TakeFromRoot =>
  }

  lemma PushWork(s: State, s': State, o: (Thread, Op))
    requires OpStep(s, s', o) && o.1.Go? && At(s, o.0).Push?
    ensures var i := At(s, o.0).item; SameWork(s.(items := s.items + [i], queued := s.queued + Waiter(i)), s')
    ensures !Serving(At(s', o.0))
  {
  }

  lemma KindWork(s: State, s': State, o: (Thread, Op))
    requires OpStep(s, s', o) && o.1.Go? && At(s, o.0).Drain? && At(s, o.0).d.DrainKind?
    ensures ItemMove(s, s', o.0)
    ensures !Serving(At(s', o.0)) ==> SameWork(s, s')
    ensures Serving(At(s', o.0)) ==>
      var c' := At(s', o.0);
      SameWork(s.(items := s'.items, queued := if c'.d.DrainGrant? then s.queued - {c'.d.u} else s.queued,
                  hand := if c'.d.DrainRedirect? then s.hand + {o.0} else s.hand), s')
  {
    if s.items != [] { assert s.items == [s.items[0]] + s.items[1..]; }
    if s.items == [] {} else if s.items[0].SyncSlow? {} else if Redirects(s, s.items[0]) {} else {}
  }

  lemma RunWork(s: State, s': State, o: (Thread, Op))
    requires OpStep(s, s', o) && o.1.Go? && At(s, o.0).Drain? && At(s, o.0).d.DrainRun?
    ensures var i := At(s, o.0).d.ran;
      SameWork(s.(target := if i.Retarget? then i.q else s.target,
                  queued := if i.BarrierSlow? then s.queued - {i.t} else s.queued), s')
    ensures !Serving(At(s', o.0))
  {
    match At(s, o.0).d.ran
    case BarrierSlow(_) =>
    case Retarget(_) =>
    case _ =>
  }

  lemma RedirectWork(s: State, s': State, o: (Thread, Op))
    requires OpStep(s, s', o) && o.1.Go? && IsRedirecting(At(s, o.0))
    ensures SameWork(s.(rootItems := s.rootItems + 1, hand := s.hand - {o.0}), s') && !Serving(At(s', o.0))
  {
  }

  /** What a step does to the work of the queue. */
  ghost predicate WorkMove(s: State, s': State, o: (Thread, Op)) {
    var c, c' := At(s, o.0), At(s', o.0);
    if !o.1.Go? then
      && SameWork(s, s'.(rootItems := s.rootItems, suspends := s.suspends)) && !Serving(c')
      && s'.rootItems == s.rootItems - (if o.1.TakeFromRoot? then 1 else 0)
      && s'.suspends == s.suspends + (if o.1.Suspend? then 1 else if o.1.Resume? then -1 else 0)
    else if c.Push? then
      SameWork(s.(items := s.items + [c.item], queued := s.queued + Waiter(c.item)), s') && !Serving(c')
    else if Serving(c') then
      && ServedRightly(s.width, c') && s.items == [ServedItem(c')] + s'.items && c.Drain? && c.d.DrainKind?
      && SameWork(s.(items := s'.items, queued := if c'.d.DrainGrant? then s.queued - {c'.d.u} else s.queued,
                     hand := if c'.d.DrainRedirect? then s.hand + {o.0} else s.hand), s')
    else if c.Drain? && c.d.DrainRun? then
      SameWork(s.(target := if c.d.ran.Retarget? then c.d.ran.q else s.target,
                  queued := if c.d.ran.BarrierSlow? then s.queued - {c.d.ran.t} else s.queued), s')
    else if c.Drain? && c.d.DrainRedirect? then
      SameWork(s.(rootItems := s.rootItems + 1, hand := s.hand - {o.0}), s')
    else SameWork(s, s')
  }

  lemma WorkStep(s: State, s': State, o: (Thread, Op))
    requires OpStep(s, s', o)
    ensures WorkMove(s, s', o)
  {
    var c := At(s, o.0);
    if Quiet(c, o.1) { QuietStep(s, s', o); }
    else if !o.1.Go? { LoudStart(s, s', o); }
    else if c.Push? { PushWork(s, s', o); }
    else if c.d.DrainKind? { KindWork(s, s', o); }
    else if c.d.DrainRun? { RunWork(s, s', o); }
    else { RedirectWork(s, s', o); }
  }

  lemma ItemStep(s: State, s': State, o: (Thread, Op))
    requires OpStep(s, s', o)
    ensures ItemMove(s, s', o.0)
  {
    WorkStep(s, s', o);
    assert At(s, o.0).Push? ==> o.1.Go?;
  }

  /** The items pushed in the first steps, in order. */
  function Pushed(run: seq<State>, ops: seq<(Thread, Op)>, n: nat): seq<Item>
    requires n <= |ops| < |run|
  {
    if n == 0 then [] else
      var c := At(run[n - 1], ops[n - 1].0);
      Pushed(run, ops, n - 1) + if c.Push? then [c.item] else []
  }

  /** The items served in the first steps, in order. */
  function Served(run: seq<State>, ops: seq<(Thread, Op)>, n: nat): seq<Item>
    requires n <= |ops| < |run|
  {
    if n == 0 then [] else
      var c := At(run[n], ops[n - 1].0);
      Served(run, ops, n - 1) + if Serving(c) then [ServedItem(c)] else []
  }

  /** No item is lost, doubled or overtaken: those that were pushed are those that were served, each in the right way,
      followed by those on the list. */
  lemma {:induction false} FifoTheorem(run: seq<State>, ops: seq<(Thread, Op)>, n: nat)
    requires OpRun(run, ops) && n <= |ops|
    ensures Pushed(run, ops, n) == Served(run, ops, n) + run[n].items && run[n].width == run[0].width
    ensures n > 0 && Serving(At(run[n], ops[n - 1].0)) ==> ServedRightly(run[0].width, At(run[n], ops[n - 1].0))
    decreases n
  {
    if n > 0 {
      FifoTheorem(run, ops, n - 1);
      assert StepAt(run, ops, n - 1);
      ItemStep(run[n - 1], run[n], ops[n - 1]);
      FifoOn(run, ops, n);
    }
  }

  lemma FifoOn(run: seq<State>, ops: seq<(Thread, Op)>, n: nat)
    requires 0 < n <= |ops| < |run| && Pushed(run, ops, n - 1) == Served(run, ops, n - 1) + run[n - 1].items
    requires ItemMove(run[n - 1], run[n], ops[n - 1].0)
    ensures Pushed(run, ops, n) == Served(run, ops, n) + run[n].items
  {
    var c := At(run[n], ops[n - 1].0);
    var served := Served(run, ops, n - 1);
    if Serving(c) { assert served + ([ServedItem(c)] + run[n].items) == served + [ServedItem(c)] + run[n].items; }
  }

  // ------------------------------------------------------------------ calls

  /** Step `j` starts a call of thread `t`, which has not returned before state `n`. */
  ghost predicate Call(run: seq<State>, ops: seq<(Thread, Op)>, t: Thread, j: nat, n: nat) {
    && OpRun(run, ops) && j < n <= |ops| && ops[j].0 == t
    && (ops[j].1.StartPush? || ops[j].1.StartSync? || ops[j].1.StartBarrierSync?)
    && (forall i | j < i < n :: !At(run[i], t).Idle?)
  }

  ghost predicate Returned(run: seq<State>, ops: seq<(Thread, Op)>, t: Thread, j: nat, n: nat) {
    Call(run, ops, t, j, n) && At(run[n], t).Idle?
  }

  /** The call has nothing left to do but to wake the queue up. */
  predicate Past(c: PC) { c.Idle? || (c.Waking? && c.r.ToIdle?) }

  /** What a step means for an asynchronous push of the item `x` by thread `t`. */
  ghost predicate PushMove(s: State, s': State, o: (Thread, Op), t: Thread, x: Item) {
    var c, c' := At(s, t), At(s', t);
    && (o.0 != t ==> c' == c)
    && (o.0 == t && c == Push(x) ==> s'.items == s.items + [x] && Past(c'))
    && (o.0 == t && Past(c) ==>
          && s'.items == s.items && (!c.Idle? ==> Past(c')) && (o.1 == StartPush(x) ==> c' == Push(x)))
  }

  lemma PushStep(s: State, s': State, o: (Thread, Op), t: Thread, x: Item)
    requires OpStep(s, s', o) && !x.SyncSlow? && !x.BarrierSlow?
    ensures PushMove(s, s', o, t, x)
  {
    if o.0 == t && o.1.Go? && At(s, t).Waking? {
      match At(s, t).w
      case WakeSuspended =>
      case WakeTail =>
      case WakeLock =>
      case WakePush =>
    }
  }

  /** How far the push is at state `n`, if `k` is the step at which it appends, or `n` if that is still to come. */
  ghost predicate PushInv(run: seq<State>, ops: seq<(Thread, Op)>, t: Thread, j: nat, n: nat, k: nat, x: Item)
    requires n <= |ops| < |run|
  {
    && j < k <= n && (k == n ==> At(run[n], t) == Push(x))
    && (k < n ==> Past(At(run[n], t)) && ops[k].0 == t && run[k + 1].items == run[k].items + [x])
    && (forall i | j <= i < n && i != k && ops[i].0 == t :: run[i + 1].items == run[i].items)
  }

  lemma PushOn(run: seq<State>, ops: seq<(Thread, Op)>, t: Thread, j: nat, n: nat, k: nat, x: Item)
    requires j + 1 < n <= |ops| < |run| && PushInv(run, ops, t, j, n - 1, k, x)
    requires PushMove(run[n - 1], run[n], ops[n - 1], t, x) && !At(run[n - 1], t).Idle?
    ensures PushInv(run, ops, t, j, n, if k == n - 1 && ops[n - 1].0 != t then n else k, x)
  {
  }

  lemma {:induction false} PushCall(run: seq<State>, ops: seq<(Thread, Op)>, t: Thread, j: nat, n: nat, x: Item)
      returns (k: nat)
    requires j < n <= |ops| < |run| && ops[j] == (t, StartPush(x)) && At(run[j], t).Idle?
    requires forall i | j <= i < n :: PushMove(run[i], run[i + 1], ops[i], t, x)
    requires forall i | j < i < n :: !At(run[i], t).Idle?
    ensures PushInv(run, ops, t, j, n, k, x)
    decreases n
  {
    if j == n - 1 { return n; }
    k := PushCall(run, ops, t, j, n - 1, x);
    PushOn(run, ops, t, j, n, k, x);
    if k == n - 1 && ops[n - 1].0 != t { k := n; }
  }

  /** An asynchronous call puts its item on the list exactly once before it returns. */
  lemma PushTheorem(run: seq<State>, ops: seq<(Thread, Op)>, t: Thread, j: nat, n: nat) returns (k: nat)
    requires Returned(run, ops, t, j, n) && ops[j].1.StartPush?
    ensures j < k < n && ops[k].0 == t && run[k + 1].items == run[k].items + [ops[j].1.item]
    ensures forall i | j <= i < n && i != k && ops[i].0 == t :: run[i + 1].items == run[i].items
  {
    assert StepAt(run, ops, j);
    var x := ops[j].1.item;
    forall i | j <= i < n ensures PushMove(run[i], run[i + 1], ops[i], t, x) {
      assert StepAt(run, ops, i);
      PushStep(run[i], run[i + 1], ops[i], t, x);
    }
    k := PushCall(run, ops, t, j, n, x);
  }

  // ------------------------------------------------------------------ synchronous calls

  /** Whether the call runs its function alone; on a serial queue every synchronous call does. */
  predicate IsBarrier(s: State, op: Op) { op.StartBarrierSync? || s.width == 1 }

  /** The thread runs the function of its call. */
  predicate Inside(c: PC, barrier: bool) {
    if barrier then c == Bar(InFast) || c == Bar(InSlow) else c == Sync(InReader)
  }

  /** The function of the call has not been run yet. */
  predicate Ahead(c: PC, t: Thread, barrier: bool) {
    if barrier then
      (c.Bar? && !c.b.InFast? && !c.b.InSlow?) || c == Push(BarrierSlow(t)) || (c.Waking? && c.r.ToWaitBarrier?)
    else
      || (c.Sync? && !c.y.InReader?) || c == Push(SyncSlow(t))
      || (c.Waking? && (c.r.ToPushSync? || c.r.ToWaitSync?))
  }

  ghost predicate SyncMove(c: PC, c': PC, t: Thread, barrier: bool) {
    && (Ahead(c, t, barrier) ==> Ahead(c', t, barrier) || Inside(c', barrier))
    && (Inside(c, barrier) ==> Past(c'))
    && (Past(c) && !c.Idle? ==> Past(c'))
  }

  lemma SyncStep(s: State, s': State, o: (Thread, Op), t: Thread, barrier: bool)
    requires OpStep(s, s', o) && o.0 == t && o.1.Go?
    ensures SyncMove(At(s, t), At(s', t), t, barrier)
  {
    match At(s, t)
    case Push(_) =>
    case Waking(w, r) => match w { case WakeSuspended => case WakeTail => case WakeLock => case WakePush => }
    case Sync(y) =>
    case Bar(b) =>
    case _ =>
  }

  lemma SyncBegins(s: State, s': State, o: (Thread, Op))
    requires OpStep(s, s', o) && (o.1.StartSync? || o.1.StartBarrierSync?)
    ensures Ahead(At(s', o.0), o.0, IsBarrier(s, o.1))
  {
  }

  /** After state `j`, thread `t` is ahead of its function before `a`, runs it until `b`, and then is past it. */
  ghost predicate Visits(run: seq<State>, t: Thread, j: nat, n: nat, a: nat, b: nat, barrier: bool)
    requires n < |run|
  {
    && j < a <= b <= n + 1 && (a <= n ==> a < b)
    && (forall m | j < m < a && m <= n :: Ahead(At(run[m], t), t, barrier))
    && (forall m | a <= m < b && m <= n :: Inside(At(run[m], t), barrier))
    && (forall m | b <= m <= n :: Past(At(run[m], t)))
  }

  /** The steps that bring thread `t` into its function and out of it are its own, and it makes none in between. */
  ghost predicate RunsOnce(ops: seq<(Thread, Op)>, t: Thread, n: nat, a: nat, b: nat)
    requires n <= |ops|
  {
    && (0 < a <= n ==> ops[a - 1] == (t, Go)) && (0 < b <= n ==> ops[b - 1] == (t, Go))
    && (forall m | a <= m < b - 1 && m < n :: ops[m].0 != t)
  }

  /** The moments of entry and exit, one state later. */
  function Entry(c: PC, n: nat, a: nat, barrier: bool): nat { if a == n && !Inside(c, barrier) then n + 1 else a }
  function Exit(c: PC, n: nat, b: nat): nat { if b == n && !Past(c) then n + 1 else b }

  lemma VisitOn(run: seq<State>, ops: seq<(Thread, Op)>, t: Thread, j: nat, n: nat, a: nat, b: nat, barrier: bool)
    requires j + 1 < n <= |ops| < |run| && Visits(run, t, j, n - 1, a, b, barrier) && RunsOnce(ops, t, n - 1, a, b)
    requires !At(run[n - 1], t).Idle?
    requires if ops[n - 1].0 == t then ops[n - 1].1.Go? && SyncMove(At(run[n - 1], t), At(run[n], t), t, barrier)
             else At(run[n], t) == At(run[n - 1], t)
    ensures var a', b' := Entry(At(run[n], t), n, a, barrier), Exit(At(run[n], t), n, b);
      Visits(run, t, j, n, a', b', barrier) && RunsOnce(ops, t, n, a', b')
  {
  }

  /** What step `i` means for the synchronous call of thread `t`. */
  ghost predicate SyncStepAt(run: seq<State>, ops: seq<(Thread, Op)>, t: Thread, i: nat, barrier: bool)
    requires i < |ops| < |run|
  {
    if ops[i].0 == t then ops[i].1.Go? && SyncMove(At(run[i], t), At(run[i + 1], t), t, barrier)
    else At(run[i + 1], t) == At(run[i], t)
  }

  lemma SyncAt(run: seq<State>, ops: seq<(Thread, Op)>, t: Thread, i: nat, barrier: bool)
    requires OpRun(run, ops) && i < |ops| && !At(run[i], t).Idle?
    ensures SyncStepAt(run, ops, t, i, barrier)
  {
    assert StepAt(run, ops, i);
    if ops[i].0 == t { SyncStep(run[i], run[i + 1], ops[i], t, barrier); }
  }

  lemma {:induction false} VisitRun(run: seq<State>, ops: seq<(Thread, Op)>, t: Thread, j: nat, n: nat, barrier: bool)
      returns (a: nat, b: nat)
    requires j < n <= |ops| < |run| && Ahead(At(run[j + 1], t), t, barrier)
    requires forall i: nat | j < i < n :: SyncStepAt(run, ops, t, i, barrier)
    requires forall i: nat | j < i < n :: !At(run[i], t).Idle?
    ensures Visits(run, t, j, n, a, b, barrier) && RunsOnce(ops, t, n, a, b)
    decreases n
  {
    if j == n - 1 { return n + 1, n + 1; }
    a, b := VisitRun(run, ops, t, j, n - 1, barrier);
    assert SyncStepAt(run, ops, t, n - 1, barrier);
    VisitOn(run, ops, t, j, n, a, b, barrier);
    a, b := Entry(At(run[n], t), n, a, barrier), Exit(At(run[n], t), n, b);
  }

  lemma SyncCall(run: seq<State>, ops: seq<(Thread, Op)>, t: Thread, j: nat, n: nat) returns (a: nat, b: nat)
    requires Call(run, ops, t, j, n) && !ops[j].1.StartPush?
    ensures Visits(run, t, j, n, a, b, IsBarrier(run[j], ops[j].1)) && RunsOnce(ops, t, n, a, b)
  {
    var barrier := IsBarrier(run[j], ops[j].1);
    AheadAt(run, ops, j);
    forall i: nat | j < i < n ensures SyncStepAt(run, ops, t, i, barrier) { SyncAt(run, ops, t, i, barrier); }
    a, b := VisitRun(run, ops, t, j, n, barrier);
  }

  lemma AheadAt(run: seq<State>, ops: seq<(Thread, Op)>, j: nat)
    requires OpRun(run, ops) && j < |ops| && (ops[j].1.StartSync? || ops[j].1.StartBarrierSync?)
    ensures Ahead(At(run[j + 1], ops[j].0), ops[j].0, IsBarrier(run[j], ops[j].1))
  {
    assert StepAt(run, ops, j);
    SyncBegins(run[j], run[j + 1], ops[j]);
  }

  /** Every synchronous call runs its function exactly once before it returns: from state `a` until state `b`, and at
      no other time of the call; alone if it is a barrier or the queue is serial, and as a reader otherwise. */
  lemma SyncTheorem(run: seq<State>, ops: seq<(Thread, Op)>, t: Thread, j: nat, n: nat) returns (a: nat, b: nat)
    requires Returned(run, ops, t, j, n) && !ops[j].1.StartPush?
    ensures j < a < b <= n && ops[a - 1] == (t, Go) && ops[b - 1] == (t, Go)
    ensures forall m | j < m <= n :: a <= m < b <==> Inside(At(run[m], t), IsBarrier(run[j], ops[j].1))
    ensures forall m | j < m <= n && !(a <= m < b) ::
      !Inside(At(run[m], t), true) && !Inside(At(run[m], t), false)
    ensures forall m | a <= m < b - 1 :: ops[m].0 != t
  {
    a, b := SyncCall(run, ops, t, j, n);
  }

  // ------------------------------------------------------------------ whose turn it is

  /** At step `i` thread `t` finds the list empty, or the queue not suspended. */
  ghost predicate FindsEmpty(run: seq<State>, ops: seq<(Thread, Op)>, t: Thread, i: nat)
    requires i < |ops| < |run|
  {
    ops[i] == (t, Go) && TailNull(run[i])
  }

  ghost predicate FindsRunning(run: seq<State>, ops: seq<(Thread, Op)>, t: Thread, i: nat)
    requires i < |ops| < |run|
  {
    ops[i] == (t, Go) && !Suspended(run[i])
  }

  /** Step `i` serves the item of the waiting thread `t`. */
  ghost predicate Turn(run: seq<State>, ops: seq<(Thread, Op)>, t: Thread, i: nat)
    requires i < |ops| < |run|
  {
    var c := At(run[i + 1], ops[i].0);
    Serving(c) && Waiter(ServedItem(c)) == {t}
  }

  ghost predicate SawEmpty(run: seq<State>, ops: seq<(Thread, Op)>, t: Thread, j: nat, n: nat)
    requires n <= |ops| < |run|
  {
    exists i: nat :: j < i < n && FindsEmpty(run, ops, t, i)
  }

  ghost predicate SawRunning(run: seq<State>, ops: seq<(Thread, Op)>, t: Thread, j: nat, n: nat)
    requires n <= |ops| < |run|
  {
    exists i: nat :: j < i < n && FindsRunning(run, ops, t, i)
  }

  ghost predicate HadTurn(run: seq<State>, ops: seq<(Thread, Op)>, t: Thread, j: nat, n: nat)
    requires n <= |ops| < |run|
  {
    exists i: nat :: j < i < n && Turn(run, ops, t, i)
  }

  predicate PastTail(c: PC) {
    || c == Sync(SyncSuspended) || c == Sync(SyncAdd) || c == Bar(BarSuspended) || c == Bar(BarLock)
    || c == Bar(InFast)
  }

  predicate PastTests(c: PC) { c == Sync(SyncAdd) || c == Bar(BarLock) || c == Bar(InFast) }

  /** What thread `t` has seen at state `n` of its call; a thread that drains the item of `t` has served it. */
  ghost predicate TurnInv(s: State, t: Thread, empty: bool, running: bool, turn: bool) {
    var c := At(s, t);
    && (PastTail(c) ==> empty) && (PastTests(c) ==> running)
    && (Awaits(c) && t !in s.queued ==> turn) && (c == Bar(InSlow) ==> turn)
    && (c == Sync(InReader) ==> turn || (empty && running))
    && (forall w :: RunsFor(At(s, w), t) ==> turn)
  }

  /** What a step of thread `u` adds to that. */
  ghost predicate TurnMove(s: State, s': State, u: Thread, t: Thread) {
    var c, c' := At(s, t), At(s', t);
    var turn := Serving(At(s', u)) && Waiter(ServedItem(At(s', u))) == {t};
    && (u != t ==> c' == c)
    && (u == t && PastTail(c') ==> PastTail(c) || TailNull(s))
    && (u == t && PastTests(c') ==> PastTests(c) || !Suspended(s))
    && (u == t && c' == Sync(InReader) ==> c == Sync(SyncAdd) || (c == Sync(WaitSync) && t !in s.queued))
    && (u == t && c' == Bar(InSlow) ==> c == Bar(WaitBarrier) && t !in s.queued)
    && (Awaits(c') && t !in s'.queued ==> (Awaits(c) && t !in s.queued) || turn || RunsFor(At(s, u), t))
    && (RunsFor(At(s', u), t) ==> turn)
  }

  lemma TurnOther(s: State, s': State, o: (Thread, Op), t: Thread)
    requires OpStep(s, s', o) && o.0 != t
    ensures TurnMove(s, s', o.0, t)
  {
    WorkStep(s, s', o);
  }

  lemma TurnSync(s: State, t: Thread)
    requires Enabled(s, t, Go) && WaitLocal(s, t) && At(s, t).Sync?
    ensures TurnMove(s, Next(s, t, Go), t, t)
  {
  }

  lemma TurnBarrier(s: State, t: Thread)
    requires Enabled(s, t, Go) && WaitLocal(s, t) && At(s, t).Bar?
    ensures TurnMove(s, Next(s, t, Go), t, t)
  {
  }

  lemma TurnPush(s: State, t: Thread)
    requires Enabled(s, t, Go) && WaitLocal(s, t) && (At(s, t).Push? || At(s, t).Waking?)
    requires At(s, t) == Push(SyncSlow(t)) || At(s, t) == Push(BarrierSlow(t)) || !At(s, t).Push?
    ensures TurnMove(s, Next(s, t, Go), t, t)
  {
    if At(s, t).Waking? {
      match At(s, t).w
      case WakeSuspended =>
      case WakeTail =>
      case WakeLock =>
      case WakePush =>
    }
  }

  lemma TurnOn(s: State, s': State, u: Thread, t: Thread, empty: bool, running: bool, turn: bool)
    requires TurnInv(s, t, empty, running, turn) && TurnMove(s, s', u, t) && OnlyMoves(s, s', u)
    ensures TurnInv(s', t, empty || (u == t && TailNull(s)), running || (u == t && !Suspended(s)),
      turn || (Serving(At(s', u)) && Waiter(ServedItem(At(s', u))) == {t}))
  {
  }

  lemma SawMore(run: seq<State>, ops: seq<(Thread, Op)>, t: Thread, j: nat, n: nat)
    requires j + 1 < n <= |ops| < |run|
    ensures SawEmpty(run, ops, t, j, n) <==> SawEmpty(run, ops, t, j, n - 1) || FindsEmpty(run, ops, t, n - 1)
    ensures SawRunning(run, ops, t, j, n) <==> SawRunning(run, ops, t, j, n - 1) || FindsRunning(run, ops, t, n - 1)
    ensures HadTurn(run, ops, t, j, n) <==> HadTurn(run, ops, t, j, n - 1) || Turn(run, ops, t, n - 1)
  {
  }

  lemma TurnStep(s: State, s': State, o: (Thread, Op), t: Thread, barrier: bool)
    requires WaitInv(s) && OpStep(s, s', o) && (Ahead(At(s, t), t, barrier) || Inside(At(s, t), barrier))
    ensures TurnMove(s, s', o.0, t) && OnlyMoves(s, s', o.0)
  {
    var u := o.0;
    assert WaitLocal(s, t);
    if u != t {
      TurnOther(s, s', o, t);
    } else if At(s, t).Sync? {
      TurnSync(s, t);
    } else if At(s, t).Bar? {
      TurnBarrier(s, t);
    } else {
      TurnPush(s, t);
    }
  }

  /** Nobody drains an item for a thread that has only just called. */
  lemma TurnBegins(s: State, t: Thread, empty: bool, running: bool, turn: bool)
    requires TokenInv(s) && DrainerInv(s) && (At(s, t) == Sync(SyncTail) || At(s, t) == Bar(BarTail))
    ensures TurnInv(s, t, empty, running, turn)
  {
    forall w ensures !RunsFor(At(s, w), t) {
      assert At(s, w).Drain? ==> InInvoke(At(s, w)) && DrainLocal(s, At(s, w).d);
    }
  }

  lemma InvAt(run: seq<State>, ops: seq<(Thread, Op)>, n: nat)
    requires OpRun(run, ops) && n <= |ops|
    ensures TokenInv(run[n]) && DrainerInv(run[n]) && WaitInv(run[n])
  {
    RunOf(run, ops);
    RunInv(run, n);
  }

  lemma StartsAt(run: seq<State>, ops: seq<(Thread, Op)>, t: Thread, j: nat)
    requires OpRun(run, ops) && j < |ops| && ops[j].0 == t && (ops[j].1.StartSync? || ops[j].1.StartBarrierSync?)
    ensures At(run[j + 1], t) == Sync(SyncTail) || At(run[j + 1], t) == Bar(BarTail)
  {
    assert StepAt(run, ops, j);
  }

  lemma TurnAt(run: seq<State>, ops: seq<(Thread, Op)>, t: Thread, i: nat, barrier: bool)
    requires OpRun(run, ops) && i < |ops| && (Ahead(At(run[i], t), t, barrier) || Inside(At(run[i], t), barrier))
    ensures TurnMove(run[i], run[i + 1], ops[i].0, t) && OnlyMoves(run[i], run[i + 1], ops[i].0)
    ensures ops[i].0 == t ==> ops[i].1.Go?
  {
    InvAt(run, ops, i);
    assert StepAt(run, ops, i);
    TurnStep(run[i], run[i + 1], ops[i], t, barrier);
  }

  /** What thread `t` knows at state `n` of its call. */
  ghost predicate Knows(run: seq<State>, ops: seq<(Thread, Op)>, t: Thread, j: nat, n: nat)
    requires n <= |ops| < |run|
  {
    TurnInv(run[n], t, SawEmpty(run, ops, t, j, n), SawRunning(run, ops, t, j, n), HadTurn(run, ops, t, j, n))
  }

  lemma TurnNext(run: seq<State>, ops: seq<(Thread, Op)>, t: Thread, j: nat, n: nat)
    requires j + 1 < n <= |ops| < |run| && Knows(run, ops, t, j, n - 1) && (ops[n - 1].0 == t ==> ops[n - 1].1.Go?)
    requires TurnMove(run[n - 1], run[n], ops[n - 1].0, t) && OnlyMoves(run[n - 1], run[n], ops[n - 1].0)
    ensures Knows(run, ops, t, j, n)
  {
    SawMore(run, ops, t, j, n);
    TurnOn(run[n - 1], run[n], ops[n - 1].0, t, SawEmpty(run, ops, t, j, n - 1), SawRunning(run, ops, t, j, n - 1),
           HadTurn(run, ops, t, j, n - 1));
  }

  lemma TurnFirst(run: seq<State>, ops: seq<(Thread, Op)>, t: Thread, j: nat)
    requires OpRun(run, ops) && j < |ops| && ops[j].0 == t && (ops[j].1.StartSync? || ops[j].1.StartBarrierSync?)
    ensures Knows(run, ops, t, j, j + 1)
  {
    InvAt(run, ops, j + 1);
    StartsAt(run, ops, t, j);
    TurnBegins(run[j + 1], t, SawEmpty(run, ops, t, j, j + 1), SawRunning(run, ops, t, j, j + 1),
               HadTurn(run, ops, t, j, j + 1));
  }

  lemma {:induction false} TurnCall(run: seq<State>, ops: seq<(Thread, Op)>, t: Thread, j: nat, n: nat)
    requires j < n <= |ops| < |run| && Knows(run, ops, t, j, j + 1)
    requires forall i | j < i < n :: ops[i].0 == t ==> ops[i].1.Go?
    requires forall i | j < i < n ::
      TurnMove(run[i], run[i + 1], ops[i].0, t) && OnlyMoves(run[i], run[i + 1], ops[i].0)
    ensures Knows(run, ops, t, j, n)
    decreases n
  {
    if j < n - 1 {
      TurnCall(run, ops, t, j, n - 1);
      TurnNext(run, ops, t, j, n);
    }
  }

  /** A synchronous call runs its function only when it is its turn: its own item has been served, and with it every
      item pushed before that one, or it has found the list empty and the queue not suspended. */
  lemma TurnTheorem(run: seq<State>, ops: seq<(Thread, Op)>, t: Thread, j: nat, n: nat)
    requires Call(run, ops, t, j, n) && !ops[j].1.StartPush? && Inside(At(run[n], t), IsBarrier(run[j], ops[j].1))
    ensures HadTurn(run, ops, t, j, n) || (SawEmpty(run, ops, t, j, n) && SawRunning(run, ops, t, j, n))
    ensures At(run[n], t) == Bar(InSlow) ==> HadTurn(run, ops, t, j, n)
    ensures At(run[n], t) == Bar(InFast) ==> SawEmpty(run, ops, t, j, n) && SawRunning(run, ops, t, j, n)
  {
    var barrier := IsBarrier(run[j], ops[j].1);
    var a, b := SyncCall(run, ops, t, j, n);
    assert !Past(At(run[n], t));
    TurnFirst(run, ops, t, j);
    forall i | j < i < n
      ensures TurnMove(run[i], run[i + 1], ops[i].0, t) && OnlyMoves(run[i], run[i + 1], ops[i].0)
      ensures ops[i].0 == t ==> ops[i].1.Go?
    {
      TurnAt(run, ops, t, i, barrier);
    }
    TurnCall(run, ops, t, j, n);
  }

  // ------------------------------------------------------------------ suspension

  /** How many of the first operations suspend the queue, less those that resume it. */
  function Suspensions(ops: seq<(Thread, Op)>, n: nat): int
    requires n <= |ops|
  {
    if n == 0 then 0 else
      Suspensions(ops, n - 1) + (if ops[n - 1].1.Suspend? then 1 else if ops[n - 1].1.Resume? then -1 else 0)
  }

  lemma SuspendStep(s: State, s': State, o: (Thread, Op))
    requires OpStep(s, s', o)
    ensures s'.suspends == s.suspends + (if o.1.Suspend? then 1 else if o.1.Resume? then -1 else 0)
  {
    WorkStep(s, s', o);
  }

  /** The suspension count is that of the calls of suspend without their resume, and of the slow barrier syncs that
      have been granted the queue. */
  lemma {:induction false} SuspendTheorem(run: seq<State>, ops: seq<(Thread, Op)>, n: nat)
    requires OpRun(run, ops) && n <= |ops|
    ensures run[n].suspends == Suspensions(ops, n)
    ensures run[n].sus / 2 == Suspensions(ops, n) + |run[n].holders|
    decreases n
  {
    if n > 0 {
      SuspendTheorem(run, ops, n - 1);
      assert StepAt(run, ops, n - 1);
      SuspendStep(run[n - 1], run[n], ops[n - 1]);
    }
    RunOf(run, ops);
    WordTheorem(run, n);
  }

  /** The drain has an item in its hand and is past its test for suspension. */
  predicate Committed(c: PC) { c.Drain? && (c.d.DrainWidth? || c.d.DrainTarget? || c.d.DrainKind?) }

  ghost predicate SomeCommitted(s: State) { exists t :: Committed(At(s, t)) }

  lemma CommitStep(s: State, s': State, o: (Thread, Op))
    requires TokenInv(s) && OpStep(s, s', o) && Suspended(s)
    ensures SomeCommitted(s') ==> SomeCommitted(s) && !Serving(At(s', o.0))
    ensures Serving(At(s', o.0)) ==> SomeCommitted(s)
  {
    var u := o.0;
    assert Committed(At(s', u)) ==> Committed(At(s, u)) by { CommitOwn(s, s', o); }
    assert Serving(At(s', u)) ==> Committed(At(s, u)) by { CommitOwn(s, s', o); }
    if w :| Committed(At(s', w)) {
      if w != u { assert Committed(At(s, w)) && InInvoke(At(s, w)); }
    }
  }

  lemma CommitOwn(s: State, s': State, o: (Thread, Op))
    requires OpStep(s, s', o) && Suspended(s)
    ensures Committed(At(s', o.0)) || Serving(At(s', o.0)) ==> Committed(At(s, o.0))
  {
    WorkStep(s, s', o);
    if o.1.Go? && At(s, o.0).Drain? && !Serving(At(s', o.0)) { CommitTest(s, s', o); }
  }

  lemma CommitTest(s: State, s': State, o: (Thread, Op))
    requires OpStep(s, s', o) && Suspended(s) && o.1.Go? && At(s, o.0).Drain?
    ensures Committed(At(s', o.0)) ==> Committed(At(s, o.0))
  {
    match At(s, o.0).d
    case DrainKind =>
    case DrainRun(i, _) => if i.BarrierSlow? {} else {}
    case DrainSuspended =>
    case _ =>
  }

  /** The items that have been served, and the one that the drain may still serve without testing again. */
  ghost function Unstoppable(run: seq<State>, ops: seq<(Thread, Op)>, n: nat): nat
    requires n <= |ops| < |run|
  {
    |Served(run, ops, n)| + if SomeCommitted(run[n]) then 1 else 0
  }

  ghost predicate Paused(run: seq<State>, ops: seq<(Thread, Op)>, i: nat)
    requires i < |ops| < |run|
  {
    Unstoppable(run, ops, i + 1) <= Unstoppable(run, ops, i)
  }

  lemma {:induction false} PauseRun(run: seq<State>, ops: seq<(Thread, Op)>, m: nat, n: nat)
    requires m <= n <= |ops| < |run| && forall i: nat | m <= i < n :: Paused(run, ops, i)
    ensures Unstoppable(run, ops, n) <= Unstoppable(run, ops, m)
    decreases n
  {
    if m < n {
      PauseRun(run, ops, m, n - 1);
      assert Paused(run, ops, n - 1);
    }
  }

  /** While the queue is suspended at most one item is served: the one that the drain had in its hand, past its test,
      when the suspension came. */
  lemma PauseTheorem(run: seq<State>, ops: seq<(Thread, Op)>, m: nat, n: nat)
    requires OpRun(run, ops) && m <= n <= |ops| && forall i | m <= i < n :: Suspended(run[i])
    ensures |Served(run, ops, n)| <= |Served(run, ops, m)| + (if SomeCommitted(run[m]) then 1 else 0)
  {
    forall i: nat | m <= i < n ensures Paused(run, ops, i) { PauseAt(run, ops, i); }
    PauseRun(run, ops, m, n);
  }

  lemma PauseAt(run: seq<State>, ops: seq<(Thread, Op)>, i: nat)
    requires OpRun(run, ops) && i < |ops| && Suspended(run[i])
    ensures Paused(run, ops, i)
  {
    CommitAt(run, ops, i);
    ServedOn(run, ops, i + 1);
  }

  lemma CommitAt(run: seq<State>, ops: seq<(Thread, Op)>, i: nat)
    requires OpRun(run, ops) && i < |ops| && Suspended(run[i])
    ensures SomeCommitted(run[i + 1]) ==> SomeCommitted(run[i]) && !Serving(At(run[i + 1], ops[i].0))
    ensures Serving(At(run[i + 1], ops[i].0)) ==> SomeCommitted(run[i])
  {
    InvAt(run, ops, i);
    assert StepAt(run, ops, i);
    CommitStep(run[i], run[i + 1], ops[i]);
  }

  lemma ServedOn(run: seq<State>, ops: seq<(Thread, Op)>, n: nat)
    requires 0 < n <= |ops| < |run|
    ensures |Served(run, ops, n)| == |Served(run, ops, n - 1)| + if Serving(At(run[n], ops[n - 1].0)) then 1 else 0
  {
  }

  // ------------------------------------------------------------------ the target queue

  /** The target queue that the items which have been run have left behind. */
  function Retargeted(run: seq<State>, ops: seq<(Thread, Op)>, n: nat): Target
    requires n <= |ops| < |run|
  {
    if n == 0 then run[0].target else
      var c := At(run[n - 1], ops[n - 1].0);
      if Retargets(c) then c.d.ran.q else Retargeted(run, ops, n - 1)
  }

  /** Whoever is going to list the queue, or is past the last change of the target, knows the target. */
  ghost predicate TargetInv(s: State) {
    && (s.token.Listed? ==> s.token.on == s.target)
    && (forall t :: KnowsTarget(At(s, t), s.target))
  }

  predicate Retargets(c: PC) { c.Drain? && c.d.DrainRun? && c.d.ran.Retarget? }

  /** What the program counter knows of the target: a drain that is about to take an item works for the target, and one
      that ends knows whether the queue has to move. */
  predicate KnowsTarget(c: PC, q: Target) {
    && (c.Drain? && c.d.DrainKind? ==> c.o == q)
    && (c.Drain? && c.d.InvRelease? ==> c.d.to == q && (c.d.moved <==> c.o != q))
    && (c.Invoke? && c.v.InvPush? ==> c.v.to == q)
  }

  /** What a step does to the target, and to what its thread and the list know of it. */
  ghost predicate TargetMove(s: State, s': State, t: Thread) {
    var c, c' := At(s, t), At(s', t);
    && s'.target == (if Retargets(c) then c.d.ran.q else s.target)
    && KnowsTarget(c', s'.target)
    && (s'.token.Listed? ==> s'.token.on == s'.target)
  }

  lemma TargetWork(s: State, s': State, o: (Thread, Op))
    requires OpStep(s, s', o)
    ensures s'.target == if Retargets(At(s, o.0)) then At(s, o.0).d.ran.q else s.target
  {
    WorkStep(s, s', o);
  }

  lemma TargetDrain(s: State, s': State, o: (Thread, Op))
    requires OpStep(s, s', o) && o.1.Go? && At(s, o.0).Drain? && KnowsTarget(At(s, o.0), s.target)
    ensures KnowsTarget(At(s', o.0), s'.target) && s'.token == s.token
  {
    TargetWork(s, s', o);
    match At(s, o.0).d
    case DrainTarget =>
    case DrainEnd =>
    case InvRelease(_, _) =>
    case DrainKind => KindWork(s, s', o);
    case DrainRun(i, _) => if i.BarrierSlow? {} else {}
    case _ =>
  }

  lemma TargetGo(s: State, s': State, o: (Thread, Op))
    requires OpStep(s, s', o) && o.1.Go? && !At(s, o.0).Drain? && KnowsTarget(At(s, o.0), s.target)
    requires s.token.Listed? ==> s.token.on == s.target
    ensures KnowsTarget(At(s', o.0), s.target) && (s'.token.Listed? ==> s'.token.on == s.target)
  {
    match At(s, o.0)
    case Waking(w, _) => match w { case WakeSuspended => case WakeTail => case WakeLock => case WakePush => }
    case Invoke(v) =>
    case Push(_) =>
    case Sync(_) =>
    case Bar(_) =>
    case IdleCheck =>
    case InAsync =>
  }

  lemma TargetStart(s: State, s': State, o: (Thread, Op))
    requires OpStep(s, s', o) && !o.1.Go? && (s.token.Listed? ==> s.token.on == s.target)
    ensures KnowsTarget(At(s', o.0), s.target) && (s'.token.Listed? ==> s'.token.on == s.target)
  {
  }

  lemma TargetStep(s: State, s': State, o: (Thread, Op))
    requires TokenInv(s) && TargetInv(s) && OpStep(s, s', o)
    ensures TargetMove(s, s', o.0)
  {
    TargetWork(s, s', o);
    if !o.1.Go? { TargetStart(s, s', o); }
    else if At(s, o.0).Drain? {
      assert InInvoke(At(s, o.0));
      TargetDrain(s, s', o);
    } else {
      TargetGo(s, s', o);
    }
  }

  lemma TargetOn(s: State, s': State, t: Thread)
    requires TokenInv(s) && TargetInv(s) && TargetMove(s, s', t) && OnlyMoves(s, s', t)
    ensures TargetInv(s')
  {
    forall u ensures KnowsTarget(At(s', u), s'.target) {
      if u != t && InInvoke(At(s, u)) { assert s.token == Invoking(u); }
      assert Retargets(At(s, t)) ==> InInvoke(At(s, t));
    }
  }

  lemma TargetAt(run: seq<State>, ops: seq<(Thread, Op)>, i: nat)
    requires OpRun(run, ops) && i < |ops| && TargetInv(run[i])
    ensures TargetMove(run[i], run[i + 1], ops[i].0) && TargetInv(run[i + 1])
  {
    InvAt(run, ops, i);
    assert StepAt(run, ops, i);
    TargetStep(run[i], run[i + 1], ops[i]);
    TargetOn(run[i], run[i + 1], ops[i].0);
  }

  lemma TargetInit(s: State)
    requires Init(s)
    ensures TargetInv(s)
  {
    assert forall t :: At(s, t) == Idle;
  }

  /** The target is the one that the last retargeting item gave, and a queue that is listed is listed there. */
  lemma {:induction false} TargetTheorem(run: seq<State>, ops: seq<(Thread, Op)>, n: nat)
    requires OpRun(run, ops) && n <= |ops|
    ensures run[n].target == Retargeted(run, ops, n) && TargetInv(run[n])
    ensures run[n].lists == multiset{} || run[n].lists == multiset{Retargeted(run, ops, n)}
    decreases n
  {
    if n == 0 { TargetInit(run[0]); } else {
      TargetTheorem(run, ops, n - 1);
      TargetAt(run, ops, n - 1);
    }
    ListedAt(run, ops, n);
  }

  lemma ListedAt(run: seq<State>, ops: seq<(Thread, Op)>, n: nat)
    requires OpRun(run, ops) && n <= |ops| && TargetInv(run[n])
    ensures run[n].lists == multiset{} || run[n].lists == multiset{run[n].target}
  {
    InvAt(run, ops, n);
  }

  /** The target queue from whose list thread `t` last took the queue. */
  function TakenFrom(ops: seq<(Thread, Op)>, n: nat, t: Thread): Option<Target>
    requires n <= |ops|
  {
    if n == 0 then None
    else if ops[n - 1].0 == t && ops[n - 1].1.TakeFromTarget? then Some(ops[n - 1].1.q)
    else TakenFrom(ops, n - 1, t)
  }

  /** The program counter remembers where the queue was taken from. */
  predicate Remembers(c: PC, from: Option<Target>) {
    && (c.Drain? ==> from == Some(c.o))
    && (c.Invoke? && c.v.InvSuspended? ==> from == Some(c.v.o)) && (c.Invoke? && c.v.InvLock? ==> from == Some(c.v.o))
  }

  lemma RemembersGo(s: State, s': State, o: (Thread, Op), from: Option<Target>)
    requires OpStep(s, s', o) && Remembers(At(s, o.0), from) && o.1.Go?
    ensures Remembers(At(s', o.0), from)
  {
    match At(s, o.0)
    case Drain(d, _) =>
    case Invoke(v) =>
    case Waking(w, _) => match w { case WakeSuspended => case WakeTail => case WakeLock => case WakePush => }
    case Push(_) =>
    case Sync(_) =>
    case Bar(_) =>
    case IdleCheck =>
    case InAsync =>
  }

  lemma RemembersStart(s: State, s': State, o: (Thread, Op), from: Option<Target>)
    requires OpStep(s, s', o) && !o.1.Go? && (o.1.TakeFromTarget? ==> o.1.q == s.target)
    ensures Remembers(At(s', o.0), if o.1.TakeFromTarget? then Some(o.1.q) else from)
  {
  }

  lemma RemembersStep(s: State, s': State, o: (Thread, Op), from: Option<Target>)
    requires OpStep(s, s', o) && Remembers(At(s, o.0), from)
    requires s.lists == multiset{} || s.lists == multiset{s.target}
    ensures Remembers(At(s', o.0), if o.1.TakeFromTarget? then Some(o.1.q) else from)
  {
    if o.1.Go? { RemembersGo(s, s', o, from); } else { RemembersStart(s, s', o, from); }
  }

  lemma {:induction false} RemembersRun(run: seq<State>, ops: seq<(Thread, Op)>, n: nat, t: Thread)
    requires OpRun(run, ops) && n <= |ops|
    ensures Remembers(At(run[n], t), TakenFrom(ops, n, t))
    decreases n
  {
    if n > 0 {
      RemembersRun(run, ops, n - 1, t);
      TargetTheorem(run, ops, n - 1);
      RemembersAt(run, ops, n - 1, t);
    }
  }

  lemma RemembersAt(run: seq<State>, ops: seq<(Thread, Op)>, i: nat, t: Thread)
    requires OpRun(run, ops) && i < |ops| && Remembers(At(run[i], t), TakenFrom(ops, i, t))
    requires run[i].lists == multiset{} || run[i].lists == multiset{run[i].target}
    ensures Remembers(At(run[i + 1], t), TakenFrom(ops, i + 1, t))
  {
    assert StepAt(run, ops, i);
    if ops[i].0 == t { RemembersStep(run[i], run[i + 1], ops[i], TakenFrom(ops, i, t)); }
  }

  lemma MoveStep(s: State, s': State, o: (Thread, Op), from: Option<Target>)
    requires OpStep(s, s', o) && Remembers(At(s, o.0), from) && KnowsTarget(At(s, o.0), s.target)
    ensures Serving(At(s', o.0)) ==> from == Some(s.target)
    ensures At(s, o.0).Drain? && !At(s', o.0).Drain? ==>
      At(s', o.0) == Invoke(if from == Some(s.target) then InvUnlock else InvPush(s.target))
  {
    WorkStep(s, s', o);
  }

  /** Items are served only by a thread that took the queue from the list of its present target, and a drain that ends
      after the queue was given another target passes it on to the list of that one. */
  lemma MoveTheorem(run: seq<State>, ops: seq<(Thread, Op)>, n: nat)
    requires OpRun(run, ops) && n < |ops|
    ensures var t, q := ops[n].0, run[n].target;
      && (Serving(At(run[n + 1], t)) ==> TakenFrom(ops, n, t) == Some(q))
      && (At(run[n], t).Drain? && !At(run[n + 1], t).Drain? ==>
            At(run[n + 1], t) == Invoke(if TakenFrom(ops, n, t) == Some(q) then InvUnlock else InvPush(q)))
  {
    RemembersRun(run, ops, n, ops[n].0);
    TargetTheorem(run, ops, n);
    assert StepAt(run, ops, n);
    MoveStep(run[n], run[n + 1], ops[n], TakenFrom(ops, n, ops[n].0));
  }

  // ------------------------------------------------------------------ redirected work

  /** The items redirected in the first steps, and those taken from the root queue. */
  function Redirected(run: seq<State>, ops: seq<(Thread, Op)>, n: nat): nat
    requires n <= |ops| < |run|
  {
    if n == 0 then 0 else
      Redirected(run, ops, n - 1) + if IsRedirecting(At(run[n], ops[n - 1].0)) then 1 else 0
  }

  function Taken(ops: seq<(Thread, Op)>, n: nat): nat
    requires n <= |ops|
  {
    if n == 0 then 0 else Taken(ops, n - 1) + if ops[n - 1].1.TakeFromRoot? then 1 else 0
  }

  /** A step redirects an item, passes it on, takes it from the root queue, or has nothing to do with such work. */
  ghost predicate RedirectMove(s: State, s': State, o: (Thread, Op)) {
    var t, redirects := o.0, IsRedirecting(At(s', o.0));
    if redirects then
      !o.1.TakeFromRoot? && s'.rootItems == s.rootItems && s'.hand == s.hand + {t} && !IsRedirecting(At(s, t))
    else if IsRedirecting(At(s, t)) then !o.1.TakeFromRoot? && s'.rootItems == s.rootItems + 1
        && s'.hand == s.hand - {t}
    else s'.rootItems == s.rootItems - (if o.1.TakeFromRoot? then 1 else 0) && s'.hand == s.hand
  }

  lemma RedirectStep(s: State, s': State, o: (Thread, Op))
    requires OpStep(s, s', o)
    ensures RedirectMove(s, s', o)
  {
    WorkStep(s, s', o);
  }

  lemma RedirectOn(s: State, s': State, o: (Thread, Op))
    requires RedirectMove(s, s', o) && (o.0 in s.hand <==> IsRedirecting(At(s, o.0)))
    ensures s'.rootItems + |s'.hand| + (if o.1.TakeFromRoot? then 1 else 0)
         == s.rootItems + |s.hand| + (if IsRedirecting(At(s', o.0)) then 1 else 0)
  {
    assert o.0 !in s.hand ==> |s.hand + {o.0}| == |s.hand| + 1;
    assert o.0 in s.hand ==> |s.hand - {o.0}| == |s.hand| - 1;
  }

  /** Every redirected item is run by one thread of the root queue: it is waiting there, or on its way, or was taken. */
  lemma {:induction false} RedirectTheorem(run: seq<State>, ops: seq<(Thread, Op)>, n: nat)
    requires OpRun(run, ops) && n <= |ops|
    ensures Redirected(run, ops, n) == Taken(ops, n) + run[n].rootItems + |run[n].hand|
    decreases n
  {
    if n > 0 {
      RedirectTheorem(run, ops, n - 1);
      RedirectAt(run, ops, n - 1);
      RedirectOn(run[n - 1], run[n], ops[n - 1]);
    }
  }

  lemma RedirectAt(run: seq<State>, ops: seq<(Thread, Op)>, i: nat)
    requires OpRun(run, ops) && i < |ops|
    ensures RedirectMove(run[i], run[i + 1], ops[i])
      && (ops[i].0 in run[i].hand <==> IsRedirecting(At(run[i], ops[i].0)))
  {
    assert StepAt(run, ops, i);
    RedirectStep(run[i], run[i + 1], ops[i]);
    HandAt(run, ops, i);
  }

  lemma HandAt(run: seq<State>, ops: seq<(Thread, Op)>, n: nat)
    requires OpRun(run, ops) && n <= |ops|
    ensures forall t :: t in run[n].hand <==> IsRedirecting(At(run[n], t))
  {
    RunOf(run, ops);
    WordTheorem(run, n);
  }

  // ------------------------------------------------------------------ wakeups

  /** Thread `t` has found the queue not suspended, or not empty, or unlocked, in the wakeup it is in. */
  ghost predicate WokeRunning(run: seq<State>, ops: seq<(Thread, Op)>, t: Thread, n: nat)
    requires n <= |ops| < |run|
  {
    exists i: nat :: i < n && FindsRunning(run, ops, t, i) && InWakeup(run, t, i, n)
  }

  ghost predicate WokeItems(run: seq<State>, ops: seq<(Thread, Op)>, t: Thread, n: nat)
    requires n <= |ops| < |run|
  {
    exists i: nat :: i < n && FindsItems(run, ops, t, i) && InWakeup(run, t, i, n)
  }

  ghost predicate FindsItems(run: seq<State>, ops: seq<(Thread, Op)>, t: Thread, i: nat)
    requires i < |ops| < |run|
  {
    ops[i] == (t, Go) && !TailNull(run[i])
  }

  ghost predicate InWakeup(run: seq<State>, t: Thread, i: nat, n: nat)
    requires n < |run|
  {
    forall m | i <= m <= n :: At(run[m], t).Waking?
  }

  predicate PastRunning(c: PC) { c.Waking? && !c.w.WakeSuspended? }
  predicate PastItems(c: PC) { c.Waking? && (c.w.WakeLock? || c.w.WakePush?) }

  lemma WakeStep(s: State, s': State, o: (Thread, Op))
    requires OpStep(s, s', o)
    ensures var c, c' := At(s, o.0), At(s', o.0);
      && (PastRunning(c') ==> o.1.Go? && c.Waking? && (PastRunning(c) || !Suspended(s)))
      && (PastItems(c') ==> o.1.Go? && c.Waking? && (PastItems(c) || !TailNull(s)))
  {
    if o.1.Go? {
      match At(s, o.0)
      case Waking(w, _) => match w { case WakeSuspended => case WakeTail => case WakeLock => case WakePush => }
      case Push(_) =>
      case Sync(_) =>
      case Bar(_) =>
      case Invoke(_) =>
      case Drain(_, _) =>
      case IdleCheck =>
      case InAsync =>
    }
  }

  lemma WakeAt(run: seq<State>, ops: seq<(Thread, Op)>, t: Thread, i: nat)
    requires OpRun(run, ops) && i < |ops|
    ensures var c, c' := At(run[i], t), At(run[i + 1], t);
      && (PastRunning(c') ==> c.Waking? && (PastRunning(c) || FindsRunning(run, ops, t, i)))
      && (PastItems(c') ==> c.Waking? && (PastItems(c) || FindsItems(run, ops, t, i)))
  {
    assert StepAt(run, ops, i);
    if ops[i].0 == t { WakeStep(run[i], run[i + 1], ops[i]); }
  }

  lemma WokeOn(run: seq<State>, ops: seq<(Thread, Op)>, t: Thread, n: nat)
    requires 0 < n <= |ops| < |run| && At(run[n - 1], t).Waking? && At(run[n], t).Waking?
    ensures WokeRunning(run, ops, t, n - 1) || FindsRunning(run, ops, t, n - 1) ==> WokeRunning(run, ops, t, n)
    ensures WokeItems(run, ops, t, n - 1) || FindsItems(run, ops, t, n - 1) ==> WokeItems(run, ops, t, n)
  {
    if WokeRunning(run, ops, t, n - 1) {
      var i: nat :| i < n - 1 && FindsRunning(run, ops, t, i) && InWakeup(run, t, i, n - 1);
      assert InWakeup(run, t, i, n);
    }
    if WokeItems(run, ops, t, n - 1) {
      var i: nat :| i < n - 1 && FindsItems(run, ops, t, i) && InWakeup(run, t, i, n - 1);
      assert InWakeup(run, t, i, n);
    }
    assert InWakeup(run, t, n - 1, n);
  }

  /** A wakeup puts the queue on the list of its target only after it has found it not suspended and with items. */
  lemma {:induction false} WakeTheorem(run: seq<State>, ops: seq<(Thread, Op)>, t: Thread, n: nat)
    requires OpRun(run, ops) && n <= |ops|
    ensures PastRunning(At(run[n], t)) ==> WokeRunning(run, ops, t, n)
    ensures PastItems(At(run[n], t)) ==> WokeItems(run, ops, t, n)
    decreases n
  {
    if n > 0 {
      WakeTheorem(run, ops, t, n - 1);
      WakeAt(run, ops, t, n - 1);
      if PastRunning(At(run[n], t)) { WokeOn(run, ops, t, n); }
    }
  }

  // ------------------------------------------------------------------ progress

  /** The queue has an item, is not suspended, and nobody but thread `t` is on it, which is `k` steps from serving. */
  predicate Near(s: State, t: Thread, k: nat) {
    var c := At(s, t);
    && !Suspended(s) && s.items != [] && s.width >= 1
    && match c
       case Invoke(InvSuspended(o)) => k == 8 && o == s.target && s.run == 0 && !s.detached
       case Invoke(InvLock(o)) => k == 7 && o == s.target && s.run == 0 && !s.detached
       case Drain(d, o) =>
         && o == s.target && s.run == 1
         && (match d
             case DrainTail => k == 6 && !s.detached
             case DrainTake => k == 5
             case DrainSuspended => k == 4
             case DrainWidth => k == 3
             case DrainTarget => k == 2
             case DrainKind => k == 1
             case _ => false)
       case _ => false
  }

  lemma Nearer(s: State, t: Thread, k: nat)
    requires Near(s, t, k)
    ensures Enabled(s, t, Go)
    ensures k > 1 ==> Near(Next(s, t, Go), t, k - 1) && Next(s, t, Go).items == s.items
    ensures k <= 1 ==> Serving(At(Next(s, t, Go), t)) && ServedItem(At(Next(s, t, Go), t)) == s.items[0]
  {
  }

  /** The state after `k` steps of thread `t` alone. */
  function Alone(s: State, t: Thread, k: nat): State
    decreases k
  {
    if k == 0 || !Enabled(s, t, Go) then s else Alone(Next(s, t, Go), t, k - 1)
  }

  lemma {:induction false} AloneServes(s: State, t: Thread, k: nat)
    requires Near(s, t, k)
    ensures Serving(At(Alone(s, t, k), t)) && ServedItem(At(Alone(s, t, k), t)) == s.items[0]
    decreases k
  {
    Nearer(s, t, k);
    if k > 1 {
      AloneServes(Next(s, t, Go), t, k - 1);
    } else {
      assert Alone(Next(s, t, Go), t, 0) == Next(s, t, Go);
    }
  }

  /** Invoking a queue gets its first item served, within eight steps if nobody interferes: the drain stops before an
      item only because of a suspension, of other work on the queue or of a new target. */
  lemma ServeTheorem(run: seq<State>, ops: seq<(Thread, Op)>, n: nat)
    requires OpRun(run, ops) && n < |ops| && ops[n].1.TakeFromTarget?
    requires run[n].items != [] && !Suspended(run[n]) && run[n].run == 0
    ensures var c := At(Alone(run[n + 1], ops[n].0, 8), ops[n].0); Serving(c) && ServedItem(c) == run[n].items[0]
  {
    assert StepAt(run, ops, n);
    WidthAt(run, ops, n);
    AloneServes(run[n + 1], ops[n].0, 8);
  }

  lemma WidthAt(run: seq<State>, ops: seq<(Thread, Op)>, n: nat)
    requires OpRun(run, ops) && n <= |ops|
    ensures run[n].width >= 1 && (run[n].lists != multiset{} ==> !run[n].detached)
  {
    RunOf(run, ops);
    RunInv(run, n);
  }
}
