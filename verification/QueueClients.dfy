/**
 Which calls of its clients a dispatch queue (module QueueLock) can serve while keeping barrier
 functions apart from all other work: asynchronous pushes, with or without a barrier, synchronous
 calls and suspensions in any combination, but no barrier sync.
*/
module QueueClients {
  import opened QueueLock
  import opened QueueRuns

  /** The calls a client can make. */
  datatype Call = AsyncCall | SyncCall | BarrierCall | SuspendCall

  /** The call an operation starts, if any; dispatch_sync on a serial queue is a barrier sync. */
  function Made(s: State, op: Op): set<Call> {
    match op
    case StartPush(_) => {AsyncCall}
    case StartSync => if s.width == 1 then {BarrierCall} else {SyncCall}
    case StartBarrierSync => {BarrierCall}
    case Suspend => {SuspendCall}
    case Resume => {SuspendCall}
    case _ => {}
  }

  ghost predicate ClientStep(s: State, s': State, calls: set<Call>) {
    exists t, op :: Enabled(s, t, op) && Made(s, op) <= calls && s' == Next(s, t, op)
  }

  /** A run in which clients make only the permitted calls. */
  ghost predicate ClientRun(run: seq<State>, calls: set<Call>) {
    && run != [] && Init(run[0])
    && (forall i :: 0 <= i < |run| - 1 ==> ClientStep(run[i], run[i + 1], calls))
  }

  lemma ClientRunIsRun(run: seq<State>, calls: set<Call>)
    requires ClientRun(run, calls)
    ensures IsRun(run)
  {
    forall i | 0 <= i < |run| - 1 ensures Step(run[i], run[i + 1]) {
      assert ClientStep(run[i], run[i + 1], calls);
    }
  }

  // ------------------------------------------------------------------ without barrier syncs

  /** The thread is inside a barrier sync, or drains the item of one. */
  predicate InBarrierSync(c: PC) {
    || c.Bar? || (c.Push? && c.item.BarrierSlow?) || (c.Waking? && c.r.ToWaitBarrier?)
    || (c.Drain? && (c.d.DrainHandOff? || (c.d.DrainRun? && c.d.ran.BarrierSlow?)))
  }

  ghost predicate NoBarrierSync(s: State) {
    && !s.slow
    && (forall t :: !InBarrierSync(At(s, t)))
    && (forall j :: 0 <= j < |s.items| ==> !s.items[j].BarrierSlow?)
  }

  lemma HarmlessStart(s: State, t: Thread, op: Op)
    requires NoBarrierSync(s) && Enabled(s, t, op) && !op.Go? && BarrierCall !in Made(s, op)
    ensures Next(s, t, op).items == s.items && !Next(s, t, op).slow && !InBarrierSync(At(Next(s, t, op), t))
  {
  }

  lemma HarmlessDrain(s: State, t: Thread)
    requires NoBarrierSync(s) && Enabled(s, t, Go) && At(s, t).Drain?
    ensures var s' := Next(s, t, Go);
      && (s'.items == s.items || (s.items != [] && s'.items == s.items[1..]))
      && !s'.slow && !InBarrierSync(At(s', t))
  {
    match At(s, t).d
    case DrainKind =>
    case DrainRun(i, _) =>
    case InvRelease(_, _) =>
    case _ =>
  }

  lemma HarmlessGo(s: State, t: Thread)
    requires NoBarrierSync(s) && Enabled(s, t, Go) && !At(s, t).Drain?
    ensures var s' := Next(s, t, Go);
      && s'.items == (if At(s, t).Push? then s.items + [At(s, t).item] else s.items)
      && !s'.slow && !InBarrierSync(At(s', t))
  {
    match At(s, t)
    case Push(_) =>
    case Waking(_, _) =>
    case Sync(_) =>
    case Invoke(_) =>
    case IdleCheck =>
    case InAsync =>
  }

  lemma NoBarrierStep(s: State, t: Thread, op: Op)
    requires NoBarrierSync(s) && Enabled(s, t, op) && BarrierCall !in Made(s, op)
    ensures NoBarrierSync(Next(s, t, op))
  {
    if !op.Go? { HarmlessStart(s, t, op); }
    else if At(s, t).Drain? { HarmlessDrain(s, t); }
    else { HarmlessGo(s, t); }
  }

  lemma {:induction false} NoBarrierRun(run: seq<State>, calls: set<Call>, n: nat)
    requires ClientRun(run, calls) && BarrierCall !in calls && n < |run|
    ensures NoBarrierSync(run[n])
  {
    if n == 0 {
      assert forall t :: At(run[0], t) == Idle;
    } else {
      NoBarrierRun(run, calls, n - 1);
      assert ClientStep(run[n - 1], run[n - 1 + 1], calls);
      var t, op :| Enabled(run[n - 1], t, op) && Made(run[n - 1], op) <= calls && run[n] == Next(run[n - 1], t, op);
      NoBarrierStep(run[n - 1], t, op);
    }
  }

  // ------------------------------------------------------------------ with barrier syncs

  // A run on any queue, of barrier syncs only, in which a fast one overlaps a slow one. Thread 2
  // passes the tests for an empty, unsuspended queue and is delayed before taking the barrier bit.
  // Thread 1 finds the bit taken by thread 0 and queues its item, which thread 3 drains.

  predicate ValidWidth(width: nat) { width == 1 || (width >= 2 && width % 2 == 0) }

  function Last(run: seq<State>): State
    requires run != []
  {
    run[|run| - 1]
  }

  ghost predicate Reachable(s: State, calls: set<Call>) { exists run :: ClientRun(run, calls) && Last(run) == s }

  lemma ReachStep(s: State, t: Thread, op: Op, s': State)
    requires Reachable(s, {BarrierCall}) && Enabled(s, t, op) && Made(s, op) <= {BarrierCall} && s' == Next(s, t, op)
    ensures Reachable(s', {BarrierCall})
  {
    var run :| ClientRun(run, {BarrierCall}) && Last(run) == s;
    var longer := run + [s'];
    forall i | 0 <= i < |longer| - 1 ensures ClientStep(longer[i], longer[i + 1], {BarrierCall}) {
      if i < |run| - 1 { assert ClientStep(run[i], run[i + 1], {BarrierCall}); }
    }
    assert ClientRun(longer, {BarrierCall}) && Last(longer) == s';
  }

  function Start(width: nat): State {
    State(width, 0, 0, [], false, 0, multiset{}, 0, {}, map[], 0, {}, NoToken, {}, {}, {}, {}, {}, 0, false, false)
  }

  function Scene1(width: nat): State {
    Start(width).(
      pc := map[2 := Bar(BarSuspended)])
  }

  function Scene2(width: nat): State {
    Start(width).(
      pc := map[2 := Bar(BarLock)])
  }

  function Scene3(width: nat): State {
    Start(width).(
      pc := map[0 := Bar(BarSuspended), 2 := Bar(BarLock)])
  }

  function Scene4(width: nat): State {
    Start(width).(
      pc := map[0 := Bar(BarLock), 2 := Bar(BarLock)])
  }

  function Scene5(width: nat): State {
    Start(width).(run := 1, locker := {0}, fast := true,
      pc := map[0 := Bar(InFast), 1 := Bar(BarTail), 2 := Bar(BarLock)])
  }

  function Scene6(width: nat): State {
    Start(width).(run := 1, locker := {0}, fast := true,
      pc := map[0 := Bar(InFast), 1 := Bar(BarLock), 2 := Bar(BarLock)])
  }

  function Scene7(width: nat): State {
    Start(width).(run := 1, locker := {0}, fast := true,
      pc := map[0 := Bar(InFast), 1 := Push(BarrierSlow(1)), 2 := Bar(BarLock)])
  }

  function Scene8(width: nat): State {
    Start(width).(run := 1, locker := {0}, fast := true, items := [BarrierSlow(1)], queued := {1}, carer := 1,
      pc := map[0 := Bar(InFast), 1 := Waking(WakeTail, ToWaitBarrier), 2 := Bar(BarLock)])
  }

  function Scene9(width: nat): State {
    Start(width).(run := 1, locker := {0}, fast := true, items := [BarrierSlow(1)], queued := {1}, carer := 1,
      pc := map[0 := Bar(InFast), 1 := Waking(WakeLock, ToWaitBarrier), 2 := Bar(BarLock)])
  }

  function Scene10(width: nat): State {
    Start(width).(run := 1, locker := {0}, fast := true, items := [BarrierSlow(1)], queued := {1}, carer := 1,
      sus := 1, token := Pushing(1),
      pc := map[0 := Bar(InFast), 1 := Waking(WakePush, ToWaitBarrier), 2 := Bar(BarLock)])
  }

  function Scene11(width: nat): State {
    Start(width).(run := 1, locker := {0}, fast := true, items := [BarrierSlow(1)], queued := {1}, carer := 1,
      sus := 1, token := Listed(0), lists := multiset{0},
      pc := map[0 := Bar(InFast), 1 := Bar(WaitBarrier), 2 := Bar(BarLock)])
  }

  function Scene12(width: nat): State {
    Start(width).(run := 0, locker := {}, fast := true, items := [BarrierSlow(1)], queued := {1}, carer := 0,
      sus := 1, token := Listed(0), lists := multiset{0},
      pc := map[0 := Waking(WakeSuspended, ToIdle), 1 := Bar(WaitBarrier), 2 := Bar(BarLock)])
  }

  function Scene13(width: nat): State {
    Start(width).(run := 0, locker := {}, fast := true, items := [BarrierSlow(1)], queued := {1}, carer := 0,
      sus := 1, token := Invoking(3), lists := multiset{},
      pc := map[0 := Waking(WakeSuspended, ToIdle), 1 := Bar(WaitBarrier), 2 := Bar(BarLock), 3 := Invoke(InvLock(0))])
  }

  function Scene14(width: nat): State {
    Start(width).(run := 1, locker := {3}, fast := true, items := [BarrierSlow(1)], queued := {1}, carer := 0,
      sus := 1, token := Invoking(3), lists := multiset{},
      pc := map[0 := Waking(WakeSuspended, ToIdle), 1 := Bar(WaitBarrier), 2 := Bar(BarLock), 3 := Drain(DrainTail, 0)])
  }

  function Scene15(width: nat): State {
    Start(width).(run := 1, locker := {3}, fast := true, items := [BarrierSlow(1)], queued := {1}, carer := 0,
      sus := 1, token := Invoking(3), lists := multiset{}, detached := true,
      pc := map[0 := Waking(WakeSuspended, ToIdle), 1 := Bar(WaitBarrier), 2 := Bar(BarLock),
          3 := Drain(DrainSuspended, 0)])
  }

  function Scene16(width: nat): State {
    Start(width).(run := 1, locker := {3}, fast := true, items := [BarrierSlow(1)], queued := {1}, carer := 0,
      sus := 1, token := Invoking(3), lists := multiset{}, detached := true,
      pc := map[0 := Waking(WakeSuspended, ToIdle), 1 := Bar(WaitBarrier), 2 := Bar(BarLock),
          3 := Drain(DrainWidth, 0)])
  }

  function Scene17(width: nat): State {
    Start(width).(run := 1, locker := {3}, fast := true, items := [BarrierSlow(1)], queued := {1}, carer := 0,
      sus := 1, token := Invoking(3), lists := multiset{}, detached := true,
      pc := map[0 := Waking(WakeSuspended, ToIdle), 1 := Bar(WaitBarrier), 2 := Bar(BarLock), 3 := Drain(DrainKind, 0)])
  }

  function Scene18(width: nat): State {
    Start(width).(run := 1, locker := {3}, fast := true, items := [], queued := {1}, carer := 0, sus := 1,
      token := Invoking(3), lists := multiset{}, detached := false,
      pc := map[0 := Waking(WakeSuspended, ToIdle), 1 := Bar(WaitBarrier), 2 := Bar(BarLock),
          3 := Drain(DrainRun(BarrierSlow(1), false), 0)])
  }

  function Scene19(width: nat): State {
    Start(width).(run := 1, locker := {3}, fast := true, items := [], queued := {}, carer := 0, sus := 3,
      token := Invoking(3), lists := multiset{}, detached := false, holders := {1}, slow := true, granted := {1},
      pc := map[0 := Waking(WakeSuspended, ToIdle), 1 := Bar(WaitBarrier), 2 := Bar(BarLock), 3 := Drain(DrainTail, 0)])
  }

  function Scene20(width: nat): State {
    Start(width).(run := 1, locker := {3}, fast := true, items := [], queued := {}, carer := 0, sus := 3,
      token := Invoking(3), lists := multiset{}, detached := false, holders := {1}, slow := true, granted := {1},
      pc := map[0 := Waking(WakeSuspended, ToIdle), 1 := Bar(WaitBarrier), 2 := Bar(BarLock),
          3 := Drain(InvRelease(false, 0), 0)])
  }

  function Scene21(width: nat): State {
    Start(width).(run := 0, locker := {}, fast := true, items := [], queued := {}, carer := 0, sus := 3,
      token := Invoking(3), lists := multiset{}, detached := false, holders := {1}, slow := true, granted := {1},
      pc := map[0 := Waking(WakeSuspended, ToIdle), 1 := Bar(WaitBarrier), 2 := Bar(BarLock), 3 := Invoke(InvUnlock)])
  }

  function Scene22(width: nat): State {
    Start(width).(run := 0, locker := {}, fast := true, items := [], queued := {}, carer := 0, sus := 3,
      token := Invoking(3), lists := multiset{}, detached := false, holders := {1}, slow := true, granted := {},
      pc := map[0 := Waking(WakeSuspended, ToIdle), 1 := Bar(InSlow), 2 := Bar(BarLock), 3 := Invoke(InvUnlock)])
  }

  function Scene23(width: nat): State {
    Start(width).(run := 1, locker := {2}, fast := true, items := [], queued := {}, carer := 0, sus := 3,
      token := Invoking(3), lists := multiset{}, detached := false, holders := {1}, slow := true, granted := {},
      pc := map[0 := Waking(WakeSuspended, ToIdle), 1 := Bar(InSlow), 2 := Bar(InFast), 3 := Invoke(InvUnlock)])
  }

  /** Thread 2 passes both tests. */
  lemma Play1(width: nat)
    requires ValidWidth(width) && Reachable(Start(width), {BarrierCall})
    ensures Reachable(Scene1(width), {BarrierCall})
  {
    var s := Start(width);
    var s1 := s.(pc := s.pc[2 := Bar(BarTail)]);
    ReachStep(s, 2, StartBarrierSync, s1);
    var s2 := s1.(pc := s1.pc[2 := Bar(BarSuspended)]);
    ReachStep(s1, 2, Go, s2);
    assert s2.pc == Scene1(width).pc;
  }

  lemma Play2(width: nat)
    requires ValidWidth(width) && Reachable(Scene1(width), {BarrierCall})
    ensures Reachable(Scene2(width), {BarrierCall})
  {
    var s := Scene1(width);
    var s1 := s.(pc := s.pc[2 := Bar(BarLock)]);
    ReachStep(s, 2, Go, s1);
    assert s1.pc == Scene2(width).pc;
  }

  /** So does thread 0. */
  lemma Play3(width: nat)
    requires ValidWidth(width) && Reachable(Scene2(width), {BarrierCall})
    ensures Reachable(Scene3(width), {BarrierCall})
  {
    var s := Scene2(width);
    var s1 := s.(pc := s.pc[0 := Bar(BarTail)]);
    ReachStep(s, 0, StartBarrierSync, s1);
    var s2 := s1.(pc := s1.pc[0 := Bar(BarSuspended)]);
    ReachStep(s1, 0, Go, s2);
    assert s2.pc == Scene3(width).pc;
  }

  lemma Play4(width: nat)
    requires ValidWidth(width) && Reachable(Scene3(width), {BarrierCall})
    ensures Reachable(Scene4(width), {BarrierCall})
  {
    var s := Scene3(width);
    var s1 := s.(pc := s.pc[0 := Bar(BarLock)]);
    ReachStep(s, 0, Go, s1);
    assert s1.pc == Scene4(width).pc;
  }

  /** Thread 0 takes the barrier bit, and thread 1 comes. */
  lemma Play5(width: nat)
    requires ValidWidth(width) && Reachable(Scene4(width), {BarrierCall})
    ensures Reachable(Scene5(width), {BarrierCall})
  {
    var s := Scene4(width);
    var s1 := s.(run := 1, locker := {0}, fast := true, pc := s.pc[0 := Bar(InFast)]);
    ReachStep(s, 0, Go, s1);
    var s2 := s1.(pc := s1.pc[1 := Bar(BarTail)]);
    ReachStep(s1, 1, StartBarrierSync, s2);
    assert s2.pc == Scene5(width).pc;
  }

  /** It finds the bit taken and goes the slow way. */
  lemma Play6(width: nat)
    requires ValidWidth(width) && Reachable(Scene5(width), {BarrierCall})
    ensures Reachable(Scene6(width), {BarrierCall})
  {
    var s := Scene5(width);
    var s1 := s.(pc := s.pc[1 := Bar(BarSuspended)]);
    ReachStep(s, 1, Go, s1);
    var s2 := s1.(pc := s1.pc[1 := Bar(BarLock)]);
    ReachStep(s1, 1, Go, s2);
    assert s2.pc == Scene6(width).pc;
  }

  lemma Play7(width: nat)
    requires ValidWidth(width) && Reachable(Scene6(width), {BarrierCall})
    ensures Reachable(Scene7(width), {BarrierCall})
  {
    var s := Scene6(width);
    var s1 := s.(pc := s.pc[1 := Push(BarrierSlow(1))]);
    ReachStep(s, 1, Go, s1);
    assert s1.pc == Scene7(width).pc;
  }

  /** It queues its item. */
  lemma Play8(width: nat)
    requires ValidWidth(width) && Reachable(Scene7(width), {BarrierCall})
    ensures Reachable(Scene8(width), {BarrierCall})
  {
    var s := Scene7(width);
    var s1 := s.(items := [BarrierSlow(1)], queued := {1}, carer := 1,
      pc := s.pc[1 := Waking(WakeSuspended, ToWaitBarrier)]);
    ReachStep(s, 1, Go, s1);
    var s2 := s1.(pc := s1.pc[1 := Waking(WakeTail, ToWaitBarrier)]);
    ReachStep(s1, 1, Go, s2);
    assert s2.pc == Scene8(width).pc;
  }

  lemma Play9(width: nat)
    requires ValidWidth(width) && Reachable(Scene8(width), {BarrierCall})
    ensures Reachable(Scene9(width), {BarrierCall})
  {
    var s := Scene8(width);
    var s1 := s.(pc := s.pc[1 := Waking(WakeLock, ToWaitBarrier)]);
    ReachStep(s, 1, Go, s1);
    assert s1.pc == Scene9(width).pc;
  }

  /** It locks the queue in order to put it on its target. */
  lemma Play10(width: nat)
    requires ValidWidth(width) && Reachable(Scene9(width), {BarrierCall})
    ensures Reachable(Scene10(width), {BarrierCall})
  {
    var s := Scene9(width);
    var s1 := s.(sus := 1, token := Pushing(1), pc := s.pc[1 := Waking(WakePush, ToWaitBarrier)]);
    ReachStep(s, 1, Go, s1);
    assert s1.pc == Scene10(width).pc;
  }

  /** The queue is on its target, and thread 1 waits. */
  lemma Play11(width: nat)
    requires ValidWidth(width) && Reachable(Scene10(width), {BarrierCall})
    ensures Reachable(Scene11(width), {BarrierCall})
  {
    var s := Scene10(width);
    var s1 := s.(lists := multiset{0}, token := Listed(0), pc := s.pc[1 := Bar(WaitBarrier)]);
    ReachStep(s, 1, Go, s1);
    assert s1.pc == Scene11(width).pc;
  }

  /** Thread 0 is done. */
  lemma Play12(width: nat)
    requires ValidWidth(width) && Reachable(Scene11(width), {BarrierCall})
    ensures Reachable(Scene12(width), {BarrierCall})
  {
    var s := Scene11(width);
    var s1 := s.(run := 0, locker := {}, carer := 0, pc := s.pc[0 := Waking(WakeSuspended, ToIdle)]);
    ReachStep(s, 0, Go, s1);
    assert s1.pc == Scene12(width).pc;
  }

  /** Thread 3 invokes the queue. */
  lemma Play13(width: nat)
    requires ValidWidth(width) && Reachable(Scene12(width), {BarrierCall})
    ensures Reachable(Scene13(width), {BarrierCall})
  {
    var s := Scene12(width);
    var s1 := s.(lists := multiset{}, token := Invoking(3), pc := s.pc[3 := Invoke(InvSuspended(0))]);
    ReachStep(s, 3, TakeFromTarget(0), s1);
    var s2 := s1.(pc := s1.pc[3 := Invoke(InvLock(0))]);
    ReachStep(s1, 3, Go, s2);
    assert s2.pc == Scene13(width).pc;
  }

  lemma Play14(width: nat)
    requires ValidWidth(width) && Reachable(Scene13(width), {BarrierCall})
    ensures Reachable(Scene14(width), {BarrierCall})
  {
    var s := Scene13(width);
    var s1 := s.(run := 1, locker := {3}, pc := s.pc[3 := Drain(DrainTail, 0)]);
    ReachStep(s, 3, Go, s1);
    assert s1.pc == Scene14(width).pc;
  }

  /** It takes the only item. */
  lemma Play15(width: nat)
    requires ValidWidth(width) && Reachable(Scene14(width), {BarrierCall})
    ensures Reachable(Scene15(width), {BarrierCall})
  {
    var s := Scene14(width);
    var s1 := s.(pc := s.pc[3 := Drain(DrainTake, 0)]);
    ReachStep(s, 3, Go, s1);
    var s2 := s1.(detached := true, pc := s1.pc[3 := Drain(DrainSuspended, 0)]);
    ReachStep(s1, 3, Go, s2);
    assert s2.pc == Scene15(width).pc;
  }

  lemma Play16(width: nat)
    requires ValidWidth(width) && Reachable(Scene15(width), {BarrierCall})
    ensures Reachable(Scene16(width), {BarrierCall})
  {
    var s := Scene15(width);
    var s1 := s.(pc := s.pc[3 := Drain(DrainWidth, 0)]);
    ReachStep(s, 3, Go, s1);
    assert s1.pc == Scene16(width).pc;
  }

  /** It pops the item. */
  lemma Play17(width: nat)
    requires ValidWidth(width) && Reachable(Scene16(width), {BarrierCall})
    ensures Reachable(Scene17(width), {BarrierCall})
  {
    var s := Scene16(width);
    var s1 := s.(pc := s.pc[3 := Drain(DrainTarget, 0)]);
    ReachStep(s, 3, Go, s1);
    var s2 := s1.(pc := s1.pc[3 := Drain(DrainKind, 0)]);
    ReachStep(s1, 3, Go, s2);
    assert s2.pc == Scene17(width).pc;
  }

  lemma Play18(width: nat)
    requires ValidWidth(width) && Reachable(Scene17(width), {BarrierCall})
    ensures Reachable(Scene18(width), {BarrierCall})
  {
    var s := Scene17(width);
    var s1 := s.(items := [], detached := false, pc := s.pc[3 := Drain(DrainRun(BarrierSlow(1), false), 0)]);
    ReachStep(s, 3, Go, s1);
    assert s1.pc == Scene18(width).pc;
  }

  /** It suspends the queue for thread 1 and signals it. */
  lemma Play19(width: nat)
    requires ValidWidth(width) && Reachable(Scene18(width), {BarrierCall})
    ensures Reachable(Scene19(width), {BarrierCall})
  {
    var s := Scene18(width);
    var s1 := s.(sus := 3, holders := {1}, queued := {}, slow := true,
      pc := s.pc[3 := Drain(DrainHandOff(1, false), 0)]);
    ReachStep(s, 3, Go, s1);
    var s2 := s1.(granted := {1}, pc := s1.pc[3 := Drain(DrainTail, 0)]);
    ReachStep(s1, 3, Go, s2);
    assert s2.pc == Scene19(width).pc;
  }

  /** It leaves the drain and releases the barrier bit. */
  lemma Play20(width: nat)
    requires ValidWidth(width) && Reachable(Scene19(width), {BarrierCall})
    ensures Reachable(Scene20(width), {BarrierCall})
  {
    var s := Scene19(width);
    var s1 := s.(pc := s.pc[3 := Drain(DrainEnd, 0)]);
    ReachStep(s, 3, Go, s1);
    var s2 := s1.(pc := s1.pc[3 := Drain(InvRelease(false, 0), 0)]);
    ReachStep(s1, 3, Go, s2);
    assert s2.pc == Scene20(width).pc;
  }

  lemma Play21(width: nat)
    requires ValidWidth(width) && Reachable(Scene20(width), {BarrierCall})
    ensures Reachable(Scene21(width), {BarrierCall})
  {
    var s := Scene20(width);
    var s1 := s.(run := 0, locker := {}, pc := s.pc[3 := Invoke(InvUnlock)]);
    ReachStep(s, 3, Go, s1);
    assert s1.pc == Scene21(width).pc;
  }

  /** Thread 1 enters. */
  lemma Play22(width: nat)
    requires ValidWidth(width) && Reachable(Scene21(width), {BarrierCall})
    ensures Reachable(Scene22(width), {BarrierCall})
  {
    var s := Scene21(width);
    var s1 := s.(granted := {}, pc := s.pc[1 := Bar(InSlow)]);
    ReachStep(s, 1, Go, s1);
    assert s1.pc == Scene22(width).pc;
  }

  /** Thread 2 takes the barrier bit and enters as well. */
  lemma Play23(width: nat)
    requires ValidWidth(width) && Reachable(Scene22(width), {BarrierCall})
    ensures Reachable(Scene23(width), {BarrierCall})
  {
    var s := Scene22(width);
    var s1 := s.(run := 1, locker := {2}, pc := s.pc[2 := Bar(InFast)]);
    ReachStep(s, 2, Go, s1);
    assert s1.pc == Scene23(width).pc;
  }

  /** The first part of the run. */
  lemma FirstHalf(width: nat)
    requires ValidWidth(width)
    ensures Reachable(Scene11(width), {BarrierCall})
  {
    assert ClientRun([Start(width)], {BarrierCall}) && Last([Start(width)]) == Start(width);
    Play1(width);
    Play2(width);
    Play3(width);
    Play4(width);
    Play5(width);
    Play6(width);
    Play7(width);
    Play8(width);
    Play9(width);
    Play10(width);
    Play11(width);
  }

  lemma SecondHalf(width: nat)
    requires ValidWidth(width) && Reachable(Scene11(width), {BarrierCall})
    ensures Reachable(Scene23(width), {BarrierCall})
  {
    Play12(width);
    Play13(width);
    Play14(width);
    Play15(width);
    Play16(width);
    Play17(width);
    Play18(width);
    Play19(width);
    Play20(width);
    Play21(width);
    Play22(width);
    Play23(width);
  }

  /** Barrier syncs alone break the exclusion, on a queue of any width. */
  lemma MixedRun(width: nat)
    requires ValidWidth(width)
    ensures Reachable(Scene23(width), {BarrierCall}) && !Exclusion(Scene23(width))
  {
    FirstHalf(width);
    SecondHalf(width);
    assert ExecutesAlone(At(Scene23(width), 1)) && ExecutesAlone(At(Scene23(width), 2));
  }

  // ------------------------------------------------------------------ exactly

  lemma MoreCalls(s: State, few: set<Call>, many: set<Call>)
    requires Reachable(s, few) && few <= many
    ensures Reachable(s, many)
  {
    var run :| ClientRun(run, few) && Last(run) == s;
    forall i | 0 <= i < |run| - 1 ensures ClientStep(run[i], run[i + 1], many) {
      assert ClientStep(run[i], run[i + 1], few);
      var t, op :| Enabled(run[i], t, op) && Made(run[i], op) <= few && run[i + 1] == Next(run[i], t, op);
      assert Made(run[i], op) <= many;
    }
    assert ClientRun(run, many);
  }

  /** Barrier functions overlap no other client function in any run, exactly when no client calls
      dispatch_barrier_sync, or dispatch_sync on a serial queue. All other calls may be mixed freely. */
  lemma ExclusionExactly(width: nat, calls: set<Call>)
    requires ValidWidth(width)
    ensures (forall s :: Reachable(s, calls) && s.width == width ==> Exclusion(s)) <==> BarrierCall !in calls
  {
    if BarrierCall in calls {
      MixedRun(width);
      MoreCalls(Scene23(width), {BarrierCall}, calls);
      assert Scene23(width).width == width;
    } else {
      forall s | Reachable(s, calls) ensures Exclusion(s) {
        var run :| ClientRun(run, calls) && Last(run) == s;
        ClientRunIsRun(run, calls);
        NoBarrierRun(run, calls, |run| - 1);
        ExclusionTheorem(run, |run| - 1);
      }
    }
  }

  ghost predicate AtMostOne(s: State) {
    forall t, u :: Executes(At(s, t)) && Executes(At(s, u)) ==> t == u
  }

  predicate Executes(c: PC) { ExecutesAlone(c) || ExecutesShared(c) }

  /** On a serial queue at most one client function executes at a time in every run, exactly when no
      client calls dispatch_sync or dispatch_barrier_sync on it. */
  lemma SerialExactly(calls: set<Call>)
    ensures (forall s :: Reachable(s, calls) && s.width == 1 ==> AtMostOne(s)) <==> BarrierCall !in calls
  {
    if BarrierCall in calls {
      MixedRun(1);
      MoreCalls(Scene23(1), {BarrierCall}, calls);
      assert Executes(At(Scene23(1), 1)) && Executes(At(Scene23(1), 2)) && Scene23(1).width == 1;
    } else {
      forall s | Reachable(s, calls) && s.width == 1 ensures AtMostOne(s) {
        var run :| ClientRun(run, calls) && Last(run) == s;
        ClientRunIsRun(run, calls);
        NoBarrierRun(run, calls, |run| - 1);
        forall t, u | Executes(At(s, t)) && Executes(At(s, u)) ensures t == u { SerialTheorem(run, |run| - 1, t, u); }
      }
    }
  }

  /** The states that queues of one width reach using only the permitted entry paths. */
  ghost predicate ReachableWithin(s: State, width: nat, fast: bool, slow: bool) {
    (exists run :: IsRun(run) && Last(run) == s) && s.width == width && (s.fast ==> fast) && (s.slow ==> slow)
  }

  /** The same by the paths the calls end up taking: barriers exclude all other work in every run
      exactly when fast entries (a sync or barrier sync that got in at once) and slow hand-offs (a
      barrier sync that had to wait) are not both permitted. */
  lemma ExclusionByPaths(width: nat, fast: bool, slow: bool)
    requires ValidWidth(width)
    ensures (forall s :: ReachableWithin(s, width, fast, slow) ==> Exclusion(s)) <==> !(fast && slow)
  {
    if fast && slow {
      MixedRun(width);
      var run :| ClientRun(run, {BarrierCall}) && Last(run) == Scene23(width);
      ClientRunIsRun(run, {BarrierCall});
      assert ReachableWithin(Scene23(width), width, fast, slow);
    } else {
      forall s | ReachableWithin(s, width, fast, slow) ensures Exclusion(s) {
        var run :| IsRun(run) && Last(run) == s;
        ExclusionTheorem(run, |run| - 1);
      }
    }
  }
}
