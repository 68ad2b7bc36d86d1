/**
 dispatch_semaphore_wait and dispatch_semaphore_signal with their slow paths
 (libdispatch/src/semaphore.c): a user-space count, a parallel count of the kernel signals
 that were sent, and waits that time out and undo their decrement. The kernel semaphore is a
 counter whose waiters may also wake up spuriously. One action is one atomic operation.
*/
module Semaphore {

  type Thread = nat

  datatype Timeout = Now | Timed | Forever

  datatype PC =
    | Outside
    | Decrement(d: Timeout)
    // _dispatch_semaphore_wait_slow
    | ReadSent(d: Timeout)
    | TakeSent(d: Timeout, seen: int)
    | KernelTimed             // blocked in the timed kernel wait
    | ReadValue(d: Timeout)
    | UndoValue(d: Timeout, seen: int)
    | KernelForever(d: Timeout)  // blocked in the untimed kernel wait
    // dispatch_semaphore_signal
    | Increment
    | AddSent
    | Post

  datatype State = State(
    value: int,
    sent: int,
    tokens: nat,              // the kernel semaphore
    pc: map<Thread, PC>,
    // history
    initial: nat,
    signals: nat,             // increments by dispatch_semaphore_signal
    successes: nat,           // waits that returned 0
    timeouts: nat,            // waits that returned a timeout
    slow: set<Thread>,        // threads inside _dispatch_semaphore_wait_slow
    rechecking: set<Thread>,  // those of them that will read the sent count before blocking
    granting: set<Thread>,    // signallers that owe an increment of the sent count
    posting: set<Thread>)     // signallers that owe a kernel post

  /** How a blocked kernel wait returns. */
  datatype Wake = Token | Spurious | TimedOut

  datatype Op = StartWait(d: Timeout) | StartSignal | Go | Unblock(w: Wake)

  function At(s: State, t: Thread): PC {
    if t in s.pc then s.pc[t] else Outside
  }

  predicate Blocked(c: PC) { c.KernelTimed? || c.KernelForever? }

  predicate Enabled(s: State, t: Thread, op: Op) {
    var c := At(s, t);
    match op
    case StartWait(_) => c.Outside?
    case StartSignal => c.Outside?
    case Go => !c.Outside? && !Blocked(c)
    case Unblock(w) => Blocked(c) && (w.Token? ==> s.tokens > 0) && (w.TimedOut? ==> c.KernelTimed?)
  }

  /** The switch on the timeout, after the sent count was found to be zero. */
  function BlockOn(d: Timeout): PC {
    match d
    case Now => ReadValue(Now)
    case Timed => KernelTimed
    case Forever => KernelForever(Forever)
  }

  function GoEffect(s: State, t: Thread): State {
    match At(s, t)
    case Decrement(_) =>
      var s1 := s.(value := s.value - 1);
      if s.value > 0 then s1.(successes := s.successes + 1)
      else s1.(slow := s.slow + {t}, rechecking := s.rechecking + {t})
    case ReadSent(_) => if s.sent == 0 then s.(rechecking := s.rechecking - {t}) else s
    case TakeSent(_, seen) =>
      if s.sent == seen then
        s.(sent := s.sent - 1, successes := s.successes + 1, slow := s.slow - {t}, rechecking := s.rechecking - {t})
      else s
    case UndoValue(_, seen) =>
      if s.value == seen then s.(value := s.value + 1, timeouts := s.timeouts + 1, slow := s.slow - {t}) else s
    case Increment =>
      var s1 := s.(value := s.value + 1, signals := s.signals + 1);
      if s.value >= 0 then s1 else s1.(granting := s.granting + {t})
    case AddSent => s.(sent := s.sent + 1, granting := s.granting - {t}, posting := s.posting + {t})
    case Post => s.(tokens := s.tokens + 1, posting := s.posting - {t})
    case _ => s
  }

  function GoDest(s: State, t: Thread): PC {
    match At(s, t)
    case Decrement(d) => if s.value > 0 then Outside else ReadSent(d)
    case ReadSent(d) => if s.sent == 0 then BlockOn(d) else TakeSent(d, s.sent)
    case TakeSent(d, seen) => if s.sent == seen then Outside else ReadSent(d)
    case ReadValue(d) => if s.value < 0 then UndoValue(d, s.value) else KernelForever(d)
    case UndoValue(d, seen) => if s.value == seen then Outside else ReadValue(d)
    case Increment => if s.value >= 0 then Outside else AddSent
    case AddSent => Post
    case Post => Outside
    case c => c
  }

  /** A kernel wait returns: on a timeout the decrement is undone, otherwise the loop starts again
      with the timeout the call was made with. */
  function UnblockEffect(s: State, t: Thread, w: Wake): State {
    match w
    case Token => s.(tokens := if s.tokens > 0 then s.tokens - 1 else 0, rechecking := s.rechecking + {t})
    case Spurious => s.(rechecking := s.rechecking + {t})
    case TimedOut => s
  }

  function UnblockDest(c: PC, w: Wake): PC {
    if w.TimedOut? then ReadValue(Timed) else ReadSent(if c.KernelForever? then c.d else Timed)
  }

  function Next(s: State, t: Thread, op: Op): (s': State)
    requires Enabled(s, t, op)
    ensures forall u :: u != t ==> At(s', u) == At(s, u)
  {
    var c := At(s, t);
    match op
    case StartWait(d) => s.(pc := s.pc[t := Decrement(d)])
    case StartSignal => s.(pc := s.pc[t := Increment])
    case Go => GoEffect(s, t).(pc := s.pc[t := GoDest(s, t)])
    case Unblock(w) => UnblockEffect(s, t, w).(pc := s.pc[t := UnblockDest(c, w)])
  }

  /** dispatch_semaphore_create with a non-negative value. */
  predicate Init(s: State) {
    s == State(s.initial, 0, 0, map[], s.initial, 0, 0, 0, {}, {}, {}, {})
  }

  // ------------------------------------------------------------------ invariant

  predicate InSlow(c: PC) {
    c.ReadSent? || c.TakeSent? || c.KernelTimed? || c.ReadValue? || c.UndoValue? || c.KernelForever?
  }

  predicate Rechecks(c: PC) { c.ReadSent? || c.TakeSent? }

  function Max0(n: int): nat { if n > 0 then n else 0 }

  ghost predicate SetInv(s: State) {
    && (forall t :: t in s.slow <==> InSlow(At(s, t)))
    && (forall t :: t in s.rechecking <==> Rechecks(At(s, t)))
    && (forall t :: t in s.granting <==> At(s, t).AddSent?)
    && (forall t :: t in s.posting <==> At(s, t).Post?)
  }

  /** What the program counters have read earlier. */
  ghost predicate SeenInv(s: State) {
    && (forall t :: At(s, t).TakeSent? ==> At(s, t).seen > 0)
    && (forall t :: At(s, t).UndoValue? ==> At(s, t).seen < 0)
  }

  /** Permits are conserved, and every slow waiter is either counted by a negative value or has a
      grant on its way. */
  ghost predicate CountInv(s: State) {
    && s.sent >= 0
    && s.successes + Max0(s.value) + s.sent + |s.granting| == s.initial + s.signals
    && |s.slow| == Max0(-s.value) + s.sent + |s.granting|
    && s.tokens + |s.posting| + |s.rechecking| >= s.sent
  }

  ghost predicate Inv(s: State) { SetInv(s) && SeenInv(s) && CountInv(s) }

  /** What the counts need to know about the thread that moves. */
  ghost predicate Counted(s: State, t: Thread) {
    var c := At(s, t);
    && (t in s.slow <==> InSlow(c)) && (t in s.rechecking <==> Rechecks(c))
    && (t in s.granting <==> c.AddSent?) && (t in s.posting <==> c.Post?)
    && (c.TakeSent? ==> c.seen > 0) && (c.UndoValue? ==> c.seen < 0)
  }

  lemma WaitSets(s: State, t: Thread)
    requires SetInv(s) && Enabled(s, t, Go) && (At(s, t).Decrement? || InSlow(At(s, t)))
    ensures SetInv(Next(s, t, Go))
  {
  }

  lemma SignalSets(s: State, t: Thread)
    requires SetInv(s) && Enabled(s, t, Go) && (At(s, t).Increment? || At(s, t).AddSent? || At(s, t).Post?)
    ensures SetInv(Next(s, t, Go))
  {
  }

  lemma StepSets(s: State, t: Thread, op: Op)
    requires SetInv(s) && Enabled(s, t, op)
    ensures SetInv(Next(s, t, op))
  {
    if op.Go? {
      if At(s, t).Decrement? || InSlow(At(s, t)) { WaitSets(s, t); } else { SignalSets(s, t); }
    }
  }

  lemma StepSeen(s: State, t: Thread, op: Op)
    requires SeenInv(s) && s.sent >= 0 && Enabled(s, t, op)
    ensures SeenInv(Next(s, t, op))
  {
  }

  lemma WaitCounts(s: State, t: Thread)
    requires CountInv(s) && Counted(s, t)
    requires At(s, t).Decrement? || InSlow(At(s, t))
    ensures CountInv(GoEffect(s, t))
  {
    assert t !in s.slow ==> |s.slow + {t}| == |s.slow| + 1;
    assert t in s.slow ==> |s.slow - {t}| == |s.slow| - 1;
    assert t !in s.rechecking ==> |s.rechecking + {t}| == |s.rechecking| + 1;
    assert t in s.rechecking ==> |s.rechecking - {t}| == |s.rechecking| - 1;
  }

  lemma SignalCounts(s: State, t: Thread)
    requires CountInv(s) && Counted(s, t)
    requires At(s, t).Increment? || At(s, t).AddSent? || At(s, t).Post?
    ensures CountInv(GoEffect(s, t))
  {
    assert t !in s.granting ==> |s.granting + {t}| == |s.granting| + 1;
    assert t in s.granting ==> |s.granting - {t}| == |s.granting| - 1;
    assert t !in s.posting ==> |s.posting + {t}| == |s.posting| + 1;
    assert t in s.posting ==> |s.posting - {t}| == |s.posting| - 1;
  }

  lemma UnblockCounts(s: State, t: Thread, w: Wake)
    requires CountInv(s) && Counted(s, t) && Enabled(s, t, Unblock(w))
    ensures CountInv(UnblockEffect(s, t, w))
  {
    assert t !in s.rechecking ==> |s.rechecking + {t}| == |s.rechecking| + 1;
  }

  lemma CountFrame(s: State, s': State)
    requires CountInv(s) && s' == s.(pc := s'.pc)
    ensures CountInv(s')
  {
  }

  lemma StepInv(s: State, t: Thread, op: Op)
    requires Inv(s) && Enabled(s, t, op)
    ensures Inv(Next(s, t, op)) && Next(s, t, op).initial == s.initial
  {
    StepSets(s, t, op);
    StepSeen(s, t, op);
    var s' := Next(s, t, op);
    match op
    case StartWait(_) => CountFrame(s, s');
    case StartSignal => CountFrame(s, s');
    case Go =>
      if At(s, t).Decrement? || InSlow(At(s, t)) { WaitCounts(s, t); } else { SignalCounts(s, t); }
      CountFrame(GoEffect(s, t), s');
    case Unblock(w) =>
      UnblockCounts(s, t, w);
      CountFrame(UnblockEffect(s, t, w), s');
  }

  // ------------------------------------------------------------------ every run

  ghost predicate Step(s: State, s': State) {
    exists t, op :: Enabled(s, t, op) && s' == Next(s, t, op)
  }

  ghost predicate IsRun(run: seq<State>) {
    && |run| > 0 && Init(run[0])
    && forall i :: 0 < i < |run| ==> Step(run[i - 1], run[i])
  }

  lemma StartInv(s: State)
    requires Init(s)
    ensures Inv(s)
  {
  }

  lemma {:induction false} RunInv(run: seq<State>, n: nat)
    requires IsRun(run) && n < |run|
    ensures Inv(run[n]) && run[n].initial == run[0].initial
    decreases n
  {
    if n == 0 {
      StartInv(run[0]);
    } else {
      RunInv(run, n - 1);
      assert Step(run[n - 1], run[n]);
      var t, op :| Enabled(run[n - 1], t, op) && run[n] == Next(run[n - 1], t, op);
      StepInv(run[n - 1], t, op);
    }
  }

  /** Permits are neither lost nor made: the waits that succeeded, the permits still in the value,
      and the grants on their way to a waiter add up to the initial value and the signals, whatever
      timeouts, undone decrements and spurious wakeups happened on the way. In particular at most
      initial + signals waits succeed. */
  lemma ConservationTheorem(run: seq<State>, n: nat)
    requires IsRun(run) && n < |run|
    ensures run[n].successes + Max0(run[n].value) + run[n].sent + |run[n].granting| == run[0].initial + run[n].signals
    ensures run[n].successes <= run[0].initial + run[n].signals
    ensures run[n].sent >= 0
  {
    RunInv(run, n);
  }

  /** No waiter is forgotten: the threads in the slow path are exactly as many as the negative part
      of the value and the grants that are out, so a timed-out waiter that finds the value no longer
      negative has a grant coming and may drain it without a timeout. */
  lemma WaiterTheorem(run: seq<State>, n: nat, t: Thread)
    requires IsRun(run) && n < |run|
    ensures |run[n].slow| == Max0(-run[n].value) + run[n].sent + |run[n].granting|
    ensures At(run[n], t).ReadValue? && run[n].value >= 0 ==> run[n].sent + |run[n].granting| > 0
  {
    RunInv(run, n);
    if At(run[n], t).ReadValue? {
      assert t in run[n].slow;
      assert |run[n].slow - {t}| == |run[n].slow| - 1;
    }
  }

  /** A wait that gives up leaves the count as if it had never been made: in every run the value is
      what the successful waits and the waits still in progress leave of the permits, and the waits
      that timed out, however many, have no part in it. */
  lemma TimeoutTheorem(run: seq<State>, n: nat)
    requires IsRun(run) && n < |run|
    ensures run[n].value + |run[n].slow| + run[n].successes == run[0].initial + run[n].signals
    ensures (forall t :: !InSlow(At(run[n], t))) ==> run[n].value == run[0].initial + run[n].signals - run[n].successes
  {
    RunInv(run, n);
    if forall t :: !InSlow(At(run[n], t)) {
      assert forall t :: t !in run[n].slow;
      assert run[n].slow == {};
    }
  }

  /** Nobody can move: every thread is outside or blocked in the kernel on an empty semaphore. */
  ghost predicate AtRest(s: State) {
    && s.tokens == 0
    && forall t :: At(s, t).Outside? || Blocked(At(s, t))
  }

  /** When nothing moves any more, threads are blocked only because the permits are used up: no
      grant is stranded in the sent count, and each blocked thread is one of the value's deficit. */
  lemma RestTheorem(run: seq<State>, n: nat)
    requires IsRun(run) && n < |run| && AtRest(run[n])
    ensures run[n].sent == 0 && |run[n].slow| == Max0(-run[n].value)
    ensures run[n].successes + Max0(run[n].value) == run[0].initial + run[n].signals
    ensures forall t :: Blocked(At(run[n], t)) ==>
      run[n].value < 0 && run[n].successes == run[0].initial + run[n].signals
  {
    RunInv(run, n);
    var s := run[n];
    EmptySets(s);
    forall t | Blocked(At(s, t)) ensures s.value < 0 {
      assert t in s.slow && |s.slow - {t}| == |s.slow| - 1;
    }
  }

  lemma EmptySets(s: State)
    requires SetInv(s) && AtRest(s)
    ensures s.posting == {} && s.rechecking == {} && s.granting == {}
  {
    assert forall t :: t !in s.posting;
    assert forall t :: t !in s.rechecking;
    assert forall t :: t !in s.granting;
  }

  /** A grant never waits for another signal: as long as one is recorded in the sent count, some
      thread can take the next step towards it. */
  lemma ProgressTheorem(run: seq<State>, n: nat) returns (t: Thread, op: Op)
    requires IsRun(run) && n < |run| && run[n].sent > 0
    ensures Enabled(run[n], t, op)
    ensures Rechecks(At(run[n], t)) || At(run[n], t).Post? || (op == Unblock(Token) && Blocked(At(run[n], t)))
         || At(run[n], t).ReadValue? || At(run[n], t).UndoValue?
  {
    RunInv(run, n);
    var s := run[n];
    op := Go;
    if u :| u in s.rechecking { t := u; return; }
    if u :| u in s.posting { t := u; return; }
    assert s.rechecking == {} && s.posting == {};
    t :| t in s.slow;
    if Blocked(At(s, t)) { op := Unblock(Token); }
  }

  // ------------------------------------------------------------------ every call

  /** A run together with the thread and the operation of each of its steps. */
  ghost predicate OpRun(run: seq<State>, ops: seq<(Thread, Op)>) {
    && |run| == |ops| + 1 && Init(run[0])
    && (forall i: nat | i < |ops| :: StepAt(run, ops, i))
  }

  ghost predicate StepAt(run: seq<State>, ops: seq<(Thread, Op)>, i: nat)
    requires i < |ops| < |run|
  {
    OpStep(run[i], run[i + 1], ops[i])
  }

  ghost predicate OpStep(s: State, s': State, o: (Thread, Op)) {
    Enabled(s, o.0, o.1) && s' == Next(s, o.0, o.1)
  }

  lemma OpRunIsRun(run: seq<State>, ops: seq<(Thread, Op)>)
    requires OpRun(run, ops)
    ensures IsRun(run)
  {
    forall i | 0 < i < |run| ensures Step(run[i - 1], run[i]) { assert StepAt(run, ops, i - 1); }
  }

  /** Step `j` starts a call of thread `t`, which has not returned before state `n`. */
  ghost predicate Call(run: seq<State>, ops: seq<(Thread, Op)>, t: Thread, j: nat, n: nat) {
    && OpRun(run, ops) && j < n <= |ops| && ops[j].0 == t && (ops[j].1.StartWait? || ops[j].1.StartSignal?)
    && (forall i | j < i < n :: !At(run[i], t).Outside?)
  }

  ghost predicate Returned(run: seq<State>, ops: seq<(Thread, Op)>, t: Thread, j: nat, n: nat) {
    Call(run, ops, t, j, n) && At(run[n], t).Outside?
  }

  predicate SameCounts(s: State, s': State) {
    s'.successes == s.successes && s'.timeouts == s.timeouts && s'.signals == s.signals
  }

  predicate Succeeds(s: State, s': State) { SameCounts(s.(successes := s.successes + 1), s') }
  predicate TimesOut(s: State, s': State) { SameCounts(s.(timeouts := s.timeouts + 1), s') }
  predicate Signals(s: State, s': State) { SameCounts(s.(signals := s.signals + 1), s') }

  /** Between steps `j` and `n`, thread `t` was woken because its time was up. */
  ghost predicate TimeUp(ops: seq<(Thread, Op)>, t: Thread, j: nat, n: nat)
    requires n <= |ops|
  {
    exists k :: j < k < n && ops[k] == (t, Unblock(TimedOut))
  }

  /** Between steps `j` and `n`, thread `t` found the value not negative, and a grant was on its way to a waiter. */
  ghost predicate SawGrant(run: seq<State>, ops: seq<(Thread, Op)>, t: Thread, j: nat, n: nat)
    requires n <= |ops| < |run|
  {
    exists k :: j < k < n && ops[k] == (t, Go) && run[k].value >= 0 && run[k].sent + |run[k].granting| > 0
  }

  /** Where a wait with timeout `d` may be. */
  predicate WaitsWith(c: PC, d: Timeout) {
    match c
    case Decrement(e) => e == d
    case ReadSent(e) => e == d
    case TakeSent(e, _) => e == d
    case KernelTimed => d == Timed
    case ReadValue(e) => e == d != Forever
    case UndoValue(e, _) => e == d != Forever
    case KernelForever(e) => e == d
    case _ => false
  }

  predicate GivesUp(c: PC) { c.ReadValue? || c.UndoValue? }

  /** A wait with a time limit no longer sleeps under that limit. */
  predicate PastLimit(c: PC) { GivesUp(c) || c == KernelForever(Timed) }

  /** A wait carries the timeout it was made with, and gives up only if that is now or its time was up. */
  ghost predicate WaitInv(run: seq<State>, ops: seq<(Thread, Op)>, t: Thread, j: nat, n: nat)
    requires j < n <= |ops| < |run|
  {
    && ops[j].1.StartWait? && WaitsWith(At(run[n], t), ops[j].1.d)
    && (PastLimit(At(run[n], t)) ==> ops[j].1.d.Now? || TimeUp(ops, t, j, n))
  }

  lemma WaitStep(s: State, t: Thread, op: Op, d: Timeout)
    requires Enabled(s, t, op) && WaitsWith(At(s, t), d) && !At(s, t).Outside?
    ensures var s' := Next(s, t, op); var c' := At(s', t);
      && (c'.Outside? ==> Succeeds(s, s') || (TimesOut(s, s') && GivesUp(At(s, t))))
      && (!c'.Outside? ==> SameCounts(s, s') && WaitsWith(c', d))
      && (PastLimit(c') ==> PastLimit(At(s, t)) || d.Now? || op == Unblock(TimedOut))
  {
    match op
    case Go => if At(s, t).ReadSent? {} else {}
    case Unblock(w) =>
  }

  lemma TimeUpLonger(ops: seq<(Thread, Op)>, t: Thread, j: nat, n: nat)
    requires 0 < n <= |ops| && j < n - 1 && (TimeUp(ops, t, j, n - 1) || ops[n - 1] == (t, Unblock(TimedOut)))
    ensures TimeUp(ops, t, j, n)
  {
    if ops[n - 1] == (t, Unblock(TimedOut)) {} else {
      var k :| j < k < n - 1 && ops[k] == (t, Unblock(TimedOut));
      assert j < k < n && ops[k] == (t, Unblock(TimedOut));
    }
  }

  lemma {:induction false} WaitCall(run: seq<State>, ops: seq<(Thread, Op)>, t: Thread, j: nat, n: nat)
    requires Call(run, ops, t, j, n) && ops[j].1.StartWait? && !At(run[n], t).Outside?
    ensures WaitInv(run, ops, t, j, n)
    decreases n
  {
    assert StepAt(run, ops, n - 1);
    if j < n - 1 {
      WaitCall(run, ops, t, j, n - 1);
      if ops[n - 1].0 == t { WaitStep(run[n - 1], t, ops[n - 1].1, ops[j].1.d); }
      if TimeUp(ops, t, j, n - 1) || ops[n - 1] == (t, Unblock(TimedOut)) { TimeUpLonger(ops, t, j, n); }
    }
  }

  /** Every wait ends in exactly one success or one timeout, counted at its last step and at no other one. It
      times out only if it was made with the timeout now, or with a time limit that was up; so a wait without
      a limit returns only with a permit. */
  lemma WaitTheorem(run: seq<State>, ops: seq<(Thread, Op)>, t: Thread, j: nat, n: nat)
    requires Returned(run, ops, t, j, n) && ops[j].1.StartWait?
    ensures Succeeds(run[n - 1], run[n]) || TimesOut(run[n - 1], run[n])
    ensures TimesOut(run[n - 1], run[n]) ==> ops[j].1.d.Now? || (ops[j].1.d.Timed? && TimeUp(ops, t, j, n))
    ensures forall k | j <= k < n - 1 && ops[k].0 == t :: SameCounts(run[k], run[k + 1])
  {
    assert StepAt(run, ops, n - 1);
    assert StepAt(run, ops, j);
    WaitCall(run, ops, t, j, n - 1);
    assert ops[n - 1].0 == t;
    WaitStep(run[n - 1], t, ops[n - 1].1, ops[j].1.d);
    if TimeUp(ops, t, j, n - 1) { TimeUpLonger(ops, t, j, n); }
    forall k | j <= k < n - 1 && ops[k].0 == t
      ensures SameCounts(run[k], run[k + 1]) { Uncounted(run, ops, t, j, n, k); }
  }

  lemma Uncounted(run: seq<State>, ops: seq<(Thread, Op)>, t: Thread, j: nat, n: nat, k: nat)
    requires Call(run, ops, t, j, n) && ops[j].1.StartWait? && j <= k < n - 1 && ops[k].0 == t
    ensures SameCounts(run[k], run[k + 1])
  {
    assert StepAt(run, ops, k);
    if k > j {
      assert Call(run, ops, t, j, k);
      WaitCall(run, ops, t, j, k);
      WaitStep(run[k], t, ops[k].1, ops[j].1.d);
    }
  }

  /** Step `i` leaves thread `t` in a wait that may not block: it was made with the timeout now, or its time is up. */
  ghost predicate MayNotBlock(run: seq<State>, ops: seq<(Thread, Op)>, t: Thread, i: nat, n: nat) {
    && OpRun(run, ops) && i < n <= |ops| && (ops[i] == (t, StartWait(Now)) || ops[i] == (t, Unblock(TimedOut)))
    && (forall k | i < k <= n :: !At(run[k], t).Outside?)
  }

  predicate Leaving(c: PC) {
    GivesUp(c) || c == Decrement(Now) || c == ReadSent(Now) || (c.TakeSent? && c.d.Now?)
  }

  lemma LeavingStep(s: State, t: Thread, op: Op)
    requires Enabled(s, t, op) && Leaving(At(s, t))
    ensures At(Next(s, t, op), t).Outside? || Leaving(At(Next(s, t, op), t))
      || (op.Go? && At(s, t).ReadValue? && s.value >= 0)
  {
    if At(s, t).ReadSent? {} else {}
  }

  /** A wait that may not block does so only after it has seen that a grant is on its way, which it then drains. */
  lemma {:induction false} DrainTheorem(run: seq<State>, ops: seq<(Thread, Op)>, t: Thread, i: nat, n: nat)
    requires MayNotBlock(run, ops, t, i, n)
    ensures Leaving(At(run[n], t)) || SawGrant(run, ops, t, i, n)
    ensures Blocked(At(run[n], t)) ==> SawGrant(run, ops, t, i, n)
    decreases n
  {
    assert StepAt(run, ops, n - 1);
    if i < n - 1 {
      DrainTheorem(run, ops, t, i, n - 1);
      if SawGrant(run, ops, t, i, n - 1) {
        var k :| i < k < n - 1 && ops[k] == (t, Go) && run[k].value >= 0 && run[k].sent + |run[k].granting| > 0;
        assert i < k < n;
      } else if ops[n - 1].0 == t {
        LeavingStep(run[n - 1], t, ops[n - 1].1);
        OpRunIsRun(run, ops);
        WaiterTheorem(run, n - 1, t);
      }
    }
  }

  /** How a wait may be blocked: without a limit if it was made without one, under its limit until that is up, and
      otherwise only to drain a grant on its way. */
  lemma BlockTheorem(run: seq<State>, ops: seq<(Thread, Op)>, t: Thread, j: nat, n: nat)
    requires Call(run, ops, t, j, n) && ops[j].1.StartWait? && Blocked(At(run[n], t))
    ensures match ops[j].1.d
      case Forever => At(run[n], t).KernelForever?
      case Timed => At(run[n], t).KernelTimed? || TimeUp(ops, t, j, n)
      case Now => SawGrant(run, ops, t, j, n)
  {
    WaitCall(run, ops, t, j, n);
    if ops[j].1.d.Now? { DrainTheorem(run, ops, t, j, n); }
  }

  predicate SignalsWith(c: PC) { c.Increment? || c.AddSent? || c.Post? }

  /** The steps of thread `t` in its call from `j` up to state `n`, except step `k`, count nothing. */
  ghost predicate CountsOnlyAt(run: seq<State>, ops: seq<(Thread, Op)>, t: Thread, j: nat, n: nat, k: nat)
    requires n <= |ops| < |run|
  {
    forall i | j <= i < n && i != k && ops[i].0 == t :: SameCounts(run[i], run[i + 1])
  }

  lemma {:induction false} SignalCall(run: seq<State>, ops: seq<(Thread, Op)>, t: Thread, j: nat, n: nat)
      returns (k: nat)
    requires Call(run, ops, t, j, n) && ops[j].1.StartSignal?
    ensures At(run[n], t).Outside? || SignalsWith(At(run[n], t))
    ensures At(run[n], t).Increment? <==> k == n
    ensures j < k <= n && CountsOnlyAt(run, ops, t, j, n, k)
    ensures k < n ==> ops[k].0 == t && Signals(run[k], run[k + 1])
    decreases n
  {
    assert StepAt(run, ops, n - 1);
    if j == n - 1 { return n; }
    k := SignalCall(run, ops, t, j, n - 1);
    if k == n - 1 && ops[n - 1].0 != t { k := n; }
  }

  /** Every signal counts exactly once before it returns. */
  lemma SignalTheorem(run: seq<State>, ops: seq<(Thread, Op)>, t: Thread, j: nat, n: nat) returns (k: nat)
    requires Returned(run, ops, t, j, n) && ops[j].1.StartSignal?
    ensures j < k < n && ops[k].0 == t && Signals(run[k], run[k + 1]) && CountsOnlyAt(run, ops, t, j, n, k)
  {
    k := SignalCall(run, ops, t, j, n);
  }

  // ------------------------------------------------------------------ progress

  predicate Settled(c: PC) { c.Outside? || Blocked(c) }

  /** The state after `k` steps of thread `t` alone, or fewer if it returns or blocks before. */
  function Alone(s: State, t: Thread, k: nat): State
    decreases k
  {
    if k == 0 || Settled(At(s, t)) then s else Alone(Next(s, t, Go), t, k - 1)
  }

  /** How many steps thread `t` has left if no other thread interferes. */
  function StepsLeft(s: State, t: Thread): nat {
    match At(s, t)
    case Decrement(_) => 5
    case ReadSent(_) => 4
    case TakeSent(_, seen) => if s.sent == seen then 1 else 5
    case ReadValue(_) => 2
    case UndoValue(_, seen) => if s.value == seen then 1 else 3
    case Increment => 3
    case AddSent => 2
    case Post => 1
    case _ => 0
  }

  /** No call loops on its own: a thread that is not interfered with returns or blocks within five steps, so a
      retry is always the doing of another thread. */
  lemma {:induction false} AloneTheorem(s: State, t: Thread)
    ensures Settled(At(Alone(s, t, StepsLeft(s, t)), t)) && StepsLeft(s, t) <= 5
    decreases StepsLeft(s, t)
  {
    if !Settled(At(s, t)) {
      var s' := Next(s, t, Go);
      assert StepsLeft(s', t) < StepsLeft(s, t) by { if At(s, t).ReadSent? {} else {} }
      AloneTheorem(s', t);
      Longer(s', t, StepsLeft(s', t), StepsLeft(s, t) - 1);
    }
  }

  lemma {:induction false} Longer(s: State, t: Thread, k: nat, m: nat)
    requires k <= m && Settled(At(Alone(s, t, k), t))
    ensures Alone(s, t, m) == Alone(s, t, k)
    decreases k
  {
    if !Settled(At(s, t)) { Longer(Next(s, t, Go), t, k - 1, m - 1); }
  }
}
