/**
 What every call on a dispatch group does (module Group), in every run: when a wait may return and
 with which answer, what enter and leave count, and what a notification leaves behind.
*/
module GroupCalls {
  import opened Options
  import opened ProducerList
  import opened Group
  import Sem = Semaphore

  predicate Starts(op: Op) { op.Leave? || op.Wait? || op.Notify? }

  /** Step `j` starts a call of thread `t`, which has not returned before state `n`. */
  ghost predicate Call(run: seq<State>, ops: seq<(Thread, Op)>, t: Thread, j: nat, n: nat) {
    && OpRun(run, ops) && j < n <= |ops| && ops[j].0 == t && Starts(ops[j].1)
    && (forall i | j < i < n :: !At(run[i], t).Outside?)
  }

  ghost predicate Returned(run: seq<State>, ops: seq<(Thread, Op)>, t: Thread, j: nat, n: nat) {
    Call(run, ops, t, j, n) && At(run[n], t).Outside?
  }

  // ------------------------------------------------------------------ waiting

  /** At step `i` thread `t` finds the group empty, and unless it has only just called it goes on to wake others. */
  ghost predicate FindsEmpty(s: State, s': State, o: (Thread, Op), t: Thread) {
    && o == (t, Go) && s.value == ORIG && At(s, t).Waiter?
    && (At(s, t).w.FirstCheck? || At(s', t) == Waker(TakeHead))
  }

  ghost predicate FindsEmptyAt(run: seq<State>, ops: seq<(Thread, Op)>, t: Thread, i: nat)
    requires i < |ops| < |run|
  {
    FindsEmpty(run[i], run[i + 1], ops[i], t)
  }

  ghost predicate SawEmpty(run: seq<State>, ops: seq<(Thread, Op)>, t: Thread, j: nat, n: nat)
    requires n <= |ops| < |run|
  {
    exists i: nat :: j < i < n && FindsEmptyAt(run, ops, t, i)
  }

  /** Between steps `j` and `n`, thread `t` was woken because its time was up. */
  ghost predicate TimeUp(ops: seq<(Thread, Op)>, t: Thread, j: nat, n: nat)
    requires n <= |ops|
  {
    exists k :: j < k < n && ops[k] == (t, Unblock(Sem.TimedOut))
  }

  predicate GivesUp(w: WaitPC) { w.ReadWaiters? || w.UndoWaiters? }

  /** Where a wait with timeout `d` may be before it has seen the group empty. */
  predicate WaitsWith(w: WaitPC, d: Sem.Timeout) {
    match w
    case FirstCheck(e) => e == d
    case Check(e) => e == d != Sem.Now
    case AddWaiter(e) => e == d != Sem.Now
    case Recheck(e) => e == d != Sem.Now
    case KernelTimed => d == Sem.Timed
    case KernelForever(e) => e == d != Sem.Now
    case _ => d == Sem.Timed
  }

  /** A wait with a time limit no longer sleeps under that limit. */
  predicate PastLimit(w: WaitPC) { GivesUp(w) || w == KernelForever(Sem.Timed) }

  /** A wait carries the timeout it was made with, and gives up only when its time is up; it goes on to wake others only
      after it has seen the group empty. */
  ghost predicate WaitInv(run: seq<State>, ops: seq<(Thread, Op)>, t: Thread, j: nat, n: nat)
    requires j < n <= |ops| < |run|
  {
    var c := At(run[n], t);
    && ops[j].1.Wait? && t !in run[n].timedOut
    && ((c.Waiter? && WaitsWith(c.w, ops[j].1.d)) || (c.Waker? && SawEmpty(run, ops, t, j, n)))
    && (c.Waiter? && PastLimit(c.w) ==> TimeUp(ops, t, j, n))
  }

  lemma WaiterStep(s: State, t: Thread, op: Op, d: Sem.Timeout)
    requires Enabled(s, t, op) && At(s, t).Waiter? && WaitsWith(At(s, t).w, d) && t !in s.timedOut
    ensures var s' := Next(s, t, op); var c' := At(s', t);
      && ((c'.Waiter? && WaitsWith(c'.w, d)) || (c'.Waker? && FindsEmpty(s, s', (t, op), t)) || c'.Outside?)
      && (!c'.Outside? ==> t !in s'.timedOut)
      && (c'.Outside? && t !in s'.timedOut ==> FindsEmpty(s, s', (t, op), t))
      && (t in s'.timedOut ==> d.Now? || GivesUp(At(s, t).w))
      && (c'.Waiter? && PastLimit(c'.w) ==> PastLimit(At(s, t).w) || op == Unblock(Sem.TimedOut))
  {
    if op.Go? {
      match At(s, t).w
      case FirstCheck(_) =>
      case Check(_) =>
      case AddWaiter(_) =>
      case Recheck(_) =>
      case ReadWaiters =>
      case UndoWaiters(_) =>
    }
  }

  lemma WakerStep(s: State, t: Thread, op: Op)
    requires Enabled(s, t, op) && At(s, t).Waker?
    ensures At(Next(s, t, op), t).Waker? || At(Next(s, t, op), t).Outside?
    ensures Next(s, t, op).timedOut == s.timedOut
  {
    match At(s, t).k
    case TakeHead =>
    case TakeWaiters(_) =>
    case Post(_, _) =>
    case Submit(_) =>
    case ReadNext(_) =>
    case CasTail(_) =>
  }

  lemma OtherStep(s: State, t: Thread, op: Op, u: Thread)
    requires Enabled(s, t, op) && u != t
    ensures u in Next(s, t, op).timedOut <==> u in s.timedOut
  {
    if op.Go? {
      match At(s, t)
      case Waiter(w) =>
      case Notifier(n) =>
      case Waker(k) =>
      case LeaveCheck =>
    }
  }

  lemma SawEmptyLonger(run: seq<State>, ops: seq<(Thread, Op)>, t: Thread, j: nat, n: nat)
    requires j + 1 < n <= |ops| < |run|
    requires SawEmpty(run, ops, t, j, n - 1) || FindsEmptyAt(run, ops, t, n - 1)
    ensures SawEmpty(run, ops, t, j, n)
  {
    if SawEmpty(run, ops, t, j, n - 1) {
      var i: nat :| j < i < n - 1 && FindsEmptyAt(run, ops, t, i);
      assert j < i < n;
    }
  }

  lemma TimeUpLonger(ops: seq<(Thread, Op)>, t: Thread, j: nat, n: nat)
    requires j + 1 < n <= |ops| && (TimeUp(ops, t, j, n - 1) || ops[n - 1] == (t, Unblock(Sem.TimedOut)))
    ensures TimeUp(ops, t, j, n)
  {
    if ops[n - 1] == (t, Unblock(Sem.TimedOut)) {} else {
      var k :| j < k < n - 1 && ops[k] == (t, Unblock(Sem.TimedOut));
      assert j < k < n && ops[k] == (t, Unblock(Sem.TimedOut));
    }
  }

  lemma {:induction false} WaitCall(run: seq<State>, ops: seq<(Thread, Op)>, t: Thread, j: nat, n: nat)
    requires Call(run, ops, t, j, n) && ops[j].1.Wait? && !At(run[n], t).Outside?
    ensures WaitInv(run, ops, t, j, n)
    decreases n
  {
    assert StepAt(run, ops, n - 1);
    if j < n - 1 {
      WaitCall(run, ops, t, j, n - 1);
      WaitOn(run, ops, t, j, n);
    }
  }

  lemma WaitOn(run: seq<State>, ops: seq<(Thread, Op)>, t: Thread, j: nat, n: nat)
    requires j + 1 < n <= |ops| < |run| && WaitInv(run, ops, t, j, n - 1) && !At(run[n], t).Outside?
    requires OpStep(run[n - 1], run[n], ops[n - 1])
    ensures WaitInv(run, ops, t, j, n)
  {
    var s, u, op := run[n - 1], ops[n - 1].0, ops[n - 1].1;
    if u != t { OtherStep(s, u, op, t); }
    else if At(s, t).Waker? { WakerStep(s, t, op); }
    else { WaiterStep(s, t, op, ops[j].1.d); }
    if SawEmpty(run, ops, t, j, n - 1) || FindsEmptyAt(run, ops, t, n - 1) { SawEmptyLonger(run, ops, t, j, n); }
    if TimeUp(ops, t, j, n - 1) || ops[n - 1] == (t, Unblock(Sem.TimedOut)) { TimeUpLonger(ops, t, j, n); }
  }

  /** dispatch_group_wait answers with a timeout only if it was made with the timeout now, or with a time limit that
      was up; otherwise it has found the group empty, and woken the others unless it found so at once. So a wait
      without a limit returns only after it has found the group empty. */
  lemma WaitTheorem(run: seq<State>, ops: seq<(Thread, Op)>, t: Thread, j: nat, n: nat)
    requires Returned(run, ops, t, j, n) && ops[j].1.Wait?
    ensures t in run[n].timedOut ==> ops[j].1.d.Now? || (ops[j].1.d.Timed? && TimeUp(ops, t, j, n))
    ensures t !in run[n].timedOut ==> SawEmpty(run, ops, t, j, n)
    ensures ops[j].1.d.Forever? ==> t !in run[n].timedOut && SawEmpty(run, ops, t, j, n)
  {
    assert StepAt(run, ops, j);
    assert StepAt(run, ops, n - 1);
    WaitCall(run, ops, t, j, n - 1);
    WaitEnds(run, ops, t, j, n);
  }

  lemma WaitEnds(run: seq<State>, ops: seq<(Thread, Op)>, t: Thread, j: nat, n: nat)
    requires j + 1 < n <= |ops| < |run| && WaitInv(run, ops, t, j, n - 1) && At(run[n], t).Outside?
    requires OpStep(run[n - 1], run[n], ops[n - 1])
    ensures t in run[n].timedOut ==> ops[j].1.d.Now? || (ops[j].1.d.Timed? && TimeUp(ops, t, j, n))
    ensures t !in run[n].timedOut ==> SawEmpty(run, ops, t, j, n)
  {
    var s, op := run[n - 1], ops[n - 1].1;
    assert ops[n - 1].0 == t;
    if At(s, t).Waker? { WakerStep(s, t, op); } else { WaiterStep(s, t, op, ops[j].1.d); }
    if SawEmpty(run, ops, t, j, n - 1) || FindsEmptyAt(run, ops, t, n - 1) { SawEmptyLonger(run, ops, t, j, n); }
    if TimeUp(ops, t, j, n - 1) { TimeUpLonger(ops, t, j, n); }
  }

  /** How a wait may be blocked: never if it was made with the timeout now, under its limit until that is up, and
      without a limit if it was made without one. */
  lemma BlockTheorem(run: seq<State>, ops: seq<(Thread, Op)>, t: Thread, j: nat, n: nat)
    requires Call(run, ops, t, j, n) && ops[j].1.Wait? && Blocked(At(run[n], t))
    ensures !ops[j].1.d.Now?
    ensures ops[j].1.d.Timed? ==> At(run[n], t).w.KernelTimed? || TimeUp(ops, t, j, n)
    ensures ops[j].1.d.Forever? ==> At(run[n], t).w.KernelForever?
  {
    WaitCall(run, ops, t, j, n);
  }

  /** Between steps `i` and `n`, thread `t` found no waiter left to be woken, and a wakeup was on its way. */
  ghost predicate SawWakeup(run: seq<State>, ops: seq<(Thread, Op)>, t: Thread, i: nat, n: nat)
    requires n <= |ops| < |run|
  {
    exists k :: i < k < n && ops[k] == (t, Go) && run[k].waiters == 0 && run[k].tokens + |run[k].posts| > 0
  }

  predicate Leaving(c: PC) { c.Waiter? && GivesUp(c.w) }

  lemma LeavingStep(s: State, s': State, o: (Thread, Op), t: Thread)
    requires OpStep(s, s', o) && Leaving(At(s, t))
    ensures At(s', t).Outside? || Leaving(At(s', t)) || (o == (t, Go) && s.waiters == 0)
  {
    if o.0 == t {
      match At(s, t).w
      case ReadWaiters =>
      case UndoWaiters(_) =>
    }
  }

  lemma SawWakeupLonger(run: seq<State>, ops: seq<(Thread, Op)>, t: Thread, i: nat, n: nat)
    requires i < n < |ops| < |run| && SawWakeup(run, ops, t, i, n)
    ensures SawWakeup(run, ops, t, i, n + 1)
  {
    var k :| i < k < n && ops[k] == (t, Go) && run[k].waiters == 0 && run[k].tokens + |run[k].posts| > 0;
    assert i < k < n + 1;
  }

  /** A wait whose time is up blocks again only to drain a wakeup on its way. */
  lemma {:induction false} DrainTheorem(run: seq<State>, ops: seq<(Thread, Op)>, t: Thread, i: nat, n: nat)
    requires OpRun(run, ops) && i < n <= |ops| && ops[i] == (t, Unblock(Sem.TimedOut))
    requires forall k | i < k <= n :: !At(run[k], t).Outside?
    ensures Leaving(At(run[n], t)) || SawWakeup(run, ops, t, i, n)
    ensures Blocked(At(run[n], t)) ==> SawWakeup(run, ops, t, i, n)
    decreases n
  {
    var m := n - 1;
    assert StepAt(run, ops, m);
    if i == m {
      UpStep(run[m], run[n], t);
    } else {
      DrainTheorem(run, ops, t, i, m);
      if SawWakeup(run, ops, t, i, m) { SawWakeupLonger(run, ops, t, i, m); } else {
        LeavingStep(run[m], run[n], ops[m], t);
        WakeupAt(run, ops, t, m);
      }
    }
  }

  lemma UpStep(s: State, s': State, t: Thread)
    requires OpStep(s, s', (t, Unblock(Sem.TimedOut)))
    ensures Leaving(At(s', t))
  {
  }

  lemma WakeupAt(run: seq<State>, ops: seq<(Thread, Op)>, t: Thread, n: nat)
    requires OpRun(run, ops) && n < |run| && Leaving(At(run[n], t))
    ensures run[n].waiters == 0 ==> run[n].tokens + |run[n].posts| > 0
  {
    RunOf(run, ops);
    RunInv(run, n);
    Wakeup(run[n], t);
  }

  lemma Wakeup(s: State, t: Thread)
    requires WaitingInv(s) && CountInv(s) && Leaving(At(s, t))
    ensures s.waiters == 0 ==> s.tokens + |s.posts| > 0
  {
    assert t in s.waiting && |s.waiting - {t}| == |s.waiting| - 1;
  }

  lemma RunOf(run: seq<State>, ops: seq<(Thread, Op)>)
    requires OpRun(run, ops)
    ensures IsRun(run)
  {
    forall i | 0 <= i < |run| - 1 ensures Step(run[i], run[i + 1]) { assert StepAt(run, ops, i); }
  }

  // ------------------------------------------------------------------ counting

  /** How many of the operations are enters, less those that are leaves. */
  function Outstanding(ops: seq<(Thread, Op)>): int {
    if ops == [] then 0 else
      var op := ops[|ops| - 1].1;
      Outstanding(ops[..|ops| - 1]) + (if op.Enter? then 1 else if op.Leave? then -1 else 0)
  }

  lemma ValueStep(s: State, t: Thread, op: Op)
    requires Enabled(s, t, op)
    ensures Next(s, t, op).value == s.value - (if op.Enter? then 1 else if op.Leave? then -1 else 0)
  {
    if op.Go? {
      match At(s, t)
      case Waiter(w) =>
      case Notifier(n) =>
      case Waker(k) =>
      case LeaveCheck =>
    }
  }

  /** The value counts down the work that was entered and not left, and nothing else moves it: the group is empty
      exactly when all that entered has left. */
  lemma {:induction false} CountTheorem(run: seq<State>, ops: seq<(Thread, Op)>, n: nat)
    requires OpRun(run, ops) && n <= |ops|
    ensures run[n].value == ORIG - Outstanding(ops[..n]) && (run[n].value == ORIG <==> Outstanding(ops[..n]) == 0)
    decreases n
  {
    if n > 0 {
      CountTheorem(run, ops, n - 1);
      assert StepAt(run, ops, n - 1);
      ValueStep(run[n - 1], ops[n - 1].0, ops[n - 1].1);
      assert ops[..n][..n - 1] == ops[..n - 1];
    }
  }

  // ------------------------------------------------------------------ notifying

  lemma LogStep(s: State, t: Thread, op: Op)
    requires Enabled(s, t, op)
    ensures Next(s, t, op).log == if op.Go? && IsExchange(At(s, t)) then s.log + [At(s, t).n.item] else s.log
  {
    if op.Go? {
      match At(s, t)
      case Waiter(w) =>
      case Notifier(n) =>
      case Waker(k) =>
      case LeaveCheck =>
    }
  }

  /** The steps of thread `t` from `j` up to state `n`, except step `k`, leave the list of notifications alone. */
  ghost predicate AppendsOnlyAt(run: seq<State>, ops: seq<(Thread, Op)>, t: Thread, j: nat, n: nat, k: nat)
    requires n <= |ops| < |run|
  {
    forall i | j <= i < n && i != k && ops[i].0 == t :: run[i + 1].log == run[i].log
  }

  /** What a step means for a notification of thread `t`. */
  ghost predicate Notes(s: State, s': State, o: (Thread, Op), t: Thread) {
    if o.0 != t then At(s', t) == At(s, t)
    else if IsExchange(At(s, t)) then s'.log == s.log + [At(s, t).n.item] && !IsExchange(At(s', t))
    else s'.log == s.log && (IsExchange(At(s', t)) <==> o.1.Notify?) && NotesStart(s, s', o)
  }

  ghost predicate NotesStart(s: State, s': State, o: (Thread, Op)) {
    o.1.Notify? ==> At(s, o.0).Outside? && At(s', o.0) == Notifier(Exchange(o.1.item))
  }

  lemma NotifierStep(s: State, s': State, o: (Thread, Op), t: Thread)
    requires OpStep(s, s', o)
    ensures Notes(s, s', o, t)
  {
    LogStep(s, o.0, o.1);
    if o.1.Go? && o.0 == t {
      match At(s, t)
      case Waiter(w) =>
      case Notifier(n) =>
      case Waker(k) =>
      case LeaveCheck =>
    }
  }

  /** What the call has done at state `n`, if `k` is the step at which it appends, or `n` if that is still to come. */
  ghost predicate NotifyInv(run: seq<State>, ops: seq<(Thread, Op)>, t: Thread, j: nat, n: nat, k: nat, x: Item)
    requires n <= |ops| < |run|
  {
    && j < k <= n && AppendsOnlyAt(run, ops, t, j, n, k)
    && (k == n ==> At(run[n], t) == Notifier(Exchange(x)))
    && (k < n ==> ops[k].0 == t && run[k + 1].log == run[k].log + [x] && !IsExchange(At(run[n], t)))
  }

  lemma NotifyOn(run: seq<State>, ops: seq<(Thread, Op)>, t: Thread, j: nat, n: nat, k: nat, x: Item)
    requires j + 1 < n <= |ops| < |run| && NotifyInv(run, ops, t, j, n - 1, k, x)
    requires Notes(run[n - 1], run[n], ops[n - 1], t) && !At(run[n - 1], t).Outside?
    ensures NotifyInv(run, ops, t, j, n, if k == n - 1 && ops[n - 1].0 != t then n else k, x)
  {
  }

  lemma NotifyBegins(run: seq<State>, ops: seq<(Thread, Op)>, t: Thread, j: nat)
    requires j < |ops| < |run| && Notes(run[j], run[j + 1], ops[j], t) && ops[j].0 == t && ops[j].1.Notify?
    requires At(run[j], t).Outside?
    ensures NotifyInv(run, ops, t, j, j + 1, j + 1, ops[j].1.item)
  {
  }

  lemma {:induction false} NotifyCall(run: seq<State>, ops: seq<(Thread, Op)>, t: Thread, j: nat, n: nat)
      returns (k: nat)
    requires j < n <= |ops| < |run| && ops[j].0 == t && ops[j].1.Notify? && At(run[j], t).Outside?
    requires forall i | j <= i < n :: Notes(run[i], run[i + 1], ops[i], t)
    requires forall i | j < i < n :: !At(run[i], t).Outside?
    ensures NotifyInv(run, ops, t, j, n, k, ops[j].1.item)
    decreases n
  {
    if j == n - 1 {
      NotifyBegins(run, ops, t, j);
      return n;
    }
    k := NotifyCall(run, ops, t, j, n - 1);
    NotifyOn(run, ops, t, j, n, k, ops[j].1.item);
    if k == n - 1 && ops[n - 1].0 != t { k := n; }
  }

  /** dispatch_group_notify appends its notification to the list exactly once before it returns. */
  lemma NotifyTheorem(run: seq<State>, ops: seq<(Thread, Op)>, t: Thread, j: nat, n: nat) returns (k: nat)
    requires Returned(run, ops, t, j, n) && ops[j].1.Notify?
    ensures j < k < n && ops[k].0 == t && run[k + 1].log == run[k].log + [ops[j].1.item]
    ensures AppendsOnlyAt(run, ops, t, j, n, k)
  {
    forall i | j <= i < n ensures Notes(run[i], run[i + 1], ops[i], t) {
      assert StepAt(run, ops, i);
      NotifierStep(run[i], run[i + 1], ops[i], t);
    }
    assert StepAt(run, ops, j);
    k := NotifyCall(run, ops, t, j, n);
  }

  // ------------------------------------------------------------------ progress

  /** The thread waits for a notifier that has put its node behind this one and has yet to store the link. */
  predicate AwaitsLink(s: State, c: PC) {
    c.Waker? && (c.k.ReadNext? || c.k.CasTail?) && c.k.item !in s.next && s.tail != Some(c.k.item)
  }

  predicate Settled(s: State, t: Thread) { At(s, t).Outside? || Blocked(At(s, t)) || AwaitsLink(s, At(s, t)) }

  /** The state after `k` steps of thread `t` alone, or fewer if it settles before. */
  ghost function Alone(s: State, t: Thread, k: nat): State
    decreases k
  {
    if k == 0 || Settled(s, t) then s else Alone(Next(s, t, Go), t, k - 1)
  }

  /** How many steps are left of a walk, and of a whole wakeup, if no other thread interferes. */
  function WalkLeft(s: State): nat
    requires s.lo <= |s.log|
  {
    4 * (|s.log| - s.lo)
  }

  function WakeLeft(s: State): nat
    requires s.lo <= |s.log| && s.waiters >= 0
  {
    WalkLeft(s) + s.waiters + 3
  }

  function WakerLeft(s: State, k: WakePC): nat
    requires s.lo <= |s.log| && s.waiters >= 0 && (k.ReadNext? || k.CasTail? ==> s.lo < |s.log|)
  {
    match k
    case TakeHead => WakeLeft(s)
    case TakeWaiters(_) => WalkLeft(s) + s.waiters + 1
    case Post(n, _) => WalkLeft(s) + n
    case Submit(_) => WalkLeft(s)
    case ReadNext(_) => WalkLeft(s) - 1
    case CasTail(x) => if x in s.next then WalkLeft(s) else WalkLeft(s) - 3
  }

  function StepsLeft(s: State, t: Thread): nat
    requires s.lo <= |s.log| && s.waiters >= 0 && (After(At(s, t)) ==> s.lo < |s.log|)
  {
    match At(s, t)
    case Outside => 0
    case LeaveCheck => WakeLeft(s) + 1
    case Waiter(w) =>
      (match w
       case FirstCheck(_) => WakeLeft(s) + 5
       case Check(_) => WakeLeft(s) + 4
       case AddWaiter(_) => WakeLeft(s) + 3
       case Recheck(_) => WakeLeft(s) + 1
       case ReadWaiters => 2
       case UndoWaiters(seen) => if s.waiters == seen then 1 else 3
       case _ => 0)
    case Notifier(n) =>
      (match n
       case Exchange(_) => WakeLeft(s) + 8
       case OwesLink(_, _, _) => 1
       case OwesHead(_) => WakeLeft(s) + 2
       case NotifyCheck => WakeLeft(s) + 1)
    case Waker(k) => WakerLeft(s, k)
  }

  /** What the count of steps needs from the invariant. */
  ghost predicate Sized(s: State, t: Thread) {
    && s.lo <= |s.log| && s.waiters >= 0
    && (Before(At(s, t)) || After(At(s, t)) ==> s.lo < |s.log|)
    && (At(s, t).Waker? && At(s, t).k.Post? ==> At(s, t).k.n > 0)
  }

  lemma IsSized(s: State, t: Thread)
    requires Inv(s)
    ensures Sized(s, t)
  {
    assert Before(At(s, t)) || After(At(s, t)) ==> s.phase == Walking(t) && WalkAt(s, At(s, t));
  }

  lemma WakerCloser(s: State, t: Thread)
    requires Sized(s, t) && !Settled(s, t) && Sized(Next(s, t, Go), t) && At(s, t).Waker?
    ensures StepsLeft(Next(s, t, Go), t) < StepsLeft(s, t)
  {
    match At(s, t).k
    case TakeHead =>
    case TakeWaiters(_) =>
    case Post(_, _) =>
    case Submit(_) =>
    case ReadNext(x) => if x in s.next {} else {}
    case CasTail(x) => if x in s.next {} else {}
  }

  lemma Closer(s: State, t: Thread)
    requires Sized(s, t) && !Settled(s, t) && Sized(Next(s, t, Go), t)
    ensures StepsLeft(Next(s, t, Go), t) < StepsLeft(s, t)
  {
    match At(s, t)
    case Waiter(w) =>
    case Notifier(n) =>
    case Waker(k) => WakerCloser(s, t);
    case LeaveCheck =>
  }

  /** No call loops on its own: a thread that is not interfered with returns, blocks, or comes to wait for the link of
      another notifier, within a number of steps given by the list and the waiters. */
  lemma {:induction false} AloneTheorem(s: State, t: Thread)
    requires Inv(s)
    ensures Sized(s, t) && Settled(Alone(s, t, StepsLeft(s, t)), t)
    decreases if Sized(s, t) then StepsLeft(s, t) else 0
  {
    IsSized(s, t);
    if !Settled(s, t) {
      Onward(s, t);
      var s' := Next(s, t, Go);
      AloneTheorem(s', t);
      Longer(s', t, StepsLeft(s', t), StepsLeft(s, t) - 1);
    }
  }

  lemma Onward(s: State, t: Thread)
    requires Inv(s) && Sized(s, t) && !Settled(s, t)
    ensures Inv(Next(s, t, Go)) && Sized(Next(s, t, Go), t) && StepsLeft(Next(s, t, Go), t) < StepsLeft(s, t)
  {
    StepInv(s, t, Go);
    IsSized(Next(s, t, Go), t);
    Closer(s, t);
  }

  lemma {:induction false} Longer(s: State, t: Thread, k: nat, m: nat)
    requires k <= m && Settled(Alone(s, t, k), t)
    ensures Alone(s, t, m) == Alone(s, t, k)
    decreases k
  {
    if !Settled(s, t) { Longer(Next(s, t, Go), t, k - 1, m - 1); }
  }
}
