/**
 Dispatch groups (libdispatch/src/semaphore.c): enter and leave count on a semaphore whose value
 starts at its original value, waiters block on the kernel semaphore, and notifications hang on a
 multi-producer list that the thread which finds the group empty walks while others append to it.
 One action is one atomic operation of one thread.
*/
module Group {
  import opened Options
  import opened ProducerList
  import Sem = Semaphore

  /** dispatch_group_create: LONG_MAX. */
  const ORIG: int := 0x7fff_ffff_ffff_ffff

  datatype WaitPC =
    | FirstCheck(d: Sem.Timeout)
    | Check(d: Sem.Timeout)
    | AddWaiter(d: Sem.Timeout)
    | Recheck(d: Sem.Timeout)
    | KernelTimed
    | ReadWaiters
    | UndoWaiters(seen: int)
    | KernelForever(d: Sem.Timeout)

  datatype NotifyPC =
    | Exchange(item: Item)
    | OwesLink(prev: Item, item: Item, at: int)
    | OwesHead(item: Item)
    | NotifyCheck

  /** _dispatch_group_wake; `first` is the list taken from the head. */
  datatype WakePC =
    | TakeHead
    | TakeWaiters(first: Option<Item>)
    | Post(n: nat, first: Option<Item>)
    | Submit(item: Item)
    | ReadNext(item: Item)
    | CasTail(item: Item)

  datatype PC = Outside | LeaveCheck | Waiter(w: WaitPC) | Notifier(n: NotifyPC) | Waker(k: WakePC)

  datatype Phase = Empty | Ready | Walking(walker: Thread) | HeadOwed(producer: Thread)

  datatype State = State(
    value: int,
    waiters: int,
    head: Option<Item>,
    tail: Option<Item>,
    next: Links,
    tokens: nat,                  // the kernel semaphore
    pc: map<Thread, PC>,
    // history
    log: seq<Item>,               // notifications in the order of their tail exchanges
    submitted: seq<Item>,         // notifications handed to their queues, in order
    lo: nat,                      // list nodes already left behind by a walk
    phase: Phase,
    debtor: map<int, Thread>,
    waiting: set<Thread>,         // threads that added themselves to the waiters and still wait
    posts: set<(Thread, nat)>,    // kernel posts owed by wakers
    waitCarer: Thread,            // the thread that last had to look after the waiters
    listCarer: Thread,            // the thread that last had to look after the notifications
    covered: nat,                 // the notifications on the list when the group was last empty
    lateEnters: bool,             // whether the client enters an empty group while it is being woken
    timedOut: set<Thread>)        // threads whose last wait returned a timeout

  datatype Op =
    | Enter
    | Leave
    | Wait(d: Sem.Timeout)
    | Notify(item: Item)
    | Go
    | Unblock(how: Sem.Wake)

  function At(s: State, t: Thread): PC {
    if t in s.pc then s.pc[t] else Outside
  }

  ghost predicate Init(s: State) {
    s == State(ORIG, 0, None, None, s.next, 0, map[], [], [], 0, Empty, map[], {}, {}, 0, 0, 0, s.lateEnters, {})
  }

  predicate Blocked(c: PC) { c.Waiter? && (c.w.KernelTimed? || c.w.KernelForever?) }

  /** A node that malloc may return: not in the list and not in the hands of another notifier. */
  ghost predicate Free(s: State, x: Item)
    requires s.lo <= |s.log|
  {
    x !in s.log[s.lo..] && forall t :: At(s, t).Notifier? && At(s, t).n.Exchange? ==> At(s, t).n.item != x
  }

  /** No thread is inside _dispatch_group_wake. */
  ghost predicate Unwoken(s: State) { forall t :: !At(s, t).Waker? }

  /** Enter and leave are balanced by the client, and fewer than LONG_MAX enters are outstanding. */
  ghost predicate Enabled(s: State, t: Thread, op: Op) {
    var c := At(s, t);
    match op
    case Enter => c.Outside? && s.value > 0 && (s.value == ORIG ==> s.lateEnters || Unwoken(s))
    case Leave => c.Outside? && s.value < ORIG
    case Wait(_) => c.Outside?
    case Notify(x) => c.Outside? && s.lo <= |s.log| && Free(s, x)
    case Go => !c.Outside? && !Blocked(c)
    case Unblock(how) => Blocked(c) && (how.Token? ==> s.tokens > 0) && (how.TimedOut? ==> c.w.KernelTimed?)
  }

  // ------------------------------------------------------------------ waiting

  function WaitEffect(s: State, t: Thread, w: WaitPC): (r: State)
    ensures r == s.(waiters := r.waiters, waiting := r.waiting, waitCarer := r.waitCarer, timedOut := r.timedOut)
  {
    match w
    case FirstCheck(d) => if s.value != ORIG && d.Now? then s.(timedOut := s.timedOut + {t}) else s
    case AddWaiter(_) => s.(waiters := s.waiters + 1, waiting := s.waiting + {t}, waitCarer := t)
    case Recheck(_) => if s.value == ORIG then s.(waiting := s.waiting - {t}) else s
    case UndoWaiters(seen) =>
      if s.waiters != seen then s
      else s.(waiters := s.waiters - 1, waiting := s.waiting - {t}, timedOut := s.timedOut + {t})
    case _ => s
  }

  function WaitDest(s: State, w: WaitPC): PC {
    match w
    case FirstCheck(d) => if s.value == ORIG || d.Now? then Outside else Waiter(Check(d))
    case Check(d) => if s.value == ORIG then Waker(TakeHead) else Waiter(AddWaiter(d))
    case AddWaiter(d) => Waiter(Recheck(d))
    case Recheck(d) =>
      if s.value == ORIG then Waker(TakeHead)
      else if d.Timed? then Waiter(KernelTimed) else Waiter(KernelForever(d))
    case ReadWaiters => if s.waiters != 0 then Waiter(UndoWaiters(s.waiters)) else Waiter(KernelForever(Sem.Timed))
    case UndoWaiters(seen) => if s.waiters == seen then Outside else Waiter(ReadWaiters)
    case _ => Waiter(w)
  }

  function UnblockEffect(s: State, t: Thread, how: Sem.Wake): (r: State)
    ensures r == s.(tokens := r.tokens, waiting := r.waiting)
  {
    match how
    case Token => s.(tokens := if s.tokens > 0 then s.tokens - 1 else 0, waiting := s.waiting - {t})
    case Spurious => s.(waiting := s.waiting - {t})
    case TimedOut => s
  }

  function UnblockDest(c: PC, how: Sem.Wake): PC {
    if how.TimedOut? then Waiter(ReadWaiters)
    else Waiter(Check(if c.Waiter? && c.w.KernelForever? then c.w.d else Sem.Timed))
  }

  // ------------------------------------------------------------------ notifying

  function NotifyEffect(s: State, t: Thread, n: NotifyPC): (r: State)
    ensures r == s.(head := r.head, tail := r.tail, next := r.next, log := r.log, phase := r.phase,
                    debtor := r.debtor, listCarer := r.listCarer, covered := r.covered)
  {
    match n
    case Exchange(x) =>
      var s1 := s.(tail := Some(x), log := s.log + [x], covered := if s.value == ORIG then |s.log| + 1 else s.covered);
      if s.tail.None? then s1.(phase := HeadOwed(t)) else s1.(debtor := s.debtor[|s.log| - 1 := t])
    case OwesLink(prev, x, at) => s.(next := s.next[prev := x], debtor := s.debtor - {at})
    case OwesHead(x) => s.(head := Some(x), phase := Ready, listCarer := t)
    case NotifyCheck => s
  }

  function NotifyDest(s: State, n: NotifyPC): PC {
    match n
    case Exchange(x) => if s.tail.None? then Notifier(OwesHead(x)) else Notifier(OwesLink(s.tail.value, x, |s.log| - 1))
    case OwesLink(_, _, _) => Outside
    case OwesHead(_) => Notifier(NotifyCheck)
    case NotifyCheck => if s.value == ORIG then Waker(TakeHead) else Outside
  }

  // ------------------------------------------------------------------ waking

  /** The kernel posts a waker owes after it took `n` waiters. */
  function Posts(t: Thread, n: nat): set<(Thread, nat)> {
    if n == 0 then {} else Posts(t, n - 1) + {(t, n - 1)}
  }

  function WakeEffect(s: State, t: Thread, k: WakePC): (r: State)
    ensures r == s.(head := r.head, tail := r.tail, waiters := r.waiters, tokens := r.tokens, submitted := r.submitted,
                    lo := r.lo, phase := r.phase, posts := r.posts)
  {
    match k
    case TakeHead => if s.head.None? then s else s.(head := None, phase := Walking(t))
    case TakeWaiters(_) => if s.waiters <= 0 then s.(waiters := 0)
      else s.(waiters := 0, posts := s.posts + Posts(t, s.waiters))
    case Post(n, _) => if n == 0 then s else s.(tokens := s.tokens + 1, posts := s.posts - {(t, n - 1)})
    case Submit(x) => s.(submitted := s.submitted + [x])
    case ReadNext(x) => if x in s.next then s.(lo := s.lo + 1) else s
    case CasTail(x) => if s.tail == Some(x) then s.(tail := None, phase := Empty, lo := s.lo + 1) else s
  }

  function Walk(first: Option<Item>): PC {
    if first.None? then Outside else Waker(Submit(first.value))
  }

  function WakeDest(s: State, k: WakePC): PC {
    match k
    case TakeHead => Waker(TakeWaiters(s.head))
    case TakeWaiters(first) => if s.waiters <= 0 then Walk(first) else Waker(Post(s.waiters, first))
    case Post(n, first) => if n <= 1 then Walk(first) else Waker(Post(n - 1, first))
    case Submit(x) => Waker(ReadNext(x))
    case ReadNext(x) => if x in s.next then Waker(Submit(s.next[x])) else Waker(CasTail(x))
    case CasTail(x) => if s.tail == Some(x) then Outside else Waker(ReadNext(x))
  }

  // ------------------------------------------------------------------ steps

  ghost function Effect(s: State, t: Thread, op: Op): State
    requires Enabled(s, t, op)
  {
    match op
    case Enter => s.(value := s.value - 1)
    case Leave =>
      s.(value := s.value + 1, waitCarer := t, listCarer := t,
         covered := if s.value + 1 == ORIG then |s.log| else s.covered)
    case Wait(_) => s.(timedOut := s.timedOut - {t})
    case Notify(x) => s.(next := s.next - {x})
    case Unblock(how) => UnblockEffect(s, t, how)
    case Go =>
      match At(s, t)
      case Waiter(w) => WaitEffect(s, t, w)
      case Notifier(n) => NotifyEffect(s, t, n)
      case Waker(k) => WakeEffect(s, t, k)
      case _ => s
  }

  ghost function Dest(s: State, t: Thread, op: Op): PC
    requires Enabled(s, t, op)
  {
    match op
    case Enter => Outside
    case Leave => LeaveCheck
    case Wait(d) => Waiter(FirstCheck(d))
    case Notify(x) => Notifier(Exchange(x))
    case Unblock(how) => UnblockDest(At(s, t), how)
    case Go =>
      match At(s, t)
      case Waiter(w) => WaitDest(s, w)
      case Notifier(n) => NotifyDest(s, n)
      case Waker(k) => WakeDest(s, k)
      case LeaveCheck => if s.value == ORIG then Waker(TakeHead) else Outside
      case Outside => Outside
  }

  ghost function Next(s: State, t: Thread, op: Op): (s': State)
    requires Enabled(s, t, op)
    ensures At(s', t) == Dest(s, t, op)
    ensures forall u :: u != t ==> At(s', u) == At(s, u)
  {
    Effect(s, t, op).(pc := s.pc[t := Dest(s, t, op)])
  }

  // ------------------------------------------------------------------ invariant

  /** The walker before and after it has submitted the node it stands on. */
  predicate Before(c: PC) {
    c.Waker? && (c.k.Submit? || ((c.k.TakeWaiters? || c.k.Post?) && c.k.first.Some?))
  }

  predicate After(c: PC) { c.Waker? && (c.k.ReadNext? || c.k.CasTail?) }

  function Node(c: PC): Item
    requires Before(c) || After(c)
  {
    if c.k.TakeWaiters? || c.k.Post? then c.k.first.value else c.k.item
  }

  ghost predicate WalkAt(s: State, c: PC) {
    && (Before(c) || After(c))
    && s.lo < |s.log| && Node(c) == s.log[s.lo]
    && |s.submitted| == (if After(c) then s.lo + 1 else s.lo)
  }

  ghost predicate PhaseInv(s: State) { ShapeInv(s) && OwnerInv(s) }

  /** What each phase means for the memory and for the thread it names. */
  ghost predicate ShapeInv(s: State) {
    && s.lo <= |s.log|
    && (s.phase.Empty? ==> s.tail.None? && s.lo == |s.log|)
    && (!s.phase.Empty? ==> s.lo < |s.log| && s.tail == Some(s.log[|s.log| - 1]))
    && (s.head.Some? <==> s.phase.Ready?)
    && (s.phase.Ready? ==> s.head == Some(s.log[s.lo]))
    && (s.phase.Walking? ==> WalkAt(s, At(s, s.phase.walker)))
    && (!s.phase.Walking? ==> |s.submitted| == s.lo)
    && (s.phase.HeadOwed? ==> At(s, s.phase.producer) == Notifier(OwesHead(s.log[s.lo])))
  }

  /** Nobody else touches the front of the list. */
  ghost predicate OwnerInv(s: State) {
    && (forall t :: Before(At(s, t)) || After(At(s, t)) ==> s.phase == Walking(t))
    && (forall t :: IsOwesHead(At(s, t)) ==> s.phase == HeadOwed(t))
  }

  predicate IsOwesHead(c: PC) { c.Notifier? && c.n.OwesHead? }
  predicate IsOwesLink(c: PC) { c.Notifier? && c.n.OwesLink? }
  predicate IsExchange(c: PC) { c.Notifier? && c.n.Exchange? }

  /** Notifications are submitted in the order of the list, each once. */
  ghost predicate OnceInv(s: State) { s.submitted <= s.log }

  ghost predicate ListInv(s: State) { Linked(s.log, s.next, s.lo, s.debtor) }

  ghost predicate DebtInv(s: State) {
    && (forall t :: IsOwesLink(At(s, t)) ==> Owes(s, t))
    && (forall p :: p in s.debtor ==> IsOwesLink(At(s, s.debtor[p])) && At(s, s.debtor[p]).n.at == p)
  }

  ghost predicate Owes(s: State, t: Thread)
    requires IsOwesLink(At(s, t))
  {
    var n := At(s, t).n;
    && n.at in s.debtor && s.debtor[n.at] == t
    && 0 <= n.at < |s.log| - 1 && s.log[n.at] == n.prev && s.log[n.at + 1] == n.item
  }

  ghost predicate PrivateInv(s: State)
    requires s.lo <= |s.log|
  {
    && (forall t :: IsExchange(At(s, t)) ==> At(s, t).n.item !in s.next && At(s, t).n.item !in s.log[s.lo..])
    && (forall t, u :: IsExchange(At(s, t)) && IsExchange(At(s, u)) && t != u ==> At(s, t).n.item != At(s, u).n.item)
  }

  predicate Waits(c: PC) {
    c.Waiter? && (c.w.Recheck? || c.w.KernelTimed? || c.w.ReadWaiters? || c.w.UndoWaiters? || c.w.KernelForever?)
  }

  predicate Owed(c: PC, i: nat) { c.Waker? && c.k.Post? && i < c.k.n }

  ghost predicate WaitingInv(s: State) { forall t :: t in s.waiting <==> Waits(At(s, t)) }
  ghost predicate PostsInv(s: State) { forall t: Thread, i: nat :: (t, i) in s.posts <==> Owed(At(s, t), i) }
  ghost predicate SetInv(s: State) { WaitingInv(s) && PostsInv(s) }

  /** Every waiter that may sleep has a kernel token, an owed post or a place in the count. */
  ghost predicate CountInv(s: State) {
    && 0 <= s.value <= ORIG && s.waiters >= 0
    && |s.waiting| <= s.tokens + |s.posts| + s.waiters
  }

  ghost predicate SeenInv(s: State) {
    && (forall t :: At(s, t).Waiter? && At(s, t).w.UndoWaiters? ==> At(s, t).w.seen > 0)
    && (forall t :: At(s, t).Waker? && At(s, t).k.Post? ==> At(s, t).k.n > 0)
  }

  predicate CaresForWaiters(c: PC) {
    c.LeaveCheck? || (c.Waiter? && c.w.Recheck?) || (c.Waker? && (c.k.TakeHead? || c.k.TakeWaiters?))
  }

  predicate CaresForList(c: PC) {
    c.LeaveCheck? || (c.Notifier? && c.n.NotifyCheck?) || (c.Waker? && c.k.TakeHead?)
  }

  /** When the group is empty, some thread is still going to look at what is left over. */
  ghost predicate CareInv(s: State) {
    && (s.value == ORIG && s.waiters > 0 ==> CaresForWaiters(At(s, s.waitCarer)))
    && (s.value == ORIG && s.phase.Ready? ==> CaresForList(At(s, s.listCarer)))
  }

  ghost predicate CoreInv(s: State) {
    PhaseInv(s) && OnceInv(s) && ListInv(s) && DebtInv(s) && PrivateInv(s)
  }

  /** Unless the client enters late, the group stays empty while it is being woken. */
  ghost predicate CoverInv(s: State) {
    && s.covered <= |s.log| && (s.value == ORIG ==> s.covered == |s.log|)
    && (!s.lateEnters ==> |s.submitted| <= s.covered)
    && (!s.lateEnters && s.value != ORIG ==> Unwoken(s))
  }

  ghost predicate Inv(s: State) {
    CoreInv(s) && SetInv(s) && CountInv(s) && SeenInv(s) && CareInv(s) && CoverInv(s)
  }

  lemma InitInv(s: State)
    requires Init(s)
    ensures Inv(s)
  {
    assert forall t :: At(s, t) == Outside;
  }

  // ------------------------------------------------------------------ preservation: waiters

  /** A step that leaves the value alone keeps a carer, or leaves it nothing to care for. */
  ghost predicate CareMove(s: State, e: State, t: Thread, c: PC, c': PC) {
    && e.value == s.value
    && (e.value == ORIG && e.waiters > 0 ==>
          || (e.waitCarer == t && CaresForWaiters(c'))
          || (e.waitCarer == s.waitCarer && s.waiters > 0 && (CaresForWaiters(c) ==> CaresForWaiters(c'))))
    && (e.value == ORIG && e.phase.Ready? ==>
          || (e.listCarer == t && CaresForList(c'))
          || (e.listCarer == s.listCarer && s.phase.Ready? && (CaresForList(c) ==> CaresForList(c'))))
  }

  lemma CareTake(s: State, t: Thread)
    requires Enabled(s, t, Go) && At(s, t).Waker? && (s.phase.Ready? ==> s.head.Some?)
    requires At(s, t).k.TakeHead? || At(s, t).k.TakeWaiters?
    ensures CareMove(s, Next(s, t, Go), t, At(s, t), At(Next(s, t, Go), t))
  {
    if At(s, t).k.TakeHead? {} else {}
  }

  lemma CareWalk(s: State, t: Thread)
    requires Enabled(s, t, Go) && At(s, t).Waker? && !At(s, t).k.TakeHead? && !At(s, t).k.TakeWaiters?
    ensures CareMove(s, Next(s, t, Go), t, At(s, t), At(Next(s, t, Go), t))
  {
  }

  lemma CareWake(s: State, t: Thread)
    requires Enabled(s, t, Go) && At(s, t).Waker? && (s.phase.Ready? ==> s.head.Some?)
    ensures CareMove(s, Next(s, t, Go), t, At(s, t), At(Next(s, t, Go), t))
  {
    if At(s, t).k.TakeHead? || At(s, t).k.TakeWaiters? { CareTake(s, t); } else { CareWalk(s, t); }
  }

  lemma CareWait(s: State, t: Thread)
    requires Enabled(s, t, Go) && At(s, t).Waiter?
    ensures CareMove(s, Next(s, t, Go), t, At(s, t), At(Next(s, t, Go), t))
  {
  }

  lemma CareGo(s: State, t: Thread)
    requires Enabled(s, t, Go) && (s.phase.Ready? ==> s.head.Some?)
    ensures CareMove(s, Next(s, t, Go), t, At(s, t), At(Next(s, t, Go), t))
  {
    match At(s, t)
    case Waiter(_) => CareWait(s, t);
    case Notifier(_) =>
    case Waker(_) => CareWake(s, t);
    case LeaveCheck =>
  }

  lemma CareStep(s: State, t: Thread, op: Op)
    requires CareInv(s) && s.value <= ORIG && Enabled(s, t, op) && (s.phase.Ready? ==> s.head.Some?)
    ensures CareInv(Next(s, t, op))
  {
    if op.Go? { CareGo(s, t); }
  }

  lemma SeenStep(s: State, t: Thread, op: Op)
    requires SeenInv(s) && s.waiters >= 0 && Enabled(s, t, op)
    ensures SeenInv(Next(s, t, op))
  {
  }

  /** What a step does to the counts of notifications. */
  ghost predicate CoverEffect(s: State, s': State, t: Thread) {
    && s'.value == s.value && s'.lateEnters == s.lateEnters
    && (|| (s'.log == s.log && s'.covered == s.covered)
        || (|s'.log| == |s.log| + 1 && s'.covered == (if s.value == ORIG then |s'.log| else s.covered)))
    && (|| s'.submitted == s.submitted
        || (At(s, t).Waker? && At(s, t).k.Submit? && |s'.submitted| == |s.submitted| + 1))
    && (At(s', t).Waker? ==> At(s, t).Waker? || s.value == ORIG)
  }

  lemma CoverWake(s: State, t: Thread)
    requires Enabled(s, t, Go) && At(s, t).Waker?
    ensures CoverEffect(s, Next(s, t, Go), t)
  {
    if At(s, t).k.Submit? {} else {}
  }

  lemma CoverNotify(s: State, t: Thread)
    requires Enabled(s, t, Go) && At(s, t).Notifier?
    ensures CoverEffect(s, Next(s, t, Go), t)
  {
    if At(s, t).n.Exchange? {} else {}
  }

  lemma CoverGo(s: State, t: Thread)
    requires Enabled(s, t, Go)
    ensures CoverEffect(s, Next(s, t, Go), t)
  {
    match At(s, t)
    case Waiter(_) =>
    case Notifier(_) => CoverNotify(s, t);
    case Waker(_) => CoverWake(s, t);
    case LeaveCheck =>
  }

  lemma CoverStep(s: State, t: Thread, op: Op)
    requires CoverInv(s) && s.value <= ORIG && Enabled(s, t, op)
    requires At(s, t).Waker? && At(s, t).k.Submit? ==> |s.submitted| < |s.log|
    ensures CoverInv(Next(s, t, op))
  {
    if op.Go? { CoverGo(s, t); }
  }

  lemma {:induction false} PostsAre(t: Thread, n: nat)
    ensures forall u: Thread, i: nat :: (u, i) in Posts(t, n) <==> u == t && i < n
    ensures |Posts(t, n)| == n
  {
    if n > 0 {
      PostsAre(t, n - 1);
      assert (t, n - 1) !in Posts(t, n - 1);
    }
  }

  lemma WaitingEffect(s: State, t: Thread, op: Op)
    requires Enabled(s, t, op) && (t in s.waiting <==> Waits(At(s, t)))
    ensures var s' := Next(s, t, op);
      s'.waiting == if Waits(At(s', t)) then s.waiting + {t} else s.waiting - {t}
  {
    if op.Go? {
      match At(s, t)
      case Waiter(w) => WaitingWait(s, t, w);
      case Notifier(n) =>
      case Waker(k) =>
      case LeaveCheck =>
    }
  }

  lemma WaitingWait(s: State, t: Thread, w: WaitPC)
    requires t in s.waiting <==> Waits(Waiter(w))
    requires !w.KernelTimed? && !w.KernelForever?
    ensures WaitEffect(s, t, w).waiting == if Waits(WaitDest(s, w)) then s.waiting + {t} else s.waiting - {t}
  {
    match w
    case FirstCheck(_) =>
    case Check(_) =>
    case AddWaiter(_) =>
    case Recheck(_) =>
    case ReadWaiters =>
    case UndoWaiters(_) =>
  }

  ghost predicate PostsMove(s: State, s': State, t: Thread, c': PC) {
    forall u: Thread, i: nat :: (u, i) in s'.posts <==> if u == t then Owed(c', i) else (u, i) in s.posts
  }

  lemma WakerPosts(s: State, t: Thread, k: WakePC)
    requires k.Post? ==> k.n > 0
    requires forall i: nat :: (t, i) in s.posts <==> Owed(Waker(k), i)
    ensures PostsMove(s, WakeEffect(s, t, k), t, WakeDest(s, k))
  {
    if s.waiters > 0 { PostsAre(t, s.waiters); }
  }

  lemma PostsEffect(s: State, t: Thread, op: Op)
    requires Enabled(s, t, op) && (At(s, t).Waker? && At(s, t).k.Post? ==> At(s, t).k.n > 0)
    requires forall i: nat :: (t, i) in s.posts <==> Owed(At(s, t), i)
    ensures PostsMove(s, Next(s, t, op), t, At(Next(s, t, op), t))
  {
    if op.Go? && At(s, t).Waker? {
      WakerPosts(s, t, At(s, t).k);
    } else {
      assert Next(s, t, op).posts == s.posts;
    }
  }

  lemma SetStep(s: State, t: Thread, op: Op)
    requires SetInv(s) && SeenInv(s) && Enabled(s, t, op)
    ensures SetInv(Next(s, t, op))
  {
    WaitingEffect(s, t, op);
    PostsEffect(s, t, op);
  }

  /** What the counts need to know about the thread that moves. */
  ghost predicate Counted(s: State, t: Thread) {
    var c := At(s, t);
    && (t in s.waiting <==> Waits(c))
    && (forall i: nat :: (t, i) in s.posts <==> Owed(c, i))
    && (c.Waiter? && c.w.UndoWaiters? ==> c.w.seen > 0)
    && (c.Waker? && c.k.Post? ==> c.k.n > 0)
  }

  lemma WaitCounts(s: State, t: Thread, w: WaitPC)
    requires CountInv(s) && Counted(s, t) && At(s, t) == Waiter(w)
    ensures CountInv(WaitEffect(s, t, w))
  {
    assert t !in s.waiting ==> |s.waiting + {t}| == |s.waiting| + 1;
    assert t in s.waiting ==> |s.waiting - {t}| == |s.waiting| - 1;
  }

  lemma UnblockCounts(s: State, t: Thread, how: Sem.Wake)
    requires CountInv(s) && Counted(s, t) && Enabled(s, t, Unblock(how))
    ensures CountInv(UnblockEffect(s, t, how))
  {
    assert t in s.waiting && |s.waiting - {t}| == |s.waiting| - 1;
  }

  lemma WakeCounts(s: State, t: Thread, k: WakePC)
    requires CountInv(s) && Counted(s, t) && At(s, t) == Waker(k)
    ensures CountInv(WakeEffect(s, t, k))
  {
    if k.TakeWaiters? && s.waiters > 0 {
      PostsAre(t, s.waiters);
      forall p | p in Posts(t, s.waiters) ensures p !in s.posts {
        assert p == (p.0, p.1);
      }
      assert |s.posts + Posts(t, s.waiters)| == |s.posts| + |Posts(t, s.waiters)|;
    } else if k.Post? {
      assert (t, k.n - 1) in s.posts;
      assert |s.posts - {(t, k.n - 1)}| == |s.posts| - 1;
    }
  }

  lemma CountStep(s: State, t: Thread, op: Op)
    requires CountInv(s) && Counted(s, t) && Enabled(s, t, op)
    ensures CountInv(Next(s, t, op))
  {
    var c := At(s, t);
    if op.Unblock? { UnblockCounts(s, t, op.how); }
    else if op.Go? && c.Waiter? { WaitCounts(s, t, c.w); }
    else if op.Go? && c.Waker? { WakeCounts(s, t, c.k); }
    assert CountInv(Effect(s, t, op));
  }

  // ------------------------------------------------------------------ preservation: the list

  /** What the walker can conclude from one read of its node's link or of the tail. */
  ghost predicate FrontExact(s: State, t: Thread) {
    After(At(s, t)) ==>
      var x := Node(At(s, t));
      && (s.tail == Some(x) <==> s.lo + 1 == |s.log|)
      && (x in s.next ==> s.lo + 1 < |s.log| && s.next[x] == s.log[s.lo + 1] && s.lo !in s.debtor)
  }

  lemma FrontIsExact(s: State, t: Thread)
    requires PhaseInv(s) && ListInv(s)
    ensures FrontExact(s, t)
  {
    if After(At(s, t)) {
      ReadLink(s.log, s.next, s.lo, s.debtor, s.lo);
      if s.lo + 1 < |s.log| { DistinctAt(s.log, s.lo, s.lo, |s.log| - 1); }
    }
  }

  lemma ShapeWalk(s: State, t: Thread)
    requires ShapeInv(s) && FrontExact(s, t) && Enabled(s, t, Go) && s.phase == Walking(t)
    requires After(At(s, t)) || (At(s, t).Waker? && At(s, t).k.Submit?)
    ensures ShapeInv(Next(s, t, Go))
  {
  }

  lemma ShapeTakeHead(s: State, t: Thread)
    requires ShapeInv(s) && Enabled(s, t, Go) && At(s, t) == Waker(TakeHead)
    ensures ShapeInv(Next(s, t, Go))
  {
  }

  /** Taking and waking the waiters does not touch the list. */
  lemma TakeEffect(s: State, t: Thread)
    requires Enabled(s, t, Go) && At(s, t).Waker? && (At(s, t).k.TakeWaiters? || At(s, t).k.Post?)
    ensures var s' := Next(s, t, Go);
      && s' == s.(waiters := s'.waiters, tokens := s'.tokens, posts := s'.posts, pc := s'.pc)
      && (Before(At(s, t)) ==> Before(At(s', t)) && Node(At(s', t)) == Node(At(s, t)))
  {
  }

  lemma ShapeTake(s: State, t: Thread)
    requires ShapeInv(s) && Enabled(s, t, Go) && At(s, t).Waker? && !After(At(s, t)) && !At(s, t).k.Submit?
    requires Before(At(s, t)) ==> s.phase == Walking(t)
    ensures ShapeInv(Next(s, t, Go))
  {
    if At(s, t).k.TakeHead? { ShapeTakeHead(s, t); } else { TakeEffect(s, t); }
  }

  lemma ShapeNotify(s: State, t: Thread)
    requires ShapeInv(s) && Enabled(s, t, Go) && At(s, t).Notifier?
    requires IsOwesHead(At(s, t)) ==> s.phase == HeadOwed(t)
    ensures ShapeInv(Next(s, t, Go))
  {
  }

  /** Steps that leave the list alone. */
  lemma ShapeFrame(s: State, s': State, t: Thread)
    requires ShapeInv(s) && (forall u :: u != t ==> At(s', u) == At(s, u))
    requires s'.lo == s.lo && s'.log == s.log && s'.head == s.head && s'.tail == s.tail && s'.phase == s.phase
    requires s'.submitted == s.submitted
    requires s.phase.Walking? ==> s.phase.walker != t
    requires s.phase.HeadOwed? ==> s.phase.producer != t
    ensures ShapeInv(s')
  {
  }

  lemma ShapeOther(s: State, t: Thread, op: Op)
    requires ShapeInv(s) && Enabled(s, t, op)
    requires op.Go? ==> !At(s, t).Waker? && !At(s, t).Notifier?
    ensures ShapeInv(Next(s, t, op))
  {
    ShapeFields(s, t, op);
    ShapeFrame(s, Next(s, t, op), t);
  }

  lemma ShapeFields(s: State, t: Thread, op: Op)
    requires Enabled(s, t, op) && (op.Go? ==> !At(s, t).Waker? && !At(s, t).Notifier?)
    ensures !At(s, t).Waker? && !At(s, t).Notifier?
    ensures var s' := Next(s, t, op);
      && s'.lo == s.lo && s'.log == s.log && s'.head == s.head && s'.tail == s.tail && s'.phase == s.phase
      && s'.submitted == s.submitted
  {
    if op.Go? {} else {}
  }

  /** How a step of `t` moves the ownership of the front. */
  ghost predicate OwnerEffect(s: State, s': State, t: Thread) {
    var c, c' := At(s, t), At(s', t);
    && (Before(c') || After(c') ==> s'.phase == Walking(t))
    && (IsOwesHead(c') ==> s'.phase == HeadOwed(t))
    && (s'.phase == s.phase || s.phase.Empty? || s.phase.Ready? || s.phase == Walking(t) || s.phase == HeadOwed(t))
  }

  lemma OwnerEffectWake(s: State, t: Thread)
    requires Enabled(s, t, Go) && At(s, t).Waker?
    requires s.head.Some? ==> s.phase.Ready?
    requires Before(At(s, t)) || After(At(s, t)) ==> s.phase == Walking(t)
    ensures OwnerEffect(s, Next(s, t, Go), t)
  {
    match At(s, t).k
    case TakeHead =>
    case TakeWaiters(_) =>
    case Post(_, _) =>
    case Submit(_) =>
    case ReadNext(_) =>
    case CasTail(_) =>
  }

  lemma OwnerEffectGo(s: State, t: Thread)
    requires Enabled(s, t, Go)
    requires (s.tail.None? ==> s.phase.Empty?) && (s.head.Some? ==> s.phase.Ready?)
    requires Before(At(s, t)) || After(At(s, t)) ==> s.phase == Walking(t)
    requires IsOwesHead(At(s, t)) ==> s.phase == HeadOwed(t)
    ensures OwnerEffect(s, Next(s, t, Go), t)
  {
    match At(s, t)
    case Waiter(_) =>
    case Notifier(_) =>
    case Waker(_) => OwnerEffectWake(s, t);
    case LeaveCheck =>
  }

  lemma HasOwnerEffect(s: State, t: Thread, op: Op)
    requires Enabled(s, t, op)
    requires s.tail.None? ==> s.phase.Empty?
    requires s.head.Some? ==> s.phase.Ready?
    requires Before(At(s, t)) || After(At(s, t)) ==> s.phase == Walking(t)
    requires IsOwesHead(At(s, t)) ==> s.phase == HeadOwed(t)
    ensures OwnerEffect(s, Next(s, t, op), t)
  {
    if op.Go? { OwnerEffectGo(s, t); }
  }

  lemma PhaseStep(s: State, t: Thread, op: Op)
    requires PhaseInv(s) && FrontExact(s, t) && Enabled(s, t, op)
    ensures PhaseInv(Next(s, t, op))
  {
    if op.Go? && At(s, t).Waker? {
      if After(At(s, t)) || At(s, t).k.Submit? { ShapeWalk(s, t); } else { ShapeTake(s, t); }
    }
    else if op.Go? && At(s, t).Notifier? { ShapeNotify(s, t); }
    else { ShapeOther(s, t, op); }
    HasOwnerEffect(s, t, op);
  }

  lemma OnceGo(s: State, t: Thread)
    requires Enabled(s, t, Go)
    ensures s.log <= Next(s, t, Go).log
    ensures Next(s, t, Go).submitted ==
      if At(s, t).Waker? && At(s, t).k.Submit? then s.submitted + [At(s, t).k.item] else s.submitted
  {
    match At(s, t)
    case Waiter(_) =>
    case Notifier(_) =>
    case Waker(k) => if k.Submit? {} else {}
    case LeaveCheck =>
  }

  lemma OnceFields(s: State, t: Thread, op: Op)
    requires Enabled(s, t, op)
    ensures s.log <= Next(s, t, op).log
    ensures Next(s, t, op).submitted ==
      if op.Go? && At(s, t).Waker? && At(s, t).k.Submit? then s.submitted + [At(s, t).k.item] else s.submitted
  {
    if op.Go? { OnceGo(s, t); }
  }

  lemma OnceStep(s: State, t: Thread, op: Op)
    requires OnceInv(s) && Enabled(s, t, op)
    requires At(s, t).Waker? && At(s, t).k.Submit? ==>
      |s.submitted| < |s.log| && s.log[|s.submitted|] == At(s, t).k.item
    ensures OnceInv(Next(s, t, op))
  {
    OnceFields(s, t, op);
  }

  /** What the list invariants depend on. */
  ghost function View(s: State): (seq<Item>, Links, nat, map<int, Thread>) { (s.log, s.next, s.lo, s.debtor) }

  ghost predicate LeavesNode(s: State, t: Thread, op: Op) {
    op.Go? && After(At(s, t))
        && (if At(s, t).k.ReadNext? then Node(At(s, t)) in s.next else s.tail == Some(Node(At(s, t))))
  }

  predicate Adds(c: PC, op: Op) { op.Go? && c.Notifier? && (c.n.Exchange? || c.n.OwesLink?) }

  lemma ListEffectNotify(s: State, t: Thread)
    requires Enabled(s, t, Go) && At(s, t).Notifier? && s.lo <= |s.log| && (s.tail.None? <==> s.lo == |s.log|)
    ensures var c, v := At(s, t), View(Next(s, t, Go));
      if c.n.Exchange? then v == (s.log + [c.n.item], s.next, s.lo, AddDebt(s.debtor, s.log, s.lo, t))
      else if c.n.OwesLink? then v == (s.log, s.next[c.n.prev := c.n.item], s.lo, s.debtor - {c.n.at})
      else v == View(s)
  {
  }

  lemma ListEffectWake(s: State, t: Thread)
    requires Enabled(s, t, Go) && !At(s, t).Notifier?
    ensures View(Next(s, t, Go)) == if LeavesNode(s, t, Go) then (s.log, s.next, s.lo + 1, s.debtor) else View(s)
  {
    if At(s, t).Waker? {} else {}
  }

  lemma ListEffectGo(s: State, t: Thread)
    requires Enabled(s, t, Go) && s.lo <= |s.log| && (s.tail.None? <==> s.lo == |s.log|)
    ensures var c, v := At(s, t), View(Next(s, t, Go));
      if Adds(c, Go) && c.n.Exchange? then v == (s.log + [c.n.item], s.next, s.lo, AddDebt(s.debtor, s.log, s.lo, t))
      else if Adds(c, Go) then v == (s.log, s.next[c.n.prev := c.n.item], s.lo, s.debtor - {c.n.at})
      else if LeavesNode(s, t, Go) then v == (s.log, s.next, s.lo + 1, s.debtor)
      else v == View(s)
  {
    if At(s, t).Notifier? { ListEffectNotify(s, t); } else { ListEffectWake(s, t); }
  }

  lemma ListEffect(s: State, t: Thread, op: Op)
    requires Enabled(s, t, op) && s.lo <= |s.log| && (s.tail.None? <==> s.lo == |s.log|)
    ensures var c, v := At(s, t), View(Next(s, t, op));
      if op.Notify? then v == (s.log, s.next - {op.item}, s.lo, s.debtor)
      else if Adds(c, op) && c.n.Exchange? then
        v == (s.log + [c.n.item], s.next, s.lo, AddDebt(s.debtor, s.log, s.lo, t))
      else if Adds(c, op) then v == (s.log, s.next[c.n.prev := c.n.item], s.lo, s.debtor - {c.n.at})
      else if LeavesNode(s, t, op) then v == (s.log, s.next, s.lo + 1, s.debtor)
      else v == View(s)
  {
    if op.Go? { ListEffectGo(s, t); }
  }

  lemma ListStepAdd(s: State, t: Thread, op: Op)
    requires PhaseInv(s) && ListInv(s) && PrivateInv(s) && Enabled(s, t, op) && (op.Notify? || Adds(At(s, t), op))
    requires IsOwesLink(At(s, t)) ==> Owes(s, t)
    ensures ListInv(Next(s, t, op))
  {
    ListEffect(s, t, op);
    var c := At(s, t);
    if op.Notify? {
      PreparePreservesLinked(s.log, s.next, s.next - {op.item}, s.lo, s.debtor, [op.item]);
    } else if c.n.Exchange? {
      ExchangePreservesLinked(s.log, s.next, s.lo, s.debtor, [c.n.item], t);
    } else {
      StoreLinkPreservesLinked(s.log, s.next, s.lo, s.debtor, c.n.at);
    }
  }

  lemma ListStep(s: State, t: Thread, op: Op)
    requires PhaseInv(s) && FrontExact(s, t) && ListInv(s) && PrivateInv(s) && Enabled(s, t, op)
    requires IsOwesLink(At(s, t)) ==> Owes(s, t)
    ensures ListInv(Next(s, t, op))
  {
    if op.Notify? || Adds(At(s, t), op) {
      ListStepAdd(s, t, op);
    } else {
      ListEffect(s, t, op);
      if LeavesNode(s, t, op) { AdvancePreservesLinked(s.log, s.next, s.lo, s.debtor); }
    }
  }

  /** A debt is made by a tail exchange and settled by the store of its link, and by nothing else. */
  lemma DebtEffect(s: State, t: Thread, op: Op)
    requires Enabled(s, t, op)
    ensures IsOwesLink(At(Next(s, t, op), t)) <==> op.Go? && IsExchange(At(s, t)) && s.tail.Some?
    ensures IsOwesLink(At(Next(s, t, op), t)) ==>
      At(Next(s, t, op), t) == Notifier(OwesLink(s.tail.value, At(s, t).n.item, |s.log| - 1))
    ensures IsOwesLink(At(s, t)) ==> Adds(At(s, t), op)
  {
  }

  lemma DebtStep(s: State, t: Thread, op: Op)
    requires s.lo <= |s.log| && (s.tail.None? <==> s.lo == |s.log|)
    requires s.tail.Some? ==> s.tail.value == s.log[|s.log| - 1]
    requires (forall p :: p in s.debtor ==> p < |s.log| - 1) && DebtInv(s) && Enabled(s, t, op)
    ensures DebtInv(Next(s, t, op))
  {
    ListEffect(s, t, op);
    DebtEffect(s, t, op);
    DebtOn(s, Next(s, t, op), t, At(s, t), Adds(At(s, t), op));
  }

  /** The debts of a state, if a step of thread `t` at `c` has added one, or paid one, or left them alone. */
  lemma DebtOn(s: State, s': State, t: Thread, c: PC, adds: bool)
    requires DebtInv(s) && c == At(s, t) && (forall u :: u != t ==> At(s', u) == At(s, u))
    requires s.lo <= |s.log| && (s.tail.None? <==> s.lo == |s.log|)
    requires s.tail.Some? ==> s.tail.value == s.log[|s.log| - 1]
    requires forall p :: p in s.debtor ==> p < |s.log| - 1
    requires adds ==> IsExchange(c) || IsOwesLink(c)
    requires if adds && IsExchange(c) then
               s'.log == s.log + [c.n.item] && s'.debtor == AddDebt(s.debtor, s.log, s.lo, t)
             else s'.log == s.log && s'.debtor == if adds then s.debtor - {c.n.at} else s.debtor
    requires IsOwesLink(c) ==> adds
    requires IsOwesLink(At(s', t)) <==> adds && IsExchange(c) && s.tail.Some?
    requires IsOwesLink(At(s', t)) ==> At(s', t) == Notifier(OwesLink(s.tail.value, c.n.item, |s.log| - 1))
    ensures DebtInv(s')
  {
    forall u | IsOwesLink(At(s', u)) ensures Owes(s', u) {
      if u != t { assert Owes(s, u); }
    }
  }

  ghost predicate PrivateAt(v: (seq<Item>, Links, nat, map<int, Thread>), x: Item) {
    v.2 <= |v.0| && x !in v.1 && x !in v.0[v.2..]
  }

  lemma PrivateStays(s: State, t: Thread, op: Op, u: Thread)
    requires PhaseInv(s) && ListInv(s) && PrivateInv(s) && Enabled(s, t, op)
    requires IsOwesLink(At(s, t)) ==> Owes(s, t)
    requires u != t && IsExchange(At(s, u))
    ensures PrivateAt(View(Next(s, t, op)), At(s, u).n.item)
  {
    ListEffect(s, t, op);
    var c, x := At(s, t), At(s, u).n.item;
    if LeavesNode(s, t, op) { assert s.log[s.lo + 1..] == s.log[s.lo..][1..]; }
    else if Adds(c, op) && c.n.Exchange? { PrivateLonger(s.log, s.lo, c.n.item, x); }
    else if Adds(c, op) { assert s.log[s.lo..][c.n.at - s.lo] == c.n.prev; }
  }

  lemma PrivateLonger(log: seq<Item>, lo: nat, y: Item, x: Item)
    requires lo <= |log| && x !in log[lo..] && x != y
    ensures x !in (log + [y])[lo..]
  {
    assert (log + [y])[lo..] == log[lo..] + [y];
  }

  /** A node gets into the hands of a notifier only fresh. */
  lemma PrivateNew(s: State, t: Thread, op: Op)
    requires s.lo <= |s.log| && (s.tail.None? <==> s.lo == |s.log|) && Enabled(s, t, op)
      && IsExchange(At(Next(s, t, op), t))
    ensures op.Notify? && Free(s, op.item) && At(Next(s, t, op), t).n.item == op.item
    ensures PrivateAt(View(Next(s, t, op)), op.item)
  {
    ListEffect(s, t, op);
  }

  lemma PrivateStep(s: State, t: Thread, op: Op)
    requires PhaseInv(s) && ListInv(s) && PrivateInv(s) && Enabled(s, t, op)
    requires IsOwesLink(At(s, t)) ==> Owes(s, t)
    requires Next(s, t, op).lo <= |Next(s, t, op).log|
    ensures PrivateInv(Next(s, t, op))
  {
    var s' := Next(s, t, op);
    if IsExchange(At(s', t)) { PrivateNew(s, t, op); }
    forall u | u != t && IsExchange(At(s', u)) ensures PrivateAt(View(s'), At(s', u).n.item) {
      PrivateStays(s, t, op, u);
    }
  }

  lemma OnceStepCore(s: State, t: Thread, op: Op)
    requires PhaseInv(s) && OnceInv(s) && Enabled(s, t, op)
    ensures OnceInv(Next(s, t, op))
  {
    assert Before(At(s, t)) ==> s.phase == Walking(t) && WalkAt(s, At(s, t));
    OnceStep(s, t, op);
  }

  lemma DebtStepCore(s: State, t: Thread, op: Op)
    requires ShapeInv(s) && ListInv(s) && DebtInv(s) && Enabled(s, t, op)
    ensures DebtInv(Next(s, t, op))
  {
    DebtStep(s, t, op);
  }

  lemma CoreStep(s: State, t: Thread, op: Op)
    requires CoreInv(s) && Enabled(s, t, op)
    ensures CoreInv(Next(s, t, op))
  {
    FrontIsExact(s, t);
    PhaseStep(s, t, op);
    OnceStepCore(s, t, op);
    ListStep(s, t, op);
    DebtStepCore(s, t, op);
    PrivateStep(s, t, op);
  }

  /** Every action of every thread preserves the invariant. */
  lemma StepInv(s: State, t: Thread, op: Op)
    requires Inv(s) && Enabled(s, t, op)
    ensures Inv(Next(s, t, op))
  {
    CoreStep(s, t, op);
    SetStep(s, t, op);
    CountStep(s, t, op);
    SeenStep(s, t, op);
    CareStep(s, t, op);
    CoverStep(s, t, op);
  }

  // ------------------------------------------------------------------ every run

  ghost predicate Step(s: State, s': State) {
    exists t, op :: Enabled(s, t, op) && s' == Next(s, t, op)
  }

  ghost predicate IsRun(run: seq<State>) {
    && run != [] && Init(run[0])
    && (forall i :: 0 <= i < |run| - 1 ==> Step(run[i], run[i + 1]))
  }

  lemma {:induction false} RunInv(run: seq<State>, n: nat)
    requires IsRun(run) && n < |run|
    ensures Inv(run[n])
  {
    if n == 0 {
      InitInv(run[0]);
    } else {
      RunInv(run, n - 1);
      assert Step(run[n - 1], run[n - 1 + 1]);
      var t, op :| Enabled(run[n - 1], t, op) && run[n] == Next(run[n - 1], t, op);
      StepInv(run[n - 1], t, op);
    }
  }

  /** Each notification is submitted at most once, and in the order in which the notifications
      were put on the list: what has been submitted is always an initial part of that order. */
  lemma OnceTheorem(run: seq<State>, n: nat)
    requires IsRun(run) && n < |run|
    ensures run[n].submitted <= run[n].log
  {
    RunInv(run, n);
  }

  /** Nobody can move: every thread is outside or asleep on an empty kernel semaphore. */
  ghost predicate AtRest(s: State) {
    && s.tokens == 0
    && forall t :: At(s, t).Outside? || Blocked(At(s, t))
  }

  lemma PostsAreOwed(s: State)
    requires PostsInv(s)
    ensures forall p :: p in s.posts ==> Owed(At(s, p.0), p.1)
  {
    forall p | p in s.posts ensures Owed(At(s, p.0), p.1) {
      assert p == (p.0, p.1);
    }
  }

  /** Nothing is stranded: once every leave has matched its enter and nothing moves any more, every
      notification has been submitted and no thread is asleep in dispatch_group_wait. */
  lemma CompletionTheorem(run: seq<State>, n: nat)
    requires IsRun(run) && n < |run| && AtRest(run[n]) && run[n].value == ORIG
    ensures run[n].submitted == run[n].log
    ensures forall t :: At(run[n], t).Outside?
    ensures run[n].head.None? && run[n].tail.None? && run[n].waiters == 0
  {
    RunInv(run, n);
    var s := run[n];
    assert s.phase.Empty?;
    PostsAreOwed(s);
    assert s.posts == {};
    assert s.waiting == {};
    assert forall t :: Blocked(At(s, t)) ==> t in s.waiting;
  }

  /** The walk only ever waits for a notifier that has already swung the tail. */
  lemma WalkTheorem(run: seq<State>, n: nat, t: Thread)
    requires IsRun(run) && n < |run| && After(At(run[n], t))
    ensures Node(At(run[n], t)) !in run[n].next && run[n].tail != Some(Node(At(run[n], t))) ==>
      exists u :: IsOwesLink(At(run[n], u)) && At(run[n], u).n.prev == Node(At(run[n], t))
    ensures forall u :: After(At(run[n], u)) || Before(At(run[n], u)) ==> u == t
  {
    RunInv(run, n);
    var s := run[n];
    FrontIsExact(s, t);
    if Node(At(s, t)) !in s.next && s.tail != Some(Node(At(s, t))) {
      ReadLink(s.log, s.next, s.lo, s.debtor, s.lo);
      var u := s.debtor[s.lo];
      assert IsOwesLink(At(s, u)) && Owes(s, u);
    }
  }

  // ------------------------------------------------------------------ early notifications

  function Last(run: seq<State>): State
    requires run != []
  {
    run[|run| - 1]
  }

  ghost predicate Reachable(s: State) { exists run :: IsRun(run) && Last(run) == s }

  lemma ReachStep(s: State, t: Thread, op: Op, s': State)
    requires Reachable(s) && Enabled(s, t, op) && s' == Next(s, t, op)
    ensures Reachable(s')
  {
    var run :| IsRun(run) && Last(run) == s;
    var longer := run + [s'];
    forall i | 0 <= i < |longer| - 1 ensures Step(longer[i], longer[i + 1]) {
      if i < |run| - 1 { assert Step(run[i], run[i + 1]); }
    }
    assert IsRun(longer) && Last(longer) == s';
  }

  /** Every notification that was submitted was on the list at some moment when the group was
      empty: none was submitted before the work it was to follow had finished. */
  ghost predicate Punctual(s: State) { |s.submitted| <= s.covered }

  function Start(): State {
    State(ORIG, 0, None, None, map[], 0, map[], [], [], 0, Empty, map[], {}, {}, 0, 0, 0, true, {})
  }

  /** Thread 1 enters and leaves, and finds the group empty. */
  function Scene1(): State {
    var s := Start();
    s.(value := ORIG, waitCarer := 1, listCarer := 1, pc := s.pc[1 := Outside][1 := LeaveCheck][1 := Waker(TakeHead)])
  }

  lemma Play1()
    requires Reachable(Start())
    ensures Reachable(Scene1())
  {
    var s0 := Start();
    var s1 := s0.(value := ORIG - 1, pc := s0.pc[1 := Outside]);
    ReachStep(s0, 1, Enter, s1);
    var s2 := s1.(value := ORIG, waitCarer := 1, listCarer := 1, pc := s1.pc[1 := LeaveCheck]);
    ReachStep(s1, 1, Leave, s2);
    var s3 := s2.(pc := s2.pc[1 := Waker(TakeHead)]);
    ReachStep(s2, 1, Go, s3);
    assert s3 == Scene1();
  }

  /** Before it takes the list, thread 2 enters and thread 3 registers notification 7. */
  function Scene2(): State {
    var s := Scene1();
    s.(value := ORIG - 1, tail := Some(7), log := [7], phase := Ready, head := Some(7), listCarer := 3,
      pc := s.pc[2 := Outside][3 := Notifier(Exchange(7))][3 := Notifier(OwesHead(7))][3 := Notifier(NotifyCheck)])
  }

  lemma Play2()
    requires Reachable(Scene1())
    ensures Reachable(Scene2())
  {
    var s0 := Scene1();
    var s1 := s0.(value := ORIG - 1, pc := s0.pc[2 := Outside]);
    ReachStep(s0, 2, Enter, s1);
    var s2 := s1.(pc := s1.pc[3 := Notifier(Exchange(7))]);
    ReachStep(s1, 3, Notify(7), s2);
    var s3 := s2.(tail := Some(7), log := [7], phase := HeadOwed(3), pc := s2.pc[3 := Notifier(OwesHead(7))]);
    ReachStep(s2, 3, Go, s3);
    var s4 := s3.(head := Some(7), phase := Ready, listCarer := 3, pc := s3.pc[3 := Notifier(NotifyCheck)]);
    ReachStep(s3, 3, Go, s4);
    assert s4 == Scene2();
  }

  /** Thread 1 takes the list and submits the notification. */
  function Scene3(): State {
    var s := Scene2();
    s.(head := None, phase := Walking(1), submitted := [7],
      pc := s.pc[1 := Waker(TakeWaiters(Some(7)))][1 := Waker(Submit(7))][1 := Waker(ReadNext(7))])
  }

  lemma Play3()
    requires Reachable(Scene2())
    ensures Reachable(Scene3())
  {
    var s0 := Scene2();
    var s1 := s0.(head := None, phase := Walking(1), pc := s0.pc[1 := Waker(TakeWaiters(Some(7)))]);
    ReachStep(s0, 1, Go, s1);
    var s2 := s1.(pc := s1.pc[1 := Waker(Submit(7))]);
    ReachStep(s1, 1, Go, s2);
    var s3 := s2.(submitted := [7], pc := s2.pc[1 := Waker(ReadNext(7))]);
    ReachStep(s2, 1, Go, s3);
    assert s3 == Scene3();
  }

  ghost predicate ReachableWith(s: State, late: bool) { Reachable(s) && s.lateEnters == late }

  /** Notifications are never submitted early, in any run, exactly when the client does not enter
      an empty group while another thread is still waking it: a thread that found the group empty
      takes the notification list without looking at the value again. */
  lemma PunctualExactly(late: bool)
    ensures (forall s :: ReachableWith(s, late) ==> Punctual(s)) <==> !late
  {
    if late {
      assert IsRun([Start()]) && Last([Start()]) == Start();
      Play1();
      Play2();
      Play3();
      assert ReachableWith(Scene3(), late);
    } else {
      forall s | ReachableWith(s, late) ensures Punctual(s) {
        var run :| IsRun(run) && Last(run) == s;
        RunInv(run, |run| - 1);
      }
    }
  }

  // ------------------------------------------------------------------ a discipline for clients

  /** A run together with the thread and the operation of each of its steps. */
  ghost predicate OpRun(run: seq<State>, ops: seq<(Thread, Op)>) {
    && |run| == |ops| + 1 && Init(run[0])
    && (forall i: nat | i < |ops| :: StepAt(run, ops, i))
  }

  ghost predicate StepAt(run: seq<State>, ops: seq<(Thread, Op)>, i: nat)
    requires i < |ops| < |run|
  {
    OpStep(run[i], run[i + 1], ops[i])
  }

  ghost predicate OpStep(s: State, s': State, o: (Thread, Op)) {
    Enabled(s, o.0, o.1) && s' == Next(s, o.0, o.1)
  }

  /** One of the first `n` operations is a leave or a notify. */
  predicate Begun(ops: seq<(Thread, Op)>, n: nat)
    requires n <= |ops|
  {
    exists i | 0 <= i < n :: ops[i].1.Leave? || ops[i].1.Notify?
  }

  /** The client uses the group once: it enters an empty group only before its first leave or notify. */
  ghost predicate OneUse(run: seq<State>, ops: seq<(Thread, Op)>)
    requires |run| == |ops| + 1
  {
    forall i | 0 <= i < |ops| && ops[i].1.Enter? && run[i].value == ORIG :: !Begun(ops, i)
  }

  /** Nobody wakes or is about to: only waiters are inside, and past their first test of a busy group. */
  ghost predicate Calm(s: State) {
    && s.value <= ORIG
    && forall t :: At(s, t).Outside? || (At(s, t).Waiter? && (At(s, t).w.FirstCheck? || s.value < ORIG))
  }

  lemma CalmStep(s: State, t: Thread, op: Op)
    requires Calm(s) && Enabled(s, t, op) && !op.Leave? && !op.Notify?
    ensures Calm(Next(s, t, op))
  {
    var s' := Next(s, t, op);
    assert s'.value <= s.value;
    assert At(s', t).Outside? || (At(s', t).Waiter? && (At(s', t).w.FirstCheck? || s'.value < ORIG));
  }

  lemma {:induction false} CalmRun(run: seq<State>, ops: seq<(Thread, Op)>, n: nat)
    requires OpRun(run, ops) && n <= |ops| && !Begun(ops, n)
    ensures Calm(run[n])
  {
    if n == 0 {
      assert forall t :: At(run[0], t) == Outside;
    } else {
      CalmRun(run, ops, n - 1);
      assert StepAt(run, ops, n - 1);
      CalmStep(run[n - 1], ops[n - 1].0, ops[n - 1].1);
    }
  }

  function Tamed(s: State): State { s.(lateEnters := false) }

  lemma TamedStep(s: State, t: Thread, op: Op)
    requires Enabled(s, t, op) && (op.Enter? && s.value == ORIG ==> Unwoken(s))
    ensures Enabled(Tamed(s), t, op) && Next(Tamed(s), t, op) == Tamed(Next(s, t, op))
  {
    assert forall u :: At(Tamed(s), u) == At(s, u);
    assert op.Enter? ==> (Unwoken(Tamed(s)) <==> Unwoken(s));
    if op.Notify? { assert Free(Tamed(s), op.item); }
    assert Effect(Tamed(s), t, op) == Tamed(Effect(s, t, op)) by { TamedEffect(s, t, op); }
  }

  lemma TamedEffect(s: State, t: Thread, op: Op)
    requires Enabled(s, t, op) && Enabled(Tamed(s), t, op)
    ensures Effect(Tamed(s), t, op) == Tamed(Effect(s, t, op)) && Dest(Tamed(s), t, op) == Dest(s, t, op)
  {
    if op.Go? { TamedGo(s, t); }
  }

  lemma TamedGo(s: State, t: Thread)
    requires Enabled(s, t, Go) && Enabled(Tamed(s), t, Go)
    ensures Effect(Tamed(s), t, Go) == Tamed(Effect(s, t, Go)) && Dest(Tamed(s), t, Go) == Dest(s, t, Go)
  {
    match At(s, t)
    case Waiter(w) =>
    case Notifier(n) => TamedNotify(s, t, n);
    case Waker(k) => TamedWake(s, t, k);
    case LeaveCheck =>
  }

  lemma TamedNotify(s: State, t: Thread, n: NotifyPC)
    ensures NotifyEffect(Tamed(s), t, n) == Tamed(NotifyEffect(s, t, n)) && NotifyDest(Tamed(s), n) == NotifyDest(s, n)
  {
  }

  lemma TamedWake(s: State, t: Thread, k: WakePC)
    ensures WakeEffect(Tamed(s), t, k) == Tamed(WakeEffect(s, t, k)) && WakeDest(Tamed(s), k) == WakeDest(s, k)
  {
  }

  /** A run that obeys the discipline never enters an empty group while it is being woken. */
  lemma OneUseTamed(run: seq<State>, ops: seq<(Thread, Op)>)
    requires OpRun(run, ops) && OneUse(run, ops)
    ensures IsRun(seq(|run|, i requires 0 <= i < |run| => Tamed(run[i])))
  {
    var tame := seq(|run|, i requires 0 <= i < |run| => Tamed(run[i]));
    forall i | 0 <= i < |tame| - 1 ensures Step(tame[i], tame[i + 1]) {
      var t, op := ops[i].0, ops[i].1;
      assert StepAt(run, ops, i);
      if op.Enter? && run[i].value == ORIG { CalmRun(run, ops, i); }
      TamedStep(run[i], t, op);
    }
  }

  lemma OpRunStep(run: seq<State>, ops: seq<(Thread, Op)>, s': State, o: (Thread, Op))
    requires OpRun(run, ops) && OpStep(run[|run| - 1], s', o)
    ensures OpRun(run + [s'], ops + [o])
  {
    var run', ops' := run + [s'], ops + [o];
    forall i | 0 <= i < |ops'| ensures OpStep(run'[i], run'[i + 1], ops'[i]) {
      if i < |ops| { assert StepAt(run, ops, i); }
    }
  }

  lemma {:induction false} OpsOf(run: seq<State>) returns (ops: seq<(Thread, Op)>)
    requires IsRun(run)
    ensures OpRun(run, ops)
  {
    if |run| == 1 { return []; }
    var n := |run| - 1;
    var prefix := run[..n];
    forall i | 0 <= i < |prefix| - 1 ensures Step(prefix[i], prefix[i + 1]) { assert Step(run[i], run[i + 1]); }
    var before := OpsOf(prefix);
    assert Step(run[n - 1], run[n - 1 + 1]);
    var t, op :| Enabled(run[n - 1], t, op) && run[n] == Next(run[n - 1], t, op);
    assert run == prefix + [run[n]];
    OpRunStep(prefix, before, run[n], (t, op));
    ops := before + [(t, op)];
  }

  /** The runs of a client that may, or may not, use a group again once it has left or been notified. */
  ghost predicate ClientRun(run: seq<State>, ops: seq<(Thread, Op)>, reuse: bool) {
    OpRun(run, ops) && run[0].lateEnters && (reuse || OneUse(run, ops))
  }

  /** A rule that clients can obey: notifications are never submitted early, in any run, exactly when
      no client enters an empty group again after the first leave or notify. */
  lemma OneUseExactly(reuse: bool)
    ensures (forall run, ops :: ClientRun(run, ops, reuse) ==> Punctual(Last(run))) <==> !reuse
  {
    if reuse {
      assert IsRun([Start()]) && Last([Start()]) == Start();
      Play1();
      Play2();
      Play3();
      var run :| IsRun(run) && Last(run) == Scene3();
      LateStays(run, |run| - 1);
      var ops := OpsOf(run);
      assert ClientRun(run, ops, reuse) && !Punctual(Last(run));
    } else {
      forall run, ops | ClientRun(run, ops, reuse) ensures Punctual(Last(run)) {
        OneUseTamed(run, ops);
        RunInv(seq(|run|, i requires 0 <= i < |run| => Tamed(run[i])), |run| - 1);
      }
    }
  }

  lemma {:induction false} LateStays(run: seq<State>, n: nat)
    requires IsRun(run) && n < |run|
    ensures run[n].lateEnters == run[0].lateEnters
  {
    if n > 0 {
      LateStays(run, n - 1);
      assert Step(run[n - 1], run[n - 1 + 1]);
    }
  }
}
