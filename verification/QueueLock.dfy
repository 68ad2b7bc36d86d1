/**
 One dispatch queue with its two control words: do_suspend_cnt (lock bit plus twice the
 number of suspensions) and dq_running (barrier bit plus twice the number of readers).
 The actions are those of _dispatch_wakeup, _dispatch_queue_invoke, _dispatch_queue_drain,
 _dispatch_queue_unlock, dispatch_sync_f, dispatch_barrier_sync_f with their slow forms,
 _dispatch_async_f_redirect, dispatch_suspend and dispatch_resume (libdispatch/src/queue.c,
 libdispatch/src/object.c). The item list is the FIFO that module SerialDrain implements;
 taking an item and putting it back are single steps here. `width` is dq_width: 1, or
 twice the number of readers allowed.
*/
module QueueLock {

  type Thread = nat
  type Target = nat

  datatype Item =
    | Async
    | Barrier
    | Retarget(q: Target)
    | SyncSlow(t: Thread)
    | BarrierSlow(t: Thread)

  /** What a thread does after _dispatch_wakeup. */
  datatype Ret = ToIdle | ToPushSync | ToWaitSync | ToWaitBarrier

  /** _dispatch_wakeup */
  datatype WakePC = WakeSuspended | WakeTail | WakeLock | WakePush

  /** dispatch_sync_f on a wide queue */
  datatype SyncPC = SyncTail | SyncSuspended | SyncAdd | Backoff | WaitSync | InReader

  /** dispatch_barrier_sync_f */
  datatype BarrierPC = BarTail | BarSuspended | BarLock | InFast | WaitBarrier | InSlow

  /** _dispatch_queue_invoke outside the drain; o is the target queue on entry. */
  datatype InvokePC =
    | InvSuspended(o: Target)
    | InvLock(o: Target)
    | InvPush(to: Target)
    | InvUnlock

  /** _dispatch_queue_invoke while it holds the barrier bit, _dispatch_queue_drain included. */
  datatype DrainPC =
    | DrainTail
    | DrainTake
    | DrainSuspended
    | DrainWidth
    | DrainTarget
    | DrainKind
    | DrainRun(ran: Item, more: bool)
    | DrainGrant(u: Thread, more: bool)
    | DrainHandOff(u: Thread, more: bool)
    | DrainRedirect(more: bool)
    | DrainPut
    | DrainEnd
    | InvRelease(moved: bool, to: Target)

  datatype PC =
    | Idle
    | Push(item: Item)
    | Waking(w: WakePC, r: Ret)
    | Sync(y: SyncPC)
    | Bar(b: BarrierPC)
    | Invoke(v: InvokePC)
    | Drain(d: DrainPC, o: Target)
    | IdleCheck             // the test of dq_running at the end of _dispatch_queue_invoke
    | InAsync               // _dispatch_async_f_redirect2

  /** Where the queue is with respect to its target queue. */
  datatype Token = NoToken | Pushing(p: Thread) | Listed(on: Target) | Invoking(who: Thread)

  datatype State = State(
    width: nat,
    // shared memory
    sus: int,
    run: int,
    items: seq<Item>,
    detached: bool,         // the item in the drainer's hand is no longer covered by the tail
    target: Target,
    lists: multiset<Target>,
    rootItems: nat,
    granted: set<Thread>,   // threads whose semaphore has been signalled
    pc: map<Thread, PC>,
    // history
    suspends: nat,          // balanced client suspensions
    queued: set<Thread>,    // threads whose slow-path item has not taken effect yet
    token: Token,
    locker: set<Thread>,    // the holder of the barrier bit
    readers: set<Thread>,   // threads whose 2 is in dq_running
    asyncThreads: set<Thread>,  // threads running a redirected item
    hand: set<Thread>,      // the drainer, between counting a redirected item and pushing it
    holders: set<Thread>,   // slow barrier syncs whose suspension is in do_suspend_cnt
    carer: Thread,          // the thread that last became responsible for a wakeup
    fast: bool, slow: bool) // entry paths used so far

  datatype Op =
    | Go
    | StartPush(item: Item)
    | StartSync
    | StartBarrierSync
    | Suspend
    | Resume
    | TakeFromTarget(q: Target)
    | TakeFromRoot

  function At(s: State, t: Thread): PC {
    if t in s.pc then s.pc[t] else Idle
  }

  predicate Suspended(s: State) { s.sus >= 2 }

  /** dq_items_tail is NULL. */
  predicate TailNull(s: State) { s.items == [] || (s.detached && |s.items| == 1) }

  predicate HasBarrierBit(i: Item) { i.Barrier? || i.Retarget? || i.BarrierSlow? }

  /** The thread that blocks until this item has been drained, if any. */
  function Waiter(i: Item): set<Thread> {
    if i.SyncSlow? || i.BarrierSlow? then {i.t} else {}
  }

  function RetOf(i: Item): Ret {
    if i.SyncSlow? then ToWaitSync else if i.BarrierSlow? then ToWaitBarrier else ToIdle
  }

  function Continue(t: Thread, r: Ret): PC {
    match r
    case ToIdle => Idle
    case ToPushSync => Push(SyncSlow(t))
    case ToWaitSync => Sync(WaitSync)
    case ToWaitBarrier => Bar(WaitBarrier)
  }

  /** After an item: the next one if it was already linked, else back to the tail test. */
  function NextItem(more: bool): DrainPC { if more then DrainTake else DrainTail }

  function WakeIf(zero: bool, r: Ret, otherwise: PC): PC {
    if zero then Waking(WakeSuspended, r) else otherwise
  }

  function Care(s: State, t: Thread, yes: bool): State { if yes then s.(carer := t) else s }

  // ------------------------------------------------------------------ actions, by program part

  function PushEffect(s: State, t: Thread, i: Item): (r: State)
    ensures r == s.(items := r.items, queued := r.queued, carer := r.carer)
  {
    Care(s.(items := s.items + [i], queued := s.queued + Waiter(i)), t, TailNull(s))
  }

  function PushDest(s: State, t: Thread, i: Item): PC {
    WakeIf(TailNull(s), RetOf(i), Continue(t, RetOf(i)))
  }

  function WakeEffect(s: State, t: Thread, w: WakePC): (r: State)
    ensures r == s.(sus := r.sus, lists := r.lists, token := r.token)
  {
    match w
    case WakeLock => if s.sus == 0 then s.(sus := 1, token := Pushing(t)) else s
    case WakePush => s.(lists := s.lists + multiset{s.target}, token := Listed(s.target))
    case _ => s
  }

  function WakeDest(s: State, t: Thread, w: WakePC, r: Ret): PC {
    match w
    case WakeSuspended => if Suspended(s) then Continue(t, r) else Waking(WakeTail, r)
    case WakeTail => if TailNull(s) then Continue(t, r) else Waking(WakeLock, r)
    case WakeLock => if s.sus == 0 then Waking(WakePush, r) else Continue(t, r)
    case WakePush => Continue(t, r)
  }

  function SyncEffect(s: State, t: Thread, y: SyncPC): (r: State)
    ensures r == s.(run := r.run, readers := r.readers, fast := r.fast, granted := r.granted, carer := r.carer)
  {
    match y
    case SyncAdd => s.(run := s.run + 2, readers := s.readers + {t}, fast := s.fast || s.run % 2 == 0)
    case Backoff => Care(s.(run := s.run - 2, readers := s.readers - {t}), t, s.run == 2)
    case WaitSync => s.(granted := s.granted - {t})
    case InReader => Care(s.(run := s.run - 2, readers := s.readers - {t}), t, s.run == 2)
    case _ => s
  }

  function SyncDest(s: State, t: Thread, y: SyncPC): PC {
    match y
    case SyncTail => if TailNull(s) then Sync(SyncSuspended) else Push(SyncSlow(t))
    case SyncSuspended => if Suspended(s) then Push(SyncSlow(t)) else Sync(SyncAdd)
    case SyncAdd => Sync(if s.run % 2 == 0 then InReader else Backoff)
    case Backoff => WakeIf(s.run == 2, ToPushSync, Push(SyncSlow(t)))
    case WaitSync => Sync(InReader)
    case InReader => WakeIf(s.run == 2, ToIdle, Idle)
  }

  function BarrierEffect(s: State, t: Thread, b: BarrierPC): (r: State)
    ensures r == s.(run := r.run, locker := r.locker, fast := r.fast, granted := r.granted, sus := r.sus,
      holders := r.holders, carer := r.carer)
  {
    match b
    case BarLock => if s.run == 0 then s.(run := 1, locker := s.locker + {t}, fast := true) else s
    case InFast => Care(s.(run := s.run - 1, locker := s.locker - {t}), t, s.run == 1)
    case WaitBarrier => s.(granted := s.granted - {t})
    case InSlow => Care(s.(sus := s.sus - 2, holders := s.holders - {t}), t, s.sus == 2)
    case _ => s
  }

  function BarrierDest(s: State, t: Thread, b: BarrierPC): PC {
    match b
    case BarTail => if TailNull(s) then Bar(BarSuspended) else Push(BarrierSlow(t))
    case BarSuspended => if Suspended(s) then Push(BarrierSlow(t)) else Bar(BarLock)
    case BarLock => if s.run == 0 then Bar(InFast) else Push(BarrierSlow(t))
    case InFast => WakeIf(s.run == 1, ToIdle, Idle)
    case WaitBarrier => Bar(InSlow)
    case InSlow => WakeIf(s.sus == 2, ToIdle, Idle)
  }

  function InvokeEffect(s: State, t: Thread, v: InvokePC): (r: State)
    ensures r == s.(run := r.run, locker := r.locker, lists := r.lists, token := r.token, sus := r.sus,
      carer := r.carer)
  {
    match v
    case InvSuspended(_) => s
    case InvLock(_) => if s.run == 0 then s.(run := 1, locker := s.locker + {t}) else s
    case InvPush(q) => s.(lists := s.lists + multiset{q}, token := Listed(q))
    case InvUnlock => Care(s.(sus := s.sus - 1, token := NoToken), t, s.sus == 1)
  }

  function InvokeDest(s: State, v: InvokePC): PC {
    match v
    case InvSuspended(o) => Invoke(if Suspended(s) then InvUnlock else InvLock(o))
    case InvLock(o) => if s.run == 0 then Drain(DrainTail, o) else Invoke(InvUnlock)
    case InvPush(_) => Idle
    case InvUnlock => if s.sus == 1 then IdleCheck else Idle
  }

  /** A barrier item on a wide queue waits until the drain is alone on the queue. */
  predicate BarrierMustWait(s: State) { s.width != 1 && s.run > 1 }

  predicate Redirects(s: State, i: Item) { s.width != 1 && i.Async? }

  function PopEffect(s: State, t: Thread): State {
    if s.items == [] then s else
    var i := s.items[0];
    var s1 := s.(items := s.items[1..], detached := false);
    if i.SyncSlow? then s1.(run := s.run + 2, readers := s.readers + {i.t}, queued := s.queued - {i.t})
    else if Redirects(s, i) then s1.(run := s.run + 2, hand := s.hand + {t})
    else if HasBarrierBit(i) && BarrierMustWait(s) then s else s1
  }

  function PopDest(s: State): DrainPC {
    if s.items == [] then DrainPut else
    var i, more := s.items[0], !s.detached;
    if i.SyncSlow? then DrainGrant(i.t, more)
    else if Redirects(s, i) then DrainRedirect(more)
    else if HasBarrierBit(i) && BarrierMustWait(s) then DrainPut else DrainRun(i, more)
  }

  function RunEffect(s: State, i: Item): State {
    match i
    case Retarget(q) => s.(target := q)
    case BarrierSlow(u) => s.(sus := s.sus + 2, holders := s.holders + {u}, queued := s.queued - {u}, slow := true)
    case _ => s
  }

  function DrainEffect(s: State, t: Thread, d: DrainPC): (r: State)
    ensures r == s.(items := r.items, detached := r.detached, run := r.run, readers := r.readers, queued := r.queued,
      hand := r.hand, target := r.target, sus := r.sus, holders := r.holders, slow := r.slow, granted := r.granted,
      rootItems := r.rootItems, locker := r.locker)
  {
    match d
    case DrainTake => s.(detached := |s.items| == 1)
    case DrainKind => PopEffect(s, t)
    case DrainRun(i, _) => RunEffect(s, i)
    case DrainGrant(u, _) => s.(granted := s.granted + {u})
    case DrainHandOff(u, _) => s.(granted := s.granted + {u})
    case DrainRedirect(_) => s.(rootItems := s.rootItems + 1, hand := s.hand - {t})
    case DrainPut => s.(detached := false)
    case InvRelease(_, _) => s.(run := s.run - 1, locker := s.locker - {t})
    case _ => s
  }

  function DrainStep(s: State, d: DrainPC, o: Target): DrainPC {
    match d
    case DrainTail => if TailNull(s) then DrainEnd else DrainTake
    case DrainTake => DrainSuspended
    case DrainSuspended => if Suspended(s) then DrainPut else DrainWidth
    case DrainWidth => if s.run > s.width then DrainPut else DrainTarget
    case DrainTarget => if o != s.target then DrainPut else DrainKind
    case DrainKind => PopDest(s)
    case DrainRun(i, more) => if i.BarrierSlow? then DrainHandOff(i.t, more) else NextItem(more)
    case DrainGrant(_, more) => NextItem(more)
    case DrainHandOff(_, more) => NextItem(more)
    case DrainRedirect(more) => NextItem(more)
    case DrainPut => DrainEnd
    case DrainEnd => InvRelease(o != s.target, s.target)
    case InvRelease(_, _) => d
  }

  function DrainDest(s: State, d: DrainPC, o: Target): PC {
    if d.InvRelease? then Invoke(if d.moved then InvPush(d.to) else InvUnlock) else Drain(DrainStep(s, d, o), o)
  }

  function FinishAsync(s: State, t: Thread): State {
    Care(s.(run := s.run - 2, asyncThreads := s.asyncThreads - {t}), t, s.run == 2)
  }

  function Blocked(s: State, t: Thread, c: PC): bool {
    (c == Sync(WaitSync) || c == Bar(WaitBarrier)) && t !in s.granted
  }

  predicate Enabled(s: State, t: Thread, op: Op) {
    var c := At(s, t);
    match op
    case Go => !c.Idle? && !Blocked(s, t, c)
    case StartPush(i) => c.Idle? && !i.SyncSlow? && !i.BarrierSlow?
    case StartSync => c.Idle?
    case StartBarrierSync => c.Idle?
    case Suspend => c.Idle?
    case Resume => c.Idle? && s.suspends > 0
    case TakeFromTarget(q) => c.Idle? && q in s.lists
    case TakeFromRoot => c.Idle? && s.rootItems > 0
  }

  /** What an action of a thread outside the library does. */
  function StartEffect(s: State, t: Thread, op: Op): State
    requires Enabled(s, t, op) && !op.Go?
  {
    match op
    case Suspend => s.(sus := s.sus + 2, suspends := s.suspends + 1)
    case Resume => Care(s.(sus := s.sus - 2, suspends := s.suspends - 1), t, s.sus == 2)
    case TakeFromTarget(q) => s.(lists := s.lists - multiset{q}, token := Invoking(t))
    case TakeFromRoot => s.(rootItems := s.rootItems - 1, asyncThreads := s.asyncThreads + {t})
    case _ => s
  }

  function StartDest(s: State, t: Thread, op: Op): PC
    requires Enabled(s, t, op) && !op.Go?
  {
    match op
    case StartPush(i) => Push(i)
    case StartSync => if s.width == 1 then Bar(BarTail) else Sync(SyncTail)
    case StartBarrierSync => Bar(BarTail)
    case Suspend => Idle
    case Resume => WakeIf(s.sus == 2, ToIdle, Idle)
    case TakeFromTarget(_) => Invoke(InvSuspended(s.target))
    case TakeFromRoot => InAsync
  }

  function Effect(s: State, t: Thread, op: Op): State
    requires Enabled(s, t, op)
  {
    if !op.Go? then StartEffect(s, t, op) else
    match At(s, t)
    case Idle => s
    case Push(i) => PushEffect(s, t, i)
    case Waking(w, _) => WakeEffect(s, t, w)
    case Sync(y) => SyncEffect(s, t, y)
    case Bar(b) => BarrierEffect(s, t, b)
    case Invoke(v) => InvokeEffect(s, t, v)
    case Drain(d, _) => DrainEffect(s, t, d)
    case IdleCheck => Care(s, t, s.run == 0)
    case InAsync => FinishAsync(s, t)
  }

  function Dest(s: State, t: Thread, op: Op): PC
    requires Enabled(s, t, op)
  {
    if !op.Go? then StartDest(s, t, op) else
    match At(s, t)
    case Idle => Idle
    case Push(i) => PushDest(s, t, i)
    case Waking(w, r) => WakeDest(s, t, w, r)
    case Sync(y) => SyncDest(s, t, y)
    case Bar(b) => BarrierDest(s, t, b)
    case Invoke(v) => InvokeDest(s, v)
    case Drain(d, o) => DrainDest(s, d, o)
    case IdleCheck => WakeIf(s.run == 0, ToIdle, Idle)
    case InAsync => WakeIf(s.run == 2, ToIdle, Idle)
  }

  function Next(s: State, t: Thread, op: Op): (s': State)
    requires Enabled(s, t, op)
    ensures At(s', t) == Dest(s, t, op)
    ensures forall u :: u != t ==> At(s', u) == At(s, u)
  {
    Effect(s, t, op).(pc := s.pc[t := Dest(s, t, op)])
  }

  predicate Init(s: State) {
    && (s.width == 1 || (s.width >= 2 && s.width % 2 == 0))
    && s == State(s.width, 0, 0, [], false, s.target, multiset{}, 0, {}, map[],
                  0, {}, NoToken, {}, {}, {}, {}, {}, 0, false, false)
  }

  // ------------------------------------------------------------------ invariant

  /** Redirected items whose 2 is in dq_running. */
  function Asyncs(s: State): nat { s.rootItems + |s.asyncThreads| + |s.hand| }

  predicate InInvoke(c: PC) { c.Invoke? || c.Drain? }

  predicate IsPushing(c: PC) { c.Waking? && c.w.WakePush? }

  predicate HoldsBit(c: PC) { c.Drain? || c == Bar(InFast) }

  ghost predicate TokenInv(s: State) {
    && s.lists == (if s.token.Listed? then multiset{s.token.on} else multiset{})
    && (s.token.Pushing? ==> IsPushing(At(s, s.token.p)))
    && (s.token.Invoking? ==> InInvoke(At(s, s.token.who)))
    && (forall t :: IsPushing(At(s, t)) ==> s.token == Pushing(t))
    && (forall t :: InInvoke(At(s, t)) ==> s.token == Invoking(t))
  }

  ghost predicate LockerInv(s: State) {
    && |s.locker| <= 1
    && (forall t :: t in s.locker <==> HoldsBit(At(s, t)))
  }

  /** dq_running is the barrier bit plus twice the readers; do_suspend_cnt is the lock bit plus
      twice the suspensions. */
  ghost predicate WordInv(s: State) {
    && s.run == |s.locker| + 2 * (|s.readers| + Asyncs(s))
    && s.sus == (if s.token.NoToken? then 0 else 1) + 2 * (s.suspends + |s.holders|)
  }

  predicate AwaitsSync(c: PC) { c == Sync(WaitSync) || (c.Waking? && c.r.ToWaitSync?) }
  predicate AwaitsBarrier(c: PC) { c == Bar(WaitBarrier) || (c.Waking? && c.r.ToWaitBarrier?) }

  /** The slow-path thread an item, or the item the drainer is running, stands for. */
  ghost predicate GoodItem(s: State, i: Item) {
    && (i.SyncSlow? ==> i.t in s.queued && AwaitsSync(At(s, i.t)))
    && (i.BarrierSlow? ==> i.t in s.queued && AwaitsBarrier(At(s, i.t)))
  }

  ghost predicate Separate(items: seq<Item>, i: Item) {
    forall j :: 0 <= j < |items| ==> Waiter(items[j]) !! Waiter(i)
  }

  ghost predicate ItemsInv(s: State) {
    && (forall j :: 0 <= j < |s.items| ==> GoodItem(s, s.items[j]))
    && (forall j, k :: 0 <= j < k < |s.items| ==> Waiter(s.items[j]) !! Waiter(s.items[k]))
    && (s.detached ==> s.items != [])
  }

  /** A thread's slow-path item is queued, or its effect is in a word, only while it waits. */
  ghost predicate WaitLocal(s: State, t: Thread) {
    var c := At(s, t);
    && (t in s.queued ==> AwaitsSync(c) || AwaitsBarrier(c))
    && (t in s.granted ==> (AwaitsSync(c) || AwaitsBarrier(c)) && t !in s.queued)
    && (c.Push? ==> Waiter(c.item) <= {t})
  }

  ghost predicate WaitInv(s: State) {
    forall t :: WaitLocal(s, t)
  }

  ghost predicate DrainerInv(s: State) {
    s.token.Invoking? && At(s, s.token.who).Drain? ==> DrainLocal(s, At(s, s.token.who).d)
  }

  ghost predicate DrainLocal(s: State, d: DrainPC) {
    && (d.DrainTake? || d.DrainSuspended? || d.DrainWidth? || d.DrainTarget? || d.DrainKind? ==> s.items != [])
    && (d.DrainSuspended? || d.DrainWidth? || d.DrainTarget? || d.DrainKind? ==> s.detached || |s.items| > 1)
    && (d.DrainRun? ==> GoodItem(s, d.ran) && Separate(s.items, d.ran) && !d.ran.SyncSlow? && !Redirects(s, d.ran))
    && (d.DrainRun? || d.DrainGrant? || d.DrainHandOff? || d.DrainRedirect? ==> d.more ==> s.items != [])
    && (d.DrainGrant? ==> AwaitsSync(At(s, d.u)) && d.u !in s.queued && d.u !in s.granted)
    && (d.DrainHandOff? ==> AwaitsBarrier(At(s, d.u)) && d.u !in s.queued && d.u !in s.granted)
  }

  ghost predicate IsReader(s: State, t: Thread) {
    var c := At(s, t);
    c == Sync(Backoff) || c == Sync(InReader) || (AwaitsSync(c) && t !in s.queued)
  }

  ghost predicate IsHolder(s: State, t: Thread) {
    var c := At(s, t);
    c == Bar(InSlow) || (AwaitsBarrier(c) && t !in s.queued)
  }

  predicate IsRedirecting(c: PC) { c.Drain? && c.d.DrainRedirect? }

  ghost predicate SetInv(s: State) {
    && (forall t :: t in s.readers <==> IsReader(s, t))
    && (forall t :: t in s.holders <==> IsHolder(s, t))
    && (forall t :: t in s.asyncThreads <==> At(s, t).InAsync?)
    && (forall t :: t in s.hand <==> IsRedirecting(At(s, t)))
  }

  predicate UsesSync(c: PC) {
    || c.Sync? || (c.Push? && c.item.SyncSlow?) || (c.Waking? && (c.r.ToPushSync? || c.r.ToWaitSync?))
    || (c.Drain? && (c.d.DrainGrant? || c.d.DrainRedirect?))
  }

  predicate PastWidth(c: PC) { c.Drain? && (c.d.DrainTarget? || c.d.DrainKind?) }

  /** A serial queue has no readers; a wide one admits a redirected item only below its limit. */
  ghost predicate WidthInv(s: State) {
    && (s.width == 1 || (s.width >= 2 && s.width % 2 == 0))
    && (s.width == 1 ==>
          (forall t :: !UsesSync(At(s, t))) && Asyncs(s) == 0
          && (forall j :: 0 <= j < |s.items| ==> !s.items[j].SyncSlow?))
    && (s.width > 1 ==> Asyncs(s) <= s.width / 2)
    && (forall t :: s.width > 1 && PastWidth(At(s, t)) ==> Asyncs(s) < s.width / 2)
  }

  /** Every reader in the word is one that saw the barrier bit and is backing off. */
  ghost predicate NoneInside(s: State) {
    Asyncs(s) == 0 && forall u :: u in s.readers ==> At(s, u) == Sync(Backoff)
  }

  predicate RunsAlone(c: PC) { c == Bar(InFast) || (c.Drain? && c.d.DrainRun?) }

  predicate PastSuspended(c: PC) {
    c.Drain? && (c.d.DrainWidth? || c.d.DrainTarget? || c.d.DrainKind? || c.d.DrainRun?)
  }

  /** Unless fast entries and slow hand-offs are mixed, whoever runs alone is alone. */
  ghost predicate AloneInv(s: State) {
    && (!s.slow ==> s.holders == {})
    && (!(s.fast && s.slow) ==>
          && (s.holders != {} ==> NoneInside(s))
          && (forall x, y :: x in s.holders && y in s.holders ==> x == y)
          && (forall w :: RunsAlone(At(s, w)) ==> NoneInside(s) && s.holders == {})
          && (forall w :: PastSuspended(At(s, w)) ==> s.holders == {}))
  }

  predicate Caring(c: PC) { c.IdleCheck? || (c.Waking? && !c.w.WakePush?) }

  /** An unlocked, unsuspended queue with items has a running reader or barrier that will wake it
      up when it leaves, or a thread that is about to. */
  ghost predicate CareInv(s: State) {
    s.sus == 0 && !TailNull(s) ==> s.run > 0 || Caring(At(s, s.carer))
  }

  predicate HasItemInHand(c: PC) {
    c.Drain? && (c.d.DrainSuspended? || c.d.DrainWidth? || c.d.DrainTarget? || c.d.DrainKind? || c.d.DrainPut?)
  }

  /** The tail fails to cover an item only while that item is in the drainer's hand. */
  ghost predicate DetachedInv(s: State) {
    s.detached ==> s.items != [] && s.token.Invoking? && HasItemInHand(At(s, s.token.who))
  }

  predicate Awaits(c: PC) { AwaitsSync(c) || AwaitsBarrier(c) }

  predicate GrantsTo(c: PC, t: Thread) {
    c.Drain? && (c.d.DrainGrant? || c.d.DrainHandOff?) && c.d.u == t
  }

  predicate RunsFor(c: PC, t: Thread) { c.Drain? && c.d.DrainRun? && c.d.ran == BarrierSlow(t) }

  /** A waiting thread's item is in the queue or in the drainer's hand, or its semaphore has been
      or is about to be signalled. */
  ghost predicate NotStranded(s: State, t: Thread) {
    && (Awaits(At(s, t)) ==> t in s.queued || t in s.granted || (s.token.Invoking? && GrantsTo(At(s, s.token.who), t)))
    && (t in s.queued ==>
          SyncSlow(t) in s.items || BarrierSlow(t) in s.items || (s.token.Invoking? && RunsFor(At(s, s.token.who), t)))
  }

  ghost predicate StrandInv(s: State) { forall t :: NotStranded(s, t) }

  lemma InitInv(s: State)
    requires Init(s)
    ensures TokenInv(s) && LockerInv(s) && WordInv(s) && ItemsInv(s) && WaitInv(s) && DrainerInv(s)
    ensures SetInv(s) && WidthInv(s) && AloneInv(s) && CareInv(s) && StrandInv(s) && DetachedInv(s)
  {
    assert forall t :: At(s, t) == Idle;
  }

  // ------------------------------------------------------------------ preservation

  // Each component has a quantifier-free lemma that says what a step of thread t can do to it,
  // and a lemma that derives preservation from that.

  ghost predicate OnlyMoves(s: State, s': State, t: Thread) {
    forall u :: u != t ==> At(s', u) == At(s, u)
  }

  ghost predicate TokenEffect(s: State, s': State, t: Thread) {
    var c, c' := At(s, t), At(s', t);
    || (s'.token == s.token && s'.lists == s.lists && IsPushing(c') == IsPushing(c) && InInvoke(c') == InInvoke(c))
    || (s.token.NoToken? && s'.token == Pushing(t) && s'.lists == s.lists && IsPushing(c') && !InInvoke(c))
    || ((IsPushing(c) || InInvoke(c)) && s'.token.Listed? && s'.lists == s.lists + multiset{s'.token.on}
          && !IsPushing(c') && !InInvoke(c'))
    || (s.token.Listed? && s'.token == Invoking(t) && s'.lists == s.lists - multiset{s.token.on} && InInvoke(c')
          && c.Idle?)
    || (InInvoke(c) && s'.token == NoToken && s'.lists == s.lists && !IsPushing(c') && !InInvoke(c'))
  }

  lemma TokenStep(s: State, s': State, t: Thread)
    requires TokenInv(s) && TokenEffect(s, s', t) && OnlyMoves(s, s', t)
    ensures TokenInv(s')
  {
  }

  ghost predicate LockerEffect(s: State, s': State, t: Thread) {
    var h, h' := HoldsBit(At(s, t)), HoldsBit(At(s', t));
    || (s'.locker == s.locker && h' == h)
    || (s.locker == {} && !h && h' && s'.locker == {t})
    || (h && !h' && s'.locker == s.locker - {t})
  }

  lemma LockerStep(s: State, s': State, t: Thread)
    requires LockerInv(s) && LockerEffect(s, s', t) && OnlyMoves(s, s', t)
    ensures LockerInv(s')
  {
  }

  /** What the invariant says about the thread that is about to act. */
  ghost predicate Facts(s: State, t: Thread) {
    var c := At(s, t);
    && WordInv(s) && CareInv(s)
    && s.lists == (if s.token.Listed? then multiset{s.token.on} else multiset{})
    && (s.run % 2 == 0 ==> s.locker == {})
    && (t in s.locker <==> HoldsBit(c)) && (t in s.locker ==> s.locker == {t})
    && (t in s.readers <==> IsReader(s, t))
    && (t in s.holders <==> IsHolder(s, t))
    && (t in s.asyncThreads <==> c.InAsync?)
    && (t in s.hand <==> IsRedirecting(c))
    && (IsPushing(c) || InInvoke(c) ==> !s.token.NoToken?)
    && (s.items != [] && s.items[0].SyncSlow? ==> s.items[0].t !in s.readers)
    && (c.Drain? && c.d.DrainRun? && c.d.ran.BarrierSlow? ==> c.d.ran.t !in s.holders)
  }

  ghost predicate WordStep(s: State, s': State, t: Thread) {
    TokenEffect(s, s', t) && LockerEffect(s, s', t) && WordInv(s') && CareInv(s')
  }

  lemma SuspendWords(s: State, t: Thread, op: Op)
    requires Facts(s, t) && Enabled(s, t, op) && (op.Suspend? || op.Resume?)
    ensures WordStep(s, Next(s, t, op), t)
  {
  }

  lemma TakeListedWords(s: State, t: Thread, q: Target)
    requires Facts(s, t) && Enabled(s, t, TakeFromTarget(q))
    ensures WordStep(s, Next(s, t, TakeFromTarget(q)), t)
  {
  }

  lemma TakeRootWords(s: State, t: Thread)
    requires Facts(s, t) && Enabled(s, t, TakeFromRoot)
    ensures WordStep(s, Next(s, t, TakeFromRoot), t)
  {
    assert |s.asyncThreads + {t}| == |s.asyncThreads| + 1;
  }

  lemma EnterFields(s: State, t: Thread, op: Op)
    requires Enabled(s, t, op) && (op.StartPush? || op.StartSync? || op.StartBarrierSync?)
    ensures var s' := Next(s, t, op);
      s' == s.(pc := s'.pc) && (At(s', t).Push? || At(s', t).Sync? || At(s', t) == Bar(BarTail))
  {
  }

  lemma StartWords(s: State, t: Thread, op: Op)
    requires Facts(s, t) && Enabled(s, t, op) && !op.Go?
    ensures WordStep(s, Next(s, t, op), t)
  {
    if op.Suspend? || op.Resume? { SuspendWords(s, t, op); }
    else if op.TakeFromTarget? { TakeListedWords(s, t, op.q); } else if op.TakeFromRoot? { TakeRootWords(s, t); }
    else { EnterFields(s, t, op); }
  }

  lemma PushWords(s: State, t: Thread)
    requires Facts(s, t) && Enabled(s, t, Go) && At(s, t).Push?
    ensures WordStep(s, Next(s, t, Go), t)
  {
  }

  lemma WakePushWords(s: State, t: Thread)
    requires Facts(s, t) && Enabled(s, t, Go) && At(s, t).Waking?
    requires At(s, t).w.WakePush?
    ensures WordStep(s, Next(s, t, Go), t)
  {
  }

  lemma WakeWords(s: State, t: Thread)
    requires Facts(s, t) && Enabled(s, t, Go) && At(s, t).Waking?
    requires !(At(s, t).w.WakePush?)
    ensures WordStep(s, Next(s, t, Go), t)
  {
  }

  lemma SyncAddWords(s: State, t: Thread)
    requires Facts(s, t) && Enabled(s, t, Go) && At(s, t).Sync?
    requires At(s, t).y.SyncAdd?
    ensures WordStep(s, Next(s, t, Go), t)
  {
  }

  lemma SyncExitWords(s: State, t: Thread)
    requires Facts(s, t) && Enabled(s, t, Go) && At(s, t).Sync?
    requires !(At(s, t).y.SyncAdd?)
    requires At(s, t).y.InReader? || At(s, t).y.Backoff?
    ensures WordStep(s, Next(s, t, Go), t)
  {
  }

  lemma SyncWords(s: State, t: Thread)
    requires Facts(s, t) && Enabled(s, t, Go) && At(s, t).Sync?
    requires !(At(s, t).y.SyncAdd?)
    requires !(At(s, t).y.InReader? || At(s, t).y.Backoff?)
    ensures WordStep(s, Next(s, t, Go), t)
  {
  }

  lemma BarrierLockWords(s: State, t: Thread)
    requires Facts(s, t) && Enabled(s, t, Go) && At(s, t).Bar? && !At(s, t).b.InSlow? && !At(s, t).b.InFast?
    requires At(s, t).b.BarLock?
    ensures WordStep(s, Next(s, t, Go), t)
  {
  }

  lemma BarrierWords(s: State, t: Thread)
    requires Facts(s, t) && Enabled(s, t, Go) && At(s, t).Bar? && !At(s, t).b.InSlow? && !At(s, t).b.InFast?
    requires !(At(s, t).b.BarLock?)
    ensures WordStep(s, Next(s, t, Go), t)
  {
  }

  lemma SlowExitWords(s: State, t: Thread)
    requires Facts(s, t) && Enabled(s, t, Go) && At(s, t) == Bar(InSlow)
    ensures WordStep(s, Next(s, t, Go), t)
  {
    assert |s.holders - {t}| == |s.holders| - 1;
  }

  lemma FastExitWords(s: State, t: Thread)
    requires Facts(s, t) && Enabled(s, t, Go) && At(s, t) == Bar(InFast)
    ensures WordStep(s, Next(s, t, Go), t)
  {
    assert s.locker == {t} && |s.locker| == 1 && s.locker - {t} == {};
  }

  lemma InvokePushWords(s: State, t: Thread)
    requires Facts(s, t) && Enabled(s, t, Go) && At(s, t).Invoke? && !At(s, t).v.InvLock?
    requires At(s, t).v.InvPush?
    ensures WordStep(s, Next(s, t, Go), t)
  {
  }

  lemma InvokeWords(s: State, t: Thread)
    requires Facts(s, t) && Enabled(s, t, Go) && At(s, t).Invoke? && !At(s, t).v.InvLock?
    requires !(At(s, t).v.InvPush?)
    ensures WordStep(s, Next(s, t, Go), t)
  {
  }

  lemma InvokeLockWords(s: State, t: Thread)
    requires Facts(s, t) && Enabled(s, t, Go) && At(s, t).Invoke? && At(s, t).v.InvLock?
    ensures WordStep(s, Next(s, t, Go), t)
  {
  }

  predicate ChangesWords(d: DrainPC) { d.DrainKind? || d.DrainRun? || d.InvRelease? }

  lemma PopReaderWords(s: State, t: Thread)
    requires Facts(s, t) && Enabled(s, t, Go) && At(s, t).Drain? && At(s, t).d.DrainKind?
    requires s.items != [] && s.items[0].SyncSlow?
    ensures WordStep(s, Next(s, t, Go), t)
  {
    assert |s.readers + {s.items[0].t}| == |s.readers| + 1;
  }

  lemma PopRedirectFields(s: State, t: Thread)
    requires Enabled(s, t, Go) && At(s, t).Drain? && At(s, t).d.DrainKind? && s.items != [] && Redirects(s, s.items[0])
    ensures var s' := Next(s, t, Go);
      && s' == s.(items := s.items[1..], detached := false, run := s.run + 2, hand := s.hand + {t}, pc := s'.pc)
      && At(s', t).Drain?
  {
  }

  lemma PopRedirectWords(s: State, t: Thread)
    requires Facts(s, t) && Enabled(s, t, Go) && At(s, t).Drain? && At(s, t).d.DrainKind?
    requires s.items != [] && Redirects(s, s.items[0])
    ensures WordStep(s, Next(s, t, Go), t)
  {
    PopRedirectFields(s, t);
    assert |s.hand + {t}| == |s.hand| + 1;
  }

  lemma PopAloneWords(s: State, t: Thread)
    requires Facts(s, t) && Enabled(s, t, Go) && At(s, t).Drain? && At(s, t).d.DrainKind?
    requires s.items != [] ==> !s.items[0].SyncSlow? && !Redirects(s, s.items[0])
    ensures WordStep(s, Next(s, t, Go), t)
  {
    assert s.run > 0;
  }

  lemma DrainPopWords(s: State, t: Thread)
    requires Facts(s, t) && Enabled(s, t, Go) && At(s, t).Drain? && At(s, t).d.DrainKind?
    ensures WordStep(s, Next(s, t, Go), t)
  {
    if s.items != [] && s.items[0].SyncSlow? { PopReaderWords(s, t); }
    else if s.items != [] && Redirects(s, s.items[0]) { PopRedirectWords(s, t); }
    else { PopAloneWords(s, t); }
  }

  lemma HandOffWords(s: State, t: Thread)
    requires Facts(s, t) && Enabled(s, t, Go) && At(s, t).Drain? && At(s, t).d.DrainRun? && At(s, t).d.ran.BarrierSlow?
    ensures WordStep(s, Next(s, t, Go), t)
  {
    var u := At(s, t).d.ran.t;
    assert |s.holders + {u}| == |s.holders| + 1;
  }

  lemma PlainRunWords(s: State, t: Thread)
    requires Facts(s, t) && Enabled(s, t, Go) && At(s, t).Drain? && At(s, t).d.DrainRun? && !At(s, t).d.ran.BarrierSlow?
    ensures WordStep(s, Next(s, t, Go), t)
  {
    if At(s, t).d.ran.Retarget? {} else {}
  }

  lemma DrainRunWords(s: State, t: Thread)
    requires Facts(s, t) && Enabled(s, t, Go) && At(s, t).Drain? && At(s, t).d.DrainRun?
    ensures WordStep(s, Next(s, t, Go), t)
  {
    if At(s, t).d.ran.BarrierSlow? { HandOffWords(s, t); } else { PlainRunWords(s, t); }
  }

  lemma DrainReleaseWords(s: State, t: Thread)
    requires Facts(s, t) && Enabled(s, t, Go) && At(s, t).Drain? && At(s, t).d.InvRelease?
    ensures WordStep(s, Next(s, t, Go), t)
  {
    assert s.locker == {t} && |s.locker| == 1 && s.locker - {t} == {};
  }

  /** Steps of the drain that only move on, mark the item in hand, or signal a thread. */
  predicate StaysQuiet(d: DrainPC) { !ChangesWords(d) && !d.DrainRedirect? }

  lemma QuietFields(s: State, t: Thread)
    requires Enabled(s, t, Go) && At(s, t).Drain? && StaysQuiet(At(s, t).d)
    ensures var s' := Next(s, t, Go);
      s' == s.(detached := s'.detached, granted := s'.granted, pc := s'.pc) && At(s', t).Drain?
  {
  }

  lemma RedirectFields(s: State, t: Thread)
    requires Enabled(s, t, Go) && At(s, t).Drain? && At(s, t).d.DrainRedirect?
    ensures var s' := Next(s, t, Go);
      s' == s.(rootItems := s.rootItems + 1, hand := s.hand - {t}, pc := s'.pc) && At(s', t).Drain?
  {
  }

  lemma QuietWords(s: State, s': State, t: Thread)
    requires Facts(s, t) && At(s, t).Drain? && At(s', t).Drain?
    requires s' == s.(detached := s'.detached, granted := s'.granted, pc := s'.pc)
    ensures WordStep(s, s', t)
  {
  }

  lemma RedirectWords(s: State, s': State, t: Thread)
    requires Facts(s, t) && At(s, t).Drain? && At(s', t).Drain? && At(s, t).d.DrainRedirect?
    requires s' == s.(rootItems := s.rootItems + 1, hand := s.hand - {t}, pc := s'.pc)
    ensures WordStep(s, s', t)
  {
  }

  lemma DrainQuietWords(s: State, t: Thread)
    requires Facts(s, t) && Enabled(s, t, Go) && At(s, t).Drain? && !ChangesWords(At(s, t).d)
    ensures WordStep(s, Next(s, t, Go), t)
  {
    if At(s, t).d.DrainRedirect? {
      RedirectFields(s, t);
      RedirectWords(s, Next(s, t, Go), t);
    } else {
      QuietFields(s, t);
      QuietWords(s, Next(s, t, Go), t);
    }
  }

  lemma LastWords(s: State, t: Thread)
    requires Facts(s, t) && Enabled(s, t, Go) && (At(s, t).IdleCheck? || At(s, t).InAsync?)
    ensures WordStep(s, Next(s, t, Go), t)
  {
  }

  // The slow paths: how a step moves a thread's item between the queue, the words and the semaphore.

  datatype Slow =
    | Quiet
    | Enqueue(i: Item)
    | EnterReader
    | ExitReader
    | WakeReader
    | WakeHolder
    | ExitHolder
    | Pop
    | HandOver(u: Thread)
    | Grant(u: Thread)

  function SlowOf(s: State, t: Thread, op: Op): Slow {
    if !op.Go? then Quiet else
    match At(s, t)
    case Push(i) => Enqueue(i)
    case Sync(SyncAdd) => EnterReader
    case Sync(Backoff) => ExitReader
    case Sync(InReader) => ExitReader
    case Sync(WaitSync) => WakeReader
    case Bar(WaitBarrier) => WakeHolder
    case Bar(InSlow) => ExitHolder
    case Drain(DrainKind, _) => if PopDest(s).DrainPut? then Quiet else Pop
    case Drain(DrainRun(BarrierSlow(u), _), _) => HandOver(u)
    case Drain(DrainGrant(u, _), _) => Grant(u)
    case Drain(DrainHandOff(u, _), _) => Grant(u)
    case _ => Quiet
  }

  datatype Class = Plain | Reader | AwaitSync | AwaitBarrier | Holder

  function ClassOf(c: PC): Class {
    if c == Sync(Backoff) || c == Sync(InReader) then Reader
    else if AwaitsSync(c) then AwaitSync
    else if AwaitsBarrier(c) then AwaitBarrier
    else if c == Bar(InSlow) then Holder
    else Plain
  }

  function WaitClass(i: Item): Class {
    if i.SyncSlow? then AwaitSync else if i.BarrierSlow? then AwaitBarrier else Plain
  }

  ghost predicate SlowEffect(s: State, s': State, t: Thread, e: Slow) {
    var k, k' := ClassOf(At(s, t)), ClassOf(At(s', t));
    && (!e.Enqueue? && !e.Pop? ==> s'.items == s.items)
    && (!e.Enqueue? && !e.Pop? && !e.HandOver? ==> s'.queued == s.queued)
    && (!e.EnterReader? && !e.ExitReader? && !e.Pop? ==> s'.readers == s.readers)
    && (!e.ExitHolder? && !e.HandOver? ==> s'.holders == s.holders)
    && (!e.WakeReader? && !e.WakeHolder? && !e.Grant? ==> s'.granted == s.granted)
    && match e
       case Quiet => k' == k
       case Enqueue(i) => s'.items == s.items + [i] && s'.queued == s.queued + Waiter(i) && k.Plain?
         && k' == WaitClass(i)
       case EnterReader => s'.readers == s.readers + {t} && k.Plain? && k'.Reader?
       case ExitReader => s'.readers == s.readers - {t} && k.Reader? && k'.Plain?
       case WakeReader => t in s.granted && s'.granted == s.granted - {t} && k.AwaitSync? && k'.Reader?
       case WakeHolder => t in s.granted && s'.granted == s.granted - {t} && k.AwaitBarrier? && k'.Holder?
       case ExitHolder => s'.holders == s.holders - {t} && k.Holder? && k'.Plain?
       case Pop =>
         && s.items != [] && s'.items == s.items[1..] && k.Plain? && k'.Plain?
         && s'.queued == (if s.items[0].SyncSlow? then s.queued - {s.items[0].t} else s.queued)
         && s'.readers == (if s.items[0].SyncSlow? then s.readers + {s.items[0].t} else s.readers)
       case HandOver(u) => s'.queued == s.queued - {u} && s'.holders == s.holders + {u} && k.Plain? && k'.Plain?
       case Grant(u) => s'.granted == s.granted + {u} && k.Plain? && k'.Plain?
  }

  lemma HasSlowEffectPop(s: State, t: Thread)
    requires Enabled(s, t, Go) && At(s, t).Drain?
    requires At(s, t).d.DrainKind?
    ensures SlowEffect(s, Next(s, t, Go), t, SlowOf(s, t, Go))
  {
  }

  lemma SlowEffectServe(s: State, t: Thread)
    requires Enabled(s, t, Go) && At(s, t).Drain?
    requires At(s, t).d.DrainRun? || At(s, t).d.DrainGrant? || At(s, t).d.DrainHandOff?
    ensures SlowEffect(s, Next(s, t, Go), t, SlowOf(s, t, Go))
  {
  }

  lemma SlowEffectMove(s: State, t: Thread)
    requires Enabled(s, t, Go) && At(s, t).Drain? && !At(s, t).d.DrainKind?
    requires !At(s, t).d.DrainRun? && !At(s, t).d.DrainGrant? && !At(s, t).d.DrainHandOff?
    ensures SlowEffect(s, Next(s, t, Go), t, SlowOf(s, t, Go))
  {
  }

  lemma HasSlowEffectDrain(s: State, t: Thread)
    requires Enabled(s, t, Go) && At(s, t).Drain? && !At(s, t).d.DrainKind?
    ensures SlowEffect(s, Next(s, t, Go), t, SlowOf(s, t, Go))
  {
    if At(s, t).d.DrainRun? || At(s, t).d.DrainGrant? || At(s, t).d.DrainHandOff? { SlowEffectServe(s, t); }
    else { SlowEffectMove(s, t); }
  }

  lemma HasSlowEffectSync(s: State, t: Thread)
    requires Enabled(s, t, Go) && At(s, t).Sync?
    ensures SlowEffect(s, Next(s, t, Go), t, SlowOf(s, t, Go))
  {
  }

  lemma HasSlowEffectBarrier(s: State, t: Thread)
    requires Enabled(s, t, Go) && At(s, t).Bar?
    ensures SlowEffect(s, Next(s, t, Go), t, SlowOf(s, t, Go))
  {
  }

  lemma HasSlowEffectPush(s: State, t: Thread)
    requires Enabled(s, t, Go) && At(s, t).Push?
    ensures SlowEffect(s, Next(s, t, Go), t, SlowOf(s, t, Go))
  {
  }

  lemma HasSlowEffectStart(s: State, t: Thread, op: Op)
    requires Enabled(s, t, op) && !op.Go?
    ensures SlowEffect(s, Next(s, t, op), t, SlowOf(s, t, op))
  {
  }

  lemma HasSlowEffectOther(s: State, t: Thread)
    requires Enabled(s, t, Go) && (At(s, t).Waking? || At(s, t).Invoke? || At(s, t).IdleCheck? || At(s, t).InAsync?)
    ensures SlowEffect(s, Next(s, t, Go), t, SlowOf(s, t, Go))
  {
  }

  lemma SetStep(s: State, s': State, t: Thread, e: Slow)
    requires SlowEffect(s, s', t, e) && OnlyMoves(s, s', t)
    requires forall x :: x in s.readers <==> IsReader(s, x)
    requires forall x :: x in s.holders <==> IsHolder(s, x)
    requires WaitInv(s) && ItemsInv(s)
    requires e.Enqueue? ==> Waiter(e.i) <= {t}
    requires e.HandOver? ==> e.u in s.queued && AwaitsBarrier(At(s, e.u))
    ensures forall x :: x in s'.readers <==> IsReader(s', x)
    ensures forall x :: x in s'.holders <==> IsHolder(s', x)
  {
    assert WaitLocal(s, t);
    if e.Pop? { assert GoodItem(s, s.items[0]); }
    forall x ensures (x in s'.readers <==> IsReader(s', x)) && (x in s'.holders <==> IsHolder(s', x)) {
      assert WaitLocal(s, x);
    }
  }

  lemma WaitStep(s: State, s': State, t: Thread, e: Slow)
    requires SlowEffect(s, s', t, e) && OnlyMoves(s, s', t)
    requires WaitInv(s) && ItemsInv(s)
    requires e.Enqueue? ==> Waiter(e.i) <= {t}
    requires e.HandOver? ==> e.u in s.queued
    requires e.Grant? ==> e.u !in s.queued && (AwaitsSync(At(s, e.u)) || AwaitsBarrier(At(s, e.u)))
    requires At(s', t).Push? ==> Waiter(At(s', t).item) <= {t}
    ensures WaitInv(s')
  {
    forall u ensures WaitLocal(s', u) {
      assert WaitLocal(s, u);
    }
  }

  lemma ItemsStep(s: State, s': State, t: Thread, e: Slow)
    requires SlowEffect(s, s', t, e) && OnlyMoves(s, s', t)
    requires WaitInv(s) && ItemsInv(s)
    requires e.Enqueue? ==> Waiter(e.i) <= {t}
    requires e.HandOver? ==> Separate(s.items, BarrierSlow(e.u))
    requires s'.detached ==> s'.items != []
    ensures ItemsInv(s')
  {
    assert WaitLocal(s, t);
    forall j | 0 <= j < |s'.items| ensures GoodItem(s', s'.items[j]) {
      if e.Pop? { assert GoodItem(s, s.items[j + 1]); }
      else if j < |s.items| { assert GoodItem(s, s.items[j]); }
    }
  }

  // The redirected items.

  ghost predicate AsyncEffect(s: State, s': State, t: Thread) {
    var c, c' := At(s, t), At(s', t);
    && s'.width == s.width
    && (|| (s'.asyncThreads == s.asyncThreads && c'.InAsync? == c.InAsync?)
        || (s'.asyncThreads == s.asyncThreads + {t} && c'.InAsync?)
        || (s'.asyncThreads == s.asyncThreads - {t} && !c'.InAsync?))
    && (|| (s'.hand == s.hand && IsRedirecting(c') == IsRedirecting(c))
        || (s'.hand == s.hand + {t} && IsRedirecting(c'))
        || (s'.hand == s.hand - {t} && !IsRedirecting(c')))
    && (Asyncs(s') <= Asyncs(s) || (PastWidth(c) && !PastWidth(c') && s.width != 1 && Asyncs(s') == Asyncs(s) + 1))
    && (PastWidth(c') ==> PastWidth(c) || 1 + 2 * Asyncs(s') <= s.width)
    && (s.width == 1 && !UsesSync(c) && (s.items != [] ==> !s.items[0].SyncSlow?) ==> !UsesSync(c'))
  }

  /** What the drainer knows about the redirected items. */
  ghost predicate RedirectFacts(s: State, t: Thread) {
    (t in s.hand <==> IsRedirecting(At(s, t))) && s.run >= 1 + 2 * Asyncs(s)
  }

  lemma HasRedirectFacts(s: State, t: Thread)
    requires Facts(s, t) && At(s, t).Drain?
    ensures RedirectFacts(s, t)
  {
  }

  lemma PopFields(s: State, t: Thread)
    requires Enabled(s, t, Go) && At(s, t).Drain? && At(s, t).d.DrainKind?
    ensures var s' := Next(s, t, Go);
      && s'.width == s.width && s'.asyncThreads == s.asyncThreads && s'.rootItems == s.rootItems
      && s'.hand == (if IsRedirecting(At(s', t)) then s.hand + {t} else s.hand)
      && (IsRedirecting(At(s', t)) ==> s.width != 1)
      && At(s', t).Drain? && !PastWidth(At(s', t))
      && (At(s', t).d.DrainGrant? ==> s.items != [] && s.items[0].SyncSlow?)
  {
    if s.items != [] {
      var i := s.items[0];
      if i.SyncSlow? {} else if Redirects(s, i) {} else if HasBarrierBit(i) && BarrierMustWait(s) {} else {}
    }
  }

  lemma AsyncPop(s: State, t: Thread)
    requires RedirectFacts(s, t) && Enabled(s, t, Go) && At(s, t).Drain?
    requires At(s, t).d.DrainKind?
    ensures AsyncEffect(s, Next(s, t, Go), t)
  {
    PopFields(s, t);
    assert t !in s.hand && |s.hand + {t}| == |s.hand| + 1;
  }

  lemma AsyncPushed(s: State, t: Thread)
    requires RedirectFacts(s, t) && Enabled(s, t, Go) && At(s, t).Drain?
    requires !(At(s, t).d.DrainKind?)
    requires IsRedirecting(At(s, t))
    ensures AsyncEffect(s, Next(s, t, Go), t)
  {
    AsyncQuietDest(s, t);
    RedirectFields(s, t);
    assert |s.hand - {t}| == |s.hand| - 1;
  }

  lemma AsyncQuietDest(s: State, t: Thread)
    requires Enabled(s, t, Go) && At(s, t).Drain? && !At(s, t).d.DrainKind?
    ensures var c, c' := At(s, t), At(Next(s, t, Go), t);
      && !c'.InAsync? && !IsRedirecting(c') && (UsesSync(c') ==> UsesSync(c))
      && (PastWidth(c') && !PastWidth(c) ==> s.run <= s.width)
  {
  }

  lemma DrainKeepsAsyncs(s: State, t: Thread)
    requires Enabled(s, t, Go) && At(s, t).Drain? && !At(s, t).d.DrainKind? && !IsRedirecting(At(s, t))
    ensures var s' := Next(s, t, Go);
      s'.width == s.width && s'.asyncThreads == s.asyncThreads && s'.hand == s.hand && s'.rootItems == s.rootItems
  {
    var d := At(s, t).d;
    if StaysQuiet(d) { QuietFields(s, t); }
    else if d.DrainRun? {} else {}
  }

  lemma AsyncDrain(s: State, t: Thread)
    requires RedirectFacts(s, t) && Enabled(s, t, Go) && At(s, t).Drain?
    requires !(At(s, t).d.DrainKind?)
    requires !(IsRedirecting(At(s, t)))
    ensures AsyncEffect(s, Next(s, t, Go), t)
  {
    AsyncQuietDest(s, t);
    DrainKeepsAsyncs(s, t);
  }

  lemma AsyncFinish(s: State, t: Thread)
    requires Facts(s, t) && Enabled(s, t, Go) && (At(s, t).Invoke? || At(s, t).InAsync? || At(s, t).IdleCheck?)
    requires At(s, t).InAsync?
    ensures AsyncEffect(s, Next(s, t, Go), t)
  {
  }

  lemma InvokeFields(s: State, t: Thread)
    requires Enabled(s, t, Go) && (At(s, t).Invoke? || At(s, t).IdleCheck?)
    ensures var s' := Next(s, t, Go);
      && s'.width == s.width && s'.asyncThreads == s.asyncThreads && s'.hand == s.hand && s'.rootItems == s.rootItems
      && !At(s', t).InAsync? && !IsRedirecting(At(s', t)) && !PastWidth(At(s', t)) && !UsesSync(At(s', t))
  {
    if At(s, t).Invoke? {} else {}
  }

  lemma AsyncInvoke(s: State, t: Thread)
    requires Facts(s, t) && Enabled(s, t, Go) && (At(s, t).Invoke? || At(s, t).IdleCheck?)
    ensures AsyncEffect(s, Next(s, t, Go), t)
  {
    InvokeFields(s, t);
  }

  lemma AsyncRoot(s: State, t: Thread)
    requires Facts(s, t) && Enabled(s, t, TakeFromRoot)
    ensures AsyncEffect(s, Next(s, t, TakeFromRoot), t)
  {
    assert |s.asyncThreads + {t}| == |s.asyncThreads| + 1;
  }

  lemma OutsideFields(s: State, t: Thread, op: Op)
    requires Enabled(s, t, op) && (op.Suspend? || op.Resume? || op.TakeFromTarget?)
    ensures var s' := Next(s, t, op);
      && s'.width == s.width && s'.asyncThreads == s.asyncThreads && s'.hand == s.hand && s'.rootItems == s.rootItems
      && !At(s', t).InAsync? && !At(s', t).Drain? && !UsesSync(At(s', t))
  {
  }

  lemma AsyncStart(s: State, t: Thread, op: Op)
    requires Facts(s, t) && Enabled(s, t, op) && !op.Go?
    ensures AsyncEffect(s, Next(s, t, op), t)
  {
    if op.TakeFromRoot? { AsyncRoot(s, t); }
    else if op.StartPush? || op.StartSync? || op.StartBarrierSync? { EnterFields(s, t, op); }
    else { OutsideFields(s, t, op); }
  }

  lemma AsyncSync(s: State, t: Thread)
    requires Enabled(s, t, Go) && At(s, t).Sync?
    ensures AsyncEffect(s, Next(s, t, Go), t)
  {
  }

  lemma AsyncBar(s: State, t: Thread)
    requires Enabled(s, t, Go) && At(s, t).Bar?
    ensures AsyncEffect(s, Next(s, t, Go), t)
  {
  }

  lemma ClientFields(s: State, t: Thread)
    requires Enabled(s, t, Go) && (At(s, t).Push? || At(s, t).Waking?)
    ensures var s' := Next(s, t, Go);
      && s'.width == s.width && s'.asyncThreads == s.asyncThreads && s'.hand == s.hand && s'.rootItems == s.rootItems
      && !At(s', t).InAsync? && !At(s', t).Drain? && (UsesSync(At(s', t)) ==> UsesSync(At(s, t)))
  {
    if At(s, t).Push? {} else {}
  }

  lemma AsyncClient(s: State, t: Thread)
    requires Enabled(s, t, Go) && (At(s, t).Push? || At(s, t).Waking?)
    ensures AsyncEffect(s, Next(s, t, Go), t)
  {
    ClientFields(s, t);
  }

  lemma WidthStep(s: State, s': State, t: Thread, e: Slow)
    requires WidthInv(s) && AsyncEffect(s, s', t) && SlowEffect(s, s', t, e) && OnlyMoves(s, s', t)
    requires e.Enqueue? ==> At(s, t).Push? && At(s, t).item == e.i
    requires forall u :: HoldsBit(At(s, u)) && HoldsBit(At(s, t)) ==> u == t
    ensures WidthInv(s')
  {
  }

  // The drainer's own knowledge.

  lemma DrainerGrants(s: State, t: Thread)
    requires Enabled(s, t, Go) && At(s, t).Drain? && At(s, t).d.DrainKind? && DrainLocal(s, At(s, t).d)
    requires s.items != [] && s.items[0].SyncSlow? && GoodItem(s, s.items[0]) && WaitLocal(s, s.items[0].t)
    ensures DrainLocal(Next(s, t, Go), At(Next(s, t, Go), t).d)
  {
  }

  lemma DrainerTakes(s: State, t: Thread)
    requires Enabled(s, t, Go) && At(s, t).Drain? && At(s, t).d.DrainKind? && DrainLocal(s, At(s, t).d)
    requires ItemsInv(s) && s.items != [] && !s.items[0].SyncSlow?
    ensures DrainLocal(Next(s, t, Go), At(Next(s, t, Go), t).d)
  {
    assert GoodItem(s, s.items[0]);
    if Redirects(s, s.items[0]) {} else {}
  }

  lemma DrainerPops(s: State, t: Thread)
    requires Enabled(s, t, Go) && At(s, t).Drain? && At(s, t).d.DrainKind? && DrainLocal(s, At(s, t).d)
    requires ItemsInv(s) && WaitInv(s)
    ensures DrainLocal(Next(s, t, Go), At(Next(s, t, Go), t).d)
  {
    if s.items[0].SyncSlow? {
      assert GoodItem(s, s.items[0]) && WaitLocal(s, s.items[0].t);
      DrainerGrants(s, t);
    } else {
      DrainerTakes(s, t);
    }
  }

  lemma DrainerRuns(s: State, t: Thread)
    requires Enabled(s, t, Go) && At(s, t).Drain? && At(s, t).d.DrainRun? && DrainLocal(s, At(s, t).d) && WaitInv(s)
    ensures DrainLocal(Next(s, t, Go), At(Next(s, t, Go), t).d)
  {
    assert WaitLocal(s, if At(s, t).d.ran.BarrierSlow? then At(s, t).d.ran.t else t);
  }

  lemma DrainerOwn(s: State, t: Thread)
    requires Enabled(s, t, Go) && At(s, t).Drain? && DrainLocal(s, At(s, t).d) && ItemsInv(s) && WaitInv(s)
    requires At(Next(s, t, Go), t).Drain?
    ensures DrainLocal(Next(s, t, Go), At(Next(s, t, Go), t).d)
  {
    var d := At(s, t).d;
    if d.DrainKind? { DrainerPops(s, t); } else if d.DrainRun? { DrainerRuns(s, t); }
  }

  lemma DrainerOther(s: State, s': State, t: Thread, e: Slow, w: Thread)
    requires w != t && At(s, w).Drain? && DrainLocal(s, At(s, w).d) && WaitInv(s)
    requires s'.width == s.width && s'.detached == s.detached
    requires SlowEffect(s, s', t, e) && OnlyMoves(s, s', t) && !e.Pop? && !e.HandOver? && !e.Grant?
    requires e.Enqueue? ==> Waiter(e.i) <= {t}
    ensures DrainLocal(s', At(s', w).d)
  {
    assert WaitLocal(s, t);
  }

  // Running alone.

  ghost predicate AloneEffect(s: State, s': State, t: Thread, e: Slow) {
    var c, c' := At(s, t), At(s', t);
    && (s.fast ==> s'.fast) && (s.slow ==> s'.slow)
    && (RunsAlone(c') && !RunsAlone(c) ==>
          s.readers == {} && Asyncs(s') == 0 && e != EnterReader && (PastSuspended(c) || s'.fast))
    && (PastSuspended(c') && !PastSuspended(c) ==> s.holders == {})
    && (e.EnterReader? ==> c' == Sync(Backoff) || (s'.fast && s.locker == {}))
    && (e.Pop? && s.items != [] && s.items[0].SyncSlow? ==> PastSuspended(c) && HoldsBit(c) && !RunsAlone(c'))
    && (Asyncs(s') > Asyncs(s) ==> e.Pop? && PastSuspended(c) && HoldsBit(c) && !RunsAlone(c'))
    && (e.HandOver? ==> RunsAlone(c) && HoldsBit(c) && !RunsAlone(c') && !PastSuspended(c') && s'.slow)
    && (c == Sync(Backoff) ==> e.ExitReader?)
  }

  lemma AlonePop(s: State, t: Thread)
    requires Facts(s, t) && WidthFacts(s) && Enabled(s, t, Go) && At(s, t).Drain?
    requires At(s, t).d.DrainKind?
    ensures AloneEffect(s, Next(s, t, Go), t, SlowOf(s, t, Go))
  {
  }

  /** Where the drain goes from one of its quiet steps. */
  lemma QuietDest(s: State, t: Thread)
    requires Enabled(s, t, Go) && At(s, t).Drain? && StaysQuiet(At(s, t).d)
    ensures var c, c' := At(s, t), At(Next(s, t, Go), t);
      && !RunsAlone(c') && (PastSuspended(c') && !PastSuspended(c) ==> !Suspended(s))
      && (SlowOf(s, t, Go).Quiet? || SlowOf(s, t, Go).Grant?)
  {
  }

  lemma AloneQuiet(s: State, s': State, t: Thread, e: Slow)
    requires WordInv(s) && At(s, t).Drain? && s' == s.(detached := s'.detached, granted := s'.granted, pc := s'.pc)
    requires !RunsAlone(At(s', t)) && (PastSuspended(At(s', t)) && !PastSuspended(At(s, t)) ==> !Suspended(s))
    requires e.Quiet? || e.Grant?
    ensures AloneEffect(s, s', t, e)
  {
  }

  lemma AloneRedirect(s: State, t: Thread)
    requires Facts(s, t) && Enabled(s, t, Go) && At(s, t).Drain? && At(s, t).d.DrainRedirect?
    ensures AloneEffect(s, Next(s, t, Go), t, SlowOf(s, t, Go))
  {
    RedirectFields(s, t);
  }

  lemma AloneRun(s: State, t: Thread)
    requires Facts(s, t) && Enabled(s, t, Go) && At(s, t).Drain? && At(s, t).d.DrainRun?
    ensures AloneEffect(s, Next(s, t, Go), t, SlowOf(s, t, Go))
  {
  }

  lemma AloneRelease(s: State, t: Thread)
    requires Facts(s, t) && Enabled(s, t, Go) && At(s, t).Drain? && At(s, t).d.InvRelease?
    ensures AloneEffect(s, Next(s, t, Go), t, SlowOf(s, t, Go))
  {
  }

  lemma AloneDrain(s: State, t: Thread)
    requires Facts(s, t) && Enabled(s, t, Go) && At(s, t).Drain?
    requires !(At(s, t).d.DrainKind?)
    ensures AloneEffect(s, Next(s, t, Go), t, SlowOf(s, t, Go))
  {
    var d := At(s, t).d;
    if d.DrainRedirect? { AloneRedirect(s, t); }
    else if d.DrainRun? { AloneRun(s, t); }
    else if d.InvRelease? { AloneRelease(s, t); }
    else {
      QuietFields(s, t);
      QuietDest(s, t);
      AloneQuiet(s, Next(s, t, Go), t, SlowOf(s, t, Go));
    }
  }

  /** On a serial queue the running word counts nobody but the holder of the barrier bit. */
  ghost predicate WidthFacts(s: State) {
    s.width == 1 ==> s.readers == {} && Asyncs(s) == 0
  }

  lemma AloneSyncAdd(s: State, t: Thread)
    requires Facts(s, t) && Enabled(s, t, Go) && At(s, t).Sync?
    requires At(s, t).y.SyncAdd?
    ensures AloneEffect(s, Next(s, t, Go), t, SlowOf(s, t, Go))
  {
  }

  lemma AloneSync(s: State, t: Thread)
    requires Facts(s, t) && Enabled(s, t, Go) && At(s, t).Sync?
    requires !(At(s, t).y.SyncAdd?)
    ensures AloneEffect(s, Next(s, t, Go), t, SlowOf(s, t, Go))
  {
  }

  lemma AloneBarrier(s: State, t: Thread)
    requires Facts(s, t) && Enabled(s, t, Go) && At(s, t).Bar?
    ensures AloneEffect(s, Next(s, t, Go), t, SlowOf(s, t, Go))
  {
  }

  lemma AloneInvoke(s: State, t: Thread)
    requires Facts(s, t) && Enabled(s, t, Go) && !At(s, t).Drain? && !At(s, t).Sync? && !At(s, t).Bar?
    requires At(s, t).Invoke?
    ensures AloneEffect(s, Next(s, t, Go), t, SlowOf(s, t, Go))
  {
  }

  lemma AloneFinish(s: State, t: Thread)
    requires Facts(s, t) && Enabled(s, t, Go) && At(s, t).InAsync?
    ensures AloneEffect(s, Next(s, t, Go), t, SlowOf(s, t, Go))
  {
  }

  lemma AloneOther(s: State, t: Thread)
    requires Facts(s, t) && Enabled(s, t, Go) && !At(s, t).Drain? && !At(s, t).Sync? && !At(s, t).Bar?
    requires !(At(s, t).Invoke?)
    ensures AloneEffect(s, Next(s, t, Go), t, SlowOf(s, t, Go))
  {
    if At(s, t).InAsync? { AloneFinish(s, t); }
  }

  lemma AloneOutside(s: State, t: Thread, op: Op)
    requires Enabled(s, t, op) && (op.Suspend? || op.Resume? || op.TakeFromTarget? || op.TakeFromRoot?)
    ensures AloneEffect(s, Next(s, t, op), t, SlowOf(s, t, op))
  {
    if op.TakeFromRoot? { assert |s.asyncThreads + {t}| <= |s.asyncThreads| + 1; }
  }

  lemma AloneStart(s: State, t: Thread, op: Op)
    requires Facts(s, t) && Enabled(s, t, op) && !op.Go?
    ensures AloneEffect(s, Next(s, t, op), t, SlowOf(s, t, op))
  {
    if op.StartPush? || op.StartSync? || op.StartBarrierSync? { EnterFields(s, t, op); }
    else { AloneOutside(s, t, op); }
  }

  lemma AloneStep(s: State, s': State, t: Thread, e: Slow)
    requires AloneInv(s) && AloneEffect(s, s', t, e) && SlowEffect(s, s', t, e) && OnlyMoves(s, s', t) && LockerInv(s)
    requires forall u :: HoldsBit(At(s, u)) && HoldsBit(At(s, t)) ==> u == t
    ensures AloneInv(s')
  {
  }

  // ------------------------------------------------------------------ every step

  ghost predicate Inv(s: State) {
    && TokenInv(s) && LockerInv(s) && WordInv(s) && CareInv(s)
    && ItemsInv(s) && WaitInv(s) && DrainerInv(s) && SetInv(s)
    && WidthInv(s) && AloneInv(s) && StrandInv(s) && DetachedInv(s)
  }

  lemma OnlyLocker(locker: set<Thread>, t: Thread)
    requires |locker| <= 1 && t in locker
    ensures locker == {t}
  {
    assert |locker - {t}| == 0;
  }

  lemma HasFacts(s: State, t: Thread)
    requires Inv(s)
    ensures Facts(s, t) && WidthFacts(s)
    ensures forall u :: HoldsBit(At(s, u)) && HoldsBit(At(s, t)) ==> u == t
  {
    if HoldsBit(At(s, t)) { OnlyLocker(s.locker, t); }
    if s.items != [] { assert GoodItem(s, s.items[0]); }
    if s.width == 1 {
      assert forall x :: x in s.readers ==> IsReader(s, x) && !UsesSync(At(s, x));
    }
  }

  ghost predicate Effects(s: State, s': State, t: Thread, e: Slow) {
    WordStep(s, s', t) && SlowEffect(s, s', t, e) && AsyncEffect(s, s', t) && AloneEffect(s, s', t, e)
  }

  lemma ClientEffects(s: State, t: Thread)
    requires Facts(s, t) && Enabled(s, t, Go)
      && (At(s, t).Push? || At(s, t).Waking? || At(s, t).IdleCheck? || At(s, t).InAsync?)
    ensures Effects(s, Next(s, t, Go), t, SlowOf(s, t, Go))
  {
    AloneOther(s, t);
    if At(s, t).Push? { PushWords(s, t); HasSlowEffectPush(s, t); } else { HasSlowEffectOther(s, t); }
    if At(s, t).Push? || At(s, t).Waking? { AsyncClient(s, t); }
    else if At(s, t).InAsync? { AsyncFinish(s, t); } else { AsyncInvoke(s, t); }
    if At(s, t).IdleCheck? || At(s, t).InAsync? { LastWords(s, t); }
    if At(s, t).Waking? { if At(s, t).w.WakePush? { WakePushWords(s, t); } else { WakeWords(s, t); } }
  }

  lemma SyncEffects(s: State, t: Thread)
    requires Facts(s, t) && Enabled(s, t, Go) && At(s, t).Sync?
    ensures Effects(s, Next(s, t, Go), t, SlowOf(s, t, Go))
  {
    HasSlowEffectSync(s, t);
    AsyncSync(s, t);
    var y := At(s, t).y;
    if y.SyncAdd? { SyncAddWords(s, t); AloneSyncAdd(s, t); } else { AloneSync(s, t); }
    if y.InReader? || y.Backoff? { SyncExitWords(s, t); } else if !y.SyncAdd? { SyncWords(s, t); }
  }

  lemma BarrierEffects(s: State, t: Thread)
    requires Facts(s, t) && Enabled(s, t, Go) && At(s, t).Bar?
    ensures Effects(s, Next(s, t, Go), t, SlowOf(s, t, Go))
  {
    HasSlowEffectBarrier(s, t);
    AsyncBar(s, t);
    AloneBarrier(s, t);
    var b := At(s, t).b;
    if b.InSlow? { SlowExitWords(s, t); } else if b.InFast? { FastExitWords(s, t); }
    else if b.BarLock? { BarrierLockWords(s, t); } else { BarrierWords(s, t); }
  }

  lemma InvokeEffects(s: State, t: Thread)
    requires Facts(s, t) && Enabled(s, t, Go) && At(s, t).Invoke?
    ensures Effects(s, Next(s, t, Go), t, SlowOf(s, t, Go))
  {
    HasSlowEffectOther(s, t);
    AsyncInvoke(s, t);
    AloneInvoke(s, t);
    var v := At(s, t).v;
    if v.InvLock? { InvokeLockWords(s, t); }
    else if v.InvPush? { InvokePushWords(s, t); } else { InvokeWords(s, t); }
  }

  lemma DrainEffects(s: State, t: Thread)
    requires Facts(s, t) && WidthFacts(s) && Enabled(s, t, Go) && At(s, t).Drain?
    ensures Effects(s, Next(s, t, Go), t, SlowOf(s, t, Go))
  {
    var d := At(s, t).d;
    HasRedirectFacts(s, t);
    if d.DrainKind? { HasSlowEffectPop(s, t); AsyncPop(s, t); AlonePop(s, t); DrainPopWords(s, t); }
    else {
      HasSlowEffectDrain(s, t); AloneDrain(s, t);
      if d.DrainRedirect? { AsyncPushed(s, t); } else { AsyncDrain(s, t); }
      if d.DrainRun? { DrainRunWords(s, t); }
      else if d.InvRelease? { DrainReleaseWords(s, t); }
      else { DrainQuietWords(s, t); }
    }
  }

  lemma AllEffects(s: State, t: Thread, op: Op)
    requires Facts(s, t) && WidthFacts(s) && Enabled(s, t, op)
    ensures Effects(s, Next(s, t, op), t, SlowOf(s, t, op))
  {
    if !op.Go? {
      StartWords(s, t, op); HasSlowEffectStart(s, t, op); AsyncStart(s, t, op); AloneStart(s, t, op);
    } else {
      match At(s, t)
      case Sync(_) => SyncEffects(s, t);
      case Bar(_) => BarrierEffects(s, t);
      case Invoke(_) => InvokeEffects(s, t);
      case Drain(_, _) => DrainEffects(s, t);
      case _ => ClientEffects(s, t);
    }
  }

  /** Side conditions of the slow-path lemmas, from the invariant. */
  ghost predicate SlowPre(s: State, s': State, t: Thread, e: Slow) {
    && (e.Enqueue? ==> Waiter(e.i) <= {t} && At(s, t).Push? && At(s, t).item == e.i)
    && (e.HandOver? ==> e.u in s.queued && AwaitsBarrier(At(s, e.u)) && Separate(s.items, BarrierSlow(e.u)))
    && (e.Grant? ==> e.u !in s.queued && (AwaitsSync(At(s, e.u)) || AwaitsBarrier(At(s, e.u))))
    && (At(s', t).Push? ==> Waiter(At(s', t).item) <= {t})
    && (!At(s, t).Drain? ==> s'.detached == s.detached && !e.Pop? && !e.HandOver? && !e.Grant?)
    && (s'.detached ==> s'.items != [])
  }

  lemma HasSlowPreDrain(s: State, t: Thread)
    requires Enabled(s, t, Go) && At(s, t).Drain? && DrainLocal(s, At(s, t).d) && WaitLocal(s, t)
      && (s.detached ==> s.items != [])
    ensures SlowPre(s, Next(s, t, Go), t, SlowOf(s, t, Go))
  {
  }

  lemma SlowPreStart(s: State, t: Thread, op: Op)
    requires Enabled(s, t, op) && !op.Go? && (s.detached ==> s.items != [])
    ensures SlowPre(s, Next(s, t, op), t, SlowOf(s, t, op))
  {
    if op.StartPush? || op.StartSync? || op.StartBarrierSync? { EnterFields(s, t, op); }
  }

  lemma SlowPreSync(s: State, t: Thread)
    requires Enabled(s, t, Go) && (At(s, t).Sync? || At(s, t).Bar?) && (s.detached ==> s.items != [])
    ensures SlowPre(s, Next(s, t, Go), t, SlowOf(s, t, Go))
  {
    if At(s, t).Sync? {} else {}
  }

  lemma SlowPreClient(s: State, t: Thread)
    requires Enabled(s, t, Go) && !At(s, t).Drain? && !At(s, t).Sync? && !At(s, t).Bar?
    requires WaitLocal(s, t) && (s.detached ==> s.items != [])
    ensures SlowPre(s, Next(s, t, Go), t, SlowOf(s, t, Go))
  {
    match At(s, t)
    case Push(_) =>
    case Waking(_, _) =>
    case Invoke(_) =>
    case IdleCheck =>
    case InAsync =>
  }

  lemma HasSlowPreOther(s: State, t: Thread, op: Op)
    requires Enabled(s, t, op) && !At(s, t).Drain? && WaitLocal(s, t) && (s.detached ==> s.items != [])
    ensures SlowPre(s, Next(s, t, op), t, SlowOf(s, t, op))
  {
    if !op.Go? { SlowPreStart(s, t, op); }
    else if At(s, t).Sync? || At(s, t).Bar? { SlowPreSync(s, t); }
    else { SlowPreClient(s, t); }
  }

  lemma AsyncSets(s: State, s': State, t: Thread)
    requires AsyncEffect(s, s', t) && OnlyMoves(s, s', t)
    requires forall u :: u in s.asyncThreads <==> At(s, u).InAsync?
    requires forall u :: u in s.hand <==> IsRedirecting(At(s, u))
    ensures forall u :: u in s'.asyncThreads <==> At(s', u).InAsync?
    ensures forall u :: u in s'.hand <==> IsRedirecting(At(s', u))
  {
  }

  lemma SlowStep(s: State, s': State, t: Thread, e: Slow)
    requires SlowEffect(s, s', t, e) && SlowPre(s, s', t, e) && AsyncEffect(s, s', t) && OnlyMoves(s, s', t)
    requires ItemsInv(s) && WaitInv(s) && SetInv(s)
    ensures ItemsInv(s') && WaitInv(s') && SetInv(s')
  {
    SetStep(s, s', t, e);
    AsyncSets(s, s', t);
    WaitStep(s, s', t, e);
    ItemsStep(s, s', t, e);
  }

  lemma DrainerStep(s: State, t: Thread, op: Op)
    requires Enabled(s, t, op) && TokenInv(s) && DrainerInv(s) && ItemsInv(s) && WaitInv(s)
    requires Effects(s, Next(s, t, op), t, SlowOf(s, t, op)) && SlowPre(s, Next(s, t, op), t, SlowOf(s, t, op))
    ensures DrainerInv(Next(s, t, op))
  {
    var s' := Next(s, t, op);
    if s'.token.Invoking? && At(s', s'.token.who).Drain? {
      var w := s'.token.who;
      if w != t { DrainerOther(s, s', t, SlowOf(s, t, op), w); }
      else if At(s, t).Drain? { DrainerOwn(s, t); }
      else { DrainerEnters(s, t, op); }
    }
  }

  lemma DrainerEnters(s: State, t: Thread, op: Op)
    requires Enabled(s, t, op) && !At(s, t).Drain? && At(Next(s, t, op), t).Drain?
    ensures At(Next(s, t, op), t).d == DrainTail
  {
    if op.Go? {
      match At(s, t)
      case Invoke(_) =>
      case _ =>
    }
  }

  lemma DetachedOwn(s: State, t: Thread)
    requires Enabled(s, t, Go) && At(s, t).Drain? && (s.detached ==> s.items != [] && HasItemInHand(At(s, t)))
    requires At(s, t).d.DrainTake? ==> s.items != []
    ensures Next(s, t, Go).detached ==> Next(s, t, Go).items != [] && HasItemInHand(At(Next(s, t, Go), t))
    ensures Next(s, t, Go).token == s.token
  {
  }

  lemma DetachedStep(s: State, t: Thread, op: Op)
    requires Enabled(s, t, op) && DetachedInv(s) && TokenInv(s) && DrainerInv(s)
    requires TokenEffect(s, Next(s, t, op), t) && SlowPre(s, Next(s, t, op), t, SlowOf(s, t, op))
    ensures DetachedInv(Next(s, t, op))
  {
    if At(s, t).Drain? { DetachedOwn(s, t); }
  }

  /** How the drainer's hand changes. */
  ghost predicate HandEffect(s: State, s': State, t: Thread, e: Slow) {
    var c, c' := At(s, t), At(s', t);
    && (e.Pop? ==>
          s.items != [] && c'.Drain? && (s.items[0].SyncSlow? ==> GrantsTo(c', s.items[0].t))
          && (s.items[0].BarrierSlow? ==> RunsFor(c', s.items[0].t)))
    && (e.HandOver? ==> GrantsTo(c', e.u))
    && (c.Drain? && c.d.DrainRun? && c.d.ran.BarrierSlow? ==> e == HandOver(c.d.ran.t))
    && (c.Drain? && (c.d.DrainGrant? || c.d.DrainHandOff?) ==> e == Grant(c.d.u))
    && (c.Drain? || c'.Drain? ==> InInvoke(c) && InInvoke(c'))
    && (e.Pop? || e.HandOver? ==> c.Drain?)
  }

  lemma HasHandEffectDrain(s: State, t: Thread)
    requires Enabled(s, t, Go) && At(s, t).Drain?
    ensures HandEffect(s, Next(s, t, Go), t, SlowOf(s, t, Go))
  {
  }

  lemma HandEffectGo(s: State, t: Thread)
    requires Enabled(s, t, Go) && !At(s, t).Drain?
    ensures HandEffect(s, Next(s, t, Go), t, SlowOf(s, t, Go))
  {
    match At(s, t)
    case Invoke(_) =>
    case _ =>
  }

  lemma HasHandEffectOther(s: State, t: Thread, op: Op)
    requires Enabled(s, t, op) && !At(s, t).Drain?
    ensures HandEffect(s, Next(s, t, op), t, SlowOf(s, t, op))
  {
    if op.Go? { HandEffectGo(s, t); }
  }

  lemma StrandQueued(s: State, s': State, t: Thread, e: Slow, u: Thread)
    requires SlowEffect(s, s', t, e) && HandEffect(s, s', t, e) && TokenEffect(s, s', t) && OnlyMoves(s, s', t)
    requires NotStranded(s, u) && TokenInv(s) && SlowPre(s, s', t, e) && u in s'.queued
    ensures NotStranded(s', u)
  {
  }

  lemma StrandFree(s: State, s': State, t: Thread, e: Slow, u: Thread)
    requires SlowEffect(s, s', t, e) && HandEffect(s, s', t, e) && TokenEffect(s, s', t) && OnlyMoves(s, s', t)
    requires NotStranded(s, u) && TokenInv(s) && SlowPre(s, s', t, e) && u !in s'.queued
    ensures NotStranded(s', u)
  {
  }

  lemma StrandStep(s: State, s': State, t: Thread, e: Slow)
    requires SlowEffect(s, s', t, e) && HandEffect(s, s', t, e) && TokenEffect(s, s', t) && OnlyMoves(s, s', t)
    requires StrandInv(s) && TokenInv(s) && SlowPre(s, s', t, e)
    ensures StrandInv(s')
  {
    forall u ensures NotStranded(s', u) {
      assert NotStranded(s, u);
      if u in s'.queued { StrandQueued(s, s', t, e, u); } else { StrandFree(s, s', t, e, u); }
    }
  }

  /** Every action of every thread preserves the invariant. */
  lemma StepInv(s: State, t: Thread, op: Op)
    requires Inv(s) && Enabled(s, t, op)
    ensures Inv(Next(s, t, op))
  {
    var s', e := Next(s, t, op), SlowOf(s, t, op);
    HasFacts(s, t);
    AllEffects(s, t, op);
    assert WaitLocal(s, t);
    if At(s, t).Drain? { HasSlowPreDrain(s, t); } else { HasSlowPreOther(s, t, op); }
    TokenStep(s, s', t);
    LockerStep(s, s', t);
    SlowStep(s, s', t, e);
    DrainerStep(s, t, op);
    WidthStep(s, s', t, e);
    AloneStep(s, s', t, e);
    if At(s, t).Drain? { HasHandEffectDrain(s, t); } else { HasHandEffectOther(s, t, op); }
    StrandStep(s, s', t, e);
    DetachedStep(s, t, op);
  }
}
