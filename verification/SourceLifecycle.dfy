/**
 The life of an event source that adds up its data (libdispatch/src/source.c and source_kevent.c):
 events are merged by any number of threads while the source's own queue, one invocation at a time,
 installs it, delivers its data, and after cancellation releases its kernel event and calls the
 cancellation handler. One action is one access to a field another thread may change.
*/
module SourceLifecycle {
  import opened Options

  type Thread = nat

  const WORD: nat := 0x1_0000_0000_0000_0000

  /** The manager queue, the target queue, and any other queue. */
  datatype Queue = Manager | Target | Elsewhere

  /** Where _dispatch_source_invoke is, on the queue `q`; Done is its return value. */
  datatype PC =
    | Start(q: Queue)
    | TestLive(q: Queue)
    | TestPending(q: Queue)
    | LatchCheck
    | LatchExchange
    | Handler
    | Done(next: Option<Queue>)

  /** The fields of the source. */
  datatype Mem = Mem(
    installed: bool,
    kevent: bool,              // ds_dkev != NULL
    canceled: bool,
    referenced: bool,          // do_xref_cnt != 0
    pending: nat,              // ds_pending_data
    rearm: bool,               // ds_needs_rearm
    armed: bool,
    handler: bool,
    cancelHandler: bool)

  /** What has happened so far. */
  datatype Hist = Hist(
    merged: nat,
    delivered: nat,            // data latched for a call of the event handler
    ignored: nat,              // data latched while no event handler was set
    latches: nat,              // latches of data for a call of the event handler
    eventRuns: nat,            // calls of the event handler
    dropped: nat,              // data thrown away by the cancellation callout
    settings: nat,             // cancellation handlers set
    cancelRuns: nat,
    callouts: nat,             // cancellation callouts
    lateEvent: bool,           // an event handler was called after a cancellation callout
    earlyCancel: bool)         // a cancellation handler was called while the kernel event was held

  datatype State = State(m: Mem, h: Hist, pc: PC, adding: map<Thread, nat>)   // threads about to add their data

  predicate Dead(m: Mem) { m.canceled || !m.referenced }

  ghost predicate Init(s: State) {
    && !s.m.installed && s.m.kevent && !Dead(s.m) && s.m.pending == 0 && !s.m.cancelHandler
    && s.h == Hist(0, 0, 0, 0, 0, 0, 0, 0, 0, false, false) && s.pc == Done(None) && s.adding == map[]
  }

  // ------------------------------------------------------------------ invoke

  /** What a step of an invocation does to the source. */
  datatype Deed = Nothing | Install | ReleaseKevent | Callout | Rearm | Latch | CallHandler

  function Deeds(m: Mem, c: PC): Deed {
    match c
    case Start(q) => if !m.installed && q == Manager then Install else Nothing
    case TestLive(q) =>
      if !Dead(m) then Nothing
      else if m.kevent then (if q == Manager then ReleaseKevent else Nothing)
      else if m.cancelHandler && q != Target then Nothing else Callout
    case TestPending(q) => if m.pending == 0 && m.rearm && !m.armed && q == Manager then Rearm else Nothing
    case LatchCheck => Nothing
    case LatchExchange => Latch
    case Handler => CallHandler
    case Done(_) => Nothing
  }

  /** _dispatch_source_kevent_release, _dispatch_source_cancel_callout (which releases a handler that is
      a block), and the latch of the pending data. */
  function MemAfter(m: Mem, d: Deed, blockHandler: bool): Mem {
    match d
    case Nothing => m
    case Install => m.(installed := true)
    case ReleaseKevent => m.(kevent := false, armed := false, rearm := false)
    case Callout => m.(pending := 0, handler := m.handler && !blockHandler, cancelHandler := false)
    case Rearm => m.(armed := true)
    case Latch => m.(pending := 0)
    case CallHandler => m
  }

  function HistAfter(m: Mem, h: Hist, d: Deed): Hist {
    match d
    case Callout =>
      var run := m.cancelHandler && m.canceled;
      h.(dropped := h.dropped + m.pending, cancelRuns := h.cancelRuns + (if run then 1 else 0),
          callouts := h.callouts + 1,
         earlyCancel := h.earlyCancel || (run && m.kevent))
    case Latch =>
      if !m.handler then h.(ignored := h.ignored + m.pending)
      else h.(delivered := h.delivered + m.pending, latches := h.latches + (if m.pending != 0 then 1 else 0))
    case CallHandler => h.(eventRuns := h.eventRuns + 1, lateEvent := h.lateEvent || h.callouts > 0)
    case _ => h
  }

  function Return(q: Queue, here: Queue): PC { Done(if q == here then None else Some(q)) }

  /** The return of _dispatch_source_latch_and_call. */
  function AfterLatch(m: Mem): PC { Done(if m.rearm then Some(Manager) else None) }

  /** Where an invocation continues. */
  function NextPC(m: Mem, c: PC): PC {
    match c
    case Start(q) => if m.installed then TestLive(q) else Return(Manager, q)
    case TestLive(q) =>
      if !Dead(m) then TestPending(q)
      else if m.kevent then Done(Some(if q == Manager then Target else Manager))
      else if m.cancelHandler then Return(Target, q) else Done(None)
    case TestPending(q) =>
      if m.pending != 0 then (if q == Target then LatchCheck else Done(Some(Target)))
      else if m.rearm && !m.armed then Return(Manager, q) else Done(None)
    case LatchCheck => if Dead(m) then AfterLatch(m) else LatchExchange
    case LatchExchange => if m.pending != 0 && m.handler then Handler else AfterLatch(m)
    case Handler => AfterLatch(m)
    case Done(_) => c
  }

  /** One step of an invocation. */
  function Invoke(s: State, b: bool): State {
    var d := Deeds(s.m, s.pc);
    s.(m := MemAfter(s.m, d, b), h := HistAfter(s.m, s.h, d), pc := NextPC(s.m, s.pc))
  }

  // ------------------------------------------------------------------ all actions

  datatype Action =
    | Begin(q: Queue)               // the source's queue is invoked on `q`
    | Go(blockHandler: bool)
    | Check(t: Thread, data: nat)   // _dispatch_source_merge_kevent, its test
    | Add(t: Thread)                // and its addition
    | Cancel
    | Unreference
    | SetCancelHandler              // runs on the source's own queue
    | Disarm                        // a delivered event leaves the source unarmed

  predicate Enabled(s: State, a: Action) {
    match a
    case Begin(_) => s.pc.Done?
    case Go(_) => !s.pc.Done?
    case Check(t, data) => t !in s.adding && data < WORD
    case Add(t) => t in s.adding
    case Cancel => true
    case Unreference => true
    case SetCancelHandler => s.pc.Done?
    case Disarm => true
  }

  function Next(s: State, a: Action): State
    requires Enabled(s, a)
  {
    match a
    case Begin(q) => s.(pc := Start(q))
    case Go(b) => Invoke(s, b)
    case Check(t, data) => if Dead(s.m) then s else s.(adding := s.adding[t := data])
    case Add(t) =>
      s.(m := s.m.(pending := (s.m.pending + s.adding[t]) % WORD), h := s.h.(merged := s.h.merged + s.adding[t]),
        adding := s.adding - {t})
    case Cancel => s.(m := s.m.(canceled := true))
    case Unreference => s.(m := s.m.(referenced := false))
    case SetCancelHandler => s.(m := s.m.(cancelHandler := true), h := s.h.(settings := s.h.settings + 1))
    case Disarm => s.(m := s.m.(armed := false))
  }

  // ------------------------------------------------------------------ invariant

  /** What has become of the data that was merged. */
  function Accounted(m: Mem, h: Hist): nat { h.delivered + h.ignored + m.pending + h.dropped }

  ghost predicate SumInv(s: State) { s.m.pending < WORD && Balanced(s.h.merged, Accounted(s.m, s.h)) }

  /** Equal modulo the word size. */
  ghost predicate Balanced(m: nat, x: nat) { m % WORD == x % WORD }

  predicate Delivering(c: PC) { c.LatchExchange? || c.Handler? }

  ghost predicate OrderInv(m: Mem, h: Hist, c: PC) {
    && (h.callouts == 0 ==> h.dropped == 0 && h.cancelRuns == 0)
    && (h.callouts > 0 ==> Dead(m) && m.installed && !m.kevent && !Delivering(c))
    && (!c.Done? && !c.Start? ==> m.installed)
    && h.cancelRuns + (if m.cancelHandler then 1 else 0) <= h.settings
    && !h.lateEvent && !h.earlyCancel
    && h.latches == h.eventRuns + (if c.Handler? then 1 else 0)
  }

  ghost predicate Inv(s: State) { SumInv(s) && OrderInv(s.m, s.h, s.pc) }

  lemma AddMod(m: nat, x: nat, d: nat)
    requires Balanced(m, x)
    ensures Balanced(m + d, x + d)
  {
    var a, b := m / WORD, x / WORD;
    assert m + d == (x + d) + (a - b) * WORD;
  }

  lemma WrapMod(m: nat, x: nat, p: nat)
    requires Balanced(m, x + p)
    ensures Balanced(m, x + p % WORD)
  {
    var q := p / WORD;
    assert x + p == (x + p % WORD) + q * WORD;
  }

  lemma SumAdd(s: State, t: Thread)
    requires SumInv(s) && t in s.adding
    ensures SumInv(Next(s, Add(t)))
  {
    var d := s.adding[t];
    AddMod(s.h.merged, Accounted(s.m, s.h), d);
    WrapMod(s.h.merged + d, s.h.delivered + s.h.ignored + s.h.dropped, s.m.pending + d);
  }

  /** Invocations move data, and lose none. */
  lemma SumInvoke(m: Mem, h: Hist, d: Deed, b: bool)
    ensures var m', h' := MemAfter(m, d, b), HistAfter(m, h, d);
      m'.pending <= m.pending && h'.merged == h.merged && Accounted(m', h') == Accounted(m, h)
  {
    match d
    case Nothing =>
    case Install =>
    case ReleaseKevent =>
    case Callout =>
    case Rearm =>
    case _ =>
  }

  lemma OrderInvoke(m: Mem, h: Hist, c: PC, b: bool)
    requires OrderInv(m, h, c)
    ensures OrderInv(MemAfter(m, Deeds(m, c), b), HistAfter(m, h, Deeds(m, c)), NextPC(m, c))
  {
    match Deeds(m, c)
    case Nothing =>
    case Install =>
    case ReleaseKevent =>
    case Callout =>
    case Rearm =>
    case Latch =>
    case CallHandler =>
  }

  lemma StepInv(s: State, a: Action)
    requires Inv(s) && Enabled(s, a)
    ensures Inv(Next(s, a))
  {
    if a.Add? { SumAdd(s, a.t); }
    if a.Go? {
      SumInvoke(s.m, s.h, Deeds(s.m, s.pc), a.blockHandler);
      OrderInvoke(s.m, s.h, s.pc, a.blockHandler);
    }
  }

  ghost predicate Step(s: State, s': State) { exists a :: Enabled(s, a) && s' == Next(s, a) }

  ghost predicate IsRun(run: seq<State>) {
    && run != [] && Init(run[0])
    && (forall i :: 0 <= i < |run| - 1 ==> Step(run[i], run[i + 1]))
  }

  lemma {:induction false} RunInv(run: seq<State>, n: nat)
    requires IsRun(run) && n < |run|
    ensures Inv(run[n])
  {
    if n > 0 {
      RunInv(run, n - 1);
      assert Step(run[n - 1], run[n - 1 + 1]);
      var a :| Enabled(run[n - 1], a) && run[n] == Next(run[n - 1], a);
      StepInv(run[n - 1], a);
    }
  }

  /** A source that has an event handler when it is created keeps it until the cancellation callout,
      so no data is latched without a handler to call. */
  lemma {:induction false} HandlerStays(run: seq<State>, n: nat)
    requires IsRun(run) && n < |run| && run[0].m.handler
    ensures run[n].h.ignored == 0 && (run[n].h.callouts == 0 ==> run[n].m.handler)
  {
    if n > 0 {
      HandlerStays(run, n - 1);
      RunInv(run, n - 1);
      assert Step(run[n - 1], run[n - 1 + 1]);
      var a :| Enabled(run[n - 1], a) && run[n] == Next(run[n - 1], a);
      HandlerStep(run[n - 1], a);
    }
  }

  lemma HandlerStep(s: State, a: Action)
    requires Enabled(s, a) && OrderInv(s.m, s.h, s.pc) && s.h.ignored == 0 && (s.h.callouts == 0 ==> s.m.handler)
    ensures Next(s, a).h.ignored == 0 && (Next(s, a).h.callouts == 0 ==> Next(s, a).m.handler)
  {
    if a.Go? {
      match Deeds(s.m, s.pc)
      case Latch =>
      case Callout =>
      case _ =>
    }
  }

  /** All data that was merged has been delivered, is pending, or was thrown away by a cancellation
      callout, modulo the word size, however merges and deliveries interleave; data is ignored only
      by a source without an event handler. */
  lemma ConservationTheorem(run: seq<State>, n: nat)
    requires IsRun(run) && n < |run|
    ensures run[n].h.merged % WORD == Accounted(run[n].m, run[n].h) % WORD
    ensures run[n].h.callouts == 0 ==> run[n].h.dropped == 0
    ensures run[0].m.handler ==> run[n].h.ignored == 0
  {
    RunInv(run, n);
    if run[0].m.handler { HandlerStays(run, n); }
  }

  // ------------------------------------------------------------------ events

  /** A run together with the action of each of its steps. */
  ghost predicate ActionRun(run: seq<State>, acts: seq<Action>) {
    && |run| == |acts| + 1 && Init(run[0])
    && (forall i: nat | i < |acts| :: StepAt(run, acts, i))
  }

  ghost predicate StepAt(run: seq<State>, acts: seq<Action>, i: nat)
    requires i < |acts| < |run|
  {
    ActionStep(run[i], run[i + 1], acts[i])
  }

  ghost predicate ActionStep(s: State, s': State, a: Action) { Enabled(s, a) && s' == Next(s, a) }

  /** The data of one step, if it is an event that comes while the source is neither cancelled nor released. */
  function Event(s: State, a: Action): nat { if a.Check? && !Dead(s.m) then a.data else 0 }

  /** The data of all such events. */
  function Received(run: seq<State>, acts: seq<Action>, n: nat): nat
    requires n <= |acts| < |run|
  {
    if n == 0 then 0 else Received(run, acts, n - 1) + Event(run[n - 1], acts[n - 1])
  }

  /** The data that threads below `k` are about to add. */
  function Held(adding: map<Thread, nat>, k: Thread): nat {
    if k == 0 then 0 else Held(adding, k - 1) + (if k - 1 in adding then adding[k - 1] else 0)
  }

  predicate Below(adding: map<Thread, nat>, k: Thread) { forall t | t in adding :: t < k }

  lemma {:induction false} HeldMore(adding: map<Thread, nat>, t: Thread, data: nat, k: Thread)
    requires t !in adding
    ensures Held(adding[t := data], k) == Held(adding, k) + (if t < k then data else 0)
  {
    if k > 0 { HeldMore(adding, t, data, k - 1); }
  }

  lemma HeldLess(adding: map<Thread, nat>, t: Thread, k: Thread)
    requires t in adding
    ensures Held(adding, k) == Held(adding - {t}, k) + (if t < k then adding[t] else 0)
  {
    HeldMore(adding - {t}, t, adding[t], k);
    assert (adding - {t})[t := adding[t]] == adding;
  }

  lemma {:induction false} HeldStays(adding: map<Thread, nat>, k: Thread, m: Thread)
    requires Below(adding, k) && k <= m
    ensures Held(adding, m) == Held(adding, k)
  {
    if m > k { HeldStays(adding, k, m - 1); }
  }

  lemma EventStep(s: State, a: Action, k: Thread)
    requires Enabled(s, a) && (a.Check? ==> a.t < k) && (a.Add? ==> a.t < k)
    ensures var s' := Next(s, a); s'.h.merged + Held(s'.adding, k) == s.h.merged + Held(s.adding, k) + Event(s, a)
  {
    match a
    case Check(t, data) => HeldMore(s.adding, t, data, k);
    case Add(t) => HeldLess(s.adding, t, k);
    case Go(b) => SumInvoke(s.m, s.h, Deeds(s.m, s.pc), b);
    case _ =>
  }

  /** The threads that bring events in the first `n` steps are below `k`. */
  ghost predicate Bringers(acts: seq<Action>, n: nat, k: Thread)
    requires n <= |acts|
  {
    forall i | 0 <= i < n && acts[i].Check? :: acts[i].t < k
  }

  lemma {:induction false} EventRun(run: seq<State>, acts: seq<Action>, n: nat, k: Thread)
    requires ActionRun(run, acts) && n <= |acts| && Bringers(acts, n, k)
    ensures Received(run, acts, n) == run[n].h.merged + Held(run[n].adding, k) && Below(run[n].adding, k)
    decreases n
  {
    if n == 0 { HeldStays(map[], 0, k); } else {
      EventRun(run, acts, n - 1, k);
      assert StepAt(run, acts, n - 1);
      EventStep(run[n - 1], acts[n - 1], k);
    }
  }

  lemma {:induction false} SomeBound(acts: seq<Action>, n: nat) returns (k: Thread)
    requires n <= |acts|
    ensures Bringers(acts, n, k)
  {
    if n == 0 { return 0; }
    k := SomeBound(acts, n - 1);
    if acts[n - 1].Check? && acts[n - 1].t >= k { k := acts[n - 1].t + 1; }
  }

  /** Every event that comes while the source is neither cancelled nor released is kept, and no other one: its data is
      about to be added by the thread that brought it, or has been delivered, is pending or was thrown away, modulo
      the word size. */
  lemma EventTheorem(run: seq<State>, acts: seq<Action>, n: nat, k: Thread)
    requires ActionRun(run, acts) && n <= |acts| && Below(run[n].adding, k)
    ensures Received(run, acts, n) == run[n].h.merged + Held(run[n].adding, k)
    ensures Balanced(Received(run, acts, n), Held(run[n].adding, k) + Accounted(run[n].m, run[n].h))
  {
    EventCount(run, acts, n, k);
    MergedRun(run, acts, n, Held(run[n].adding, k), Received(run, acts, n));
  }

  lemma HeldSame(adding: map<Thread, nat>, b: Thread, k: Thread)
    requires Below(adding, b) && Below(adding, k)
    ensures Held(adding, b) == Held(adding, k)
  {
    if b < k { HeldStays(adding, b, k); } else { HeldStays(adding, k, b); }
  }

  lemma EventCount(run: seq<State>, acts: seq<Action>, n: nat, k: Thread)
    requires ActionRun(run, acts) && n <= |acts| && Below(run[n].adding, k)
    ensures Received(run, acts, n) == run[n].h.merged + Held(run[n].adding, k)
  {
    var b := SomeBound(acts, n);
    EventRun(run, acts, n, b);
    HeldSame(run[n].adding, b, k);
  }

  lemma MergedRun(run: seq<State>, acts: seq<Action>, n: nat, held: nat, all: nat)
    requires ActionRun(run, acts) && n <= |acts| && all == run[n].h.merged + held
    ensures Balanced(all, held + Accounted(run[n].m, run[n].h))
  {
    ActionsRun(run, acts);
    RunInv(run, n);
    AddMod(run[n].h.merged, Accounted(run[n].m, run[n].h), held);
  }

  lemma ActionsRun(run: seq<State>, acts: seq<Action>)
    requires ActionRun(run, acts)
    ensures IsRun(run)
  {
    forall i | 0 <= i < |run| - 1 ensures Step(run[i], run[i + 1]) { assert StepAt(run, acts, i); }
  }

  // ------------------------------------------------------------------ handlers

  /** Every latch of data has its one call of the event handler: made, or about to be made. */
  lemma HandlerTheorem(run: seq<State>, n: nat)
    requires IsRun(run) && n < |run|
    ensures run[n].h.latches == run[n].h.eventRuns + (if run[n].pc.Handler? then 1 else 0)
    ensures run[n].pc.Done? ==> run[n].h.eventRuns == run[n].h.latches
  {
    RunInv(run, n);
  }

  /** The cancellation handler runs at most once for every time it is set, never while the kernel event
      is held, and no event handler runs after the callout. */
  lemma CancelTheorem(run: seq<State>, n: nat)
    requires IsRun(run) && n < |run|
    ensures run[n].h.cancelRuns <= run[n].h.settings && !run[n].h.earlyCancel && !run[n].h.lateEvent
    ensures run[n].h.callouts > 0 ==> Dead(run[n].m) && !run[n].m.kevent
  {
    RunInv(run, n);
  }

  // ------------------------------------------------------------------ queues

  /** The queue on which the source was last invoked. */
  function On(acts: seq<Action>, n: nat): Option<Queue>
    requires n <= |acts|
  {
    if n == 0 then None else if acts[n - 1].Begin? then Some(acts[n - 1].q) else On(acts, n - 1)
  }

  predicate Placed(c: PC, on: Option<Queue>) {
    match c
    case Start(q) => on == Some(q)
    case TestLive(q) => on == Some(q)
    case TestPending(q) => on == Some(q)
    case Done(_) => true
    case _ => on == Some(Target)
  }

  predicate CallsClient(h: Hist, h': Hist) {
    h'.eventRuns != h.eventRuns || h'.cancelRuns != h.cancelRuns || h'.delivered != h.delivered
  }

  predicate TouchesKernel(m: Mem, m': Mem) {
    m'.installed != m.installed || m'.kevent != m.kevent || (m'.armed && !m.armed)
  }

  lemma PlacedStep(s: State, a: Action, on: Option<Queue>)
    requires Enabled(s, a) && Placed(s.pc, on)
    ensures Placed(Next(s, a).pc, if a.Begin? then Some(a.q) else on)
    ensures CallsClient(s.h, Next(s, a).h) ==> on == Some(Target)
    ensures TouchesKernel(s.m, Next(s, a).m) ==> on == Some(Manager)
  {
    if a.Go? {
      match Deeds(s.m, s.pc)
      case Nothing => match s.pc { case Start(_) => case TestLive(_) => case TestPending(_) => case LatchCheck => }
      case Install =>
      case ReleaseKevent =>
      case Callout =>
      case Rearm =>
      case Latch =>
      case CallHandler =>
    }
  }

  lemma {:induction false} PlacedRun(run: seq<State>, acts: seq<Action>, n: nat)
    requires ActionRun(run, acts) && n <= |acts|
    ensures Placed(run[n].pc, On(acts, n))
  {
    if n > 0 {
      PlacedRun(run, acts, n - 1);
      assert StepAt(run, acts, n - 1);
      PlacedStep(run[n - 1], acts[n - 1], On(acts, n - 1));
    }
  }

  /** The client's handlers run only on the target queue, and the kernel event is installed, armed and released only
      on the manager queue. */
  lemma QueueTheorem(run: seq<State>, acts: seq<Action>, n: nat)
    requires ActionRun(run, acts) && n < |acts|
    ensures CallsClient(run[n].h, run[n + 1].h) ==> On(acts, n) == Some(Target)
    ensures TouchesKernel(run[n].m, run[n + 1].m) ==> On(acts, n) == Some(Manager)
  {
    PlacedRun(run, acts, n);
    assert StepAt(run, acts, n);
    PlacedStep(run[n], acts[n], On(acts, n));
  }

  // ------------------------------------------------------------------ cancellation

  lemma LateStep(s: State, a: Action)
    requires Enabled(s, a)
    ensures var s' := Next(s, a);
      && (s'.m.canceled <==> s.m.canceled || a.Cancel?) && (s'.m.referenced <==> s.m.referenced && !a.Unreference?)
      && s'.h.settings == s.h.settings + (if a.SetCancelHandler? then 1 else 0)
      && (Dead(s.m) ==> Due(s') <= Due(s))
  {
    if a.Go? {
      match Deeds(s.m, s.pc)
      case Nothing => match s.pc { case Start(_) => case TestLive(_) => case TestPending(_) => case LatchCheck => }
      case Install =>
      case ReleaseKevent =>
      case Callout =>
      case Rearm =>
      case Latch =>
      case CallHandler =>
    }
  }

  /** The calls of the event handler that have been made or that the invocation in progress may still make. */
  function Due(s: State): nat { s.h.eventRuns + if Delivering(s.pc) then 1 else 0 }

  /** The cancellation handlers set by the first actions. */
  function Settings(acts: seq<Action>, n: nat): nat
    requires n <= |acts|
  {
    if n == 0 then 0 else Settings(acts, n - 1) + if acts[n - 1].SetCancelHandler? then 1 else 0
  }

  /** The source is cancelled exactly when it has been asked to be, and released when its last reference is gone. */
  lemma {:induction false} DeadExactly(run: seq<State>, acts: seq<Action>, n: nat)
    requires ActionRun(run, acts) && n <= |acts|
    ensures run[n].m.canceled <==> Cancel in acts[..n]
    ensures run[n].m.referenced <==> Unreference !in acts[..n]
    ensures run[n].h.settings == Settings(acts, n)
  {
    if n > 0 {
      DeadExactly(run, acts, n - 1);
      assert StepAt(run, acts, n - 1);
      LateStep(run[n - 1], acts[n - 1]);
      assert acts[..n] == acts[..n - 1] + [acts[n - 1]];
    }
  }

  /** Once the source is cancelled or released it stays so, and the event handler is called at most once more: only
      by an invocation that was already past its last test for that. */
  lemma {:induction false} LateTheorem(run: seq<State>, acts: seq<Action>, i: nat, n: nat)
    requires ActionRun(run, acts) && i <= n <= |acts| && Dead(run[i].m)
    ensures Dead(run[n].m)
    ensures run[n].h.eventRuns <= run[i].h.eventRuns + (if Delivering(run[i].pc) then 1 else 0)
    ensures Due(run[n]) <= Due(run[i])
    decreases n
  {
    if i < n {
      LateTheorem(run, acts, i, n - 1);
      assert StepAt(run, acts, n - 1);
      LateStep(run[n - 1], acts[n - 1]);
    }
  }

  datatype Handlers = Handlers(event: bool, cancel: bool)

  /** The handlers in place: the event handler is there from the start, a cancellation handler once it is set, and a
      callout takes the cancellation handler and releases both if they are blocks. */
  function InPlace(run: seq<State>, acts: seq<Action>, n: nat): Handlers
    requires n <= |acts| < |run|
  {
    if n == 0 then Handlers(run[0].m.handler, false) else
      var h, a := InPlace(run, acts, n - 1), acts[n - 1];
      if a.SetCancelHandler? then h.(cancel := true)
      else if run[n].h.callouts == run[n - 1].h.callouts then h
      else Handlers(h.event && !(a.Go? && a.blockHandler), false)
  }

  /** The kernel event is released only from a source that is cancelled or released, and takes the arming with it. */
  ghost predicate KernelInv(m: Mem, c: PC, needs: bool) {
    && (m.rearm <==> needs && m.kevent) && (!m.kevent ==> Dead(m) && !m.armed)
    && (c.TestPending? || c.LatchCheck? || Delivering(c) ==> m.kevent)
  }

  lemma FieldsStep(s: State, a: Action, needs: bool)
    requires Enabled(s, a) && KernelInv(s.m, s.pc, needs)
    ensures var s' := Next(s, a);
      && KernelInv(s'.m, s'.pc, needs) && (a.Disarm? ==> !s'.m.armed)
      && (s'.m.armed && !s.m.armed ==> s.m.rearm)
      && (a.SetCancelHandler? ==> s'.m.cancelHandler && s'.m.handler == s.m.handler)
      && (!a.SetCancelHandler? && s'.h.callouts == s.h.callouts ==>
            s'.m.handler == s.m.handler && s'.m.cancelHandler == s.m.cancelHandler)
      && (!a.SetCancelHandler? && s'.h.callouts != s.h.callouts ==>
            a.Go? && s'.m.handler == (s.m.handler && !a.blockHandler) && !s'.m.cancelHandler)
  {
    if a.Go? {
      match Deeds(s.m, s.pc)
      case Nothing => match s.pc { case Start(_) => case TestLive(_) => case TestPending(_) => case LatchCheck => }
      case Install =>
      case ReleaseKevent =>
      case Callout =>
      case Rearm =>
      case Latch =>
      case CallHandler =>
    }
  }

  /** Handlers come and go only as the client and the callouts say; a source that needs re-arming goes on doing so until
      its kernel event is released, after which it is not armed, and an event that disarms it leaves it so. */
  lemma {:induction false} FieldsTheorem(run: seq<State>, acts: seq<Action>, n: nat)
    requires ActionRun(run, acts) && n <= |acts|
    ensures run[n].m.handler == InPlace(run, acts, n).event && run[n].m.cancelHandler == InPlace(run, acts, n).cancel
    ensures KernelInv(run[n].m, run[n].pc, run[0].m.rearm)
    ensures n > 0 && acts[n - 1].Disarm? ==> !run[n].m.armed
    ensures n > 0 && run[n].m.armed && !run[n - 1].m.armed ==> run[0].m.rearm
  {
    if n > 0 {
      FieldsTheorem(run, acts, n - 1);
      assert StepAt(run, acts, n - 1);
      FieldsStep(run[n - 1], acts[n - 1], run[0].m.rearm);
    }
  }

  // ------------------------------------------------------------------ re-driving

  /** The work that is left for invocations when no event arrives. */
  function Left(m: Mem): nat {
    (if !m.installed then 8 else 0)
    + (if Dead(m) then (if m.kevent then 4 else 0) + (if m.cancelHandler then 2 else 0)
       else (if m.pending != 0 then 2 else 0) + (if m.rearm && !m.armed then 1 else 0))
  }

  /** _dispatch_source_probe. */
  predicate Probe(m: Mem) {
    if !m.installed then true
    else if Dead(m) then m.kevent || m.cancelHandler
    else m.pending != 0 || (m.rearm && !m.armed)
  }

  /** The queue on which the next piece of work is done. */
  function Home(m: Mem): Queue {
    if !m.installed then Manager
    else if Dead(m) then (if m.kevent then Manager else Target)
    else if m.pending != 0 then Target else Manager
  }

  /** What the program counter says when nobody else interferes. */
  predicate Alone(m: Mem, c: PC) {
    match c
    case TestLive(_) => m.installed
    case TestPending(_) => m.installed && !Dead(m)
    case LatchCheck => m.installed && !Dead(m) && m.pending != 0
    case LatchExchange => m.installed && !Dead(m) && m.pending != 0
    case Handler => m.installed && !Dead(m) && m.pending == 0
    case Start(_) => true
    case Done(_) => true
  }

  function Rank(m: Mem, c: PC): nat {
    match c
    case Done(next) => if next.None? then 0 else if next.value == Home(m) then 7 else 14
    case Start(q) => if q == Home(m) then 6 else 13
    case TestLive(q) => if q == Home(m) then 5 else 12
    case TestPending(q) => if q == Home(m) then 4 else 11
    case LatchCheck => 3
    case LatchExchange => 2
    case Handler => 8
  }

  function Measure(m: Mem, c: PC): nat { 20 * Left(m) + Rank(m, c) }

  lemma InvokeProgress(m: Mem, c: PC, b: bool)
    requires Alone(m, c) && !c.Done?
    ensures var m', c' := MemAfter(m, Deeds(m, c), b), NextPC(m, c);
      Alone(m', c') && Left(m') <= Left(m) && Measure(m', c') < Measure(m, c)
  {
    match Deeds(m, c)
    case Nothing => match c { case Start(_) => case TestLive(_) => case TestPending(_) => case LatchCheck => }
    case Install =>
    case ReleaseKevent =>
    case Callout =>
    case Rearm =>
    case Latch =>
    case CallHandler =>
  }

  /** Work is only ever left aside for the right queue. */
  lemma StillWork(m: Mem, c: PC, b: bool)
    requires Alone(m, c) && Probe(m) && !c.Done?
    ensures var m', c' := MemAfter(m, Deeds(m, c), b), NextPC(m, c);
      Left(m') < Left(m) || (Probe(m') && c' != Done(None))
  {
    match Deeds(m, c)
    case Nothing => match c { case Start(_) => case TestLive(_) => case TestPending(_) => case LatchCheck => }
    case Install =>
    case ReleaseKevent =>
    case Callout =>
    case Rearm =>
    case Latch =>
    case CallHandler =>
  }

  /** An invocation, driven again on every queue it returns until it returns NULL, while no event and no
      cancellation arrives. */
  function Drive(s: State, b: bool): (r: State)
    requires Alone(s.m, s.pc)
    ensures r.pc == Done(None) && Left(r.m) <= Left(s.m)
    decreases Measure(s.m, s.pc)
  {
    if s.pc.Done? then
      if s.pc.next.None? then s else Drive(s.(pc := Start(s.pc.next.value)), b)
    else
      InvokeProgress(s.m, s.pc, b);
      Drive(Invoke(s, b), b)
  }

  /** A driven invocation gets at least one piece of work done, if there is any. */
  lemma {:induction false} DriveWorks(s: State, b: bool)
    requires Alone(s.m, s.pc) && Probe(s.m) && s.pc != Done(None)
    ensures Left(Drive(s, b).m) < Left(s.m)
    decreases Measure(s.m, s.pc)
  {
    if s.pc.Done? {
      DriveWorks(s.(pc := Start(s.pc.next.value)), b);
    } else {
      InvokeProgress(s.m, s.pc, b);
      StillWork(s.m, s.pc, b);
      if Left(Invoke(s, b).m) == Left(s.m) { DriveWorks(Invoke(s, b), b); }
    }
  }

  /** As long as the probe asks for an invocation, driving one to its end leaves less to do: with no new
      events the source comes to rest. */
  function Settle(s: State, b: bool): (r: State)
    requires s.pc == Done(None)
    ensures r.pc == Done(None) && !Probe(r.m)
    decreases Left(s.m)
  {
    if !Probe(s.m) then s else
      DriveWorks(s.(pc := Start(Elsewhere)), b);
      Settle(Drive(s.(pc := Start(Elsewhere)), b), b)
  }

  /** The runs of the cancellation handler, and the one that is still to come. */
  function CancelRuns(s: State): nat { s.h.cancelRuns + if s.m.canceled && s.m.cancelHandler then 1 else 0 }

  lemma {:induction false} DriveOwes(s: State, b: bool)
    requires Alone(s.m, s.pc)
    ensures CancelRuns(Drive(s, b)) == CancelRuns(s) && Drive(s, b).m.canceled == s.m.canceled
    decreases Measure(s.m, s.pc)
  {
    if s.pc.Done? {
      if s.pc.next.Some? { DriveOwes(s.(pc := Start(s.pc.next.value)), b); }
    } else {
      InvokeProgress(s.m, s.pc, b);
      InvokeOwes(s, b);
      DriveOwes(Invoke(s, b), b);
    }
  }

  lemma InvokeOwes(s: State, b: bool)
    ensures CancelRuns(Invoke(s, b)) == CancelRuns(s) && Invoke(s, b).m.canceled == s.m.canceled
  {
    match Deeds(s.m, s.pc)
    case Callout =>
    case _ =>
  }

  lemma {:induction false} SettleOwes(s: State, b: bool)
    requires s.pc == Done(None)
    ensures CancelRuns(Settle(s, b)) == CancelRuns(s) && Settle(s, b).m.canceled == s.m.canceled
    decreases Left(s.m)
  {
    if Probe(s.m) {
      DriveWorks(s.(pc := Start(Elsewhere)), b);
      DriveOwes(s.(pc := Start(Elsewhere)), b);
      SettleOwes(Drive(s.(pc := Start(Elsewhere)), b), b);
    }
  }

  /** A cancelled source with a cancellation handler settles with the handler run exactly once more,
      and with its kernel event released. */
  lemma SettleCancels(s: State, b: bool)
    requires s.pc == Done(None) && s.m.canceled
    ensures var r := Settle(s, b);
      r.h.cancelRuns == s.h.cancelRuns + (if s.m.cancelHandler then 1 else 0) && !r.m.cancelHandler && !r.m.kevent
  {
    SettleOwes(s, b);
  }

  /** One invocation up to its return. */
  function Invocation(s: State, b: bool): (r: State)
    requires Alone(s.m, s.pc)
    ensures r.pc.Done?
    decreases Measure(s.m, s.pc)
  {
    if s.pc.Done? then s else InvokeProgress(s.m, s.pc, b); Invocation(Invoke(s, b), b)
  }

  /** The probe and the invocation agree: without a reason to be invoked, an invocation on any queue
      returns NULL at once, calls no handler and leaves the kernel event alone. */
  lemma ProbeAgrees(s: State, q: Queue, b: bool)
    requires !Probe(s.m) && s.pc == Start(q)
    ensures var r := Invocation(s, b);
      && r.pc == Done(None) && r == Drive(s, b)
      && r.h.eventRuns == s.h.eventRuns && r.h.cancelRuns == s.h.cancelRuns && r.h.delivered == s.h.delivered
      && r.m.kevent == s.m.kevent && r.m.armed == s.m.armed
  {
    var s1 := Invoke(s, b);
    assert s1 == s.(pc := TestLive(q));
    var s2 := Invoke(s1, b);
    QuietStep(s, b);
    QuietStep(s1, b);
    if Dead(s.m) {
      assert s2.pc == Done(None);
    } else {
      assert s2 == s.(pc := TestPending(q)) && Invoke(s2, b) == s.(pc := Done(None));
      QuietStep(s2, b);
    }
  }

  /** Unfolds one step of an invocation. */
  lemma QuietStep(s: State, b: bool)
    requires Alone(s.m, s.pc) && !s.pc.Done?
    ensures Alone(Invoke(s, b).m, Invoke(s, b).pc)
    ensures Invocation(s, b) == Invocation(Invoke(s, b), b) && Drive(s, b) == Drive(Invoke(s, b), b)
  {
    InvokeProgress(s.m, s.pc, b);
  }
}
