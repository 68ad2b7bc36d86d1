/**
 dispatch_apply_f (libdispatch/src/apply.c): the iterations are handed out by a shared index to a
 fixed number of work items, one of which the caller may run itself; the last item to finish wakes
 the caller. Indices do not wrap: fewer than 2^64 - 256 iterations.
*/
module Apply {

  type Worker = nat

  const MAX_CPUS: nat := 256

  /** da_thr_cnt. */
  function ThreadCount(iterations: nat, cpus: nat): nat {
    var n := if cpus > MAX_CPUS then MAX_CPUS else cpus;
    if iterations < n then iterations else n
  }

  /** Whether dispatch_apply_f runs the loop on the target queue in one piece, or has nothing to run. */
  predicate Serial(iterations: nat, cpus: nat, width: nat) { width <= 2 || ThreadCount(iterations, cpus) <= 1 }

  /** The iterations in order. */
  function Iterations(n: nat): (r: seq<nat>)
    ensures |r| == n && forall i | 0 <= i < n :: r[i] == i
  {
    if n == 0 then [] else Iterations(n - 1) + [n - 1]
  }

  /** _dispatch_apply_serial, for at least one iteration: the calls it makes. */
  method ApplySerial(iterations: nat) returns (calls: seq<nat>)
    requires iterations > 0
    ensures calls == Iterations(iterations)
  {
    calls := [0];
    var idx := 1;
    while idx < iterations
      invariant 0 < idx <= iterations && calls == Iterations(idx)
    {
      calls := calls + [idx];
      idx := idx + 1;
    }
  }

  // ------------------------------------------------------------------ the parallel loop

  /** _dispatch_apply2. */
  datatype PC = NotStarted | Take | Run(idx: nat) | Leave | Signal | Done

  /** The caller: it pushes the items, runs item 0 itself if it borrows the queue, and waits. */
  datatype Caller = Pushing | Borrowing | Waiting | Returned

  datatype State = State(
    iterations: nat,
    workers: nat,            // the items, named 0 .. workers - 1
    borrows: bool,           // a root queue, which the caller may borrow
    index: nat,              // da_index
    count: int,              // da_thr_cnt
    sema: nat,
    caller: Caller,
    pc: map<Worker, PC>,
    // history
    taker: map<nat, Worker>, // which item took which index
    calls: multiset<nat>,    // the calls of the client's function, by index
    finished: set<nat>,      // indices whose call has returned
    left: set<Worker>,       // items that have decremented the count
    signals: nat,
    last: Worker)            // the item that brought the count to zero

  function At(s: State, w: Worker): PC { if w in s.pc then s.pc[w] else NotStarted }

  predicate Parameters(s: State) { 2 <= s.workers <= MAX_CPUS && s.workers <= s.iterations }

  predicate Init(s: State) {
    && Parameters(s) && s.index == 0 && s.count == s.workers && s.sema == 0 && s.caller == Pushing
    && s.pc == map[] && s.taker == map[] && s.calls == multiset{} && s.finished == {} && s.left == {} && s.signals == 0
  }

  datatype Action = Push | Start(w: Worker) | Go(w: Worker) | Wake

  predicate Enabled(s: State, a: Action) {
    match a
    case Push => s.caller.Pushing?
    case Start(w) => w < s.workers && At(s, w).NotStarted? && !s.caller.Pushing?
      && (s.borrows && w == 0 ==> s.caller.Borrowing?)
    case Go(w) => w < s.workers && !At(s, w).NotStarted? && !At(s, w).Done?
    case Wake => s.caller.Waiting? && s.sema > 0
  }

  /** One step of item `w`, without its program counter. */
  function Effect(s: State, w: Worker): State {
    match At(s, w)
    case Take => if s.index < s.iterations then s.(index := s.index + 1, taker := s.taker[s.index := w])
      else s.(index := s.index + 1)
    case Run(i) => s.(calls := s.calls + multiset{i}, finished := s.finished + {i})
    case Leave => s.(count := s.count - 1, left := s.left + {w}, last := w)
    case Signal => s.(sema := s.sema + 1, signals := s.signals + 1)
    case _ => s
  }

  function Dest(s: State, w: Worker): PC {
    match At(s, w)
    case Take => if s.index < s.iterations then Run(s.index) else Leave
    case Run(_) => Take
    case Leave => if s.count == 1 then Signal else Done
    case Signal => Done
    case c => c
  }

  function Next(s: State, a: Action): (s': State)
    requires Enabled(s, a)
    ensures a.Go? ==> At(s', a.w) == Dest(s, a.w)
    ensures a.Go? ==> forall u: Worker | u != a.w :: At(s', u) == At(s, u)
  {
    match a
    case Push => s.(caller := if s.borrows then Borrowing else Waiting)
    case Start(w) => s.(pc := s.pc[w := Take])
    case Go(w) =>
      var s1 := Effect(s, w).(pc := s.pc[w := Dest(s, w)]);
      if s.borrows && w == 0 && s1.pc[w].Done? then s1.(caller := Waiting) else s1
    case Wake => s.(sema := s.sema - 1, caller := Returned)
  }

  /** dispatch_apply_f starts the parallel loop exactly with these parameters: the count of items it computes
      is one that the model starts with if and only if the loop is not run in one piece. */
  lemma StartsParallel(s: State, cpus: nat, width: nat)
    requires s.workers == ThreadCount(s.iterations, cpus)
    ensures Parameters(s) && width > 2 <==> !Serial(s.iterations, cpus, width)
  {
  }

  // ------------------------------------------------------------------ invariant

  function Taken(s: State): nat { if s.index < s.iterations then s.index else s.iterations }

  /** Every index below the counter was taken once, and its call is running or has returned. */
  ghost predicate IndexInv(s: State) {
    && (forall i: nat :: i in s.taker <==> i < Taken(s))
    && (forall i | i in s.finished :: i in s.taker)
    && (forall i: nat :: s.calls[i] == if i in s.finished then 1 else 0)
    && (forall w: Worker ::
          At(s, w).Run? ==> At(s, w).idx in s.taker && s.taker[At(s, w).idx] == w && At(s, w).idx !in s.finished)
    && (forall i | i in s.taker && i !in s.finished :: At(s, s.taker[i]) == Run(i))
  }

  predicate HasLeft(c: PC) { c.Signal? || c.Done? }

  /** Items leave only when all indices are taken, and the count is what is left of them. */
  ghost predicate LeaveInv(s: State) {
    && Parameters(s)
    && (forall w: Worker :: w in s.left <==> HasLeft(At(s, w)))
    && (forall w: Worker | w in s.left :: w < s.workers)
    && s.count == s.workers - |s.left|
    && (forall w: Worker :: At(s, w).Leave? || HasLeft(At(s, w)) ==> s.index >= s.iterations)
    && (forall w: Worker :: !At(s, w).NotStarted? ==> w < s.workers)
  }

  /** The last item to leave signals, once, and the caller consumes that signal. */
  ghost predicate SignalInv(s: State) {
    && (forall w: Worker :: At(s, w).Signal? ==> s.count == 0 && s.signals == 0 && w == s.last)
    && (s.count == 0 && s.signals == 0 ==> At(s, s.last).Signal?)
    && s.count >= 0 && (s.count > 0 ==> s.signals == 0)
    && s.signals <= 1 && s.sema + (if s.caller.Returned? then 1 else 0) == s.signals
  }

  ghost predicate CallerInv(s: State) {
    && (s.caller.Pushing? ==> s.pc == map[])
    && (s.borrows && (s.caller.Waiting? || s.caller.Returned?) ==> At(s, 0).Done?)
    && (s.caller.Borrowing? ==> s.borrows && !At(s, 0).Done?)
  }

  ghost predicate Inv(s: State) { IndexInv(s) && LeaveInv(s) && SignalInv(s) && CallerInv(s) }

  lemma IndexTake(s: State, w: Worker)
    requires IndexInv(s) && Enabled(s, Go(w)) && At(s, w).Take?
    ensures IndexInv(Next(s, Go(w)))
  {
    if s.index < s.iterations {} else {}
  }

  lemma IndexRun(s: State, w: Worker)
    requires IndexInv(s) && Enabled(s, Go(w)) && At(s, w).Run?
    ensures IndexInv(Next(s, Go(w)))
  {
  }

  lemma IndexGo(s: State, w: Worker)
    requires IndexInv(s) && Enabled(s, Go(w))
    ensures IndexInv(Next(s, Go(w)))
  {
    match At(s, w)
    case Take => IndexTake(s, w);
    case Run(_) => IndexRun(s, w);
    case Leave =>
    case Signal =>
  }

  lemma LeaveGo(s: State, w: Worker)
    requires LeaveInv(s) && Enabled(s, Go(w))
    ensures LeaveInv(Next(s, Go(w)))
  {
    match At(s, w)
    case Take =>
    case Run(_) =>
    case Leave => assert |s.left + {w}| == |s.left| + 1;
    case Signal =>
  }

  lemma {:induction false} Bounded(left: set<Worker>, n: nat)
    requires forall w | w in left :: w < n
    ensures |left| <= n
    ensures |left| == n ==> forall w: Worker | w < n :: w in left
  {
    if n == 0 {
      assert left == {};
    } else {
      var rest := left - {n - 1};
      Bounded(rest, n - 1);
      assert left == if n - 1 in left then rest + {n - 1} else rest;
    }
  }

  lemma SignalGo(s: State, w: Worker)
    requires LeaveInv(s) && SignalInv(s) && Enabled(s, Go(w))
    ensures SignalInv(Next(s, Go(w)))
  {
    Bounded(s.left, s.workers);
    match At(s, w)
    case Take =>
    case Run(_) =>
    case Leave =>
      assert w !in s.left;
      assert s.count > 0;
    case Signal =>
  }

  lemma CallerGo(s: State, w: Worker)
    requires CallerInv(s) && SignalInv(s) && Enabled(s, Go(w))
    ensures CallerInv(Next(s, Go(w)))
  {
  }

  lemma OtherInv(s: State, a: Action)
    requires Inv(s) && Enabled(s, a) && !a.Go?
    ensures Inv(Next(s, a))
  {
    var s' := Next(s, a);
    assert forall u: Worker :: At(s', u) == if a.Start? && u == a.w then Take else At(s, u);
  }

  lemma StepInv(s: State, a: Action)
    requires Inv(s) && Enabled(s, a)
    ensures Inv(Next(s, a)) && Next(s, a).iterations == s.iterations
  {
    if !a.Go? { OtherInv(s, a); } else {
      IndexGo(s, a.w);
      LeaveGo(s, a.w);
      SignalGo(s, a.w);
      CallerGo(s, a.w);
    }
  }

  // ------------------------------------------------------------------ every run

  ghost predicate Step(s: State, s': State) { exists a :: Enabled(s, a) && s' == Next(s, a) }

  ghost predicate IsRun(run: seq<State>) {
    && run != [] && Init(run[0])
    && (forall i :: 0 <= i < |run| - 1 ==> Step(run[i], run[i + 1]))
  }

  lemma StartInv(s: State)
    requires Init(s)
    ensures Inv(s)
  {
    assert forall w: Worker :: At(s, w) == NotStarted;
  }

  lemma {:induction false} RunInv(run: seq<State>, n: nat)
    requires IsRun(run) && n < |run|
    ensures Inv(run[n]) && run[n].iterations == run[0].iterations
  {
    if n == 0 {
      StartInv(run[0]);
    } else {
      RunInv(run, n - 1);
      assert Step(run[n - 1], run[n - 1 + 1]);
      var a :| Enabled(run[n - 1], a) && run[n] == Next(run[n - 1], a);
      StepInv(run[n - 1], a);
    }
  }

  /** A step hands an index that nobody had to `w`. */
  predicate HandsOut(s: State, s': State, w: Worker) { s.index !in s.taker && s'.taker == s.taker[s.index := w] }

  /** A step calls the client's function for the index `i`, which was taken and not called before. */
  predicate Calls(s: State, s': State, i: nat) { i in s.taker && i !in s.calls && s'.calls == s.calls + multiset{i} }

  ghost predicate Once(s: State, s': State) {
    && (s'.taker == s.taker || exists w: Worker :: HandsOut(s, s', w))
    && (s'.calls == s.calls || exists i: nat :: Calls(s, s', i))
  }

  /** No index is handed out twice and none is called twice: an index that an item has taken stays
      its own, only an index that nobody had is taken, and only one that was not called is called. */
  lemma OnceTheorem(run: seq<State>, n: nat)
    requires IsRun(run) && n + 1 < |run|
    ensures forall i | i in run[n].taker :: i < run[0].iterations
    ensures forall i: nat :: run[n].calls[i] <= 1
    ensures Once(run[n], run[n + 1])
  {
    RunInv(run, n);
    assert Step(run[n], run[n + 1]);
    var s := run[n];
    var a :| Enabled(s, a) && run[n + 1] == Next(s, a);
    TakeOne(s, a);
    CallOne(s, a);
  }

  lemma TakeOne(s: State, a: Action)
    requires IndexInv(s) && Enabled(s, a)
    ensures Next(s, a).taker == s.taker || (a.Go? && HandsOut(s, Next(s, a), a.w))
  {
    if a.Go? {
      match At(s, a.w)
      case Take => if s.index < s.iterations {} else {}
      case _ =>
    }
  }

  lemma CallOne(s: State, a: Action)
    requires IndexInv(s) && Enabled(s, a)
    ensures if a.Go? && At(s, a.w).Run? then Calls(s, Next(s, a), At(s, a.w).idx) else Next(s, a).calls == s.calls
  {
  }

  lemma {:induction false} EachOnce(n: nat)
    ensures forall i: nat :: multiset(Iterations(n))[i] == if i < n then 1 else 0
  {
    if n > 0 { EachOnce(n - 1); }
  }

  /** The parallel loop refines the serial one: whatever the items' interleaving, when the caller
      returns every iteration has been called exactly once and has returned. No item will touch the
      caller's stack any more, and the signal that lets the caller go was sent exactly once. */
  lemma ReturnTheorem(run: seq<State>, n: nat)
    requires IsRun(run) && n < |run| && run[n].caller.Returned?
    ensures run[n].calls == multiset(Iterations(run[0].iterations))
    ensures forall i: nat :: run[n].calls[i] == if i < run[0].iterations then 1 else 0
    ensures forall i: nat :: i in run[n].finished <==> i < run[0].iterations
    ensures forall w: Worker | w < run[n].workers :: At(run[n], w).Done?
    ensures run[n].signals == 1
  {
    RunInv(run, n);
    AllDone(run[n]);
    EachOnce(run[0].iterations);
  }

  lemma AllDone(s: State)
    requires Inv(s) && s.signals == 1
    ensures forall i: nat :: i in s.finished <==> i < s.iterations
    ensures forall w: Worker | w < s.workers :: At(s, w).Done?
  {
    Bounded(s.left, s.workers);
    assert 0 in s.left && s.index >= s.iterations;
    forall i: nat | i < s.iterations ensures i in s.finished {
      var w := s.taker[i];
      assert w < s.workers ==> w in s.left;
      assert !At(s, w).Run?;
    }
  }

  /** Nobody waits in vain: when all items are done, the caller has been signalled. */
  lemma RestTheorem(run: seq<State>, n: nat)
    requires IsRun(run) && n < |run| && forall w: Worker | w < run[n].workers :: At(run[n], w).Done?
    ensures run[n].signals == 1 && (run[n].caller.Waiting? ==> run[n].sema == 1)
  {
    RunInv(run, n);
    var s := run[n];
    FullLeft(s);
    assert At(s, s.last).Signal? ==> s.last < s.workers;
  }

  lemma FullLeft(s: State)
    requires LeaveInv(s) && forall w: Worker | w < s.workers :: At(s, w).Done?
    ensures s.count == 0
  {
    UptoIs(s.workers);
    assert s.left == Upto(s.workers);
  }

  function Upto(n: nat): set<Worker> { if n == 0 then {} else Upto(n - 1) + {n - 1} }

  lemma {:induction false} UptoIs(n: nat)
    ensures |Upto(n)| == n && forall w: Worker :: w in Upto(n) <==> w < n
  {
    if n > 0 { UptoIs(n - 1); }
  }
}
