/**
 The global (root) queues: any number of producers pushing lists of items and any
 number of workers popping them through the "mediator" protocol, together with the
 request for worker threads (libdispatch/src/queue.c,
 _dispatch_queue_concurrent_drain_one, _dispatch_queue_push_list_slow,
 _dispatch_queue_wakeup_global, _dispatch_worker_thread2).

 One action is one atomic operation of one thread; a run is any interleaving.
*/
module RootQueue {
  import opened Options
  import opened ProducerList

  datatype Head = Null | Mediator | First(item: Item)

  /** Where _dispatch_queue_wakeup_global returns to. */
  datatype After = Leave | Deliver(item: Item, pos: nat)

  /** Program counters; `pos` is a history variable, the log position of `item`. */
  datatype PC =
    | Outside
    | Prepared(seg: seq<Item>)
    | OwesLink(prev: Item, first: Item, at: int)
    | OwesHead(first: Item)
    | WakeReadTail(after: After)
    | WakeSetPending(after: After)
    | WakeRequest(after: After)
    | WorkerStart
    | PopExchange
    | PopEmpty
    | PopReadNext(item: Item, pos: nat)
    | PopClearHead(item: Item, pos: nat)
    | PopCasTail(item: Item, pos: nat)
    | PopSpin(item: Item, pos: nat)
    | PopStoreHead(item: Item, pos: nat, succ: Item)
    | Running

  /** Which of the three legal shapes a non-empty queue has. */
  datatype Phase = Empty | Ready | Popping(owner: Thread) | HeadOwed(producer: Thread)

  /** Where the one outstanding request for a worker thread is. */
  datatype Request = NoRequest | Adding(adder: Thread) | Queued | Starting(worker: Thread)

  datatype State = State(
    // shared memory
    head: Head,
    tail: Option<Item>,
    next: Links,
    pending: bool,
    requests: nat,
    pc: map<Thread, PC>,
    // history
    log: seq<Item>,
    claims: seq<Thread>,
    given: map<nat, Thread>,
    phase: Phase,
    debtor: map<int, Thread>,
    request: Request,
    mediatedBy: Thread,   // the thread that last put the mediator over another value
    carer: Thread)        // the thread that last took charge of waking a worker

  datatype Action =
    | Prepare(seg: seq<Item>, links: Links)
    | SwingTail
    | StoreLink
    | StoreHead
    | ReadTailForWake
    | SetPending
    | AddWorkItem
    | StartWorker
    | ClearPending
    | ExchangeHead
    | Unmediate
    | ReadNext
    | ClearHead
    | CasTail
    | Spin
    | RestoreHead
    | FinishItem

  function At(s: State, t: Thread): PC {
    if t in s.pc then s.pc[t] else Outside
  }

  /** The first log position whose link still matters. */
  function Lo(s: State): nat {
    if s.phase.Popping? && |s.claims| > 0 then |s.claims| - 1 else |s.claims|
  }

  predicate OwnsFront(c: PC) {
    c.PopReadNext? || c.PopClearHead? || c.PopCasTail? || c.PopSpin? || c.PopStoreHead?
  }

  predicate InWakeup(c: PC) {
    c.WakeReadTail? || c.WakeSetPending? || c.WakeRequest?
  }

  /** The item the thread has claimed and not yet received, if any. */
  function ClaimOf(c: PC): After {
    if OwnsFront(c) then Deliver(c.item, c.pos) else if InWakeup(c) then c.after else Leave
  }

  /** An item the client may push: not in the list, not claimed, not being prepared. */
  ghost predicate Free(s: State, x: Item)
    requires Lo(s) <= |s.log|
  {
    && x !in s.log[Lo(s)..]
    && (forall t :: At(s, t).Prepared? ==> x !in At(s, t).seg)
    && (forall t :: ClaimOf(At(s, t)).Deliver? ==> x != ClaimOf(At(s, t)).item)
  }

  ghost predicate Init(s: State) {
    s == State(Null, None, s.next, false, 0, map[], [], [], map[], Empty, map[], NoRequest, 0, 0)
  }

  ghost predicate Enabled(s: State, t: Thread, a: Action) {
    match a
    case Prepare(seg, links) =>
      && At(s, t).Outside? && Lo(s) <= |s.log|
      && Chained(links, seg) && SameExcept(s.next, links, seg)
      && (forall x :: x in seg ==> Free(s, x))
    case SwingTail => At(s, t).Prepared? && At(s, t).seg != []
    case StoreLink => At(s, t).OwesLink?
    case StoreHead => At(s, t).OwesHead?
    case ReadTailForWake => At(s, t).WakeReadTail?
    case SetPending => At(s, t).WakeSetPending?
    case AddWorkItem => At(s, t).WakeRequest?
    case StartWorker => At(s, t).Outside? && s.requests > 0
    case ClearPending => At(s, t).WorkerStart?
    case ExchangeHead => At(s, t).PopExchange?
    case Unmediate => At(s, t).PopEmpty?
    case ReadNext => At(s, t).PopReadNext?
    case ClearHead => At(s, t).PopClearHead?
    case CasTail => At(s, t).PopCasTail?
    case Spin => At(s, t).PopSpin?
    case RestoreHead => At(s, t).PopStoreHead?
    case FinishItem => At(s, t).Running?
  }

  /** What the action does to memory and history. */
  ghost function Effect(s: State, t: Thread, a: Action): State
    requires Enabled(s, t, a)
  {
    var c := At(s, t);
    match a
    case Prepare(seg, links) => s.(next := links)
    case SwingTail =>
      var s1 := s.(tail := Some(c.seg[|c.seg| - 1]), log := s.log + c.seg);
      if s.tail.None? then s1.(phase := HeadOwed(t)) else s1.(debtor := s.debtor[|s.log| - 1 := t])
    case StoreLink => s.(next := s.next[c.prev := c.first], debtor := s.debtor - {c.at})
    case StoreHead => s.(head := First(c.first), phase := Ready, carer := t)
    case ReadTailForWake => if s.tail.None? then Returned(s, t, c.after) else s
    case SetPending => if s.pending then Returned(s, t, c.after) else s.(pending := true, request := Adding(t))
    case AddWorkItem => Returned(s.(requests := s.requests + 1, request := Queued), t, c.after)
    case StartWorker => s.(requests := s.requests - 1, request := Starting(t))
    case ClearPending => s.(pending := false, request := NoRequest, carer := t)
    case ExchangeHead =>
      if s.head.Mediator? then s
      else
        var s1 := s.(head := Mediator, mediatedBy := t);
        if s.head.Null? then s1 else s1.(claims := s.claims + [t], phase := Popping(t))
    case Unmediate => if s.head.Mediator? then s.(head := Null) else s
    case ReadNext => s
    case ClearHead => s.(head := Null)
    case CasTail =>
      if s.tail == Some(c.item) then s.(tail := None, phase := Empty, given := s.given[c.pos := t]) else s
    case Spin => s
    case RestoreHead => s.(head := First(c.succ), phase := Ready, carer := t)
    case FinishItem => s
  }

  /** _dispatch_queue_wakeup_global returns; a popper thereby receives its item. */
  function Returned(s: State, t: Thread, a: After): State {
    if a.Deliver? then s.(given := s.given[a.pos := t]) else s
  }

  function Resume(a: After): PC {
    if a.Deliver? then Running else Outside
  }

  /** Where the thread continues after the action. */
  ghost function Target(s: State, t: Thread, a: Action): PC
    requires Enabled(s, t, a)
  {
    var c := At(s, t);
    match a
    case Prepare(seg, _) => Prepared(seg)
    case SwingTail => if s.tail.None? then OwesHead(c.seg[0]) else OwesLink(s.tail.value, c.seg[0], |s.log| - 1)
    case StoreLink => Outside
    case StoreHead => WakeReadTail(Leave)
    case ReadTailForWake => if s.tail.None? then Resume(c.after) else WakeSetPending(c.after)
    case SetPending => if s.pending then Resume(c.after) else WakeRequest(c.after)
    case AddWorkItem => Resume(c.after)
    case StartWorker => WorkerStart
    case ClearPending => PopExchange
    case ExchangeHead =>
      (match s.head
       case Null => PopEmpty
       case Mediator => WakeReadTail(Leave)
       case First(i) => PopReadNext(i, |s.claims|))
    case Unmediate => Outside
    case ReadNext => if c.item in s.next then PopStoreHead(c.item, c.pos, s.next[c.item])
      else PopClearHead(c.item, c.pos)
    case ClearHead => PopCasTail(c.item, c.pos)
    case CasTail => if s.tail == Some(c.item) then Running else PopSpin(c.item, c.pos)
    case Spin => if c.item in s.next then PopStoreHead(c.item, c.pos, s.next[c.item]) else c
    case RestoreHead => WakeReadTail(Deliver(c.item, c.pos))
    case FinishItem => PopExchange
  }

  ghost function Next(s: State, t: Thread, a: Action): (s': State)
    requires Enabled(s, t, a)
    ensures At(s', t) == Target(s, t, a)
    ensures forall u :: u != t ==> At(s', u) == At(s, u)
  {
    Effect(s, t, a).(pc := s.pc[t := Target(s, t, a)])
  }

  // ------------------------------------------------------------------ invariant

  ghost predicate PhaseInv(s: State) {
    && |s.claims| <= |s.log|
    && (s.phase.Empty? ==> s.tail.None? && |s.claims| == |s.log|)
    && (!s.phase.Empty? ==> |s.log| > 0 && s.tail == Some(s.log[|s.log| - 1]))
    && (s.head.First? <==> s.phase.Ready?)
    && (s.phase.Ready? ==> |s.claims| < |s.log| && s.head.item == s.log[|s.claims|])
    && (s.phase.Popping? ==> |s.claims| > 0 && ClaimsFront(s, At(s, s.phase.owner)))
    && (s.phase.HeadOwed? ==> |s.claims| < |s.log| && At(s, s.phase.producer) == OwesHead(s.log[|s.claims|]))
    && (forall t :: OwnsFront(At(s, t)) ==> s.phase == Popping(t))
    && (forall t :: At(s, t).OwesHead? ==> s.phase == HeadOwed(t))
  }

  ghost predicate ClaimsFront(s: State, c: PC)
    requires 0 < |s.claims| <= |s.log|
  {
    OwnsFront(c) && c.pos == |s.claims| - 1 && c.item == s.log[|s.claims| - 1]
  }

  /** What the popper that owns the front knows about the next item. */
  ghost predicate OwnerInv(s: State) {
    s.phase.Popping? ==>
      var c := At(s, s.phase.owner);
      && (c.PopSpin? || c.PopStoreHead? ==> |s.claims| < |s.log|)
      && (c.PopStoreHead? ==> c.succ == s.log[|s.claims|] && |s.claims| - 1 !in s.debtor)
  }

  ghost predicate ListInv(s: State) {
    Linked(s.log, s.next, Lo(s), s.debtor)
  }

  ghost predicate DebtInv(s: State) {
    && (forall t :: At(s, t).OwesLink? ==> Owes(s, t))
    && (forall p :: p in s.debtor ==> At(s, s.debtor[p]).OwesLink? && At(s, s.debtor[p]).at == p)
  }

  ghost predicate Owes(s: State, t: Thread)
    requires At(s, t).OwesLink?
  {
    var c := At(s, t);
    && c.at in s.debtor && s.debtor[c.at] == t
    && 0 <= c.at < |s.log| - 1 && s.log[c.at] == c.prev && s.log[c.at + 1] == c.first
  }

  ghost predicate PreparedInv(s: State)
    requires Lo(s) <= |s.log|
  {
    && (forall t :: At(s, t).Prepared? ==> Chained(s.next, At(s, t).seg) && Disjoint(At(s, t).seg, s.log[Lo(s)..]))
    && (forall t, u :: At(s, t).Prepared? && At(s, u).Prepared? && t != u ==> Disjoint(At(s, t).seg, At(s, u).seg))
  }

  ghost predicate DeliveryInv(s: State) {
    && |s.claims| <= |s.log|
    && (forall k :: k in s.given ==> k < |s.claims| && s.given[k] == s.claims[k])
    && (forall t :: ClaimOf(At(s, t)).Deliver? ==> GoodClaim(s, t, ClaimOf(At(s, t))))
    && (forall k: nat :: k < |s.claims| ==> k in s.given || ClaimOf(At(s, s.claims[k])) == Deliver(s.log[k], k))
  }

  ghost predicate GoodClaim(s: State, t: Thread, d: After)
    requires d.Deliver? && |s.claims| <= |s.log|
  {
    d.pos < |s.claims| && s.claims[d.pos] == t && d.pos !in s.given && d.item == s.log[d.pos]
  }

  ghost predicate RequestInv(s: State) {
    && (s.pending <==> !s.request.NoRequest?)
    && s.requests == (if s.request.Queued? then 1 else 0)
    && (s.request.Adding? ==> At(s, s.request.adder).WakeRequest?)
    && (s.request.Starting? ==> At(s, s.request.worker).WorkerStart?)
    && (forall t :: At(s, t).WakeRequest? ==> s.request == Adding(t))
    && (forall t :: At(s, t).WorkerStart? ==> s.request == Starting(t))
  }

  /** The thread is inside a pop and will overwrite a mediator value it left in the head. */
  predicate MidPop(c: PC) {
    c.PopEmpty? || c.PopReadNext? || c.PopClearHead? || c.PopStoreHead?
  }

  ghost predicate MediatorInv(s: State) {
    s.head.Mediator? ==> MidPop(At(s, s.mediatedBy))
  }

  ghost predicate WorkInv(s: State) {
    s.head.First? ==> s.pending || InWakeup(At(s, s.carer)) || At(s, s.carer).PopExchange?
  }

  ghost predicate CoreInv(s: State) {
    PhaseInv(s) && OwnerInv(s) && ListInv(s) && DebtInv(s) && PreparedInv(s)
  }

  ghost predicate Inv(s: State) {
    CoreInv(s) && DeliveryInv(s) && RequestInv(s) && MediatorInv(s) && WorkInv(s)
  }

  lemma InitInv(s: State)
    requires Init(s)
    ensures Inv(s)
  {
    assert forall t :: At(s, t) == Outside;
  }

  // ------------------------------------------------------------------ preservation

  /** What the owner of the front can conclude from one read of its link or of the tail. */
  ghost predicate FrontExact(s: State, t: Thread) {
    OwnsFront(At(s, t)) ==>
      var i, n := At(s, t).item, |s.claims|;
      && (s.tail == Some(i) ==> n == |s.log|)
      && (s.tail != Some(i) ==> n < |s.log|)
      && (i in s.next ==> n < |s.log| && s.next[i] == s.log[n] && n - 1 !in s.debtor)
  }

  lemma FrontIsExact(s: State, t: Thread)
    requires PhaseInv(s) && ListInv(s)
    ensures FrontExact(s, t)
  {
    if OwnsFront(At(s, t)) {
      ReadLink(s.log, s.next, Lo(s), s.debtor, |s.claims| - 1);
      if |s.claims| < |s.log| { DistinctAt(s.log, Lo(s), |s.claims| - 1, |s.log| - 1); }
    }
  }

  predicate IsPop(a: Action) {
    a.ExchangeHead? || a.ReadNext? || a.ClearHead? || a.CasTail? || a.Spin? || a.RestoreHead?
  }

  lemma PhaseStepMiss(s: State, t: Thread)
    requires PhaseInv(s) && Enabled(s, t, ExchangeHead) && !s.head.First?
    ensures PhaseInv(Next(s, t, ExchangeHead))
  {
    if s.head.Null? {} else {}
  }

  lemma PhaseStepHit(s: State, t: Thread)
    requires PhaseInv(s) && Enabled(s, t, ExchangeHead) && s.head.First?
    ensures PhaseInv(Next(s, t, ExchangeHead))
  {
  }

  lemma PhaseStepTake(s: State, t: Thread)
    requires PhaseInv(s) && Enabled(s, t, ExchangeHead)
    ensures PhaseInv(Next(s, t, ExchangeHead))
  {
    if s.head.First? { PhaseStepHit(s, t); } else { PhaseStepMiss(s, t); }
  }

  lemma PhaseStepRead(s: State, t: Thread, a: Action)
    requires PhaseInv(s) && Enabled(s, t, a) && (a.ReadNext? || a.ClearHead? || a.Spin?)
    ensures PhaseInv(Next(s, t, a))
  {
  }

  lemma PhaseStepLeave(s: State, t: Thread, a: Action)
    requires PhaseInv(s) && OwnerInv(s) && FrontExact(s, t) && Enabled(s, t, a) && (a.CasTail? || a.RestoreHead?)
    ensures PhaseInv(Next(s, t, a))
  {
  }

  lemma PhaseStepPop(s: State, t: Thread, a: Action)
    requires PhaseInv(s) && OwnerInv(s) && FrontExact(s, t) && Enabled(s, t, a) && IsPop(a)
    ensures PhaseInv(Next(s, t, a))
  {
    if a.ExchangeHead? { PhaseStepTake(s, t); }
    else if a.CasTail? || a.RestoreHead? { PhaseStepLeave(s, t, a); }
    else { PhaseStepRead(s, t, a); }
  }

  predicate IsPush(a: Action) {
    a.Prepare? || a.SwingTail? || a.StoreLink? || a.StoreHead?
  }

  lemma PhaseStepSwing(s: State, t: Thread)
    requires PhaseInv(s) && Enabled(s, t, SwingTail)
    ensures PhaseInv(Next(s, t, SwingTail))
  {
    if s.tail.None? {} else {}
  }

  lemma PhaseStepStore(s: State, t: Thread, a: Action)
    requires PhaseInv(s) && Enabled(s, t, a) && IsPush(a) && !a.SwingTail?
    ensures PhaseInv(Next(s, t, a))
  {
  }

  lemma PhaseStepPush(s: State, t: Thread, a: Action)
    requires PhaseInv(s) && Enabled(s, t, a) && IsPush(a)
    ensures PhaseInv(Next(s, t, a))
  {
    if a.SwingTail? { PhaseStepSwing(s, t); } else { PhaseStepStore(s, t, a); }
  }

  /** The list is left alone by an action of a thread that has no part in it. */
  ghost predicate ListUntouched(s: State, s': State, t: Thread) {
    && s'.tail == s.tail && s'.next == s.next && s'.log == s.log && s'.claims == s.claims
    && s'.phase == s.phase && s'.debtor == s.debtor
    && (s'.head == s.head || (s.head.Mediator? && s'.head.Null?))
    && !OwnsFront(At(s', t)) && !At(s', t).OwesHead? && !OwnsFront(At(s, t)) && !At(s, t).OwesHead?
  }

  lemma WakeFields(s: State, t: Thread, a: Action)
    requires Enabled(s, t, a) && (a.ReadTailForWake? || a.SetPending? || a.AddWorkItem?)
    ensures ListUntouched(s, Next(s, t, a), t)
  {
  }

  lemma WorkFields(s: State, t: Thread, a: Action)
    requires Enabled(s, t, a) && !IsPop(a) && !IsPush(a)
    ensures ListUntouched(s, Next(s, t, a), t)
  {
    if a.ReadTailForWake? || a.SetPending? || a.AddWorkItem? { WakeFields(s, t, a); }
  }

  lemma PhaseStepWork(s: State, t: Thread, a: Action)
    requires PhaseInv(s) && Enabled(s, t, a) && !IsPop(a) && !IsPush(a)
    ensures PhaseInv(Next(s, t, a))
  {
    WorkFields(s, t, a);
  }

  predicate AsksWorker(a: Action) {
    a.SetPending? || a.AddWorkItem? || a.StartWorker? || a.ClearPending?
  }

  lemma RequestFields(s: State, t: Thread, a: Action)
    requires Enabled(s, t, a) && !AsksWorker(a)
    ensures var s' := Next(s, t, a);
      && s'.pending == s.pending && s'.request == s.request && s'.requests == s.requests
      && !At(s, t).WakeRequest? && !At(s, t).WorkerStart? && !At(s', t).WakeRequest? && !At(s', t).WorkerStart?
  {
    match a
    case SwingTail => if s.tail.None? {} else {}
    case ExchangeHead => if s.head.First? {} else {}
    case CasTail => if s.tail == Some(At(s, t).item) {} else {}
    case ReadTailForWake => if s.tail.None? {} else {}
    case _ =>
  }

  lemma RequestStepAsk(s: State, t: Thread, a: Action)
    requires RequestInv(s) && Enabled(s, t, a) && (a.SetPending? || a.AddWorkItem?)
    ensures RequestInv(Next(s, t, a))
  {
  }

  lemma RequestStepServe(s: State, t: Thread, a: Action)
    requires RequestInv(s) && Enabled(s, t, a) && (a.StartWorker? || a.ClearPending?)
    ensures RequestInv(Next(s, t, a))
  {
  }

  lemma RequestStep(s: State, t: Thread, a: Action)
    requires RequestInv(s) && Enabled(s, t, a)
    ensures RequestInv(Next(s, t, a))
  {
    if a.SetPending? || a.AddWorkItem? { RequestStepAsk(s, t, a); }
    else if a.StartWorker? || a.ClearPending? { RequestStepServe(s, t, a); }
    else { RequestFields(s, t, a); }
  }

  lemma MediatorStep(s: State, t: Thread, a: Action)
    requires MediatorInv(s) && Enabled(s, t, a)
    ensures MediatorInv(Next(s, t, a))
  {
    if IsPop(a) { MediatorStepPop(s, t, a); }
    else if IsPush(a) { MediatorStepPush(s, t, a); }
  }

  lemma MediatorStepPop(s: State, t: Thread, a: Action)
    requires MediatorInv(s) && Enabled(s, t, a) && IsPop(a)
    ensures MediatorInv(Next(s, t, a))
  {
  }

  lemma MediatorStepPush(s: State, t: Thread, a: Action)
    requires MediatorInv(s) && Enabled(s, t, a) && IsPush(a)
    ensures MediatorInv(Next(s, t, a))
  {
  }

  lemma WorkStepPop(s: State, t: Thread, a: Action)
    requires WorkInv(s) && PhaseInv(s) && Enabled(s, t, a) && IsPop(a)
    ensures WorkInv(Next(s, t, a))
  {
  }

  lemma WorkStepPush(s: State, t: Thread, a: Action)
    requires WorkInv(s) && Enabled(s, t, a) && IsPush(a)
    ensures WorkInv(Next(s, t, a))
  {
  }

  lemma WorkStepOther(s: State, t: Thread, a: Action)
    requires WorkInv(s) && RequestInv(s) && PhaseInv(s) && Enabled(s, t, a) && !IsPop(a) && !IsPush(a)
    ensures WorkInv(Next(s, t, a))
  {
  }

  lemma WorkStep(s: State, t: Thread, a: Action)
    requires WorkInv(s) && RequestInv(s) && PhaseInv(s) && Enabled(s, t, a)
    ensures WorkInv(Next(s, t, a))
  {
    if IsPop(a) { WorkStepPop(s, t, a); }
    else if IsPush(a) { WorkStepPush(s, t, a); }
    else { WorkStepOther(s, t, a); }
  }

  /** How an action moves the claim of its thread. */
  ghost predicate DeliveryEffect(s: State, s': State, t: Thread) {
    var d, d' := ClaimOf(At(s, t)), ClaimOf(At(s', t));
    && s.log <= s'.log
    && (|| (s'.claims == s.claims && s'.given == s.given && d' == d)
        || (s'.claims == s.claims + [t] && s'.given == s.given && d.Leave? && |s.claims| < |s.log|
              && d' == Deliver(s.log[|s.claims|], |s.claims|))
        || (s'.claims == s.claims && d.Deliver? && s'.given == s.given[d.pos := t] && d'.Leave?))
  }

  predicate Returns(a: Action) {
    a.CasTail? || a.ReadTailForWake? || a.SetPending? || a.AddWorkItem?
  }

  lemma DeliveryEffectTake(s: State, t: Thread)
    requires Enabled(s, t, ExchangeHead)
    requires s.head.First? ==> |s.claims| < |s.log| && s.head.item == s.log[|s.claims|]
    ensures DeliveryEffect(s, Next(s, t, ExchangeHead), t)
  {
  }

  lemma DeliveryEffectReturn(s: State, t: Thread, a: Action)
    requires Enabled(s, t, a) && Returns(a)
    ensures DeliveryEffect(s, Next(s, t, a), t)
  {
  }

  lemma DeliveryEffectNone(s: State, t: Thread, a: Action)
    requires Enabled(s, t, a) && !Returns(a) && !a.ExchangeHead?
    ensures DeliveryEffect(s, Next(s, t, a), t)
  {
  }

  lemma HasDeliveryEffect(s: State, t: Thread, a: Action)
    requires Enabled(s, t, a)
    requires s.head.First? ==> |s.claims| < |s.log| && s.head.item == s.log[|s.claims|]
    ensures DeliveryEffect(s, Next(s, t, a), t)
  {
    if a.ExchangeHead? { DeliveryEffectTake(s, t); }
    else if Returns(a) { DeliveryEffectReturn(s, t, a); }
    else { DeliveryEffectNone(s, t, a); }
  }

  lemma DeliveryStep(s: State, s': State, t: Thread)
    requires DeliveryInv(s) && DeliveryEffect(s, s', t)
    requires forall u :: u != t ==> At(s', u) == At(s, u)
    ensures DeliveryInv(s')
  {
    forall u | ClaimOf(At(s', u)).Deliver?
      ensures GoodClaim(s', u, ClaimOf(At(s', u)))
    {
      if u != t || s'.claims == s.claims { assert GoodClaim(s, u, ClaimOf(At(s, u))); }
    }
    forall k: nat | k < |s'.claims|
      ensures k in s'.given || ClaimOf(At(s', s'.claims[k])) == Deliver(s'.log[k], k)
    {
      if k < |s.claims| { assert k in s.given || ClaimOf(At(s, s.claims[k])) == Deliver(s.log[k], k); }
    }
  }

  lemma OwnerStep(s: State, t: Thread, a: Action)
    requires PhaseInv(s) && OwnerInv(s) && FrontExact(s, t) && Enabled(s, t, a)
    ensures OwnerInv(Next(s, t, a))
  {
    if !IsPop(a) && !IsPush(a) { WorkFields(s, t, a); }
    else if IsPop(a) { OwnerStepPop(s, t, a); }
    else { OwnerStepPush(s, t, a); }
  }

  lemma OwnerStepPop(s: State, t: Thread, a: Action)
    requires PhaseInv(s) && OwnerInv(s) && FrontExact(s, t) && Enabled(s, t, a) && IsPop(a)
    ensures OwnerInv(Next(s, t, a))
  {
  }

  lemma OwnerStepPush(s: State, t: Thread, a: Action)
    requires PhaseInv(s) && OwnerInv(s) && Enabled(s, t, a) && IsPush(a)
    ensures OwnerInv(Next(s, t, a))
  {
  }

  /** What the list invariants depend on. */
  ghost function View(s: State): (seq<Item>, Links, nat, map<int, Thread>) {
    (s.log, s.next, Lo(s), s.debtor)
  }

  ghost predicate LeavesFront(s: State, t: Thread, a: Action) {
    a.RestoreHead? || (a.CasTail? && At(s, t).PopCasTail? && s.tail == Some(At(s, t).item))
  }

  /** The consequences of PhaseInv for one thread. */
  ghost predicate Shape(s: State, t: Thread) {
    && |s.claims| <= |s.log|
    && (s.phase.Popping? ==> |s.claims| > 0)
    && (s.tail.None? <==> Lo(s) == |s.log|)
    && (s.head.First? ==> s.phase.Ready?)
    && (OwnsFront(At(s, t)) ==> s.phase == Popping(t))
    && (At(s, t).OwesHead? ==> s.phase == HeadOwed(t))
  }

  lemma ListEffectPush(s: State, t: Thread, a: Action)
    requires Shape(s, t) && Enabled(s, t, a) && IsPush(a)
    ensures a.Prepare? ==> View(Next(s, t, a)) == (s.log, a.links, Lo(s), s.debtor)
    ensures a.SwingTail? ==>
      View(Next(s, t, a)) == (s.log + At(s, t).seg, s.next, Lo(s), AddDebt(s.debtor, s.log, Lo(s), t))
    ensures a.StoreLink? ==>
      View(Next(s, t, a)) == (s.log, s.next[At(s, t).prev := At(s, t).first], Lo(s), s.debtor - {At(s, t).at})
    ensures a.StoreHead? ==> View(Next(s, t, a)) == View(s)
  {
  }

  lemma ListEffectPop(s: State, t: Thread, a: Action)
    requires Shape(s, t) && Enabled(s, t, a) && !IsPush(a)
    ensures LeavesFront(s, t, a) ==> View(Next(s, t, a)) == (s.log, s.next, Lo(s) + 1, s.debtor)
    ensures !LeavesFront(s, t, a) ==> View(Next(s, t, a)) == View(s)
  {
  }

  lemma ListStepPush(s: State, t: Thread, a: Action)
    requires Shape(s, t) && ListInv(s) && PreparedInv(s) && Enabled(s, t, a) && IsPush(a)
    requires At(s, t).OwesLink? ==> Owes(s, t)
    ensures ListInv(Next(s, t, a))
  {
    ListEffectPush(s, t, a);
    var c, v := At(s, t), View(Next(s, t, a));
    match a
    case Prepare(seg, links) => PreparePreservesLinked(s.log, s.next, links, Lo(s), s.debtor, seg);
    case SwingTail => ExchangePreservesLinked(s.log, s.next, Lo(s), s.debtor, c.seg, t);
    case StoreLink => StoreLinkPreservesLinked(s.log, s.next, Lo(s), s.debtor, c.at);
    case StoreHead =>
    assert Linked(v.0, v.1, v.2, v.3);
  }

  lemma ListStepPop(s: State, t: Thread, a: Action)
    requires StepPre(s, t, a) && OwnerInv(s) && ListInv(s) && !IsPush(a)
    ensures ListInv(Next(s, t, a))
  {
    ListEffectPop(s, t, a);
    var v := View(Next(s, t, a));
    if LeavesFront(s, t, a) {
      assert Lo(s) !in s.debtor;
      AdvancePreservesLinked(s.log, s.next, Lo(s), s.debtor);
    }
    assert Linked(v.0, v.1, v.2, v.3);
  }

  lemma DebtStepSwing(s: State, t: Thread)
    requires Shape(s, t) && ListInv(s) && DebtInv(s) && Enabled(s, t, SwingTail)
    requires s.tail.Some? ==> s.tail.value == s.log[|s.log| - 1]
    ensures DebtInv(Next(s, t, SwingTail))
  {
    ListEffectPush(s, t, SwingTail);
    var s' := Next(s, t, SwingTail);
    forall u | At(s', u).OwesLink? ensures Owes(s', u) {
      if u != t { assert Owes(s, u); }
    }
  }

  lemma DebtStepStore(s: State, t: Thread, a: Action)
    requires Shape(s, t) && DebtInv(s) && Enabled(s, t, a) && IsPush(a) && !a.SwingTail?
    ensures DebtInv(Next(s, t, a))
  {
    ListEffectPush(s, t, a);
    var s' := Next(s, t, a);
    forall u | At(s', u).OwesLink? ensures Owes(s', u) {
      assert u != t && Owes(s, u);
    }
  }

  lemma DebtStepPush(s: State, t: Thread, a: Action)
    requires Shape(s, t) && ListInv(s) && DebtInv(s) && Enabled(s, t, a) && IsPush(a)
    requires s.tail.Some? ==> s.tail.value == s.log[|s.log| - 1]
    ensures DebtInv(Next(s, t, a))
  {
    if a.SwingTail? { DebtStepSwing(s, t); } else { DebtStepStore(s, t, a); }
  }

  lemma DebtStepPop(s: State, t: Thread, a: Action)
    requires Shape(s, t) && DebtInv(s) && Enabled(s, t, a) && !IsPush(a)
    ensures DebtInv(Next(s, t, a))
  {
    ListEffectPop(s, t, a);
    var s' := Next(s, t, a);
    forall u | At(s', u).OwesLink? ensures Owes(s', u) {
      if u != t { assert Owes(s, u); }
    }
  }

  ghost predicate PreparedAt(v: (seq<Item>, Links, nat, map<int, Thread>), seg: seq<Item>) {
    v.2 <= |v.0| && Chained(v.1, seg) && Disjoint(seg, v.0[v.2..])
  }

  lemma PreparedStepPush(s: State, t: Thread, a: Action, u: Thread)
    requires Shape(s, t) && ListInv(s) && DebtInv(s) && PreparedInv(s) && Enabled(s, t, a) && IsPush(a)
    requires At(Next(s, t, a), u).Prepared?
    ensures PreparedAt(View(Next(s, t, a)), At(Next(s, t, a), u).seg)
  {
    ListEffectPush(s, t, a);
    if u != t {
      var seg := At(s, u).seg;
      match a
      case Prepare(mine, links) => ChainedFrame(s.next, links, seg, mine);
      case SwingTail => assert s.log[Lo(s)..] + At(s, t).seg == (s.log + At(s, t).seg)[Lo(s)..];
      case StoreLink =>
        var c := At(s, t);
        assert Owes(s, t) && s.log[Lo(s)..][c.at - Lo(s)] == c.prev;
        ChainedFrame(s.next, s.next[c.prev := c.first], seg, [c.prev]);
      case StoreHead =>
    }
  }

  lemma PreparedStepPop(s: State, t: Thread, a: Action, u: Thread)
    requires Shape(s, t) && PreparedInv(s) && Enabled(s, t, a) && !IsPush(a)
    requires At(Next(s, t, a), u).Prepared? && LeavesFront(s, t, a) ==> Lo(s) < |s.log|
    requires At(Next(s, t, a), u).Prepared?
    ensures PreparedAt(View(Next(s, t, a)), At(Next(s, t, a), u).seg)
  {
    ListEffectPop(s, t, a);
    if LeavesFront(s, t, a) { assert s.log[Lo(s) + 1..] == s.log[Lo(s)..][1..]; }
  }

  lemma PreparedStep(s: State, t: Thread, a: Action)
    requires StepPre(s, t, a) && ListInv(s) && DebtInv(s) && PreparedInv(s)
    requires Lo(Next(s, t, a)) <= |Next(s, t, a).log|
    ensures PreparedInv(Next(s, t, a))
  {
    var s' := Next(s, t, a);
    forall u | At(s', u).Prepared?
      ensures Chained(s'.next, At(s', u).seg) && Disjoint(At(s', u).seg, s'.log[Lo(s')..])
    {
      if IsPush(a) { PreparedStepPush(s, t, a, u); } else { PreparedStepPop(s, t, a, u); }
      assert PreparedAt(View(s'), At(s', u).seg);
    }
    PreparedPairs(s, t, a);
  }

  lemma PreparedPairs(s: State, t: Thread, a: Action)
    requires Lo(s) <= |s.log| && Enabled(s, t, a)
    requires forall u, w :: At(s, u).Prepared? && At(s, w).Prepared? && u != w ==> Disjoint(At(s, u).seg, At(s, w).seg)
    ensures forall u, w :: At(Next(s, t, a), u).Prepared? && At(Next(s, t, a), w).Prepared? && u != w
              ==> Disjoint(At(Next(s, t, a), u).seg, At(Next(s, t, a), w).seg)
  {
    var s' := Next(s, t, a);
    forall u, w | At(s', u).Prepared? && At(s', w).Prepared? && u != w
      ensures Disjoint(At(s', u).seg, At(s', w).seg)
    {
      if u == t || w == t {
        assert a.Prepare? && forall x :: x in a.seg ==> Free(s, x);
      }
    }
  }

  ghost predicate StepPre(s: State, t: Thread, a: Action) {
    && Enabled(s, t, a) && Shape(s, t) && FrontExact(s, t)
    && (At(s, t).OwesLink? ==> Owes(s, t))
    && (s.tail.Some? ==> |s.log| > 0 && s.tail.value == s.log[|s.log| - 1])
    && (LeavesFront(s, t, a) ==> Lo(s) < |s.log|)
  }

  lemma HasStepPre(s: State, t: Thread, a: Action)
    requires PhaseInv(s) && ListInv(s) && DebtInv(s) && Enabled(s, t, a)
    ensures StepPre(s, t, a)
  {
    FrontIsExact(s, t);
  }

  lemma PhaseStep(s: State, t: Thread, a: Action)
    requires StepPre(s, t, a) && PhaseInv(s) && OwnerInv(s)
    ensures PhaseInv(Next(s, t, a))
  {
    if IsPush(a) { PhaseStepPush(s, t, a); }
    else if IsPop(a) { PhaseStepPop(s, t, a); }
    else { PhaseStepWork(s, t, a); }
  }

  lemma ListStep(s: State, t: Thread, a: Action)
    requires StepPre(s, t, a) && CoreInv(s)
    ensures ListInv(Next(s, t, a))
  {
    if IsPush(a) { ListStepPush(s, t, a); } else { ListStepPop(s, t, a); }
  }

  lemma DebtStep(s: State, t: Thread, a: Action)
    requires StepPre(s, t, a) && ListInv(s) && DebtInv(s)
    ensures DebtInv(Next(s, t, a))
  {
    if IsPush(a) { DebtStepPush(s, t, a); } else { DebtStepPop(s, t, a); }
  }

  lemma CoreStep(s: State, t: Thread, a: Action)
    requires CoreInv(s) && Enabled(s, t, a)
    ensures CoreInv(Next(s, t, a))
  {
    HasStepPre(s, t, a);
    PhaseStep(s, t, a);
    OwnerStep(s, t, a);
    ListStep(s, t, a);
    DebtStep(s, t, a);
    PreparedStep(s, t, a);
  }

  /** Every action of every thread preserves the invariant. */
  lemma StepInv(s: State, t: Thread, a: Action)
    requires Inv(s) && Enabled(s, t, a)
    ensures Inv(Next(s, t, a))
  {
    CoreStep(s, t, a);
    HasDeliveryEffect(s, t, a);
    DeliveryStep(s, Next(s, t, a), t);
    RequestStep(s, t, a);
    MediatorStep(s, t, a);
    WorkStep(s, t, a);
  }

  // ------------------------------------------------------------------ runs

  ghost predicate Step(s: State, s': State) {
    exists t, a :: Enabled(s, t, a) && s' == Next(s, t, a)
  }

  ghost predicate IsRun(run: seq<State>) {
    && run != [] && Init(run[0])
    && (forall i :: 0 <= i < |run| - 1 ==> Step(run[i], run[i + 1]))
  }

  lemma {:induction false} RunInv(run: seq<State>, n: nat)
    requires IsRun(run) && n < |run|
    ensures Inv(run[n])
  {
    if n == 0 {
      InitInv(run[0]);
    } else {
      RunInv(run, n - 1);
      assert Step(run[n - 1], run[n - 1 + 1]);
      var t, a :| Enabled(run[n - 1], t, a) && run[n] == Next(run[n - 1], t, a);
      StepInv(run[n - 1], t, a);
    }
  }

  /** Head, popper and producer: a non-empty queue is held in exactly one of three ways. */
  ghost predicate ExactlyOneHolder(s: State) {
    && (s.tail.Some? <==> s.head.First? || (exists t :: OwnsFront(At(s, t))) || (exists t :: At(s, t).OwesHead?))
    && (forall t :: OwnsFront(At(s, t)) ==> !s.head.First?)
    && (forall t :: At(s, t).OwesHead? ==> !s.head.First?)
    && (forall t, u :: OwnsFront(At(s, t)) && OwnsFront(At(s, u)) ==> t == u)
    && (forall t, u :: At(s, t).OwesHead? && At(s, u).OwesHead? ==> t == u)
    && (forall t, u :: !(OwnsFront(At(s, t)) && At(s, u).OwesHead?))
  }

  lemma HolderTheorem(run: seq<State>, n: nat)
    requires IsRun(run) && n < |run|
    ensures ExactlyOneHolder(run[n])
    ensures run[n].head.Mediator? ==> exists t :: MidPop(At(run[n], t))
  {
    RunInv(run, n);
    var s := run[n];
    match s.phase
    case Empty =>
    case Ready =>
    case Popping(t) => assert OwnsFront(At(s, t));
    case HeadOwed(t) => assert At(s, t).OwesHead?;
  }

  /** A log position has been received by its one claimant, or that claimant still holds it. */
  ghost predicate Delivered(s: State, k: nat)
    requires k < |s.claims| <= |s.log|
  {
    var t := s.claims[k];
    && (k in s.given ==> s.given[k] == t && ClaimOf(At(s, t)) != Deliver(s.log[k], k))
    && (k !in s.given ==> ClaimOf(At(s, t)) == Deliver(s.log[k], k))
    && (forall u :: ClaimOf(At(s, u)).Deliver? && ClaimOf(At(s, u)).pos == k ==> u == t)
  }

  /** Items leave in tail-exchange order, each to exactly one popper, and no producer can
      still write into an item that has been handed out. */
  lemma DeliveryTheorem(run: seq<State>, n: nat)
    requires IsRun(run) && n < |run|
    ensures |run[n].claims| <= |run[n].log|
    ensures forall k :: k in run[n].given ==> k < |run[n].claims|
    ensures forall k: nat :: k < |run[n].claims| ==> Delivered(run[n], k)
    ensures forall t :: At(run[n], t).OwesLink? ==> At(run[n], t).at !in run[n].given
  {
    RunInv(run, n);
    var s := run[n];
    forall k: nat | k < |s.claims| ensures Delivered(s, k) {
      forall u | ClaimOf(At(s, u)).Deliver? && ClaimOf(At(s, u)).pos == k ensures u == s.claims[k] {
        assert GoodClaim(s, u, ClaimOf(At(s, u)));
      }
    }
    forall t | At(s, t).OwesLink? ensures At(s, t).at !in s.given {
      assert Owes(s, t) && Lo(s) <= At(s, t).at;
    }
  }

  /** The history is never rewritten: a step only appends pushes and claims and hands out new positions. */
  lemma HistoryTheorem(run: seq<State>, n: nat)
    requires IsRun(run) && n + 1 < |run|
    ensures run[n].log <= run[n + 1].log && run[n].claims <= run[n + 1].claims
    ensures forall k :: k in run[n].given ==> k in run[n + 1].given && run[n + 1].given[k] == run[n].given[k]
    ensures |run[n + 1].given| <= |run[n].given| + 1
  {
    RunInv(run, n);
    var s := run[n];
    assert Step(run[n], run[n + 1]);
    var t, a :| Enabled(s, t, a) && run[n + 1] == Next(s, t, a);
    HasDeliveryEffect(s, t, a);
    if ClaimOf(At(s, t)).Deliver? { assert GoodClaim(s, t, ClaimOf(At(s, t))); }
  }

  /** The FIFO queue the protocol implements: pushed and not yet claimed. */
  ghost function Contents(s: State): seq<Item>
    requires |s.claims| <= |s.log|
  {
    s.log[|s.claims|..]
  }

  /** Refinement: a tail exchange enqueues its list, a head exchange that finds an item dequeues
      the front, and no other action changes the queue. */
  lemma RefinesFifo(s: State, t: Thread, a: Action)
    requires Inv(s) && Enabled(s, t, a)
    ensures |Next(s, t, a).claims| <= |Next(s, t, a).log|
    ensures a.SwingTail? ==> Contents(Next(s, t, a)) == Contents(s) + At(s, t).seg
    ensures a.ExchangeHead? && s.head.First? ==> Contents(s) == [s.head.item] + Contents(Next(s, t, a))
    ensures !a.SwingTail? && !(a.ExchangeHead? && s.head.First?) ==> Contents(Next(s, t, a)) == Contents(s)
  {
    HeadIsFront(s);
    LogEffect(s, t, a);
    Refines(s, Next(s, t, a), t, a);
  }

  lemma HeadIsFront(s: State)
    requires PhaseInv(s)
    ensures |s.claims| <= |s.log|
    ensures s.head.First? ==> |s.claims| < |s.log| && s.head.item == s.log[|s.claims|]
  {
  }

  lemma Refines(s: State, s': State, t: Thread, a: Action)
    requires Enabled(s, t, a) && |s.claims| <= |s.log|
    requires s.head.First? ==> |s.claims| < |s.log| && s.head.item == s.log[|s.claims|]
    requires s'.log == if a.SwingTail? then s.log + At(s, t).seg else s.log
    requires s'.claims == if a.ExchangeHead? && s.head.First? then s.claims + [t] else s.claims
    ensures |s'.claims| <= |s'.log|
    ensures a.SwingTail? ==> Contents(s') == Contents(s) + At(s, t).seg
    ensures a.ExchangeHead? && s.head.First? ==> Contents(s) == [s.head.item] + Contents(s')
    ensures !a.SwingTail? && !(a.ExchangeHead? && s.head.First?) ==> Contents(s') == Contents(s)
  {
  }

  lemma LogEffect(s: State, t: Thread, a: Action)
    requires Enabled(s, t, a)
    ensures Next(s, t, a).log == if a.SwingTail? then s.log + At(s, t).seg else s.log
    ensures Next(s, t, a).claims == if a.ExchangeHead? && s.head.First? then s.claims + [t] else s.claims
  {
    match a
    case SwingTail => if s.tail.None? {} else {}
    case ExchangeHead => if s.head.First? {} else {}
    case _ =>
  }

  /** A popper that spins is waiting for a store that some producer is about to make. */
  lemma SpinTheorem(run: seq<State>, n: nat, t: Thread)
    requires IsRun(run) && n < |run| && At(run[n], t).PopSpin? && At(run[n], t).item !in run[n].next
    ensures exists u :: At(run[n], u).OwesLink? && At(run[n], u).prev == At(run[n], t).item
  {
    RunInv(run, n);
    var s := run[n];
    ReadLink(s.log, s.next, Lo(s), s.debtor, |s.claims| - 1);
    var u := s.debtor[|s.claims| - 1];
    assert Owes(s, u);
  }

  predicate WillPop(c: PC) {
    c.WorkerStart? || c.PopExchange? || c.Running? || OwnsFront(c) || (InWakeup(c) && c.after.Deliver?)
  }

  /** Work conservation: a reachable item always has a wakeup, a worker request or a worker coming for it. */
  lemma WorkTheorem(run: seq<State>, n: nat)
    requires IsRun(run) && n < |run| && run[n].head.First?
    ensures run[n].requests > 0 || exists t :: InWakeup(At(run[n], t)) || WillPop(At(run[n], t))
  {
    RunInv(run, n);
    var s := run[n];
    var w := if s.request.Adding? then s.request.adder else if s.request.Starting? then s.request.worker else s.carer;
    assert s.requests > 0 || InWakeup(At(s, w)) || WillPop(At(s, w));
  }

  /** When every thread has left and no worker is requested, every pushed item has been received. */
  lemma QuiescenceTheorem(run: seq<State>, n: nat)
    requires IsRun(run) && n < |run| && run[n].requests == 0
    requires forall t :: At(run[n], t).Outside? || At(run[n], t).Prepared?
    ensures forall k: nat :: k < |run[n].log| ==> k in run[n].given
    ensures run[n].head.Null? && run[n].tail.None? && !run[n].pending
  {
    RunInv(run, n);
    HolderTheorem(run, n);
    if run[n].head.First? { WorkTheorem(run, n); }
  }
}
