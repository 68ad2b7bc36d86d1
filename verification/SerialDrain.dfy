/**
 Draining one queue: producers keep pushing while a single drainer takes the items one
 by one and may stop before any of them, putting the item in its hand back at the front
 (libdispatch/src/queue.c, _dispatch_queue_drain; libdispatch/src/queue_internal.h,
 _dispatch_queue_push_list). The tests for suspension, width and a changed target queue
 only decide whether to stop, so a stop is possible before every item.
*/
module SerialDrain {
  import opened Options
  import opened TailQueue
  import opened ProducerList

  datatype PC =
    | Outside
    | Prepared(seg: seq<Item>)
    | OwesLink(prev: Item, first: Item, at: int)
    | OwesHead(first: Item)

  datatype DrainPC =
    | Away
    | TestTail
    | SpinHead
    | ReadHead
    | ClearHead(dc: Item)
    | ReadNext(dc: Item)
    | CasTail(dc: Item)
    | Decide(dc: Item, succ: Option<Item>)
    | PutHead(dc: Item)
    | PutCas(dc: Item)
    | PutSpin(dc: Item)
    | PutFirst(dc: Item, rest: Item)
    | PutNext(dc: Item, rest: Item)

  datatype Actor = Producer(t: Thread) | Drainer

  datatype Phase = Empty | Ready | InHand | HeadOwed(producer: Thread)

  datatype State = State(
    // shared memory
    head: Option<Item>,
    tail: Option<Item>,
    next: Links,
    pc: map<Thread, PC>,
    d: DrainPC,
    // history
    log: seq<Item>,
    executed: seq<Item>,
    phase: Phase,
    debtor: map<int, Actor>)

  datatype Push =
    | Prepare(seg: seq<Item>, links: Links)
    | SwingTail
    | StoreLink
    | StoreHead

  /** A drain step; `stop` is consulted only where the source tests whether to go on. */
  datatype Action = Produce(t: Thread, p: Push) | Drain(stop: bool)

  function At(s: State, t: Thread): PC {
    if t in s.pc then s.pc[t] else Outside
  }

  /** The drainer has taken its item off the list altogether: the tail no longer covers it. */
  predicate Detached(d: DrainPC) {
    (d.Decide? && d.succ.None?) || d.PutCas? || d.PutSpin? || d.PutFirst?
  }

  /** The drainer holds the front item of the list; the head is NULL meanwhile. */
  predicate Holding(d: DrainPC) {
    d.ReadNext? || d.CasTail? || (d.Decide? && d.succ.Some?) || d.PutHead?
  }

  /** The log position at which the list in memory starts. */
  function Base(s: State): nat {
    |s.executed| + if Detached(s.d) then 1 else 0
  }

  ghost predicate Free(s: State, x: Item)
    requires |s.executed| <= |s.log|
  {
    && x !in s.log[|s.executed|..]
    && (forall t :: At(s, t).Prepared? ==> x !in At(s, t).seg)
  }

  ghost predicate Init(s: State) {
    s == State(None, None, s.next, map[], Away, [], [], Empty, map[])
  }

  ghost predicate Enabled(s: State, a: Action) {
    match a
    case Drain(_) => true
    case Produce(t, Prepare(seg, links)) =>
      && At(s, t).Outside? && |s.executed| <= |s.log|
      && Chained(links, seg) && SameExcept(s.next, links, seg)
      && (forall x :: x in seg ==> Free(s, x))
    case Produce(t, SwingTail) => At(s, t).Prepared? && At(s, t).seg != []
    case Produce(t, StoreLink) => At(s, t).OwesLink?
    case Produce(t, StoreHead) => At(s, t).OwesHead?
  }

  ghost function PushEffect(s: State, t: Thread, p: Push): State
    requires Enabled(s, Produce(t, p))
  {
    var c := At(s, t);
    match p
    case Prepare(_, links) => s.(next := links)
    case SwingTail =>
      var s1 := s.(tail := Some(c.seg[|c.seg| - 1]), log := s.log + c.seg);
      if s.tail.None? then s1.(phase := HeadOwed(t)) else s1.(debtor := s.debtor[|s.log| - 1 := Producer(t)])
    case StoreLink => s.(next := s.next[c.prev := c.first], debtor := s.debtor - {c.at})
    case StoreHead => s.(head := Some(c.first), phase := Ready)
  }

  ghost function PushTarget(s: State, t: Thread, p: Push): PC
    requires Enabled(s, Produce(t, p))
  {
    var c := At(s, t);
    match p
    case Prepare(seg, _) => Prepared(seg)
    case SwingTail => if s.tail.None? then OwesHead(c.seg[0]) else OwesLink(s.tail.value, c.seg[0], |s.log| - 1)
    case StoreLink => Outside
    case StoreHead => Outside
  }

  function DrainEffect(s: State, stop: bool): State {
    match s.d
    case ClearHead(_) => s.(head := None, phase := InHand)
    case CasTail(dc) => if s.tail == Some(dc) then s.(tail := None, phase := Empty) else s
    case Decide(dc, _) => if stop then s else s.(executed := s.executed + [dc])
    case PutHead(dc) => s.(head := Some(dc), phase := Ready)
    case PutCas(dc) => if s.tail.None? then s.(tail := Some(dc), phase := InHand) else s
    case PutFirst(dc, rest) => s.(head := Some(dc), debtor := s.debtor[|s.executed| := Drainer])
    case PutNext(dc, rest) => s.(next := s.next[dc := rest], debtor := s.debtor - {|s.executed|})
    case _ => s
  }

  function DrainTarget(s: State, stop: bool): DrainPC {
    match s.d
    case Away => TestTail
    case TestTail => if s.tail.None? then Away else SpinHead
    case SpinHead => if s.head.None? then SpinHead else ReadHead
    case ReadHead => if s.head.None? then ReadHead else ClearHead(s.head.value)
    case ClearHead(dc) => ReadNext(dc)
    case ReadNext(dc) => if dc in s.next then Decide(dc, Some(s.next[dc])) else CasTail(dc)
    case CasTail(dc) => if s.tail == Some(dc) then Decide(dc, None) else ReadNext(dc)
    case Decide(dc, succ) =>
      if stop then (if succ.Some? then PutHead(dc) else PutCas(dc))
      else if succ.Some? then ReadNext(succ.value) else TestTail
    case PutHead(_) => Away
    case PutCas(dc) => if s.tail.None? then PutHead(dc) else PutSpin(dc)
    case PutSpin(dc) => if s.head.None? then PutSpin(dc) else PutFirst(dc, s.head.value)
    case PutFirst(dc, rest) => PutNext(dc, rest)
    case PutNext(_, _) => Away
  }

  ghost function Next(s: State, a: Action): (s': State)
    requires Enabled(s, a)
    ensures a.Produce? ==> At(s', a.t) == PushTarget(s, a.t, a.p) && s'.d == s.d && s'.executed == s.executed
    ensures forall u :: !(a.Produce? && u == a.t) ==> At(s', u) == At(s, u)
  {
    match a
    case Produce(t, p) => PushEffect(s, t, p).(pc := s.pc[t := PushTarget(s, t, p)])
    case Drain(stop) => DrainEffect(s, stop).(d := DrainTarget(s, stop))
  }

  // ------------------------------------------------------------------ invariant

  ghost predicate Ordered(log: seq<Item>, executed: seq<Item>) {
    && |executed| <= |log| && executed == log[..|executed|]
    && Distinct(log[|executed|..])
  }

  ghost predicate OrderInv(s: State) {
    Ordered(s.log, s.executed)
  }

  ghost predicate PhaseInv(s: State) {
    var e, n := |s.executed|, |s.log|;
    && e <= n && Base(s) <= n
    && (Detached(s.d) || Holding(s.d) ==> e < n && s.d.dc == s.log[e])
    && (s.phase.Empty? ==> s.tail.None? && Base(s) == n)
    && (!s.phase.Empty? ==> Base(s) < n && s.tail == Some(s.log[n - 1]))
    && (s.head.Some? <==> s.phase.Ready?)
    && (s.phase.Ready? ==> s.head.value == s.log[Base(s)])
    && (s.phase.InHand? <==> Holding(s.d))
    && (s.phase.HeadOwed? ==> At(s, s.phase.producer) == OwesHead(s.log[Base(s)]))
    && (forall t :: At(s, t).OwesHead? ==> s.phase == HeadOwed(t))
  }

  /** What the drainer knows at each of its program points. */
  ghost predicate DrainInv(s: State) {
    var e, n := |s.executed|, |s.log|;
    && (s.d.SpinHead? || s.d.PutSpin? ==> !s.phase.Empty?)
    && (s.d.ReadHead? || s.d.ClearHead? || s.d.PutFirst? || s.d.PutNext? ==> s.phase.Ready?)
    && (s.d.ClearHead? || s.d.PutNext? ==> e < n && s.d.dc == s.log[e])
    && (s.d.Decide? && s.d.succ.Some? ==> e + 1 < n && s.d.succ.value == s.log[e + 1] && e !in s.debtor)
    && (s.d.PutFirst? || s.d.PutNext? ==> e + 1 < n && s.d.rest == s.log[e + 1])
    && (Detached(s.d) ==> s.d.dc !in s.next)
    && (s.d.PutNext? ==> e in s.debtor && s.debtor[e] == Drainer)
  }

  ghost predicate ListInv(s: State) {
    Linked(s.log, s.next, Base(s), s.debtor)
  }

  ghost predicate Owes(s: State, t: Thread)
    requires At(s, t).OwesLink?
  {
    var c := At(s, t);
    && c.at in s.debtor && s.debtor[c.at] == Producer(t)
    && 0 <= c.at < |s.log| - 1 && s.log[c.at] == c.prev && s.log[c.at + 1] == c.first
  }

  ghost predicate DebtInv(s: State) {
    && (forall t :: At(s, t).OwesLink? ==> Owes(s, t))
    && (forall p ::
          p in s.debtor && s.debtor[p].Producer? ==> At(s, s.debtor[p].t).OwesLink? && At(s, s.debtor[p].t).at == p)
    && (forall p :: p in s.debtor && s.debtor[p].Drainer? ==> s.d.PutNext? && p == |s.executed|)
  }

  ghost predicate PreparedInv(s: State)
    requires |s.executed| <= |s.log|
  {
    && (forall t ::
          At(s, t).Prepared? ==> Chained(s.next, At(s, t).seg) && Disjoint(At(s, t).seg, s.log[|s.executed|..]))
    && (forall t, u :: At(s, t).Prepared? && At(s, u).Prepared? && t != u ==> Disjoint(At(s, t).seg, At(s, u).seg))
  }

  ghost predicate Inv(s: State) {
    OrderInv(s) && PhaseInv(s) && DrainInv(s) && ListInv(s) && DebtInv(s) && PreparedInv(s)
  }

  lemma InitInv(s: State)
    requires Init(s)
    ensures Inv(s)
  {
    assert forall t :: At(s, t) == Outside;
  }

  // ------------------------------------------------------------------ producer steps

  lemma PushPhase(s: State, t: Thread, p: Push)
    requires PhaseInv(s) && Enabled(s, Produce(t, p))
    ensures PhaseInv(Next(s, Produce(t, p)))
  {
  }

  /** No producer stores into the item that the drainer has taken off the list. */
  lemma PushDetached(s: State, t: Thread, p: Push)
    requires OrderInv(s) && PhaseInv(s) && DrainInv(s) && ListInv(s) && DebtInv(s) && Enabled(s, Produce(t, p))
    requires Detached(s.d)
    ensures s.d.dc !in Next(s, Produce(t, p)).next
  {
    var e := |s.executed|;
    assert s.log[e..][0] == s.d.dc;
    if p.Prepare? {
      assert !Free(s, s.d.dc);
      assert SameLink(s.next, p.links, s.d.dc);
    } else if p.StoreLink? {
      assert Owes(s, t);
      DistinctAt(s.log, e, e, At(s, t).at);
    }
  }

  lemma PushDrain(s: State, t: Thread, p: Push)
    requires OrderInv(s) && PhaseInv(s) && DrainInv(s) && ListInv(s) && DebtInv(s) && Enabled(s, Produce(t, p))
    ensures DrainInv(Next(s, Produce(t, p)))
  {
    if Detached(s.d) { PushDetached(s, t, p); }
    PushDrainRest(s, t, p);
  }

  lemma PushDrainRest(s: State, t: Thread, p: Push)
    requires PhaseInv(s) && DrainInv(s) && DebtInv(s) && Enabled(s, Produce(t, p))
    requires Detached(s.d) ==> s.d.dc !in Next(s, Produce(t, p)).next
    ensures DrainInv(Next(s, Produce(t, p)))
  {
    match p
    case Prepare(_, _) =>
    case SwingTail =>
    case StoreLink =>
    case StoreHead =>
  }

  lemma OrderedAppend(log: seq<Item>, executed: seq<Item>, seg: seq<Item>)
    requires Ordered(log, executed) && Distinct(seg) && Disjoint(seg, log[|executed|..])
    ensures Ordered(log + seg, executed)
  {
    var e := |executed|;
    DistinctConcat(log[e..], seg);
    assert (log + seg)[e..] == log[e..] + seg && (log + seg)[..e] == log[..e];
  }

  lemma OrderedAdvance(log: seq<Item>, executed: seq<Item>)
    requires Ordered(log, executed) && |executed| < |log|
    ensures Ordered(log, executed + [log[|executed|]])
  {
    var e := |executed|;
    assert log[e + 1..] == log[e..][1..];
    assert log[..e + 1] == executed + [log[e]];
  }

  lemma PushOrder(s: State, t: Thread, p: Push)
    requires OrderInv(s) && PreparedInv(s) && Enabled(s, Produce(t, p))
    ensures OrderInv(Next(s, Produce(t, p)))
  {
    if p.SwingTail? { OrderedAppend(s.log, s.executed, At(s, t).seg); }
  }

  ghost function View(s: State): (seq<Item>, Links, nat, map<int, Actor>) {
    (s.log, s.next, Base(s), s.debtor)
  }

  lemma PushView(s: State, t: Thread, p: Push)
    requires PhaseInv(s) && Enabled(s, Produce(t, p))
    ensures p.Prepare? ==> View(Next(s, Produce(t, p))) == (s.log, p.links, Base(s), s.debtor)
    ensures p.SwingTail? ==>
              View(Next(s, Produce(t, p))) == (s.log + At(s, t).seg, s.next, Base(s),
                  AddDebt(s.debtor, s.log, Base(s), Producer(t)))
    ensures p.StoreLink? ==>
              View(Next(s, Produce(t, p))) == (s.log, s.next[At(s, t).prev := At(s, t).first], Base(s),
                  s.debtor - {At(s, t).at})
    ensures p.StoreHead? ==> View(Next(s, Produce(t, p))) == View(s)
  {
  }

  lemma PushListOwing(s: State, t: Thread, p: Push)
    requires PhaseInv(s) && ListInv(s) && DebtInv(s) && Enabled(s, Produce(t, p)) && (p.StoreLink? || p.StoreHead?)
    ensures ListInv(Next(s, Produce(t, p)))
  {
    PushView(s, t, p);
    if p.StoreLink? {
      assert Owes(s, t);
      StoreLinkPreservesLinked(s.log, s.next, Base(s), s.debtor, At(s, t).at);
    }
  }

  lemma PushListPrepare(s: State, t: Thread, p: Push)
    requires PhaseInv(s) && ListInv(s) && Enabled(s, Produce(t, p)) && p.Prepare?
    ensures ListInv(Next(s, Produce(t, p)))
  {
    PushView(s, t, p);
    assert forall x :: x in s.log[Base(s)..] ==> x in s.log[|s.executed|..];
    PreparePreservesLinked(s.log, s.next, p.links, Base(s), s.debtor, p.seg);
  }

  lemma PushListSwing(s: State, t: Thread)
    requires PhaseInv(s) && ListInv(s) && PreparedInv(s) && Enabled(s, Produce(t, SwingTail))
    ensures ListInv(Next(s, Produce(t, SwingTail)))
  {
    PushView(s, t, SwingTail);
    assert forall x :: x in s.log[Base(s)..] ==> x in s.log[|s.executed|..];
    ExchangePreservesLinked(s.log, s.next, Base(s), s.debtor, At(s, t).seg, Producer(t));
  }

  lemma PushList(s: State, t: Thread, p: Push)
    requires PhaseInv(s) && ListInv(s) && DebtInv(s) && PreparedInv(s) && Enabled(s, Produce(t, p))
    ensures ListInv(Next(s, Produce(t, p)))
  {
    match p
    case Prepare(_, _) => PushListPrepare(s, t, p);
    case SwingTail => PushListSwing(s, t);
    case StoreLink => PushListOwing(s, t, p);
    case StoreHead => PushListOwing(s, t, p);
  }

  lemma PushDebtSwing(s: State, t: Thread)
    requires PhaseInv(s) && ListInv(s) && DebtInv(s) && Enabled(s, Produce(t, SwingTail))
    ensures DebtInv(Next(s, Produce(t, SwingTail)))
  {
    PushView(s, t, SwingTail);
    var s' := Next(s, Produce(t, SwingTail));
    forall u | At(s', u).OwesLink? ensures Owes(s', u) {
      if u != t { assert Owes(s, u); }
    }
  }

  lemma PushDebtOther(s: State, t: Thread, p: Push)
    requires PhaseInv(s) && DebtInv(s) && Enabled(s, Produce(t, p)) && !p.SwingTail?
    ensures DebtInv(Next(s, Produce(t, p)))
  {
    PushView(s, t, p);
    var s' := Next(s, Produce(t, p));
    forall u | At(s', u).OwesLink? ensures Owes(s', u) {
      assert u != t && Owes(s, u);
    }
  }

  lemma PushDebt(s: State, t: Thread, p: Push)
    requires PhaseInv(s) && ListInv(s) && DebtInv(s) && Enabled(s, Produce(t, p))
    ensures DebtInv(Next(s, Produce(t, p)))
  {
    if p.SwingTail? { PushDebtSwing(s, t); } else { PushDebtOther(s, t, p); }
  }

  lemma StorePreparedAt(s: State, t: Thread, u: Thread)
    requires PhaseInv(s) && ListInv(s) && DebtInv(s) && PreparedInv(s) && At(s, t).OwesLink? && At(s, u).Prepared?
    ensures Chained(s.next[At(s, t).prev := At(s, t).first], At(s, u).seg)
  {
    var c, e := At(s, t), |s.executed|;
    assert Owes(s, t) && s.log[e..][c.at - e] == c.prev;
    ChainedFrame(s.next, s.next[c.prev := c.first], At(s, u).seg, [c.prev]);
  }

  lemma PushPreparedAt(s: State, t: Thread, p: Push, u: Thread)
    requires PhaseInv(s) && ListInv(s) && DebtInv(s) && PreparedInv(s) && Enabled(s, Produce(t, p))
    requires At(Next(s, Produce(t, p)), u).Prepared?
    ensures Chained(Next(s, Produce(t, p)).next, At(Next(s, Produce(t, p)), u).seg)
    ensures Disjoint(At(Next(s, Produce(t, p)), u).seg, Next(s, Produce(t, p)).log[|s.executed|..])
  {
    PushView(s, t, p);
    var e := |s.executed|;
    if u != t {
      match p
      case Prepare(mine, links) => ChainedFrame(s.next, links, At(s, u).seg, mine);
      case SwingTail => assert (s.log + At(s, t).seg)[e..] == s.log[e..] + At(s, t).seg;
      case StoreLink => StorePreparedAt(s, t, u);
      case StoreHead =>
    }
  }

  lemma PushPrepared(s: State, t: Thread, p: Push)
    requires PhaseInv(s) && ListInv(s) && DebtInv(s) && PreparedInv(s) && Enabled(s, Produce(t, p))
    requires |s.executed| <= |Next(s, Produce(t, p)).log|
    ensures PreparedInv(Next(s, Produce(t, p)))
  {
    var s' := Next(s, Produce(t, p));
    forall u | At(s', u).Prepared?
      ensures Chained(s'.next, At(s', u).seg) && Disjoint(At(s', u).seg, s'.log[|s'.executed|..])
    {
      PushPreparedAt(s, t, p, u);
    }
    forall u, w | At(s', u).Prepared? && At(s', w).Prepared? && u != w
      ensures Disjoint(At(s', u).seg, At(s', w).seg)
    {
      if u == t || w == t {
        assert p.Prepare? && forall x :: x in p.seg ==> Free(s, x);
      }
    }
  }

  lemma PushInv(s: State, t: Thread, p: Push)
    requires Inv(s) && Enabled(s, Produce(t, p))
    ensures Inv(Next(s, Produce(t, p)))
  {
    PushPhase(s, t, p);
    PushDrain(s, t, p);
    PushOrder(s, t, p);
    PushList(s, t, p);
    PushDebt(s, t, p);
    PushPrepared(s, t, p);
  }

  // ------------------------------------------------------------------ drainer steps

  /** What one read of the link or of the tail tells the drainer about the item in its hand. */
  ghost predicate FrontExact(s: State) {
    Holding(s.d) ==>
      var e, n := |s.executed|, |s.log|;
      && (s.tail == Some(s.d.dc) <==> e + 1 == n)
      && (s.d.dc in s.next ==> e + 1 < n && s.next[s.d.dc] == s.log[e + 1] && e !in s.debtor)
      && (e + 1 == n ==> s.d.dc !in s.next && e !in s.debtor)
  }

  lemma FrontIsExact(s: State)
    requires PhaseInv(s) && ListInv(s)
    ensures FrontExact(s)
  {
    if Holding(s.d) {
      var e, n := |s.executed|, |s.log|;
      ReadLink(s.log, s.next, Base(s), s.debtor, e);
      if e + 1 < n { DistinctAt(s.log, e, e, n - 1); }
    }
  }

  predicate Taking(d: DrainPC) {
    d.Away? || d.TestTail? || d.SpinHead? || d.ReadHead? || d.ClearHead? || d.ReadNext? || d.CasTail?
  }

  lemma DrainPhaseFinding(s: State, stop: bool)
    requires PhaseInv(s) && DrainInv(s)
      && (s.d.Away? || s.d.TestTail? || s.d.SpinHead? || s.d.ReadHead? || s.d.ClearHead?)
    ensures PhaseInv(Next(s, Drain(stop)))
  {
  }

  lemma DrainPhaseTaking(s: State, stop: bool)
    requires PhaseInv(s) && DrainInv(s) && FrontExact(s) && Taking(s.d)
    ensures PhaseInv(Next(s, Drain(stop)))
  {
    if !s.d.ReadNext? && !s.d.CasTail? { DrainPhaseFinding(s, stop); }
  }

  lemma DrainPhaseDeciding(s: State, stop: bool)
    requires PhaseInv(s) && DrainInv(s) && s.d.Decide?
    ensures PhaseInv(Next(s, Drain(stop)))
  {
  }

  lemma DrainPhaseEmpty(s: State, stop: bool)
    requires PhaseInv(s) && DrainInv(s) && (s.d.PutHead? || s.d.PutCas? || s.d.PutSpin?)
    ensures PhaseInv(Next(s, Drain(stop)))
  {
    match s.d
    case PutCas(_) => if s.tail.None? {} else {}
    case _ =>
  }

  lemma DrainPhasePutting(s: State, stop: bool)
    requires PhaseInv(s) && DrainInv(s) && !Taking(s.d) && !s.d.Decide?
    ensures PhaseInv(Next(s, Drain(stop)))
  {
    if !s.d.PutFirst? && !s.d.PutNext? { DrainPhaseEmpty(s, stop); }
  }

  lemma DrainDrainTaking(s: State, stop: bool)
    requires PhaseInv(s) && DrainInv(s) && FrontExact(s) && Taking(s.d)
    ensures DrainInv(Next(s, Drain(stop)))
  {
  }

  lemma DrainDrainPutting(s: State, stop: bool)
    requires PhaseInv(s) && DrainInv(s) && !Taking(s.d)
    ensures DrainInv(Next(s, Drain(stop)))
  {
  }

  lemma DrainDrain(s: State, stop: bool)
    requires PhaseInv(s) && DrainInv(s) && FrontExact(s)
    ensures DrainInv(Next(s, Drain(stop)))
  {
    if Taking(s.d) { DrainDrainTaking(s, stop); } else { DrainDrainPutting(s, stop); }
  }

  lemma DrainLists(s: State, stop: bool)
    ensures var s' := Next(s, Drain(stop));
      && s'.log == s.log && s'.pc == s.pc && s'.d == DrainTarget(s, stop)
      && s'.executed == (if s.d.Decide? && !stop then s.executed + [s.d.dc] else s.executed)
  {
    match s.d
    case Decide(_, _) => if stop {} else {}
    case _ =>
  }

  lemma DrainLinks(s: State, stop: bool)
    ensures var s' := Next(s, Drain(stop));
      && s'.next == (if s.d.PutNext? then s.next[s.d.dc := s.d.rest] else s.next)
      && s'.debtor == (if s.d.PutFirst? then s.debtor[|s.executed| := Drainer]
                       else if s.d.PutNext? then s.debtor - {|s.executed|} else s.debtor)
  {
    match s.d
    case PutFirst(_, _) =>
    case PutNext(_, _) =>
    case _ =>
  }

  /** Which parts of the state a drain step touches. */
  lemma DrainFields(s: State, stop: bool)
    ensures var s' := Next(s, Drain(stop));
      && s'.log == s.log && s'.pc == s.pc && s'.d == DrainTarget(s, stop)
      && s'.executed == (if s.d.Decide? && !stop then s.executed + [s.d.dc] else s.executed)
      && s'.next == (if s.d.PutNext? then s.next[s.d.dc := s.d.rest] else s.next)
      && s'.debtor == (if s.d.PutFirst? then s.debtor[|s.executed| := Drainer]
                       else if s.d.PutNext? then s.debtor - {|s.executed|} else s.debtor)
  {
    DrainLists(s, stop);
    DrainLinks(s, stop);
  }

  lemma DrainOrder(s: State, stop: bool)
    requires OrderInv(s) && PhaseInv(s)
    ensures OrderInv(Next(s, Drain(stop)))
  {
    DrainFields(s, stop);
    if s.d.Decide? && !stop { OrderedAdvance(s.log, s.executed); }
  }

  /** The drainer's front item leaves the list in memory. */
  predicate Shrinks(s: State, stop: bool) {
    (s.d.CasTail? && s.tail == Some(s.d.dc)) || (s.d.Decide? && s.d.succ.Some? && !stop)
  }

  /** The drainer's item becomes the front of the list again. */
  predicate Grows(s: State) {
    (s.d.PutCas? && s.tail.None?) || s.d.PutFirst?
  }

  lemma DrainBase(s: State, stop: bool)
    ensures Base(Next(s, Drain(stop))) == if Shrinks(s, stop) then Base(s) + 1 else if Grows(s) then |s.executed|
      else Base(s)
  {
    match s.d
    case Decide(_, _) => if stop {} else {}
    case CasTail(_) => if s.tail == Some(s.d.dc) {} else {}
    case PutCas(_) => if s.tail.None? {} else {}
    case PutFirst(_, _) =>
    case _ =>
  }

  lemma DrainListMoves(s: State, stop: bool)
    requires OrderInv(s) && PhaseInv(s) && DrainInv(s) && FrontExact(s) && ListInv(s) && (Shrinks(s, stop) || Grows(s))
    ensures ListInv(Next(s, Drain(stop)))
  {
    var e := |s.executed|;
    DrainFields(s, stop);
    DrainBase(s, stop);
    if Shrinks(s, stop) { AdvancePreservesLinked(s.log, s.next, e, s.debtor); }
    else { PutBackPreservesLinked(s.log, s.next, e, s.debtor, Drainer); }
  }

  lemma DrainListStays(s: State, stop: bool)
    requires PhaseInv(s) && DrainInv(s) && ListInv(s) && !Shrinks(s, stop) && !Grows(s)
    ensures ListInv(Next(s, Drain(stop)))
  {
    DrainFields(s, stop);
    DrainBase(s, stop);
    if s.d.PutNext? { StoreLinkPreservesLinked(s.log, s.next, |s.executed|, s.debtor, |s.executed|); }
  }

  lemma DrainList(s: State, stop: bool)
    requires OrderInv(s) && PhaseInv(s) && DrainInv(s) && FrontExact(s) && ListInv(s)
    ensures ListInv(Next(s, Drain(stop)))
  {
    if Shrinks(s, stop) || Grows(s) { DrainListMoves(s, stop); } else { DrainListStays(s, stop); }
  }

  lemma DrainDebt(s: State, stop: bool)
    requires PhaseInv(s) && DrainInv(s) && ListInv(s) && DebtInv(s)
    ensures DebtInv(Next(s, Drain(stop)))
  {
    var s' := Next(s, Drain(stop));
    DrainFields(s, stop);
    forall u | At(s', u).OwesLink? ensures Owes(s', u) {
      assert At(s', u) == At(s, u) && Owes(s, u);
    }
  }

  lemma PreparedKept(s: State, s': State)
    requires |s.executed| <= |s'.executed| <= |s.log| && s'.log == s.log && s'.next == s.next && s'.pc == s.pc
    requires PreparedInv(s)
    ensures PreparedInv(s')
  {
    assert forall x :: x in s.log[|s'.executed|..] ==> x in s.log[|s.executed|..];
    assert forall u :: At(s', u) == At(s, u);
  }

  lemma DrainPrepared(s: State, stop: bool)
    requires PhaseInv(s) && DrainInv(s) && PreparedInv(s)
    requires |Next(s, Drain(stop)).executed| <= |s.log|
    ensures PreparedInv(Next(s, Drain(stop)))
  {
    var e, s' := |s.executed|, Next(s, Drain(stop));
    DrainFields(s, stop);
    if s.d.PutNext? {
      assert s.log[e..][0] == s.d.dc;
      forall u | At(s', u).Prepared? ensures Chained(s'.next, At(s', u).seg) {
        ChainedFrame(s.next, s'.next, At(s, u).seg, [s.d.dc]);
      }
    } else {
      PreparedKept(s, s');
    }
  }

  lemma DrainStepInv(s: State, stop: bool)
    requires Inv(s)
    ensures Inv(Next(s, Drain(stop)))
  {
    FrontIsExact(s);
    if Taking(s.d) { DrainPhaseTaking(s, stop); }
    else if s.d.Decide? { DrainPhaseDeciding(s, stop); }
    else { DrainPhasePutting(s, stop); }
    DrainDrain(s, stop);
    DrainOrder(s, stop);
    DrainList(s, stop);
    DrainDebt(s, stop);
    DrainPrepared(s, stop);
  }

  // ------------------------------------------------------------------ runs

  ghost predicate Step(s: State, s': State) {
    exists a :: Enabled(s, a) && s' == Next(s, a)
  }

  ghost predicate IsRun(run: seq<State>) {
    && run != [] && Init(run[0])
    && (forall i :: 0 <= i < |run| - 1 ==> Step(run[i], run[i + 1]))
  }

  lemma {:induction false} RunInv(run: seq<State>, n: nat)
    requires IsRun(run) && n < |run|
    ensures Inv(run[n])
  {
    if n == 0 {
      InitInv(run[0]);
    } else {
      RunInv(run, n - 1);
      assert Step(run[n - 1], run[n - 1 + 1]);
      var a :| Enabled(run[n - 1], a) && run[n] == Next(run[n - 1], a);
      match a
      case Produce(t, p) => PushInv(run[n - 1], t, p);
      case Drain(stop) => DrainStepInv(run[n - 1], stop);
    }
  }

  /** The items in the drainer's hand and on the list, front first. */
  ghost function Contents(s: State): seq<Item>
    requires |s.executed| <= |s.log|
  {
    s.log[|s.executed|..]
  }

  /** However often the drainer stops, what has run followed by what is waiting is the
      order of the tail exchanges. */
  lemma OrderTheorem(run: seq<State>, n: nat)
    requires IsRun(run) && n < |run|
    ensures |run[n].executed| <= |run[n].log|
    ensures run[n].executed + Contents(run[n]) == run[n].log
  {
    RunInv(run, n);
  }

  /** At every instant of a drain the waiting items are the one in the drainer's hand, if it has taken it off the
      list, and the items of the list in memory: every link of the list is stored or owed, and whoever owes one
      is about to store it; the head and the tail, where they are set, are its ends. */
  lemma MemoryTheorem(run: seq<State>, n: nat)
    requires IsRun(run) && n < |run|
    ensures |run[n].executed| <= |run[n].log| && Base(run[n]) <= |run[n].log|
    ensures Contents(run[n]) == Taken(run[n].d) + run[n].log[Base(run[n])..]
    ensures Linked(run[n].log, run[n].next, Base(run[n]), run[n].debtor)
    ensures EndsExact(run[n]) && DebtsExact(run[n])
  {
    RunInv(run, n);
    Handed(run[n]);
    Ends(run[n]);
    Debts(run[n]);
  }

  function Taken(d: DrainPC): seq<Item> { if Detached(d) then [d.dc] else [] }

  /** The tail is NULL iff the list is empty, and else its last item; the head is NULL or its first item. */
  ghost predicate EndsExact(s: State) {
    && Base(s) <= |s.log|
    && s.tail == (if Base(s) == |s.log| then None else Some(s.log[|s.log| - 1]))
    && (s.head.Some? ==> Base(s) < |s.log| && s.head.value == s.log[Base(s)])
  }

  /** Whoever owes a link is about to store it. */
  ghost predicate DebtsExact(s: State) {
    forall p | p in s.debtor ::
      match s.debtor[p]
      case Producer(t) => At(s, t).OwesLink? && At(s, t).at == p
      case Drainer => s.d.PutNext? && p == |s.executed|
  }

  lemma Ends(s: State)
    requires PhaseInv(s)
    ensures EndsExact(s)
  {
  }

  lemma Debts(s: State)
    requires DebtInv(s)
    ensures DebtsExact(s)
  {
  }

  lemma Handed(s: State)
    requires PhaseInv(s)
    ensures |s.executed| <= |s.log| && Base(s) <= |s.log| && Contents(s) == Taken(s.d) + s.log[Base(s)..]
  {
  }

  /** Every step enqueues the pushed list, runs the front item, or changes nothing; in
      particular putting an item back changes nothing. */
  lemma RefinesFifo(s: State, a: Action)
    requires Inv(s) && Enabled(s, a)
    ensures |Next(s, a).executed| <= |Next(s, a).log|
    ensures a.Produce? && a.p.SwingTail? ==>
      Contents(Next(s, a)) == Contents(s) + At(s, a.t).seg && Next(s, a).executed == s.executed
    ensures a.Drain? && s.d.Decide? && !a.stop ==>
      Contents(s) == [s.d.dc] + Contents(Next(s, a)) && Next(s, a).executed == s.executed + [s.d.dc]
    ensures !(a.Produce? && a.p.SwingTail?) && !(a.Drain? && s.d.Decide? && !a.stop) ==>
              Contents(Next(s, a)) == Contents(s) && Next(s, a).executed == s.executed
  {
    FrontRuns(s);
    LogEffect(s, a);
    Refines(s, Next(s, a), a);
  }

  lemma LogEffect(s: State, a: Action)
    requires Enabled(s, a)
    ensures Next(s, a).log == if a.Produce? && a.p.SwingTail? then s.log + At(s, a.t).seg else s.log
    ensures Next(s, a).executed == if a.Drain? && s.d.Decide? && !a.stop then s.executed + [s.d.dc] else s.executed
  {
    match a
    case Produce(t, p) => if p.SwingTail? {} else {}
    case Drain(stop) => DrainLists(s, stop);
  }

  lemma FrontRuns(s: State)
    requires PhaseInv(s)
    ensures |s.executed| <= |s.log|
    ensures s.d.Decide? ==> |s.executed| < |s.log| && s.d.dc == s.log[|s.executed|]
  {
  }

  lemma Refines(s: State, s': State, a: Action)
    requires Enabled(s, a) && |s.executed| <= |s.log|
    requires s.d.Decide? ==> |s.executed| < |s.log| && s.d.dc == s.log[|s.executed|]
    requires s'.log == if a.Produce? && a.p.SwingTail? then s.log + At(s, a.t).seg else s.log
    requires s'.executed == if a.Drain? && s.d.Decide? && !a.stop then s.executed + [s.d.dc] else s.executed
    ensures |s'.executed| <= |s'.log|
    ensures a.Produce? && a.p.SwingTail? ==> Contents(s') == Contents(s) + At(s, a.t).seg
    ensures a.Drain? && s.d.Decide? && !a.stop ==> Contents(s) == [s.d.dc] + Contents(s')
    ensures !(a.Produce? && a.p.SwingTail?) && !(a.Drain? && s.d.Decide? && !a.stop) ==> Contents(s') == Contents(s)
  {
  }

  /** Between drains and with no producer inside a push, memory holds exactly the waiting
      items: following the links from the head yields them, and the tail is the last. */
  lemma RestTheorem(run: seq<State>, n: nat)
    requires IsRun(run) && n < |run| && run[n].d.Away?
    requires forall t :: At(run[n], t).Outside? || At(run[n], t).Prepared?
    ensures |run[n].executed| <= |run[n].log|
    ensures Contents(run[n]) == [] ==> run[n].head.None? && run[n].tail.None?
    ensures var rest := Contents(run[n]);
            rest != [] ==>
                Chained(run[n].next, rest) && run[n].head == Some(rest[0]) && run[n].tail == Some(rest[|rest| - 1])
  {
    RunInv(run, n);
    var s := run[n];
    if |s.executed| < |s.log| {
      forall p ensures p !in s.debtor {
        assert p in s.debtor && s.debtor[p].Producer? ==> At(s, s.debtor[p].t).OwesLink?;
      }
      assert s.debtor == map[];
      SettledIsChained(s.log, s.next, |s.executed|, s.debtor);
    }
  }

  /** Each of the drainer's three waits ends with a store some producer is about to make. */
  lemma SpinTheorem(run: seq<State>, n: nat)
    requires IsRun(run) && n < |run|
    ensures (run[n].d.SpinHead? || run[n].d.PutSpin?) && run[n].head.None? ==> exists t :: At(run[n], t).OwesHead?
    ensures run[n].d.CasTail? && run[n].tail != Some(run[n].d.dc) && run[n].d.dc !in run[n].next ==>
              exists t :: At(run[n], t).OwesLink? && At(run[n], t).prev == run[n].d.dc
  {
    RunInv(run, n);
    var s := run[n];
    if s.phase.HeadOwed? { assert At(s, s.phase.producer).OwesHead?; }
    if s.d.CasTail? && s.tail != Some(s.d.dc) && s.d.dc !in s.next {
      ReadLink(s.log, s.next, Base(s), s.debtor, |s.executed|);
      assert Owes(s, s.debtor[|s.executed|].t);
    }
  }
}
