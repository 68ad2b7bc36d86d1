/**
 What holds in every run of one dispatch queue (module QueueLock), for every interleaving of
 any number of threads.
*/
module QueueRuns {
  import opened QueueLock

  ghost predicate Step(s: State, s': State) {
    exists t, op :: Enabled(s, t, op) && s' == Next(s, t, op)
  }

  ghost predicate IsRun(run: seq<State>) {
    && run != [] && Init(run[0])
    && (forall i :: 0 <= i < |run| - 1 ==> Step(run[i], run[i + 1]))
  }

  lemma {:induction false} RunInv(run: seq<State>, n: nat)
    requires IsRun(run) && n < |run|
    ensures Inv(run[n])
  {
    if n == 0 {
      InitInv(run[0]);
    } else {
      RunInv(run, n - 1);
      assert Step(run[n - 1], run[n - 1 + 1]);
      var t, op :| Enabled(run[n - 1], t, op) && run[n] == Next(run[n - 1], t, op);
      StepInv(run[n - 1], t, op);
    }
  }

  /** Both words count exactly the threads that contribute to them. */
  ghost predicate WordsExact(s: State) {
    && s.run == |s.locker| + 2 * (|s.readers| + s.rootItems + |s.asyncThreads| + |s.hand|)
    && (forall t :: t in s.locker <==> HoldsBit(At(s, t)))
    && (forall t, u :: t in s.locker && u in s.locker ==> t == u)
    && (forall t :: t in s.readers <==> IsReader(s, t))
    && (forall t :: t in s.asyncThreads <==> At(s, t).InAsync?)
    && (forall t :: t in s.hand <==> IsRedirecting(At(s, t)))
    && s.sus / 2 == s.suspends + |s.holders|
    && (forall t :: t in s.holders <==> IsHolder(s, t))
  }

  lemma WordTheorem(run: seq<State>, n: nat)
    requires IsRun(run) && n < |run|
    ensures WordsExact(run[n])
  {
    RunInv(run, n);
    var s := run[n];
    forall t, u | t in s.locker && u in s.locker ensures t == u {
      OnlyLocker(s.locker, t);
    }
  }

  /** The lock bit is set iff the queue is on a target list, being pushed there, or being invoked;
      these exclude each other, and the queue is never on two lists or on one list twice. */
  lemma TokenTheorem(run: seq<State>, n: nat)
    requires IsRun(run) && n < |run|
    ensures var s := run[n];
            && |s.lists| <= 1
            && (s.sus % 2 == 1 <==> |s.lists| == 1 || exists t :: IsPushing(At(s, t)) || InInvoke(At(s, t)))
            && (forall t, u ::
                  (IsPushing(At(s, t)) || InInvoke(At(s, t))) && (IsPushing(At(s, u)) || InInvoke(At(s, u))) ==> t == u)
            && (forall t :: IsPushing(At(s, t)) || InInvoke(At(s, t)) ==> |s.lists| == 0)
  {
    RunInv(run, n);
    var s := run[n];
    assert s.sus % 2 == 1 <==> !s.token.NoToken?;
    if s.token.Pushing? { assert IsPushing(At(s, s.token.p)); }
    if s.token.Invoking? { assert InInvoke(At(s, s.token.who)); }
  }

  /** No lost wakeup, at every instant. */
  lemma WakeupTheorem(run: seq<State>, n: nat)
    requires IsRun(run) && n < |run| && run[n].sus == 0 && !TailNull(run[n])
    ensures run[n].run > 0 || exists t :: Caring(At(run[n], t))
  {
    RunInv(run, n);
  }

  /** Every thread is outside the library or blocked on its semaphore, and no redirected item waits. */
  ghost predicate Quiescent(s: State) {
    && s.rootItems == 0
    && (forall t :: At(s, t).Idle? || Blocked(s, t, At(s, t)))
  }

  /** When nobody is inside the library, a queue with items that is not suspended is on its
      target's list, an idle queue has no words set, and every blocked thread has its item queued. */
  lemma QuiescenceTheorem(run: seq<State>, n: nat)
    requires IsRun(run) && n < |run| && Quiescent(run[n])
    ensures run[n].items != [] && !Suspended(run[n]) ==> run[n].sus == 1 && |run[n].lists| == 1
    ensures run[n].run == 0
    ensures forall t :: !At(run[n], t).Idle? ==> SyncSlow(t) in run[n].items || BarrierSlow(t) in run[n].items
  {
    RunInv(run, n);
    WordTheorem(run, n);
    var s := run[n];
    forall t ensures t !in s.locker && t !in s.readers && t !in s.asyncThreads && t !in s.hand {
      assert NotStranded(s, t);
    }
    assert s.locker == {} && s.readers == {} && s.asyncThreads == {} && s.hand == {};
    forall t | !At(s, t).Idle? ensures SyncSlow(t) in s.items || BarrierSlow(t) in s.items {
      assert NotStranded(s, t);
    }
    if s.items != [] && !Suspended(s) {
      assert !s.detached;
      TokenTheorem(run, n);
    }
  }

  predicate ExecutesShared(c: PC) { c == Sync(InReader) || c.InAsync? }

  predicate ExecutesAlone(c: PC) {
    c == Bar(InFast) || c == Bar(InSlow) || (c.Drain? && c.d.DrainRun? && !c.d.ran.BarrierSlow?)
  }

  /** A barrier function overlaps no other client function. */
  ghost predicate Exclusion(s: State) {
    forall t, u :: t != u && ExecutesAlone(At(s, t)) ==> !ExecutesAlone(At(s, u)) && !ExecutesShared(At(s, u))
  }

  /** Barrier exclusion, as long as fast entries and slow hand-offs are not mixed. */
  lemma ExclusionTheorem(run: seq<State>, n: nat)
    requires IsRun(run) && n < |run| && !(run[n].fast && run[n].slow)
    ensures Exclusion(run[n])
  {
    RunInv(run, n);
    WordTheorem(run, n);
    var s := run[n];
    forall t, u | t != u && ExecutesAlone(At(s, t))
      ensures !ExecutesAlone(At(s, u)) && !ExecutesShared(At(s, u))
    {
      AloneAt(s, t, u);
    }
  }

  lemma AloneAt(s: State, t: Thread, u: Thread)
    requires Inv(s) && WordsExact(s) && !(s.fast && s.slow) && t != u && ExecutesAlone(At(s, t))
    ensures !ExecutesAlone(At(s, u)) && !ExecutesShared(At(s, u))
  {
    assert At(s, t) == Bar(InSlow) ==> t in s.holders;
    assert At(s, u) == Bar(InSlow) ==> u in s.holders;
    assert NoneInside(s);
    assert At(s, u) == Sync(InReader) ==> u in s.readers;
    assert At(s, u).InAsync? ==> u in s.asyncThreads;
  }

  /** On a serial queue at most one client function executes at a time. */
  lemma SerialTheorem(run: seq<State>, n: nat, t: Thread, u: Thread)
    requires IsRun(run) && n < |run| && !(run[n].fast && run[n].slow) && run[n].width == 1
    requires ExecutesAlone(At(run[n], t)) || ExecutesShared(At(run[n], t))
    requires ExecutesAlone(At(run[n], u)) || ExecutesShared(At(run[n], u))
    ensures t == u
  {
    RunInv(run, n);
    ExclusionTheorem(run, n);
    WordTheorem(run, n);
    var s := run[n];
    assert s.asyncThreads == {};
    assert !UsesSync(At(s, t)) && !UsesSync(At(s, u));
    assert t in s.asyncThreads <==> At(s, t).InAsync?;
    assert u in s.asyncThreads <==> At(s, u).InAsync?;
  }

  /** The drain is past its test for suspension and is going to run, grant or redirect an item. */
  predicate ServesItem(c: PC) { PastSuspended(c) || (c.Drain? && (c.d.DrainGrant? || c.d.DrainRedirect?)) }

  /** From the suspension a slow barrier sync is granted until its resume, the queue stays suspended
      and no drain is past the suspension test to run, grant or redirect another item. */
  lemma HandOffTheorem(run: seq<State>, n: nat, t: Thread)
    requires IsRun(run) && n < |run| && !run[n].fast && IsHolder(run[n], t)
    ensures Suspended(run[n])
    ensures forall u :: !ServesItem(At(run[n], u))
    ensures forall u :: IsHolder(run[n], u) ==> u == t
  {
    RunInv(run, n);
    var s := run[n];
    assert t in s.holders;
    assert |s.holders| > 0 && NoneInside(s);
    forall u ensures !ServesItem(At(s, u)) { NotServing(s, u); }
  }

  lemma NotServing(s: State, u: Thread)
    requires Inv(s) && !s.fast && s.holders != {} && NoneInside(s)
    ensures !ServesItem(At(s, u))
  {
    assert At(s, u).Drain? ==> s.token == Invoking(u) && DrainLocal(s, At(s, u).d);
    assert u in s.hand <==> IsRedirecting(At(s, u));
  }

  /** At most dq_width / 2 redirected items are outstanding on a wide queue, none on a serial one. */
  lemma WidthTheorem(run: seq<State>, n: nat)
    requires IsRun(run) && n < |run|
    ensures run[n].rootItems + |run[n].asyncThreads| + |run[n].hand| <= run[n].width / 2
  {
    RunInv(run, n);
  }
}
