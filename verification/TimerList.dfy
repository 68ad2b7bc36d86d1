/**
 The ordered timer lists of the event manager (libdispatch/src/source_kevent.c and source.c), one
 per clock: rescheduling a timer, running the timers that are due, and finding the next one.
 Clocks are read once per operation and passed in; machine words are written out.
*/
module TimerList {
  import opened TailQueue
  import Time

  type Source = nat

  const WORD: nat := 0x1_0000_0000_0000_0000
  const INT64_MAX: nat := 0x7fff_ffff_ffff_ffff
  const FOREVER_NSEC: nat := 31_536_000_000_000_000
  const NSEC_PER_SEC: nat := 1_000_000_000

  /** DISPATCH_TIMER_INDEX_WALL and DISPATCH_TIMER_INDEX_MACH. */
  datatype Clock = Wall | Mach

  /** ds_timer; `once` stands for the flags DISPATCH_TIMER_ONESHOT and DISPATCH_TIMER_ABSOLUTE. */
  datatype Timer = Timer(target: nat, interval: nat, once: bool, clock: Clock)

  // ------------------------------------------------------------------ order

  /** A timer that is unset may only be followed by unset ones. */
  predicate InOrder(a: Timer, b: Timer) { b.target == 0 || (a.target != 0 && a.target <= b.target) }

  ghost predicate Known(q: seq<Source>, timer: map<Source, Timer>) { forall x | x in q :: x in timer }

  ghost predicate Ordered(q: seq<Source>, timer: map<Source, Timer>) {
    && Known(q, timer)
    && (forall i, j :: 0 <= i < j < |q| ==> OrderedAt(q, timer, i, j))
  }

  ghost predicate OrderedAt(q: seq<Source>, timer: map<Source, Timer>, i: nat, j: nat)
    requires i < |q| && j < |q| && Known(q, timer)
  {
    InOrder(timer[q[i]], timer[q[j]])
  }

  /** The place the source's scan finds: after all timers that are not later, before the unset ones. */
  ghost predicate RightPlace(q: seq<Source>, timer: map<Source, Timer>, k: nat, t: Timer)
    requires k <= |q| && Known(q, timer)
  {
    && (forall i | 0 <= i < k :: InOrder(timer[q[i]], t))
    && (forall i | k <= i < |q| :: t.target != 0 && (timer[q[i]].target == 0 || t.target < timer[q[i]].target))
  }

  /** The list `p` is `q` with `ds` moved to its place, and everything else in the same order. */
  ghost predicate Lands(q: seq<Source>, p: seq<Source>, timer: map<Source, Timer>, ds: Source) {
    var rest := Removed(q, ds);
    && ds in timer && Known(rest, timer)
    && exists k :: 0 <= k <= |rest| && RightPlace(rest, timer, k, timer[ds]) && p == Placed(rest, k, ds)
  }

  lemma PlacedOrdered(q: seq<Source>, timer: map<Source, Timer>, k: nat, ds: Source)
    requires k <= |q| && Ordered(q, timer) && ds in timer && RightPlace(q, timer, k, timer[ds])
    ensures Ordered(Placed(q, k, ds), timer)
  {
    var p := Placed(q, k, ds);
    assert forall i | k <= i < |q| :: InOrder(timer[ds], timer[q[i]]);
    forall i, j | 0 <= i < j < |p| ensures OrderedAt(p, timer, i, j) {
      var i', j' := if i < k then i else i - 1, if j < k then j else j - 1;
      if i != k && j != k { assert OrderedAt(q, timer, i', j'); }
    }
  }

  lemma {:induction false} RemovedOrdered(q: seq<Source>, timer: map<Source, Timer>, timer': map<Source, Timer>,
      ds: Source)
    requires Ordered(q, timer) && Distinct(q) && Known(q, timer')
    requires forall x | x in q && x != ds :: timer'[x] == timer[x]
    ensures Ordered(Removed(q, ds), timer')
    decreases |q|
  {
    RemovedKeeps(q, ds);
    if q != [] {
      var rest := q[1..];
      assert q == [q[0]] + rest;
      forall i, j | 0 <= i < j < |rest| ensures OrderedAt(rest, timer, i, j) {
        assert OrderedAt(q, timer, i + 1, j + 1);
      }
      forall j | 0 <= j < |rest| ensures InOrder(timer[q[0]], timer[rest[j]]) { assert OrderedAt(q, timer, 0, j + 1); }
      if q[0] == ds {
        forall i, j | 0 <= i < j < |rest| ensures OrderedAt(rest, timer', i, j) { assert OrderedAt(rest, timer, i, j); }
      } else {
        RemovedOrdered(rest, timer, timer', ds);
        RemovedKeeps(rest, ds);
        ConsOrdered(q[0], Removed(rest, ds), timer');
      }
    }
  }

  lemma SameOrder(q: seq<Source>, timer: map<Source, Timer>, timer': map<Source, Timer>)
    requires Ordered(q, timer) && forall x | x in q :: x in timer' && timer'[x] == timer[x]
    ensures Ordered(q, timer')
  {
    forall i, j | 0 <= i < j < |q| ensures OrderedAt(q, timer', i, j) { assert OrderedAt(q, timer, i, j); }
  }

  lemma ConsOrdered(x: Source, q: seq<Source>, timer: map<Source, Timer>)
    requires x in timer && Ordered(q, timer) && forall y | y in q :: InOrder(timer[x], timer[y])
    ensures Ordered([x] + q, timer)
  {
    var p := [x] + q;
    forall i, j | 0 <= i < j < |p| ensures OrderedAt(p, timer, i, j) {
      if i > 0 { assert OrderedAt(q, timer, i - 1, j - 1); }
    }
  }

  // ------------------------------------------------------------------ firing

  predicate Due(t: Timer, now: nat) { 0 < t.target <= now }

  /** The grid points of a repeating timer up to `now`, one by one. */
  function GridPoints(target: nat, interval: nat, now: nat): nat
    requires interval > 0
    decreases if target > now then 0 else now - target + 1
  {
    if target > now then 0 else 1 + GridPoints(target + interval, interval, now)
  }

  /** How often the timer fires: once, or once for every grid point it has reached. */
  function Firings(t: Timer, now: nat): nat
    requires t.interval > 0
  {
    if t.once then 1 else GridPoints(t.target, t.interval, now)
  }

  /** The timer after it has fired. */
  function Fired(t: Timer, now: nat): Timer
    requires t.interval > 0
  {
    t.(target := if t.once then 0 else t.target + Firings(t, now) * t.interval)
  }

  /** The division counts the grid points, and the new target is the first one after `now`. */
  lemma {:induction false} DivisionCounts(target: nat, interval: nat, now: nat)
    requires interval > 0 && target <= now
    ensures GridPoints(target, interval, now) == (now - target) / interval + 1
    ensures now < target + GridPoints(target, interval, now) * interval <= now + interval
    decreases now - target
  {
    if target + interval <= now {
      DivisionCounts(target + interval, interval, now);
      var q := (now - target - interval) / interval;
      assert (now - target) / interval == q + 1 by { DivStep(now - target, interval); }
      assert (q + 2) * interval == (q + 1) * interval + interval;
    } else {
      assert GridPoints(target + interval, interval, now) == 0;
      assert (now - target) / interval == 0 by { DivSmall(now - target, interval); }
    }
  }

  lemma DivSmall(a: nat, d: nat)
    requires a < d
    ensures a / d == 0
  {
  }

  lemma DivStep(a: nat, d: nat)
    requires 0 < d <= a
    ensures a / d == (a - d) / d + 1
  {
    var q, r := (a - d) / d, (a - d) % d;
    assert a == (q + 1) * d + r;
    DivUnique(a, d, q + 1, r);
  }

  lemma DivUnique(a: nat, d: nat, q: nat, r: nat)
    requires d > 0 && a == q * d + r && r < d
    ensures a / d == q
  {
    var p := a / d;
    assert a == p * d + a % d;
    if p > q { MulGap(p, q, d); }
    if p < q { MulGap(q, p, d); }
  }

  lemma MulGap(a: nat, b: nat, d: nat)
    requires a > b
    ensures a * d >= b * d + d
  {
    var c := a - b - 1;
    assert a * d == b * d + c * d + d;
  }

  // ------------------------------------------------------------------ the manager's lists

  /** A timer as dispatch_source_set_timer makes them. */
  predicate Sane(t: Timer) { t.target < WORD && (t.target != 0 ==> t.interval > 0) && t.interval <= INT64_MAX }

  /** The values of a timer that fires, and how often it has fired. */
  method Reschedule(t: Timer, now: nat) returns (t': Timer, n: nat)
    requires Sane(t) && Due(t, now) && now <= INT64_MAX
    ensures t' == Fired(t, now) && n == Firings(t, now) && Sane(t') && !Due(t', now)
  {
    if t.once { return t.(target := 0), 1; }
    var missed := (now - t.target) / t.interval;
    DivisionCounts(t.target, t.interval, now);
    n := missed + 1;
    t' := t.(target := t.target + (missed + 1) * t.interval);
  }

  /** A listed source is on the list its identifier names, and if it is set, that is the list of its
      clock. One that was never set goes to the end of the wall clock's list, whatever its clock. */
  predicate AtHome(onWall: bool, onMach: bool, registered: bool, ident: Clock, t: Timer) {
    && (onWall ==> ident.Wall? && (t.target != 0 ==> t.clock.Wall?))
    && (onMach ==> ident.Mach? && t.clock.Mach?)
    && (registered && !onWall && !onMach ==> ident.Wall? && t.target == 0)
  }

  class Manager {
    var wall: seq<Source>
    var mach: seq<Source>
    var timer: map<Source, Timer>
    var ident: map<Source, Clock>      // ds_ident_hack
    var pending: map<Source, nat>      // ds_pending_data
    var registered: set<Source>        // sources with a kevent
    var suspended: set<Source>
    var armed: set<Source>

    function List(c: Clock): seq<Source>
      reads `wall, `mach
    {
      if c.Wall? then wall else mach
    }

    ghost predicate Listed(x: Source)
      reads `wall, `mach
    {
      x in wall || x in mach
    }

    /** What does not depend on the order of the lists. */
    ghost predicate Tables()
      reads this
    {
      && Distinct(wall) && Distinct(mach) && (forall x | x in wall :: x !in mach)
      && Known(wall, timer) && Known(mach, timer) && (forall x | Listed(x) :: x in registered)
      && timer.Keys == pending.Keys == ident.Keys && registered <= timer.Keys
      && (forall x | x in timer :: Sane(timer[x]))
    }

    ghost predicate Homed(x: Source)
      reads `wall, `mach, `timer, `ident, `registered
    {
      x in timer && x in ident ==> AtHome(x in wall, x in mach, x in registered, ident[x], timer[x])
    }

    /** Everything but the places of `ds` is in order. */
    ghost predicate ValidExcept(ds: Source)
      reads this
    {
      && Tables() && (forall x | x != ds :: Homed(x))
      && Ordered(Removed(wall, ds), timer) && Ordered(Removed(mach, ds), timer)
    }

    /** Both lists are sorted by target with the unset timers last, and no source is on them twice or
        on the wrong one. */
    ghost predicate Valid()
      reads this
    {
      Tables() && (forall x :: Homed(x)) && Ordered(wall, timer) && Ordered(mach, timer)
    }

    constructor ()
      ensures Valid() && wall == [] && mach == [] && timer == map[] && registered == {} && suspended == {}
    {
      wall, mach, timer, ident, pending, registered, suspended, armed := [], [], map[], map[], map[], {}, {}, {};
    }

    /** dispatch_source_type_timer_init: the mask gives the flags, and nothing is set. */
    method Create(ds: Source, once: bool, clock: Clock)
      requires Valid() && ds !in timer
      modifies `timer, `ident, `pending, `registered
      ensures Valid() && registered == old(registered) + {ds}
      ensures timer == old(timer)[ds := Timer(0, 0, once, clock)] && ident == old(ident)[ds := Wall]
        && pending == old(pending)[ds := 0]
    {
      ghost var timer0 := timer;
      timer, ident, pending := timer[ds := Timer(0, 0, once, clock)], ident[ds := Wall], pending[ds := 0];
      registered := registered + {ds};
      SameOrder(wall, timer0, timer);
      SameOrder(mach, timer0, timer);
      assert forall x | x != ds :: old(Homed(x)) ==> Homed(x);
    }

    /** _dispatch_kevent_merge: a source that is resumed before it was set goes to the end of the wall
        clock's list; one that is listed already stays where it is. */
    method Install(ds: Source)
      requires Valid() && ds in registered
      modifies `wall
      ensures Valid() && Listed(ds)
      ensures wall == if old(Listed(ds)) then old(wall) else old(wall) + [ds]
    {
      if ds in wall || ds in mach { return; }
      assert Homed(ds);
      ghost var q := wall;
      PlacedOrdered(q, timer, |q|, ds);
      PlacedDistinct(q, |q|, ds);
      assert Placed(q, |q|, ds) == q + [ds];
      wall := wall + [ds];
      assert forall x | x != ds :: old(Homed(x)) ==> Homed(x);
    }

    /** _dispatch_kevent_release: the source leaves its list for good. */
    method Unregister(ds: Source)
      requires Valid() && ds in registered
      modifies `wall, `mach, `registered, `armed
      ensures Valid() && registered == old(registered) - {ds} && armed == old(armed) - {ds} && !Listed(ds)
      ensures forall x | x != ds :: (x in wall <==> x in old(wall)) && (x in mach <==> x in old(mach))
    {
      RemovedKeeps(wall, ds);
      RemovedKeeps(mach, ds);
      RemovedOrdered(wall, timer, timer, ds);
      RemovedOrdered(mach, timer, timer, ds);
      wall, mach, registered, armed := Removed(wall, ds), Removed(mach, ds), registered - {ds}, armed - {ds};
      assert forall x | x != ds :: old(Homed(x)) ==> Homed(x);
    }

    /** The place for `ds` in the list `q`. */
    method Scan(q: seq<Source>, ds: Source) returns (k: nat)
      requires Ordered(q, timer) && ds in timer
      ensures k <= |q| && RightPlace(q, timer, k, timer[ds])
    {
      k := |q|;
      if timer[ds].target != 0 {
        k := 0;
        while k < |q| && !(timer[q[k]].target == 0 || timer[ds].target < timer[q[k]].target)
          invariant k <= |q| && forall i | 0 <= i < k :: InOrder(timer[q[i]], timer[ds])
        {
          k := k + 1;
        }
        if k < |q| { LaterRest(q, timer, k); }
      }
    }

    /** `ds` has moved to its place on the list of its clock, and the others are in the order they had. */
    ghost predicate Moves(wall0: seq<Source>, mach0: seq<Source>, ds: Source)
      reads `wall, `mach, `timer
    {
      && ds in timer
      && (if timer[ds].clock.Wall? then Lands(wall0, wall, timer, ds) else wall == Removed(wall0, ds))
      && (if timer[ds].clock.Mach? then Lands(mach0, mach, timer, ds) else mach == Removed(mach0, ds))
    }

    /** _dispatch_timer_list_update: `ds` moves to its place on the list of its clock. */
    method Update(ds: Source)
      requires ValidExcept(ds) && ds in timer
      modifies `wall, `mach
      ensures Tables() && Ordered(wall, timer) && Ordered(mach, timer)
      ensures ds !in registered || ident[ds] == timer[ds].clock ==> Valid()
      ensures forall x | x != ds :: (x in wall <==> x in old(wall)) && (x in mach <==> x in old(mach))
      ensures ds in registered ==> ds in List(timer[ds].clock)
      ensures ds in registered ==> (timer[ds].clock.Wall? ==> ds !in mach) && (timer[ds].clock.Mach? ==> ds !in wall)
      ensures ds !in registered ==> wall == old(wall) && mach == old(mach)
      ensures ds in registered ==> Moves(old(wall), old(mach), ds)
    {
      if ds !in registered { NotThere(wall, ds); NotThere(mach, ds); return; }
      RemovedKeeps(wall, ds);
      RemovedKeeps(mach, ds);
      wall, mach := Removed(wall, ds), Removed(mach, ds);
      var q := List(timer[ds].clock);
      var k := Scan(q, ds);
      PlacedOrdered(q, timer, k, ds);
      PlacedDistinct(q, k, ds);
      if timer[ds].clock.Wall? { wall := Placed(q, k, ds); } else { mach := Placed(q, k, ds); }
      forall x | x != ds ensures Homed(x) { assert old(Homed(x)); }
    }

    /** The same for a source that is listed, without the order. */
    method Relist(ds: Source)
      requires ValidExcept(ds) && ds in timer && ds in registered && ident[ds] == timer[ds].clock
      modifies `wall, `mach
      ensures Valid() && ds in List(timer[ds].clock)
      ensures forall x | x != ds :: (x in wall <==> x in old(wall)) && (x in mach <==> x in old(mach))
      ensures (timer[ds].clock.Wall? ==> ds !in mach) && (timer[ds].clock.Mach? ==> ds !in wall)
    {
      Update(ds);
    }

    /** New values for `ds`, which only its own place depends on. */
    method Change(ds: Source, t: Timer)
      requires Tables() && (forall x | x != ds :: Homed(x)) && Ordered(wall, timer) && Ordered(mach, timer)
      requires ds in timer && Sane(t)
      modifies `timer
      ensures timer == old(timer)[ds := t] && ValidExcept(ds)
    {
      ghost var timer0 := timer;
      timer := timer[ds := t];
      RemovedOrdered(wall, timer0, timer, ds);
      RemovedOrdered(mach, timer0, timer, ds);
      forall x | x != ds ensures Homed(x) { assert old(Homed(x)); }
    }

    /** New values for a listed source, on the same clock, and its new place. */
    method Renew(ds: Source, t: Timer)
      requires Valid() && ds in timer && ds in registered && Sane(t) && ident[ds] == t.clock
      modifies `wall, `mach, `timer
      ensures Valid() && timer == old(timer)[ds := t] && ds in List(t.clock)
      ensures forall x | x != ds :: (x in wall <==> x in old(wall)) && (x in mach <==> x in old(mach))
      ensures (t.clock.Wall? ==> ds !in mach) && (t.clock.Mach? ==> ds !in wall)
    {
      Change(ds, t);
      Relist(ds);
    }

    /** One due timer fires and is rescheduled. */
    method Fire(ds: Source, now: nat)
      requires Valid() && Listed(ds) && Due(timer[ds], now) && now <= INT64_MAX
      modifies `wall, `mach, `timer, `pending
      ensures Valid() && timer == old(timer)[ds := Fired(old(timer)[ds], now)] && !Due(timer[ds], now)
      ensures pending == old(pending)[ds := (old(pending)[ds] + Firings(old(timer)[ds], now)) % WORD]
      ensures ds in List(timer[ds].clock)
      ensures forall x | x != ds :: (x in wall <==> x in old(wall)) && (x in mach <==> x in old(mach))
      ensures timer[ds].clock.Wall? ==> ds !in mach
      ensures timer[ds].clock.Mach? ==> ds !in wall
    {
      assert Homed(ds) && ident[ds] == timer[ds].clock;
      var t, n := Reschedule(timer[ds], now);
      pending := pending[ds := (pending[ds] + n) % WORD];
      Renew(ds, t);
    }

    /** What the firing means for the list of one clock. */
    method FireListed(c: Clock, ds: Source, now: nat)
      requires Valid() && Listed(ds) && Due(timer[ds], now) && now <= INT64_MAX
      modifies `wall, `mach, `timer, `pending
      ensures Valid() && timer == old(timer)[ds := Fired(old(timer)[ds], now)] && !Due(timer[ds], now)
      ensures pending == old(pending)[ds := (old(pending)[ds] + Firings(old(timer)[ds], now)) % WORD]
      ensures forall x | x != ds :: x in List(c) <==> x in old(List(c))
      ensures forall x :: Listed(x) <==> old(Listed(x))
    {
      Fire(ds, now);
    }

    /** Where a pass over the list of `c` stands, which started with `q0`, `timer0` and `pending0`. */
    ghost predicate Running(c: Clock, now: nat, q0: seq<Source>, timer0: map<Source, Timer>,
                            pending0: map<Source, nat>, woken: set<Source>)
      reads this
    {
      Ledger(timer0, timer, pending0, pending, woken, now) && Pass(q0, timer0, List(c), timer, now, woken)
    }

    /** The first timer of the list is due and fires. */
    method FireFirst(c: Clock, now: nat, ds: Source, ghost q0: seq<Source>, ghost timer0: map<Source, Timer>,
                     ghost pending0: map<Source, nat>, ghost woken: set<Source>)
      requires Valid() && now <= INT64_MAX && Running(c, now, q0, timer0, pending0, woken)
        && Runs(List(c), timer, now, ds)
      modifies `wall, `mach, `timer, `pending
      ensures Valid() && Running(c, now, q0, timer0, pending0, woken + {ds})
      ensures forall x :: Listed(x) <==> old(Listed(x))
      ensures |Work(List(c), timer, now)| < old(|Work(List(c), timer, now)|)
    {
      ghost var q, was, were := List(c), timer, pending;
      FireListed(c, ds, now);
      FiredOn(q0, timer0, q, was, List(c), timer, pending0, were, pending, now, woken, ds);
    }

    /** _dispatch_run_timers2: a pass over the list of one clock. */
    method RunTimers(c: Clock, now: nat) returns (woken: set<Source>)
      requires Valid() && now <= INT64_MAX
      modifies `wall, `mach, `timer, `pending
      ensures Valid() && Ledger(old(timer), timer, old(pending), pending, woken, now)
      ensures forall x :: x in woken <==>
        old(Listed(x)) && x in old(timer) && old(timer)[x].clock == c && Due(old(timer)[x], now)
      ensures forall x | Listed(x) && timer[x].clock == c :: !Due(timer[x], now)
      ensures forall x :: Listed(x) <==> old(Listed(x))
    {
      woken := {};
      OwnClocks();
      ghost var q0, timer0, pending0 := List(c), timer, pending;
      while List(c) != []
        invariant Valid() && Running(c, now, q0, timer0, pending0, woken)
        invariant forall x :: Listed(x) <==> old(Listed(x))
        decreases |Work(List(c), timer, now)|
      {
        var ds := List(c)[0];
        FirstBounds(List(c), timer, now);
        assert Homed(ds);
        if ident[ds] != c {
          // The update the source forces here is never needed: no operation leaves a source on a list
          // other than the one its identifier names.
          assert false;
        }
        if timer[ds].target == 0 || timer[ds].interval == 0 { break; }
        if timer[ds].target > now { break; }
        FireFirst(c, now, ds, q0, timer0, pending0, woken);
        woken := woken + {ds};
      }
      OwnClocks();
    }

    /** dispatch_source_set_timer, once the manager has taken it up: new values, and a new place. */
    method SetTimer(ds: Source, start: nat, interval: nat, now: nat)
      requires Valid() && ds in timer && start < WORD && interval < WORD && now <= INT64_MAX
      modifies `wall, `mach, `timer, `ident
      ensures Valid() && timer == old(timer)[ds := Values(start, interval, now, old(timer)[ds].once)]
      ensures Standing(timer[ds]) == if start == Time.FOREVER then Time.Host(INT64_MAX) else Time.Meaning(start, now)
      ensures ident == old(ident)[ds := timer[ds].clock]
      ensures ds in registered ==> ds in List(timer[ds].clock) && Moves(old(wall), old(mach), ds)
      ensures ds !in registered ==> wall == old(wall) && mach == old(mach)
      ensures forall x | x != ds :: (x in wall <==> x in old(wall)) && (x in mach <==> x in old(mach))
    {
      ident := ident[ds := Values(start, interval, now, timer[ds].once).clock];
      forall x | x != ds ensures Homed(x) { assert old(Homed(x)); }
      Change(ds, Values(start, interval, now, timer[ds].once));
      Update(ds);
    }

    ghost predicate Candidate(x: Source)
      reads `wall, `mach, `timer, `suspended
    {
      Listed(x) && x in timer && timer[x].target != 0 && x !in suspended
    }

    /** dispatch_suspend of a source that was not suspended. */
    method Suspend(ds: Source)
      requires Valid() && ds in timer
      modifies `suspended
      ensures Valid() && suspended == old(suspended) + {ds}
    {
      suspended := suspended + {ds};
    }

    /** The dispatch_resume that matches the last dispatch_suspend of a source. */
    method Resume(ds: Source)
      requires Valid() && ds in suspended
      modifies `suspended
      ensures Valid() && suspended == old(suspended) - {ds}
    {
      suspended := suspended - {ds};
    }

    /** A timer that is to fire again is rearmed. */
    method Arm(ds: Source)
      requires Valid() && ds in registered
      modifies `armed
      ensures Valid() && armed == old(armed) + {ds}
    {
      armed := armed + {ds};
    }

    /** How many timers at the front of a list are set and suspended; they are disarmed. */
    method FirstAwake(q: seq<Source>) returns (k: nat)
      requires Known(q, timer)
      modifies `armed
      ensures k == Asleep(q, timer, suspended)
      ensures armed == old(armed) - Front(q, k)
    {
      k := 0;
      while k < |q| && timer[q[k]].target != 0 && q[k] in suspended
        invariant k <= |q| && Asleep(q, timer, suspended) == k + Asleep(q[k..], timer, suspended)
        invariant armed == old(armed) - Front(q, k)
      {
        assert q[k..][0] == q[k] && q[k..][1..] == q[k + 1..];
        assert Front(q, k + 1) == Front(q, k) + {q[k]};
        armed := armed - {q[k]};
        k := k + 1;
      }
      if k < |q| { assert q[k..][0] == q[k]; }
    }

    /** The scan of one list: the delay of its first timer that is awake, if that is set. */
    method ScanFirst(q: seq<Source>, wallNow: nat, machNow: nat) returns (found: bool, delay: nat, ghost first: Source)
      requires Valid() && (q == wall || q == mach)
      modifies `armed
      ensures armed == old(armed) - Front(q, Asleep(q, timer, suspended))
      ensures !found ==> forall x | x in q :: !Candidate(x)
      ensures found ==> first in q && Candidate(first) && Delay(timer[first], wallNow, machNow) == delay
      ensures found ==> forall x | x in q && Candidate(x) :: delay <= Delay(timer[x], wallNow, machNow)
    {
      OwnClocks();
      var k := FirstAwake(q);
      AsleepAre(q, timer, suspended);
      AwakeIsFirst(q, timer, suspended, k);
      found := k < |q| && timer[q[k]].target != 0;
      delay, first := 0, 0;
      if found {
        first := q[k];
        var now := if timer[q[k]].clock.Wall? then wallNow else machNow;
        if timer[q[k]].target > now { delay := timer[q[k]].target - now; }
      }
    }

    lemma OwnClocks()
      requires Valid()
      ensures forall x | x in wall && timer[x].target != 0 :: timer[x].clock.Wall?
      ensures forall x | x in mach :: timer[x].clock.Mach?
    {
      forall x | x in wall ensures timer[x].target != 0 ==> timer[x].clock.Wall? { assert Homed(x); }
      forall x | x in mach ensures timer[x].clock.Mach? { assert Homed(x); }
    }

    /** The least delay of a timer that is awake, over both lists; the second one is skipped if it is zero. */
    method LeastDelay(wallNow: nat, machNow: nat) returns (found: bool, delta: nat, ghost least: Source)
      requires Valid()
      modifies `armed
      ensures !found ==> forall x :: !Candidate(x)
      ensures found ==> Candidate(least) && Delay(timer[least], wallNow, machNow) == delta
      ensures found ==> forall x | Candidate(x) :: delta <= Delay(timer[x], wallNow, machNow)
      ensures armed == old(armed) - Front(wall, Asleep(wall, timer, suspended))
                       - (if WallDue(wallNow, machNow) then {} else Front(mach, Asleep(mach, timer, suspended)))
    {
      found, delta, least := ScanFirst(wall, wallNow, machNow);
      if found && delta == 0 {
        assert WallDue(wallNow, machNow);
        return;
      }
      assert !WallDue(wallNow, machNow);
      var other, d;
      ghost var l;
      other, d, l := ScanFirst(mach, wallNow, machNow);
      if other && (!found || d < delta) { delta, least := d, l; }
      found := found || other;
    }

    /** A timer on the wall clock's list is due. */
    ghost predicate WallDue(wallNow: nat, machNow: nat)
      reads `wall, `mach, `timer, `suspended
    {
      exists x :: x in wall && Candidate(x) && Delay(timer[x], wallNow, machNow) == 0
    }

    /** _dispatch_get_next_timer_fire: how long the manager may sleep. The suspended timers it passes
        over are disarmed; it does not look at the other list once a timer is due. */
    method NextFire(wallNow: nat, machNow: nat) returns (r: Wait)
      requires Valid()
      modifies `armed
      ensures r.Forever? <==> forall x | Candidate(x) :: Delay(timer[x], wallNow, machNow) > FOREVER_NSEC
      ensures r.Within? ==>
        && r.nsec < NSEC_PER_SEC
        && (exists x :: Candidate(x) && Delay(timer[x], wallNow, machNow) == r.sec * NSEC_PER_SEC + r.nsec)
        && (forall x | Candidate(x) :: r.sec * NSEC_PER_SEC + r.nsec <= Delay(timer[x], wallNow, machNow))
      ensures armed == old(armed) - Front(wall, Asleep(wall, timer, suspended))
                       - (if WallDue(wallNow, machNow) then {} else Front(mach, Asleep(mach, timer, suspended)))
    {
      var found, delta;
      ghost var least;
      found, delta, least := LeastDelay(wallNow, machNow);
      if !found || delta > FOREVER_NSEC { return Forever; }
      r := Within(delta / NSEC_PER_SEC, delta % NSEC_PER_SEC);
    }
  }

  /** NULL, or a timespec. */
  datatype Wait = Forever | Within(sec: nat, nsec: nat)

  /** The instant at which a timer is to fire. */
  function Standing(t: Timer): Time.Instant { if t.clock.Wall? then Time.Wall(t.target) else Time.Host(t.target) }

  /** How long a timer is from its target, at a clock ratio of one. */
  function Delay(t: Timer, wallNow: nat, machNow: nat): nat {
    var now := if t.clock.Wall? then wallNow else machNow;
    if t.target <= now then 0 else t.target - now
  }

  ghost function Front(q: seq<Source>, k: nat): set<Source>
    requires k <= |q|
  {
    set i | 0 <= i < k :: q[i]
  }

  /** How many timers at the front of a list are set and suspended. */
  ghost function Asleep(q: seq<Source>, timer: map<Source, Timer>, suspended: set<Source>): (k: nat)
    ensures k <= |q|
  {
    if q == [] || q[0] !in timer || timer[q[0]].target == 0 || q[0] !in suspended then 0
    else 1 + Asleep(q[1..], timer, suspended)
  }

  lemma {:induction false} AsleepAre(q: seq<Source>, timer: map<Source, Timer>, suspended: set<Source>)
    requires Known(q, timer)
    ensures var k := Asleep(q, timer, suspended);
      && (forall i | 0 <= i < k :: timer[q[i]].target != 0 && q[i] in suspended)
      && (k < |q| ==> timer[q[k]].target == 0 || q[k] !in suspended)
  {
    if q != [] && timer[q[0]].target != 0 && q[0] in suspended {
      AsleepAre(q[1..], timer, suspended);
      forall i | 0 <= i < Asleep(q, timer, suspended) ensures timer[q[i]].target != 0 && q[i] in suspended {
        if i > 0 { assert q[i] == q[1..][i - 1]; }
      }
    }
  }

  /** On an ordered list the early exit finds the earliest set timer that is not suspended. */
  lemma AwakeIsFirst(q: seq<Source>, timer: map<Source, Timer>, suspended: set<Source>, k: nat)
    requires Ordered(q, timer) && k <= |q| && (forall i | 0 <= i < k :: q[i] in suspended)
    requires k < |q| ==> timer[q[k]].target == 0 || q[k] !in suspended
    ensures forall x | x in q && timer[x].target != 0 && x !in suspended ::
      k < |q| && timer[q[k]].target != 0 && timer[q[k]].target <= timer[x].target
  {
    forall x | x in q && timer[x].target != 0 && x !in suspended
      ensures k < |q| && timer[q[k]].target != 0 && timer[q[k]].target <= timer[x].target
    {
      var i :| 0 <= i < |q| && q[i] == x;
      if i > k { assert OrderedAt(q, timer, k, i); }
    }
  }

  /** The values dispatch_source_set_timer computes, at a clock ratio of one: the target is the instant the start
      stands for, on its clock, or the last one of the host clock for forever. */
  function Values(start: nat, interval: nat, now: nat, once: bool): (t: Timer)
    requires start < WORD && interval < WORD && now <= INT64_MAX
    ensures Sane(t) && t.target <= INT64_MAX + 1 && t.once == once
    ensures start != 0 ==> t.target > 0
    ensures Standing(t) == if start == Time.FOREVER then Time.Host(INT64_MAX) else Time.Meaning(start, now)
    ensures 0 < t.interval <= INT64_MAX && (0 < interval <= INT64_MAX ==> t.interval == interval)
    ensures interval == 0 ==> t.interval == 1
    ensures interval > INT64_MAX ==> t.interval == INT64_MAX
  {
    var iv := if interval == 0 then 1 else if interval > INT64_MAX then INT64_MAX else interval;
    var st := if start == 0 then now else if start == WORD - 1 then INT64_MAX else start;
    if st > INT64_MAX then Timer(WORD - st, iv, once, Wall) else Timer(st, iv, once, Mach)
  }

  /** A repeating timer that has fired keeps its phase, is in the future, and its target has not wrapped around; a
      timer for one time has fired once and is never due again. Nothing else of it changes. */
  lemma FiredInFuture(t: Timer, now: nat, later: nat)
    requires Sane(t) && Due(t, now) && now <= INT64_MAX
    ensures !t.once ==> Fired(t, now).target == t.target + Firings(t, now) * t.interval
    ensures !t.once ==> now < Fired(t, now).target <= now + t.interval < WORD
    ensures !t.once ==> Firings(t, now) == (now - t.target) / t.interval + 1
    ensures t.once ==> Firings(t, now) == 1 && !Due(Fired(t, now), later)
    ensures Fired(t, now).(target := t.target) == t
  {
    DivisionCounts(t.target, t.interval, now);
  }

  /** The delay of a timer is the shortest time after which its own clock has reached its target. */
  lemma DelayIsLeast(t: Timer, wallNow: nat, machNow: nat, d: nat)
    ensures Time.Reached(Standing(t), wallNow + d, machNow + d) <==> d >= Delay(t, wallNow, machNow)
    ensures t.target > 0 ==> (Delay(t, wallNow, machNow) == 0 <==> Due(t, if t.clock.Wall? then wallNow else machNow))
  {
  }

  /** The manager sleeps for a timer as long as a thread that waits until its start would. */
  lemma DelayIsTimeout(start: nat, interval: nat, now: nat, once: bool, wallNow: nat, machNow: nat)
    requires start < WORD && interval < WORD && now <= INT64_MAX && now <= machNow && start != Time.FOREVER
    ensures Delay(Values(start, interval, now, once), wallNow, machNow) == Time.Timeout(start, wallNow, machNow)
  {
  }

  /** The timers of a list that are due. */
  ghost predicate Runs(q: seq<Source>, timer: map<Source, Timer>, now: nat, x: Source) {
    x in q && x in timer && Due(timer[x], now)
  }

  /** What happened to the timers: those in `woken` have fired, all others are as they were. */
  ghost predicate Ledger(timer0: map<Source, Timer>, timer: map<Source, Timer>, pending0: map<Source, nat>,
                         pending: map<Source, nat>, woken: set<Source>, now: nat)
  {
    && timer.Keys == timer0.Keys == pending0.Keys == pending.Keys
    && forall x | x in timer0 :: Entry(timer0[x], timer[x], pending0[x], pending[x], x in woken, now)
  }

  ghost predicate Entry(t0: Timer, t: Timer, p0: nat, p: nat, woken: bool, now: nat) {
    if woken then t0.interval > 0 && t == Fired(t0, now) && p == (p0 + Firings(t0, now)) % WORD else t == t0 && p == p0
  }

  /** How far a pass has come: `woken` of the timers that were due, and the others are still waiting. */
  ghost predicate Pass(q0: seq<Source>, timer0: map<Source, Timer>, q: seq<Source>, timer: map<Source, Timer>,
                       now: nat, woken: set<Source>)
  {
    && (forall x | x in woken :: Runs(q0, timer0, now, x) && !Runs(q, timer, now, x))
    && (forall x | x !in woken :: Runs(q, timer, now, x) <==> Runs(q0, timer0, now, x))
  }

  /** What still keeps a pass going. */
  ghost function Work(q: seq<Source>, timer: map<Source, Timer>, now: nat): set<Source> {
    set x | x in q && x in timer && Due(timer[x], now)
  }

  lemma FiredPass(q0: seq<Source>, timer0: map<Source, Timer>, q: seq<Source>, was: map<Source, Timer>, q': seq<Source>,
                  timer: map<Source, Timer>, now: nat, woken: set<Source>, ds: Source)
    requires Pass(q0, timer0, q, was, now, woken) && Runs(q, was, now, ds) && was[ds].interval > 0
    requires timer == was[ds := Fired(was[ds], now)] && !Due(timer[ds], now)
    requires forall x | x != ds :: x in q' <==> x in q
    ensures Pass(q0, timer0, q', timer, now, woken + {ds}) && |Work(q', timer, now)| < |Work(q, was, now)|
  {
    forall x | x != ds ensures Runs(q', timer, now, x) <==> Runs(q, was, now, x) { }
    assert Work(q', timer, now) == Work(q, was, now) - {ds};
  }

  lemma LedgerFire(timer0: map<Source, Timer>, was: map<Source, Timer>, timer: map<Source, Timer>,
                   pending0: map<Source, nat>, were: map<Source, nat>, pending: map<Source, nat>,
                   woken: set<Source>, now: nat, ds: Source)
    requires Ledger(timer0, was, pending0, were, woken, now) && ds in was && was[ds].interval > 0 && ds !in woken
    requires timer == was[ds := Fired(was[ds], now)] && pending == were[ds := (were[ds] + Firings(was[ds], now)) % WORD]
    ensures Ledger(timer0, timer, pending0, pending, woken + {ds}, now)
  {
    assert Entry(timer0[ds], was[ds], pending0[ds], were[ds], false, now);
  }

  lemma FiredOn(q0: seq<Source>, timer0: map<Source, Timer>, q: seq<Source>, was: map<Source, Timer>, q': seq<Source>,
                timer: map<Source, Timer>, pending0: map<Source, nat>, were: map<Source, nat>,
                pending: map<Source, nat>, now: nat, woken: set<Source>, ds: Source)
    requires Ledger(timer0, was, pending0, were, woken, now) && Pass(q0, timer0, q, was, now, woken)
    requires Runs(q, was, now, ds) && was[ds].interval > 0
    requires timer == was[ds := Fired(was[ds], now)] && !Due(timer[ds], now)
    requires pending == were[ds := (were[ds] + Firings(was[ds], now)) % WORD]
    requires forall x | x != ds :: x in q' <==> x in q
    ensures Ledger(timer0, timer, pending0, pending, woken + {ds}, now)
      && Pass(q0, timer0, q', timer, now, woken + {ds})
    ensures |Work(q', timer, now)| < |Work(q, was, now)|
  {
    LedgerFire(timer0, was, timer, pending0, were, pending, woken, now, ds);
    FiredPass(q0, timer0, q, was, q', timer, now, woken, ds);
  }

  /** If the first timer is unset or later than `now`, no timer on the list is due. */
  lemma FirstBounds(q: seq<Source>, timer: map<Source, Timer>, now: nat)
    requires Ordered(q, timer) && q != []
    ensures timer[q[0]].target == 0 || timer[q[0]].target > now ==> forall x | x in q :: !Due(timer[x], now)
  {
    forall x | x in q ensures timer[q[0]].target == 0 || timer[q[0]].target > now ==> !Due(timer[x], now) {
      var i :| 0 <= i < |q| && q[i] == x;
      if i > 0 { assert OrderedAt(q, timer, 0, i); }
    }
  }

  lemma LaterRest(q: seq<Source>, timer: map<Source, Timer>, k: nat)
    requires Ordered(q, timer) && k < |q|
    ensures forall i | k <= i < |q| :: i == k || InOrder(timer[q[k]], timer[q[i]])
  {
    forall i | k < i < |q| ensures InOrder(timer[q[k]], timer[q[i]]) { assert OrderedAt(q, timer, k, i); }
  }
}
