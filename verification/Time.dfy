/**
 Times as 64-bit words (libdispatch/src/time.c), at a clock ratio of one: zero is now, all ones is
 forever, a word with the top bit set is minus a wall clock time, and any other one a host time.
*/
module Time {

  const WORD: int := 0x1_0000_0000_0000_0000
  const HALF: int := 0x8000_0000_0000_0000
  const NOW: int := 0
  const FOREVER: int := 0xffff_ffff_ffff_ffff

  predicate IsWord(x: int) { 0 <= x < WORD }
  predicate IsSigned(x: int) { -HALF <= x < HALF }

  /** The conversion to int64_t, and the wrapped result of unsigned arithmetic. */
  function Signed(x: int): int { if x >= HALF then x - WORD else x }
  function Wrap(x: int): int { x % WORD }

  /** dispatch_time, with the host clock at `now`. */
  function DispatchTime(inval: int, delta: int, now: int): int
    requires IsWord(inval) && IsSigned(delta) && 0 <= now < HALF
  {
    if inval == FOREVER then FOREVER
    else if Signed(inval) < 0 then
      var t := Wrap(inval - delta);
      if delta >= 0 then (if Signed(t) >= 0 then FOREVER else t)
      else if Signed(t) >= -1 then WORD - 2 else t
    else
      var t := Wrap((if inval == NOW then now else inval) + delta);
      if delta >= 0 then (if Signed(t) <= 0 then FOREVER else t)
      else if Signed(t) < 1 then 1 else t
  }

  // ------------------------------------------------------------------ what the words mean

  datatype Instant = Forever | Wall(ns: int) | Host(ns: int)

  /** The instant a word stands for; now is read from the host clock. */
  function Meaning(x: int, now: int): Instant
    requires IsWord(x)
  {
    if x == FOREVER then Forever
    else if Signed(x) < 0 then Wall(-Signed(x))
    else if x == NOW then Host(now) else Host(x)
  }

  /** Addition that stays on its clock, and saturates at the earliest instant and at forever. */
  function Plus(t: Instant, delta: int): Instant {
    match t
    case Forever => Forever
    case Wall(ns) => if ns + delta > HALF then Forever else if ns + delta < 2 then Wall(2) else Wall(ns + delta)
    case Host(ns) => if ns + delta >= HALF then Forever else if ns + delta < 1 then Host(1) else Host(ns + delta)
  }

  lemma WrapOnce(x: int)
    requires -WORD <= x < 2 * WORD
    ensures Wrap(x) == if x < 0 then x + WORD else if x >= WORD then x - WORD else x
  {
  }

  /** dispatch_time never returns now, and it is saturating addition that keeps the kind of clock and
      returns forever only for forever or on overflow, exactly unless zero is added to now while the
      host clock reads zero. */
  lemma TimeAdds(inval: int, delta: int, now: int)
    requires IsWord(inval) && IsSigned(delta) && 0 <= now < HALF
    ensures var r := DispatchTime(inval, delta, now);
      IsWord(r) && r != NOW
          && (Meaning(r, now) == Plus(Meaning(inval, now), delta) <==> !(inval == NOW && now == 0 && delta == 0))
  {
    if inval != FOREVER {
      if Signed(inval) < 0 { WrapOnce(inval - delta); }
      else { WrapOnce((if inval == NOW then now else inval) + delta); }
    }
  }

  predicate NotAfter(a: Instant, b: Instant) {
    b.Forever? || (a.Wall? && b.Wall? && a.ns <= b.ns) || (a.Host? && b.Host? && a.ns <= b.ns)
  }

  /** A larger delta never gives an earlier time. */
  lemma TimeMonotone(inval: int, d1: int, d2: int, now: int)
    requires IsWord(inval) && IsSigned(d1) && IsSigned(d2) && d1 <= d2 && 0 <= now < HALF && (inval == NOW ==> now > 0)
    ensures NotAfter(Meaning(DispatchTime(inval, d1, now), now), Meaning(DispatchTime(inval, d2, now), now))
  {
    TimeAdds(inval, d1, now);
    TimeAdds(inval, d2, now);
  }

  lemma PlusComposes(t: Instant, d1: int, d2: int)
    requires d1 >= 0 && d2 >= 0 && (t.Wall? ==> t.ns >= 2) && (t.Host? ==> t.ns >= 1)
    ensures Plus(Plus(t, d1), d2) == Plus(t, d1 + d2)
  {
  }

  /** Two non-negative steps are one step of their sum, if that is a delta. */
  lemma TimeComposes(inval: int, d1: int, d2: int, now: int)
    requires IsWord(inval) && d1 >= 0 && d2 >= 0 && d1 + d2 < HALF && 0 <= now < HALF && (inval == NOW ==> now > 0)
    ensures DispatchTime(DispatchTime(inval, d1, now), d2, now) == DispatchTime(inval, d1 + d2, now)
  {
    TimeAdds(inval, d1, now);
    TimeAdds(inval, d1 + d2, now);
    TimeAdds(DispatchTime(inval, d1, now), d2, now);
    PlusComposes(Meaning(inval, now), d1, d2);
    SameWord(DispatchTime(DispatchTime(inval, d1, now), d2, now), DispatchTime(inval, d1 + d2, now), now);
  }

  /** Words other than now are determined by what they mean. */
  lemma SameWord(a: int, b: int, now: int)
    requires IsWord(a) && IsWord(b) && a != NOW && b != NOW && Meaning(a, now) == Meaning(b, now)
    ensures a == b
  {
  }

  /** _dispatch_timeout: how long until `when`. */
  function Timeout(when: int, wallNow: int, hostNow: int): int
    requires IsWord(when)
  {
    if when == FOREVER then FOREVER
    else if when == NOW then 0
    else if Signed(when) < 0 then (if wallNow >= -Signed(when) then 0 else -Signed(when) - wallNow)
    else if hostNow >= when then 0 else when - hostNow
  }

  /** The clocks have come to an instant. */
  predicate Reached(i: Instant, wallNow: int, hostNow: int) {
    match i
    case Forever => false
    case Wall(ns) => wallNow >= ns
    case Host(ns) => hostNow >= ns
  }

  /** A timeout is the shortest wait after which the clock of its instant has reached it; it is forever only for
      forever. */
  lemma TimeoutIsLeast(when: int, wallNow: nat, hostNow: nat, d: nat)
    requires IsWord(when)
    ensures Timeout(when, wallNow, hostNow) == FOREVER <==> when == FOREVER
    ensures when != FOREVER ==> 0 <= Timeout(when, wallNow, hostNow) <= HALF
    ensures when != FOREVER ==>
      (Reached(Meaning(when, hostNow), wallNow + d, hostNow + d) <==> d >= Timeout(when, wallNow, hostNow))
  {
  }

  /** A timeout computed from now is the delta again, as long as it does not overflow. */
  lemma TimeoutInverts(d: int, wallNow: int, now: int)
    requires 0 <= d && now + d < HALF && 0 < now
    ensures Timeout(DispatchTime(NOW, d, now), wallNow, now) == d
  {
    TimeAdds(NOW, d, now);
  }
}
