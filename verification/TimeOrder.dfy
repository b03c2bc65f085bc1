/** Absolute times of the timer service: struct timespec, the rank between two of them
    (gps/utils/LocTimer.cpp, LocTimerDelegate::ranks) and the time a new timer is due. */
module TimeOrder {
  const NS_PER_SEC := 1_000_000_000
  const TWO_31 := 0x8000_0000
  const TWO_32 := 0x1_0000_0000

  datatype Timespec = Timespec(sec: int, nsec: int)

  predicate Normal(t: Timespec) {
    0 <= t.nsec < NS_PER_SEC
  }

  function Ns(t: Timespec): int {
    t.sec * NS_PER_SEC + t.nsec
  }

  /** Conversion of a 64-bit difference to the 32-bit int that ranks returns. */
  function ToInt32(x: int): int {
    var m := x % TWO_32;
    if m < TWO_31 then m else m - TWO_32
  }

  /** Positive if `a` is due before `b`. */
  function Ranks(a: Timespec, b: Timespec): int {
    var rank := ToInt32(b.sec - a.sec);
    if rank == 0 then ToInt32(b.nsec - a.nsec) else rank
  }

  predicate SecondsFit(a: Timespec, b: Timespec) {
    -TWO_31 <= b.sec - a.sec < TWO_31
  }

  lemma ToInt32Fits(x: int)
    requires -TWO_31 <= x < TWO_31
    ensures ToInt32(x) == x
  {
    if x < 0 {
      assert x % TWO_32 == x + TWO_32;
    }
  }

  /** With second differences that fit an int, rank order is time order. */
  lemma RankIsTimeOrder(a: Timespec, b: Timespec)
    requires Normal(a) && Normal(b) && SecondsFit(a, b)
    ensures Ranks(a, b) > 0 <==> Ns(a) < Ns(b)
    ensures Ranks(a, b) == 0 <==> Ns(a) == Ns(b)
  {
    ToInt32Fits(b.sec - a.sec);
    ToInt32Fits(b.nsec - a.nsec);
  }

  /** For a timer due in an earlier second, exactly when the rank is the right one. */
  lemma EarlierSecondRanksHigherIff(a: Timespec, b: Timespec)
    requires Normal(a) && Normal(b) && a.sec < b.sec
    ensures Ranks(a, b) > 0 <==>
            var gap := (b.sec - a.sec) % TWO_32;
            0 < gap < TWO_31 || (gap == 0 && a.nsec < b.nsec)
  {
    ToInt32Fits(b.nsec - a.nsec);
  }

  /** Seconds 2^31 apart: the earlier time ranks lower. */
  lemma WideGapRanksWrongly()
    ensures var a, b := Timespec(0, 0), Timespec(TWO_31, 0);
            Normal(a) && Normal(b) && Ns(a) < Ns(b) && Ranks(a, b) < 0
  {
  }

  /** LocTimer::start: now plus a timeout in milliseconds, carried into the seconds. */
  function FutureTime(now: Timespec, ms: nat): Timespec {
    var sec := now.sec + ms / 1000;
    var nsec := now.nsec + (ms % 1000) * 1_000_000;
    if nsec >= NS_PER_SEC
    then Timespec(sec + nsec / NS_PER_SEC, nsec % NS_PER_SEC)
    else Timespec(sec, nsec)
  }

  lemma FutureTimeIsNowPlusTimeout(now: Timespec, ms: nat)
    requires Normal(now)
    ensures Normal(FutureTime(now, ms))
    ensures Ns(FutureTime(now, ms)) == Ns(now) + ms * 1_000_000
    ensures now.sec <= FutureTime(now, ms).sec <= now.sec + ms / 1000 + 1
  {
    assert ms == 1000 * (ms / 1000) + ms % 1000;
  }
}
