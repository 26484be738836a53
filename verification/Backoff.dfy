/** Retry delays and poll intervals of the outbox publisher, in nanoseconds held
  * in 64-bit signed integers.
  */
module Backoff {
  import opened Values

  const SECOND := 1_000_000_000
  const MAX_BACKOFF := 300 * SECOND
  const IDLE_MAX := 8 * SECOND
  const TWO_64 := 0x1_0000_0000_0000_0000

  function Pow2(n: nat): nat {
    if n == 0 then 1 else 2 * Pow2(n - 1)
  }

  function Wrap64(x: int): int {
    var r := x % TWO_64;
    if r >= TWO_64 / 2 then r - TWO_64 else r
  }

  // `big` is what the platform makes of 2^attempts when that does not fit a
  // 64-bit integer.
  function BackoffFor(attempts: int, max: int, big: int): int {
    var a := if attempts < 1 then 1 else attempts;
    var d := Wrap64((if a < 63 then Pow2(a) else big) * SECOND);
    if d > max then max else d
  }

  lemma {:induction false} Pow2Increases(n: nat, m: nat)
    requires n <= m
    ensures Pow2(n) <= Pow2(m)
  {
    if n < m {
      Pow2Increases(n, m - 1);
    }
  }

  lemma Pow2At31()
    ensures Pow2(31) == 0x8000_0000 && Pow2(33) == 0x2_0000_0000
  {
    assert Pow2(8) == 256;
    assert Pow2(16) == 65536;
    assert Pow2(24) == 16777216;
    assert Pow2(31) == 2 * Pow2(30) && Pow2(30) == 2 * Pow2(29) && Pow2(29) == 2 * Pow2(28) && Pow2(28) == 2 * Pow2(27);
    assert Pow2(27) == 2 * Pow2(26) && Pow2(26) == 2 * Pow2(25) && Pow2(25) == 2 * Pow2(24);
  }

  lemma SmallStays(x: int)
    requires 0 <= x < TWO_64 / 2
    ensures Wrap64(x) == x
  {}

  lemma SecondsFit(n: nat)
    requires n <= 33
    ensures 0 <= Pow2(n) * SECOND < TWO_64 / 2
  {
    Pow2Increases(n, 33);
    Pow2At31();
  }

  // Up to 33 attempts nothing wraps: the delay is 2^n seconds, capped.
  lemma BackoffIsCappedPower(n: nat, max: int, big: int)
    requires 1 <= n <= 33
    ensures BackoffFor(n, max, big) == Min(Pow2(n) * SECOND, max)
  {
    SecondsFit(n);
    SmallStays(Pow2(n) * SECOND);
  }

  // A count below one is taken for the first attempt.
  lemma NoCountIsFirst(n: int, max: int, big: int)
    requires n < 1
    ensures BackoffFor(n, max, big) == Min(2 * SECOND, max)
  {
    BackoffIsCappedPower(1, max, big);
  }

  lemma BackoffMonotone(n: nat, m: nat, max: int, big: int)
    requires 1 <= n <= m <= 33
    ensures BackoffFor(n, max, big) <= BackoffFor(m, max, big)
  {
    BackoffIsCappedPower(n, max, big);
    BackoffIsCappedPower(m, max, big);
    Pow2Increases(n, m);
  }

  lemma BackoffAtLeastTwoSeconds(n: nat, big: int)
    requires 1 <= n <= 33
    ensures 2 * SECOND <= BackoffFor(n, MAX_BACKOFF, big) <= MAX_BACKOFF
  {
    BackoffIsCappedPower(n, MAX_BACKOFF, big);
    Pow2Increases(1, n);
  }

  /* ---- beyond 33 attempts the product wraps ---- */

  // The signed 64-bit value of 2^n seconds, step by step.
  function Doubled(x: int): int {
    Wrap64(2 * x)
  }

  lemma WrapDoubles(x: int)
    ensures Wrap64(2 * x) == Doubled(Wrap64(x))
  {
    var q := x / TWO_64;
    assert x == q * TWO_64 + x % TWO_64;
    var k := if x % TWO_64 >= TWO_64 / 2 then q + 1 else q;
    assert Wrap64(x) == x - k * TWO_64;
    ShiftWrap(2 * Wrap64(x), 2 * k);
  }

  lemma ShiftWrap(x: int, k: int)
    ensures Wrap64(x + k * TWO_64) == Wrap64(x)
  {
    ModShift(x, k);
  }

  lemma {:induction false} ModShift(x: int, k: int)
    ensures (x + k * TWO_64) % TWO_64 == x % TWO_64
    decreases if k < 0 then -k else k
  {
    if k > 0 {
      ModShift(x, k - 1);
      assert x + k * TWO_64 == (x + (k - 1) * TWO_64) + TWO_64;
    } else if k < 0 {
      ModShift(x, k + 1);
      assert x + k * TWO_64 == (x + (k + 1) * TWO_64) - TWO_64;
    }
  }

  function WrappedSeconds(n: nat): int {
    Wrap64(Pow2(n) * SECOND)
  }

  lemma WrappedNext(n: nat)
    ensures WrappedSeconds(n + 1) == Doubled(WrappedSeconds(n))
  {
    WrapDoubles(Pow2(n) * SECOND);
    assert Pow2(n + 1) * SECOND == 2 * (Pow2(n) * SECOND);
  }

  // Attempt counts past 33 whose wrapped product still lands above the cap.
  predicate Lucky(n: nat) {
    n == 37 || n == 41 || n == 42 || n == 45 || n == 47 || n == 50 || n == 51 || n == 53
  }

  lemma Wrapped34To37()
    ensures WrappedSeconds(34) == -1266874889709551616
    ensures WrappedSeconds(35) == -2533749779419103232
    ensures WrappedSeconds(36) == -5067499558838206464
    ensures WrappedSeconds(37) == 8311744956033138688
  {
    Pow2At31();
    assert WrappedSeconds(33) == 8589934592000000000;
    WrappedNext(33);
    assert WrappedSeconds(34) == -1266874889709551616;
    WrappedNext(34);
    assert WrappedSeconds(35) == -2533749779419103232;
    WrappedNext(35);
    assert WrappedSeconds(36) == -5067499558838206464;
    WrappedNext(36);
  }

  lemma Wrapped38To41()
    ensures WrappedSeconds(38) == -1823254161643274240
    ensures WrappedSeconds(39) == -3646508323286548480
    ensures WrappedSeconds(40) == -7293016646573096960
    ensures WrappedSeconds(41) == 3860710780563357696
  {
    Wrapped34To37();
    WrappedNext(37);
    assert WrappedSeconds(38) == -1823254161643274240;
    WrappedNext(38);
    assert WrappedSeconds(39) == -3646508323286548480;
    WrappedNext(39);
    assert WrappedSeconds(40) == -7293016646573096960;
    WrappedNext(40);
  }

  lemma Wrapped42To45()
    ensures WrappedSeconds(42) == 7721421561126715392
    ensures WrappedSeconds(43) == -3003900951456120832
    ensures WrappedSeconds(44) == -6007801902912241664
    ensures WrappedSeconds(45) == 6431140267885068288
  {
    Wrapped38To41();
    WrappedNext(41);
    assert WrappedSeconds(42) == 7721421561126715392;
    WrappedNext(42);
    assert WrappedSeconds(43) == -3003900951456120832;
    WrappedNext(43);
    assert WrappedSeconds(44) == -6007801902912241664;
    WrappedNext(44);
  }

  lemma Wrapped46To49()
    ensures WrappedSeconds(46) == -5584463537939415040
    ensures WrappedSeconds(47) == 7277816997830721536
    ensures WrappedSeconds(48) == -3891110078048108544
    ensures WrappedSeconds(49) == -7782220156096217088
  {
    Wrapped42To45();
    WrappedNext(45);
    assert WrappedSeconds(46) == -5584463537939415040;
    WrappedNext(46);
    assert WrappedSeconds(47) == 7277816997830721536;
    WrappedNext(47);
    assert WrappedSeconds(48) == -3891110078048108544;
    WrappedNext(48);
  }

  lemma Wrapped50To53()
    ensures WrappedSeconds(50) == 2882303761517117440
    ensures WrappedSeconds(51) == 5764607523034234880
    ensures WrappedSeconds(52) == -6917529027641081856
    ensures WrappedSeconds(53) == 4611686018427387904
  {
    Wrapped46To49();
    WrappedNext(49);
    assert WrappedSeconds(50) == 2882303761517117440;
    WrappedNext(50);
    assert WrappedSeconds(51) == 5764607523034234880;
    WrappedNext(51);
    assert WrappedSeconds(52) == -6917529027641081856;
    WrappedNext(52);
  }

  lemma Wrapped54To55()
    ensures WrappedSeconds(54) == -9223372036854775808
    ensures WrappedSeconds(55) == 0
  {
    Wrapped50To53();
    WrappedNext(53);
    assert WrappedSeconds(54) == -9223372036854775808;
    WrappedNext(54);
  }

  // Past 33 attempts the delay is above the cap, or it is no delay at all.
  predicate Wrapped(n: nat) {
    if Lucky(n) then WrappedSeconds(n) > MAX_BACKOFF else WrappedSeconds(n) <= 0
  }

  lemma WrappedTo43(n: nat)
    requires 34 <= n <= 43
    ensures Wrapped(n)
  {
    if n <= 37 {
      Wrapped34To37();
    } else if n <= 41 {
      Wrapped38To41();
    } else {
      Wrapped42To45();
    }
  }

  lemma WrappedTo55(n: nat)
    requires 44 <= n <= 55
    ensures Wrapped(n)
  {
    if n <= 45 {
      Wrapped42To45();
    } else if n <= 49 {
      Wrapped46To49();
    } else if n <= 53 {
      Wrapped50To53();
    } else {
      Wrapped54To55();
    }
  }

  lemma {:induction false} WrappedFrom55(n: nat)
    requires n >= 55
    ensures WrappedSeconds(n) == 0
  {
    if n == 55 {
      Wrapped54To55();
    } else {
      WrappedFrom55(n - 1);
      WrappedNext(n - 1);
    }
  }

  // Past 33 attempts the delay is the whole cap or it is none.
  lemma CappedOrNoDelay(n: nat, big: int)
    requires 34 <= n <= 62
    ensures var d := BackoffFor(n, MAX_BACKOFF, big); if Lucky(n) then d == MAX_BACKOFF else d <= 0
  {
    if n <= 43 {
      WrappedTo43(n);
    } else if n <= 55 {
      WrappedTo55(n);
    } else {
      WrappedFrom55(n);
    }
    assert BackoffFor(n, MAX_BACKOFF, big) ==
        if WrappedSeconds(n) > MAX_BACKOFF then MAX_BACKOFF else WrappedSeconds(n);
  }

  // The delay is 2^n seconds capped at five minutes exactly for these counts.
  lemma CappedPowerIff(n: nat, big: int)
    requires 1 <= n <= 62
    ensures BackoffFor(n, MAX_BACKOFF, big) == Min(Pow2(n) * SECOND, MAX_BACKOFF) <==> n <= 33 || Lucky(n)
  {
    if n <= 33 {
      BackoffIsCappedPower(n, MAX_BACKOFF, big);
    } else {
      Pow2Increases(33, n);
      Pow2At31();
      assert Min(Pow2(n) * SECOND, MAX_BACKOFF) == MAX_BACKOFF;
      CappedOrNoDelay(n, big);
    }
  }

  /* ---- poll interval ---- */

  function NextInterval(current: int, base: int): int {
    var c := if current < base then base else current;
    if c * 2 < IDLE_MAX then c * 2 else IDLE_MAX
  }

  // One drain: it failed, found nothing, or found work.
  datatype Drain = Failed | Empty | Worked

  function IntervalAfter(base: int, drains: seq<Drain>): int {
    if drains == [] then base
    else
      var n := |drains| - 1;
      if drains[n].Worked? then base else NextInterval(IntervalAfter(base, drains[..n]), base)
  }

  lemma {:induction false} IntervalStaysInBand(base: int, drains: seq<Drain>)
    requires 0 < base <= IDLE_MAX
    ensures base <= IntervalAfter(base, drains) <= IDLE_MAX
  {
    if drains != [] {
      IntervalStaysInBand(base, drains[..|drains| - 1]);
    }
  }

  lemma DoubledUpToIdle(x: int, base: int)
    requires 0 < base <= IDLE_MAX && base <= x
    ensures NextInterval(Min(x, IDLE_MAX), base) == Min(2 * x, IDLE_MAX)
  {}

  lemma {:induction false} Pow2Positive(k: nat)
    ensures Pow2(k) >= 1
  {
    if k > 0 {
      Pow2Positive(k - 1);
    }
  }

  lemma Scaled(base: int, k: nat)
    requires 0 < base && k > 0
    ensures base * Pow2(k) == 2 * (base * Pow2(k - 1)) && base <= base * Pow2(k - 1)
  {
    Pow2Positive(k - 1);
  }

  // After work, k drains without any stretch the interval to base * 2^k, capped.
  lemma {:induction false} IdleDoubles(base: int, drains: seq<Drain>, k: nat)
    requires 0 < base <= IDLE_MAX && k <= |drains|
    requires k == |drains| || drains[|drains| - k - 1].Worked?
    requires forall i :: |drains| - k <= i < |drains| ==> !drains[i].Worked?
    ensures IntervalAfter(base, drains) == Min(base * Pow2(k), IDLE_MAX)
    decreases k
  {
    if k > 0 {
      IdleDoubles(base, drains[..|drains| - 1], k - 1);
      Scaled(base, k);
      DoubledUpToIdle(base * Pow2(k - 1), base);
    }
  }

  // The loop of the publisher, over the results its drains give.
  method RunInterval(tick: int, drains: seq<Drain>) returns (interval: int)
    requires 0 < tick <= IDLE_MAX
    ensures interval == IntervalAfter(tick, drains)
    ensures tick <= interval <= IDLE_MAX
  {
    interval := tick;
    for i := 0 to |drains|
      invariant interval == IntervalAfter(tick, drains[..i])
    {
      assert drains[..i + 1][..i] == drains[..i];
      match drains[i]
      case Failed => interval := NextInterval(interval, tick);
      case Empty => interval := NextInterval(interval, tick);
      case Worked => interval := tick;
    }
    assert drains[..|drains|] == drains;
    IntervalStaysInBand(tick, drains);
  }
}
