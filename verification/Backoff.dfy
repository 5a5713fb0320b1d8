/** The pause between two attempts of the sidecar, computed in 64-bit nanoseconds. */
module Backoff {

  const SECOND: int := 1_000_000_000
  const TWO63: int := 0x8000_0000_0000_0000
  const TWO64: int := 0x1_0000_0000_0000_0000

  function Pow2(a: nat): nat {
    if a == 0 then 1 else 2 * Pow2(a - 1)
  }

  /** Two's complement reduction to 64 bits. */
  function Wrap64(x: int): int {
    (x + TWO63) % TWO64 - TWO63
  }

  /** `1 << attempt` seconds as a Duration: shift and product both wrap. */
  function Doubled(attempt: nat): int {
    Wrap64(Wrap64(Pow2(attempt)) * SECOND)
  }

  function Delay(attempt: nat): int {
    if Doubled(attempt) > 10 * SECOND then 10 * SECOND else Doubled(attempt)
  }

  /** What the pause is meant to be: doubling from one second up to ten. */
  function Intended(attempt: nat): int {
    if attempt <= 3 then Pow2(attempt) * SECOND else 10 * SECOND
  }

  lemma WrapIgnoresMultiples(x: int, y: int, k: int)
    requires x == y + k * TWO64
    ensures Wrap64(x) == Wrap64(y)
  {
    ModShift(y + TWO63, k);
  }

  lemma {:induction false} ModShift(y: int, k: int)
    ensures (y + k * TWO64) % TWO64 == y % TWO64
    decreases if k < 0 then -k else k
  {
    if k > 0 {
      ModShift(y, k - 1);
    } else if k < 0 {
      ModShift(y, k + 1);
    }
  }

  /** Wrapping first changes nothing: Wrap64(x) differs from x by whole turns. */
  lemma WrapInside(x: int, c: int)
    ensures Wrap64(Wrap64(x) * c) == Wrap64(x * c)
  {
    var k := (x + TWO63) / TWO64;
    assert x == Wrap64(x) + k * TWO64;
    var w := Wrap64(x);
    assert x * c == w * c + (k * c) * TWO64 by {
      Distribute(w, k, TWO64, c);
    }
    WrapIgnoresMultiples(x * c, w * c, k * c);
  }

  lemma Distribute(w: int, k: int, t: int, c: int)
    ensures (w + k * t) * c == w * c + (k * c) * t
  {
  }

  lemma DoubledIs(attempt: nat)
    ensures Doubled(attempt) == Wrap64(Pow2(attempt) * SECOND)
  {
    WrapInside(Pow2(attempt), SECOND);
  }

  /** Each attempt doubles the previous value, modulo 64 bits. */
  lemma NextDoubled(attempt: nat)
    ensures Doubled(attempt + 1) == Wrap64(2 * Doubled(attempt))
  {
    DoubledIs(attempt);
    DoubledIs(attempt + 1);
    var x := Pow2(attempt) * SECOND;
    assert Pow2(attempt + 1) * SECOND == x * 2;
    WrapInside(x, 2);
    hide Wrap64, Doubled;
    assert Wrap64(x) * 2 == 2 * Wrap64(x);
  }

  /** Doubling a 64-bit value wraps at most once. */
  function Twice(x: int): int {
    if 2 * x >= TWO63 then 2 * x - TWO64 else if 2 * x < -TWO63 then 2 * x + TWO64 else 2 * x
  }

  lemma NextTwice(attempt: nat)
    ensures Doubled(attempt + 1) == Twice(Doubled(attempt))
  {
    NextDoubled(attempt);
    assert -TWO63 <= Doubled(attempt) < TWO63;
    hide Doubled;
  }

  lemma WrapSmall(y: int)
    requires -TWO63 <= y < TWO63
    ensures Wrap64(y) == y
  {
  }

  lemma PowAtMost33(attempt: nat)
    requires attempt <= 33
    ensures Pow2(attempt) <= Pow2(33)
  {
    PowSum(attempt, 33 - attempt);
    PowPositive(33 - attempt);
    hide Pow2;
    AtMost(Pow2(attempt), Pow2(33 - attempt));
  }

  lemma SmallDoubled(attempt: nat)
    requires attempt <= 33
    ensures Doubled(attempt) == Pow2(attempt) * SECOND
    ensures Pow2(attempt) <= Pow2(33) == 8_589_934_592
  {
    hide Pow2, Doubled, Wrap64;
    Pow33();
    PowAtMost33(attempt);
    DoubledIs(attempt);
    WrapSmall(Pow2(attempt) * SECOND);
  }

  lemma AtMost(a: nat, b: nat)
    requires b >= 1
    ensures a <= a * b
  {
  }

  lemma {:induction false} PowPositive(a: nat)
    ensures Pow2(a) >= 1
  {
    if a > 0 {
      PowPositive(a - 1);
    }
  }

  lemma PowNext(a: nat)
    ensures Pow2(a + 1) == 2 * Pow2(a)
  {
  }

  lemma DoubleTimes(x: int, y: int)
    ensures (2 * x) * y == 2 * (x * y)
  {
  }

  lemma {:induction false} PowSum(a: nat, b: nat)
    ensures Pow2(a) * Pow2(b) == Pow2(a + b)
  {
    if a > 0 {
      PowNext(a - 1);
      PowNext(a - 1 + b);
      PowSum(a - 1, b);
      hide Pow2;
      DoubleTimes(Pow2(a - 1), Pow2(b));
    }
  }

  lemma Pow33()
    ensures Pow2(33) == 8_589_934_592
  {
    assert Pow2(4) == 2 * Pow2(3) && Pow2(3) == 2 * Pow2(2) && Pow2(2) == 2 * Pow2(1);
    PowSum(4, 4);
    PowSum(8, 8);
    PowSum(16, 16);
    PowSum(32, 1);
  }

  /** The attempts past the 33rd whose wrapped pause is still long enough to be capped. */
  const LUCKY: set<nat> := {37, 41, 42, 45, 47, 50, 51, 53}

  /** Attempt by attempt, what 64 bits leave of the pauses from 34 to 55. */
  lemma WrappedTable()
    ensures Doubled(34) == -1266874889709551616 && Doubled(35) == -2533749779419103232
    ensures Doubled(36) == -5067499558838206464 && Doubled(37) == 8311744956033138688
    ensures Doubled(38) == -1823254161643274240 && Doubled(39) == -3646508323286548480
    ensures Doubled(40) == -7293016646573096960 && Doubled(41) == 3860710780563357696
    ensures Doubled(42) == 7721421561126715392 && Doubled(43) == -3003900951456120832
    ensures Doubled(44) == -6007801902912241664 && Doubled(45) == 6431140267885068288
    ensures Doubled(46) == -5584463537939415040 && Doubled(47) == 7277816997830721536
    ensures Doubled(48) == -3891110078048108544 && Doubled(49) == -7782220156096217088
    ensures Doubled(50) == 2882303761517117440 && Doubled(51) == 5764607523034234880
    ensures Doubled(52) == -6917529027641081856 && Doubled(53) == 4611686018427387904
    ensures Doubled(54) == -9223372036854775808 && Doubled(55) == 0
  {
    SmallDoubled(33);
    hide Doubled, Pow2;
    NextTwice(33);
    NextTwice(34);
    NextTwice(35);
    NextTwice(36);
    NextTwice(37);
    NextTwice(38);
    NextTwice(39);
    NextTwice(40);
    NextTwice(41);
    NextTwice(42);
    NextTwice(43);
    NextTwice(44);
    NextTwice(45);
    NextTwice(46);
    NextTwice(47);
    NextTwice(48);
    NextTwice(49);
    NextTwice(50);
    NextTwice(51);
    NextTwice(52);
    NextTwice(53);
    NextTwice(54);
  }

  lemma {:induction false} ZeroFrom55(attempt: nat)
    requires attempt >= 55
    ensures Doubled(attempt) == 0
    decreases attempt
  {
    if attempt == 55 {
      WrappedTable();
    } else {
      ZeroFrom55(attempt - 1);
      NextDoubled(attempt - 1);
    }
    hide Doubled;
  }

  /**
   The pause is the intended one exactly for the attempts up to 33 and a few later ones; for the
   others 64 bits wrap to a pause that ends at once.
   */
  lemma DelayCorrectIff(attempt: nat)
    ensures Delay(attempt) == Intended(attempt) <==> attempt <= 33 || attempt in LUCKY
    ensures Delay(attempt) != Intended(attempt) ==> Delay(attempt) <= 0
  {
    hide Doubled, Pow2;
    if attempt <= 33 {
      EarlyDelays(attempt);
    } else if attempt < 44 {
      WrappedTable();
      LuckyBelow44(attempt);
    } else if attempt < 55 {
      WrappedTable();
      LuckyFrom44(attempt);
    } else {
      ZeroFrom55(attempt);
    }
  }

  lemma LuckyBelow44(attempt: nat)
    requires 34 <= attempt < 44
    ensures attempt in LUCKY <==> attempt == 37 || attempt == 41 || attempt == 42
  {
  }

  lemma LuckyFrom44(attempt: nat)
    requires attempt >= 44
    ensures attempt in LUCKY <==> attempt in {45, 47, 50, 51, 53}
  {
  }

  lemma EarlyDelays(attempt: nat)
    requires attempt <= 33
    ensures Delay(attempt) == Intended(attempt)
  {
    SmallDoubled(attempt);
    hide Doubled;
    if attempt > 3 {
      PowSum(4, attempt - 4);
      PowPositive(attempt - 4);
      Sixteen();
      hide Pow2;
      SixteenTimes(Pow2(attempt - 4));
    } else {
      Sixteen();
    }
  }

  lemma Sixteen()
    ensures Pow2(0) == 1 && Pow2(1) == 2 && Pow2(2) == 4 && Pow2(3) == 8 && Pow2(4) == 16
  {
    assert Pow2(2) == 2 * Pow2(1) && Pow2(3) == 2 * Pow2(2) && Pow2(4) == 2 * Pow2(3);
  }

  lemma SixteenTimes(x: nat)
    requires x >= 1
    ensures 16 * x >= 16
  {
  }
}
