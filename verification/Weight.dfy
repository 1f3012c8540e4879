/** Process weights from nice values. */
module Weights {
  import opened Numbers

  function Clamp(niceVal: int): (r: int)
    ensures 0 <= r <= 30
  {
    if niceVal > 30 then 30 else if niceVal < 0 then 0 else niceVal
  }

  /** 1024 / 1.25^(n + 1), rounded down, for the clamped nice value n. */
  function Weight(niceVal: int): int {
    1024 * Pow(4, Clamp(niceVal) + 1) / Pow(5, Clamp(niceVal) + 1)
  }

  /** The loop of calculateWight, with the loop counter advancing as it was meant to. */
  method CalculateWight(niceVal: int) returns (result: int)
    ensures result == Weight(niceVal)
  {
    var nice := niceVal;
    if nice > 30 {
      nice := 30;
    } else if nice < 0 {
      nice := 0;
    }
    var denom := 1.25;
    var i := 0;
    FirstDenom();
    while i < nice && nice > 0
      invariant 0 <= i <= nice
      invariant IsPower(denom, i + 1)
    {
      NextDenom(denom, i + 1);
      denom := denom * 1.25;
      i := i + 1;
    }
    FloorOfPower(denom, i + 1);
    result := (1024.0 / denom).Floor;
  }

  /** d is 1.25 to the power e. */
  ghost predicate IsPower(d: real, e: nat) {
    d * (Pow(4, e) as real) == Pow(5, e) as real
  }

  lemma FirstDenom()
    ensures IsPower(1.25, 1)
  {
    assert Pow(4, 1) == 4 && Pow(5, 1) == 5;
  }

  lemma NextDenom(d: real, e: nat)
    requires IsPower(d, e)
    ensures IsPower(d * 1.25, e + 1)
  {
    var p4, p5 := Pow(4, e), Pow(5, e);
    assert (d * 1.25) * ((4 * p4) as real) == 5.0 * (d * (p4 as real));
  }

  lemma FloorOfPower(d: real, e: nat)
    requires IsPower(d, e)
    ensures d > 0.0 && (1024.0 / d).Floor == 1024 * Pow(4, e) / Pow(5, e)
  {
    FloorOfQuotient(1024, Pow(4, e), Pow(5, e), d);
  }

  lemma FloorOfQuotient(c: nat, a: nat, b: nat, denom: real)
    requires a > 0 && b > 0 && denom * (a as real) == b as real
    ensures denom > 0.0 && (c as real / denom).Floor == c * a / b
  {
    var ra, rb, rc := a as real, b as real, c as real;
    Positive(denom, ra);
    var x, q := rc / denom, c * a / b;
    assert x * denom == rc;
    assert x * rb == rc * ra by {
      assert x * rb == x * (denom * ra) == (x * denom) * ra;
    }
    assert q * b <= c * a < (q + 1) * b;
    assert (q as real) * rb <= rc * ra < ((q + 1) as real) * rb by {
      assert (q * b) as real == (q as real) * rb;
      assert (c * a) as real == rc * ra;
      assert ((q + 1) * b) as real == ((q + 1) as real) * rb;
    }
    CancelReal(q as real, x, rb);
    CancelStrict(x, (q + 1) as real, rb);
  }

  lemma Positive(x: real, a: real)
    requires a > 0.0 && x * a > 0.0
    ensures x > 0.0
  {
  }

  lemma CancelReal(x: real, y: real, b: real)
    requires b > 0.0 && x * b <= y * b
    ensures x <= y
  {
    assert (y - x) * b >= 0.0;
  }

  lemma CancelStrict(x: real, y: real, b: real)
    requires b > 0.0 && x * b < y * b
    ensures x < y
  {
    Positive(y - x, b);
  }

  lemma TwentiethPowers()
    ensures Pow(4, 10) == 1048576 && Pow(5, 10) == 9765625
    ensures Pow(4, 20) == 1099511627776 && Pow(5, 20) == 95367431640625
  {
    assert Pow(4, 5) == 1024 && Pow(5, 5) == 3125;
    PowAdds(4, 5, 5);
    PowAdds(5, 5, 5);
    PowAdds(4, 10, 10);
    PowAdds(5, 10, 10);
  }

  lemma LatePowers()
    ensures Pow(4, 23) == 70368744177664 && Pow(5, 23) == 11920928955078125
    ensures Pow(4, 24) == 281474976710656 && Pow(5, 24) == 59604644775390625
    ensures Pow(4, 25) == 1125899906842624 && Pow(5, 25) == 298023223876953125
    ensures Pow(4, 26) == 4503599627370496 && Pow(5, 26) == 1490116119384765625
    ensures Pow(4, 27) == 18014398509481984 && Pow(5, 27) == 7450580596923828125
    ensures Pow(4, 28) == 72057594037927936 && Pow(5, 28) == 37252902984619140625
    ensures Pow(4, 29) == 288230376151711744 && Pow(5, 29) == 186264514923095703125
    ensures Pow(4, 30) == 1152921504606846976 && Pow(5, 30) == 931322574615478515625
    ensures Pow(4, 31) == 4611686018427387904 && Pow(5, 31) == 4656612873077392578125
  {
    TwentiethPowers();
  }

  lemma SmallestWeight()
    ensures Weight(30) == 1
  {
    LatePowers();
  }

  lemma LargestWeight()
    ensures Weight(0) == 819
  {
    assert Pow(4, 1) == 4 && Pow(5, 1) == 5;
  }

  lemma {:induction false} WeightRange(niceVal: int)
    ensures 1 <= Weight(niceVal) <= 819
  {
    var n := Clamp(niceVal);
    SmallestWeight();
    LargestWeight();
    WeightFalls(0, n);
    WeightFalls(n, 30);
  }

  lemma OneMoreFactor(n: nat)
    requires n <= 30
    ensures Weight(n) == 4 * (1024 * Pow(4, n)) / (5 * Pow(5, n))
  {
    Commute(Pow(4, n));
  }

  lemma Commute(x: int)
    ensures 1024 * (4 * x) == 4 * (1024 * x)
  {
  }

  /** A nicer process never weighs more. */
  lemma {:induction false} WeightFalls(m: int, n: int)
    requires m <= n
    ensures Weight(n) <= Weight(m)
    decreases Clamp(n) - Clamp(m)
  {
    if Clamp(m) < Clamp(n) {
      var k := Clamp(m) + 1;
      QuotientFalls(1024 * Pow(4, k), Pow(5, k));
      OneMoreFactor(k);
      WeightFalls(k, n);
    }
  }

  lemma QuotientFalls(a: nat, b: nat)
    requires b > 0
    ensures 4 * a / (5 * b) <= a / b
  {
    var q, r := a / b, 4 * a / (5 * b);
    assert a < (q + 1) * b;
    assert r * (5 * b) <= 4 * a < 5 * ((q + 1) * b);
    assert 5 * ((q + 1) * b) == (q + 1) * (5 * b);
    Cancel(r, q + 1, 5 * b);
  }

  // ----- the documented formula -----

  /** 1024 / 1.25^n, rounded down: the weight that the documentation gives. */
  function Documented(niceVal: int): int {
    1024 * Pow(4, Clamp(niceVal)) / Pow(5, Clamp(niceVal))
  }

  /** The code computes one factor more than documented: the two agree only where rounding hides the difference. */
  lemma DocumentedExactly(niceVal: int)
    ensures Weight(niceVal) == Documented(niceVal) <==> Clamp(niceVal) == 25 || Clamp(niceVal) >= 28
  {
    if Clamp(niceVal) <= 23 {
      EarlyWeightsDiffer(Clamp(niceVal));
    } else {
      LateWeights(Clamp(niceVal));
    }
  }

  lemma EarlyWeightsDiffer(n: nat)
    requires n <= 23
    ensures Weight(n) < Documented(n)
  {
    DocumentedAtLeast(n);
    OneFactorLess(1024 * Pow(4, n), Pow(5, n));
    OneMoreFactor(n);
  }

  lemma LateWeights(n: nat)
    requires 24 <= n <= 30
    ensures Weight(n) == Documented(n) <==> n == 25 || n >= 28
  {
    LatePowers();
  }

  lemma DocumentedShifts(n: nat)
    requires 1 <= n <= 30
    ensures Documented(n) == Weight(n - 1)
  {
  }

  lemma DocumentedInside()
    ensures Documented(0) == 1024 && Weight(22) == 6
  {
    LatePowers();
  }

  lemma DocumentedAtLeast(n: nat)
    requires n <= 23
    ensures Documented(n) >= 5
  {
    DocumentedInside();
    if n > 0 {
      DocumentedShifts(n);
      WeightFalls(n - 1, 22);
    }
  }

  lemma OneFactorLess(a: nat, b: nat)
    requires b > 0 && a / b >= 5
    ensures 4 * a / (5 * b) < a / b
  {
    var q, r := a / b, 4 * a / (5 * b);
    assert a < (q + 1) * b;
    assert r * (5 * b) <= 4 * a < 4 * ((q + 1) * b);
    assert 4 * ((q + 1) * b) <= q * (5 * b) by {
      assert q * (5 * b) - 4 * ((q + 1) * b) == (q - 4) * b;
    }
    Cancel(r, q, 5 * b);
  }

  // ----- the loop as it stands, without the increment -----

  datatype LoopState = LoopState(i: int, denom: real)

  predicate LoopGuard(s: LoopState, nice: int) {
    s.i < nice && nice > 0
  }

  /** The loop variables after k rounds of the loop body, which only multiplies denom. */
  function AfterRounds(k: nat): LoopState {
    if k == 0 then LoopState(0, 1.25) else
      var s := AfterRounds(k - 1);
      s.(denom := s.denom * 1.25)
  }

  lemma {:induction false} CounterStays(k: nat)
    ensures AfterRounds(k).i == 0
  {
    if k > 0 {
      CounterStays(k - 1);
    }
  }

  /** Without the increment the loop is left if and only if the nice value is not positive. */
  lemma UnadvancedLoopStops(niceVal: int)
    ensures (exists k: nat :: !LoopGuard(AfterRounds(k), Clamp(niceVal))) <==> niceVal <= 0
  {
    if niceVal <= 0 {
      assert !LoopGuard(AfterRounds(0), Clamp(niceVal));
    } else {
      forall k: nat ensures LoopGuard(AfterRounds(k), Clamp(niceVal)) {
        CounterStays(k);
      }
    }
  }
}
