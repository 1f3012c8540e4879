/** Powers and a little nonlinear arithmetic. */
module Numbers {

  function Pow(b: nat, e: nat): (r: nat)
    ensures b > 0 ==> r > 0
  {
    if e == 0 then 1 else b * Pow(b, e - 1)
  }

  lemma {:induction false} PowAdds(b: nat, m: nat, n: nat)
    ensures Pow(b, m + n) == Pow(b, m) * Pow(b, n)
  {
    if m > 0 {
      PowAdds(b, m - 1, n);
      Associate(b, Pow(b, m - 1), Pow(b, n));
    }
  }

  lemma {:induction false} PowGrows(b: nat, m: nat, n: nat)
    requires b > 0 && m <= n
    ensures Pow(b, m) <= Pow(b, n)
  {
    if m < n {
      PowGrows(b, m, n - 1);
      AtLeastOnce(b, Pow(b, n - 1));
    }
  }

  lemma AtLeastOnce(b: nat, x: nat)
    requires b > 0
    ensures x <= b * x
  {
    assert (b - 1) * x >= 0;
  }

  lemma Associate(x: int, y: int, z: int)
    ensures x * (y * z) == (x * y) * z
  {
  }

  lemma Cancel(a: int, b: int, d: int)
    requires d > 0 && a * d < b * d
    ensures a < b
  {
    assert (b - a) * d > 0;
  }

  lemma CancelAtMost(a: int, b: int, d: int)
    requires d > 0 && a * d <= b * d
    ensures a <= b
  {
    Cancel(a, b + 1, d);
  }

  lemma QuotientBetween(x: int, d: int, lo: int, hi: int)
    requires d > 0 && lo * d <= x <= hi * d
    ensures lo <= x / d <= hi
  {
    var q := x / d;
    assert q * d <= x < (q + 1) * d;
    assert (hi + 1) * d == hi * d + d;
    Cancel(lo, q + 1, d);
    Cancel(q, hi + 1, d);
  }

  lemma SquareGrows(a: nat, b: nat)
    requires a <= b
    ensures a * a <= b * b
  {
    assert b * b - a * a == (b - a) * (b + a);
  }
}
