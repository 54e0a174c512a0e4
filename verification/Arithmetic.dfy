/** Positions counted in blocks of `n`. */
module Arithmetic {

  lemma AtMost(n: nat, a: nat, b: nat)
    requires a <= b
    ensures 0 <= n * a <= n * b
  {
  }

  lemma OneMore(n: nat, m: nat)
    ensures n * (m + 1) == n * m + n
  {
  }

  lemma Coordinates(n: nat, p: nat)
    requires n > 0
    ensures 0 <= n * (p / n) && p == n * (p / n) + p % n && p % n < n
  {
  }

  lemma AtLeastOnce(n: nat, d: nat)
    requires d >= 1
    ensures n * d >= n
  {
    assert n * d == n * (d - 1) + n;
  }

  lemma Near(n: nat, a: int, b: int)
    requires 0 - n < n * (a - b) < n
    ensures a == b
  {
    assert n * (a - b) == 0 - n * (b - a);
    if a > b { AtLeastOnce(n, a - b); }
    if a < b { AtLeastOnce(n, b - a); }
  }

  lemma SameCoordinates(n: nat, k: nat, r: nat)
    requires n > 0 && r < n
    ensures 0 <= n * k && (n * k + r) / n == k && (n * k + r) % n == r
  {
    var p := n * k + r;
    Coordinates(n, p);
    assert n * (p / n - k) == n * (p / n) - n * k;
    Near(n, p / n, k);
  }

  lemma AlignedSum(n: nat, p: nat, m: nat)
    requires n > 0 && p % n == 0 && m % n == 0
    ensures (p + m) % n == 0
  {
    Coordinates(n, p);
    Coordinates(n, m);
    assert p + m == n * (p / n + m / n) + 0;
    SameCoordinates(n, p / n + m / n, 0);
  }

  lemma Once(n: nat)
    requires n > 0
    ensures n % n == 0 && 0 % n == 0 && forall m: nat :: m < n && m % n == 0 ==> m == 0
  {
    SameCoordinates(n, 1, 0);
  }

  lemma AlignedRest(n: nat, m: nat)
    requires n > 0 && m >= n && m % n == 0
    ensures (m - n) % n == 0
  {
    Coordinates(n, m);
    assert m / n >= 1;
    assert m - n == n * (m / n - 1) + 0;
    SameCoordinates(n, m / n - 1, 0);
  }
}
