/** Facts about products and remainders that the solver does not find by itself. */
module Numbers {

  function Min(a: int, b: int): int {
    if a < b then a else b
  }

  lemma ProductBounds(d: int, m: int)
    requires m > 0
    ensures d >= 1 ==> d * m >= m
    ensures d <= -1 ==> d * m <= -m
  {
  }

  lemma DivIsNat(x: nat, m: nat)
    requires m > 0
    ensures x / m >= 0
  {
    assert x == (x / m) * m + x % m;
    ProductBounds(x / m, m);
  }

  lemma DivModUnique(x: int, m: int, q: int, r: int)
    requires m > 0 && 0 <= r < m && x == q * m + r
    ensures x / m == q && x % m == r
  {
    var d := x / m - q;
    assert x == (x / m) * m + x % m;
    assert d * m == (x / m) * m - q * m;
    ProductBounds(d, m);
  }

  lemma MultipleMod(a: int, p: int)
    requires p > 0
    ensures (a * p) % p == 0
  {
    DivModUnique(a * p, p, a, 0);
  }

  /** The largest multiple of p not above n. */
  function RoundDown(n: nat, p: nat): (r: nat)
    requires p > 0
    ensures r <= n < r + p && r == n / p * p
  {
    DivIsNat(n, p);
    assert n == n / p * p + n % p;
    n - n % p
  }

  lemma RoundDownFits(n: nat, p: nat, top: nat)
    requires p > 0 && n < top * p
    ensures RoundDown(n, p) + p <= top * p && RoundDown(n, p) % p == 0
    ensures RoundDown(RoundDown(n, p), p) == RoundDown(n, p)
  {
    var q := n / p;
    DivIsNat(n, p);
    MultipleMod(q, p);
    ProductBounds(top - q, p);
    ProductBounds(q - top, p);
    assert (top - q) * p == top * p - q * p;
    assert (q - top) * p == q * p - top * p;
    DivModUnique(q * p, p, q, 0);
  }

  lemma Base256(v: nat)
    requires v < 0x1_0000_0000
    ensures v == (v / 0x100_0000) % 256 * 0x100_0000 + (v / 0x1_0000) % 256 * 0x1_0000
                 + (v / 0x100) % 256 * 0x100 + v % 256
  {
    var a := v / 256;
    var b := a / 256;
    assert v / 0x1_0000 == b;
    assert v / 0x100_0000 == b / 256;
    assert b / 256 < 256;
  }
}
