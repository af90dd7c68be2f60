/** JavaScript's 32-bit integer operators, on mathematical integers. */
module Js {
  import opened Numbers

  const B31 := 0x8000_0000
  const B32 := 0x1_0000_0000

  function ToUint32(x: int): (r: nat)
    ensures r < B32
  {
    x % B32
  }

  function ToInt32(x: int): (r: int)
    ensures -B31 <= r < B31
  {
    var u := x % B32;
    if u >= B31 then u - B32 else u
  }

  function Pow2(k: nat): (r: nat)
    ensures r > 0
  {
    if k == 0 then 1 else 2 * Pow2(k - 1)
  }

  /** `x << k` for 0 <= k < 32. */
  function Shl(x: int, k: nat): int {
    ToInt32(ToInt32(x) * Pow2(k))
  }

  /** `x >>> k` for 0 <= k < 32. */
  function UShr(x: int, k: nat): nat {
    DivIsNat(ToUint32(x), Pow2(k));
    ToUint32(x) / Pow2(k)
  }

  function BitOr(a: nat, b: nat): nat {
    if a == 0 && b == 0 then 0 else 2 * BitOr(a / 2, b / 2) + (if a % 2 == 1 || b % 2 == 1 then 1 else 0)
  }

  function BitXor(a: nat, b: nat): nat {
    if a == 0 && b == 0 then 0 else 2 * BitXor(a / 2, b / 2) + (if a % 2 != b % 2 then 1 else 0)
  }

  function BitAnd(a: nat, b: nat): nat {
    if a == 0 && b == 0 then 0 else 2 * BitAnd(a / 2, b / 2) + (if a % 2 == 1 && b % 2 == 1 then 1 else 0)
  }

  /** `x | y`, `x ^ y`, `x & y`. */
  function Or(x: int, y: int): int { ToInt32(BitOr(ToUint32(x), ToUint32(y))) }
  function Xor(x: int, y: int): int { ToInt32(BitXor(ToUint32(x), ToUint32(y))) }
  function And(x: int, y: int): int { ToInt32(BitAnd(ToUint32(x), ToUint32(y))) }

  /** `Math.imul(x, y)`: the low 32 bits of the product, signed. */
  function Imul(x: int, y: int): int { ToInt32(ToInt32(x) * ToInt32(y)) }

  lemma SignIsLost(x: int)
    ensures ToUint32(ToInt32(x)) == ToUint32(x)
  {
    DivModUnique(ToInt32(x), B32, if x % B32 >= B31 then -1 else 0, x % B32);
  }

  /** Multiplying before or after dropping multiples of 2^32 makes no difference to the low 32 bits. */
  lemma LowBitsOfProduct(x: int, y: int)
    ensures ToUint32(ToInt32(x) * y) == ToUint32(x * y)
  {
    var k := x / B32 + (if x % B32 >= B31 then 1 else 0);
    assert x == ToInt32(x) + k * B32;
    calc {
      x * y;
      (ToInt32(x) + k * B32) * y;
      ToInt32(x) * y + (k * y) * B32;
    }
    var p := ToInt32(x) * y;
    DivModUnique(x * y, B32, p / B32 + k * y, p % B32);
  }

  lemma {:induction false} OrOfDisjoint(a: nat, b: nat, k: nat)
    requires a % Pow2(k) == 0 && b < Pow2(k)
    ensures BitOr(a, b) == a + b
    decreases k
  {
    if k == 0 {
      OrZero(a);
    } else {
      var p := Pow2(k - 1);
      assert a % 2 == 0 && (a / 2) % p == 0 by {
        var q := a / Pow2(k);
        assert a == q * (2 * p) == 2 * (q * p);
        DivModUnique(a / 2, p, q, 0);
      }
      OrOfDisjoint(a / 2, b / 2, k - 1);
    }
  }

  lemma {:induction false} OrZero(a: nat)
    ensures BitOr(a, 0) == a
  {
    if a > 0 { OrZero(a / 2); }
  }

  lemma AndOdd(a: nat, h: nat)
    ensures BitAnd(a, 2 * h + 1) == 2 * BitAnd(a / 2, h) + a % 2
  {
    var m := 2 * h + 1;
    assert m / 2 == h && m % 2 == 1;
  }

  /** The low k bits of a. */
  function LowBits(a: nat, k: nat): nat {
    if k == 0 then 0 else 2 * LowBits(a / 2, k - 1) + a % 2
  }

  lemma {:induction false} MaskKeepsLowBits(a: nat, k: nat)
    ensures BitAnd(a, Pow2(k) - 1) == LowBits(a, k)
    decreases k
  {
    if k == 0 {
      AndZero(a);
    } else {
      AndOdd(a, Pow2(k - 1) - 1);
      MaskKeepsLowBits(a / 2, k - 1);
    }
  }

  lemma {:induction false} LowBitsAreRemainder(a: nat, k: nat)
    ensures LowBits(a, k) == a % Pow2(k)
    decreases k
  {
    if k > 0 {
      LowBitsAreRemainder(a / 2, k - 1);
      DoubleMod(a, Pow2(k - 1));
    }
  }

  /** Masking with 2^k - 1 keeps the low k bits. */
  lemma AndMask(a: nat, k: nat)
    ensures BitAnd(a, Pow2(k) - 1) == a % Pow2(k)
  {
    MaskKeepsLowBits(a, k);
    LowBitsAreRemainder(a, k);
  }

  lemma ByteMaskOf(x: nat, y: nat)
    requires x == y < B32
    ensures And(x, 255) == y % 256
  {
    assert ToUint32(x) == y && ToUint32(255) == 255;
    MaskByte(y);
  }

  lemma MaskByte(a: nat)
    ensures BitAnd(a, 255) == a % 256
  {
    assert Pow2(8) == 256;
    AndMask(a, 8);
  }

  /** A product that fits 32 bits survives the signed shift. */
  lemma ShiftFits(x: nat, k: nat, p: nat)
    requires p == Pow2(k) && x * p < B32
    ensures ToUint32(Shl(x, k)) == x * p
  {
    LowBitsOfProduct(x, p);
    SignIsLost(ToInt32(x) * p);
  }

  lemma OrAddsNat(u: nat, w: nat, k: nat, p: nat, q: nat)
    requires p == Pow2(k) && u == q * p && w < p
    ensures BitOr(u, w) == u + w
  {
    MultipleMod(q, p);
    OrOfDisjoint(u, w, k);
  }

  /** Combining disjoint bits adds. */
  lemma OrAdds(x: int, y: int, u: nat, w: nat, k: nat, p: nat, q: nat)
    requires p == Pow2(k) && ToUint32(x) == u == q * p && ToUint32(y) == w < p && u + w < B32
    ensures ToUint32(Or(x, y)) == u + w
  {
    OrAddsNat(u, w, k, p, q);
    OrKeeps(x, y, u, w);
  }

  lemma OrKeeps(x: int, y: int, u: nat, w: nat)
    requires ToUint32(x) == u && ToUint32(y) == w && BitOr(u, w) == u + w < B32
    ensures ToUint32(Or(x, y)) == u + w
  {
    var v := BitOr(u, w);
    assert Or(x, y) == ToInt32(v);
    SignIsLost(v);
  }

  lemma DoubleMod(a: nat, p: nat)
    requires p > 0
    ensures a % (2 * p) == 2 * ((a / 2) % p) + a % 2
  {
    var q, r := (a / 2) / p, (a / 2) % p;
    assert a / 2 == q * p + r;
    assert a == q * (2 * p) + (2 * r + a % 2);
    DivModUnique(a, 2 * p, q, 2 * r + a % 2);
  }

  lemma {:induction false} AndZero(a: nat)
    ensures BitAnd(a, 0) == 0
  {
    if a > 0 { AndZero(a / 2); }
  }

  lemma {:induction false} XorBound(a: nat, b: nat, k: nat)
    requires a < Pow2(k) && b < Pow2(k)
    ensures BitXor(a, b) < Pow2(k)
    decreases k
  {
    if k > 0 { XorBound(a / 2, b / 2, k - 1); }
  }

  lemma Pow2Values()
    ensures Pow2(8) == 0x100 && Pow2(16) == 0x1_0000 && Pow2(24) == 0x100_0000 && Pow2(32) == B32
  {
    assert Pow2(4) == 16;
    assert Pow2(8) == 0x100;
    assert Pow2(12) == 0x1000;
    assert Pow2(16) == 0x1_0000;
    assert Pow2(20) == 0x10_0000;
    assert Pow2(24) == 0x100_0000;
    assert Pow2(28) == 0x1000_0000;
  }
}
