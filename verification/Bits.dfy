// Shifts and bitwise operators on unbounded integers, and the arithmetic they amount to.
module Bits {
  datatype BitOp = And | Or | AndNot

  function BitOf(op: BitOp, x: nat, y: nat): nat
    requires x < 2 && y < 2
  {
    match op
    case And => x * y
    case Or => if x == 1 then 1 else y
    case AndNot => if y == 1 then 0 else x
  }

  /** `x & m`, `x | m` or `x & ~m`, bit by bit, for a non-negative second operand. */
  function Bitwise(op: BitOp, x: int, m: nat): (r: int)
    ensures x >= 0 || op == And ==> r >= 0
    decreases m
  {
    if m == 0 then if op == And then 0 else x
    else 2 * Bitwise(op, x / 2, m / 2) + BitOf(op, x % 2, m % 2)
  }

  function Pow2(k: nat): (p: nat)
    ensures p > 0
  {
    if k == 0 then 1 else 2 * Pow2(k - 1)
  }

  /** `x << k`. */
  function Shl(x: int, k: nat): (r: int)
    ensures x >= 0 ==> r >= 0
    decreases k
  {
    if k == 0 then x else 2 * Shl(x, k - 1)
  }

  /** `x >> k`. */
  function Shr(x: int, k: nat): (r: int)
    ensures x >= 0 ==> r >= 0
    decreases k
  {
    if k == 0 then x else Shr(x / 2, k - 1)
  }

  lemma {:induction false} ShrAdd(x: int, j: nat, k: nat)
    ensures Shr(x, j + k) == Shr(Shr(x, j), k)
    decreases j
  {
    if j > 0 { ShrAdd(x / 2, j - 1, k); }
  }

  lemma {:induction false} ShlIsTimes(x: int, k: nat)
    ensures Shl(x, k) == x * Pow2(k)
    decreases k
  {
    if k > 0 { ShlIsTimes(x, k - 1); }
  }

  lemma {:induction false} ShrIsDiv(x: int, k: nat)
    ensures Shr(x, k) == x / Pow2(k)
    decreases k
  {
    if k > 0 {
      ShrIsDiv(x / 2, k - 1);
      HalveFirst(x, Pow2(k - 1));
    }
  }

  lemma HalveFirst(x: int, p: nat)
    requires p > 0
    ensures x / (2 * p) == x / 2 / p && x % (2 * p) == 2 * (x / 2 % p) + x % 2
  {
    var q, r := x / 2 / p, x / 2 % p;
    assert q * (2 * p) == 2 * (q * p);
    QuotientIs(x, 2 * p, q, 2 * r + x % 2);
  }

  lemma QuotientIs(x: int, d: nat, q: int, r: int)
    requires 0 <= r < d && x == q * d + r
    ensures x / d == q && x % d == r
  {
    var e := x / d - q;
    assert e * d == r - x % d;
    assert e >= 1 ==> e * d >= d;
    assert e <= -1 ==> e * d <= 0 - d;
  }

  lemma Halves(q: int, c: nat)
    ensures (2 * q + c) / 2 == q + c / 2 && (2 * q + c) % 2 == c % 2
  {
  }

  lemma SplitStep(op: BitOp, s: int, c: nat, t: nat, d: nat, u: int)
    requires Bitwise(op, s + c / 2, t + d / 2) == u + Bitwise(op, c / 2, d / 2)
    ensures Bitwise(op, 2 * s + c, 2 * t + d) == 2 * u + Bitwise(op, c, d)
  {
    hide Bitwise, BitOf;
    Halves(s, c);
    Halves(t, d);
    Unfold(op, 2 * s + c, 2 * t + d);
    Unfold(op, c, d);
  }

  lemma Doubles(x: int, k: nat)
    requires k > 0
    ensures Shl(x, k) == 2 * Shl(x, k - 1) && Pow2(k) == 2 * Pow2(k - 1)
  {
  }

  lemma SplitNothing(op: BitOp, a: int, b: nat)
    ensures Bitwise(op, 0, 0) == 0
    ensures Shl(a, 0) == a && Shl(b, 0) == b && Shl(Bitwise(op, a, b), 0) == Bitwise(op, a, b)
  {
  }

  /** An operation on words that are split at bit `k` splits there. */
  lemma {:induction false} SplitOp(op: BitOp, k: nat, a: int, c: nat, b: nat, d: nat)
    requires c < Pow2(k) && d < Pow2(k)
    ensures Bitwise(op, Shl(a, k) + c, Shl(b, k) + d) == Shl(Bitwise(op, a, b), k) + Bitwise(op, c, d)
    decreases k
  {
    hide Bitwise, Shl;
    if k == 0 {
      SplitNothing(op, a, b);
    } else {
      hide Pow2;
      Doubles(a, k);
      Doubles(b, k);
      Doubles(Bitwise(op, a, b), k);
      SplitOp(op, k - 1, a, c / 2, b, d / 2);
      SplitStep(op, Shl(a, k - 1), c, Shl(b, k - 1), d, Shl(Bitwise(op, a, b), k - 1));
    }
  }

  lemma Unfold(op: BitOp, x: int, m: nat)
    ensures Bitwise(op, x, m) == 2 * Bitwise(op, x / 2, m / 2) + BitOf(op, x % 2, m % 2)
  {
  }

  lemma {:induction false} OrZero(y: nat)
    ensures Bitwise(Or, 0, y) == y
  {
    if y > 0 { OrZero(y / 2); }
  }

  lemma MaskStep(x: int, p: nat)
    requires p > 0
    ensures Bitwise(And, x, 2 * p - 1) == 2 * Bitwise(And, x / 2, p - 1) + x % 2
  {
    assert 2 * p - 1 == 2 * (p - 1) + 1;
    Halves(p - 1, 1);
    Unfold(And, x, 2 * p - 1);
    hide Bitwise;
    assert BitOf(And, x % 2, 1) == x % 2;
  }

  /** Masking with `k` ones is the remainder by `2^k`, for negative numbers too. */
  lemma {:induction false} MaskIsMod(x: int, k: nat)
    ensures Bitwise(And, x, Pow2(k) - 1) == x % Pow2(k)
    decreases k
  {
    if k > 0 {
      hide Bitwise;
      MaskIsMod(x / 2, k - 1);
      MaskStep(x, Pow2(k - 1));
      HalveFirst(x, Pow2(k - 1));
    }
  }

  /** Or-ing in bits below the lowest one set adds them. */
  lemma OrAdds(hi: int, lo: nat, k: nat)
    requires lo < Pow2(k)
    ensures Bitwise(Or, Shl(hi, k), lo) == Shl(hi, k) + lo
  {
    OrZero(lo);
    ShlIsTimes(0, k);
    SplitOp(Or, k, hi, 0, 0, lo);
  }

  lemma {:induction false} ClearAll(x: nat, w: nat)
    requires x < Pow2(w)
    ensures Bitwise(AndNot, x, Pow2(w) - 1) == 0
    decreases w
  {
    if w > 0 {
      ClearAll(x / 2, w - 1);
      assert (Pow2(w) - 1) / 2 == Pow2(w - 1) - 1;
    }
  }

  lemma ClearField(q: nat, field: nat, low: nat, k: nat, w: nat)
    requires field < Pow2(w) && low < Pow2(k)
    ensures Bitwise(AndNot, Shl(Shl(q, w) + field, k) + low, Shl(Pow2(w) - 1, k)) == Shl(Shl(q, w), k) + low
  {
    var ones := Pow2(w) - 1;
    ShlIsTimes(0, w);
    SplitOp(AndNot, w, q, field, 0, ones);
    ClearAll(field, w);
    assert Bitwise(AndNot, Shl(q, w) + field, ones) == Shl(q, w);
    SplitOp(AndNot, k, Shl(q, w) + field, low, ones, 0);
  }

  lemma SetField(q: nat, low: nat, k: nat, w: nat, v: nat)
    requires v < Pow2(w) && low < Pow2(k)
    ensures Bitwise(Or, Shl(Shl(q, w), k) + low, Shl(v, k)) == Shl(Shl(q, w) + v, k) + low
  {
    OrAdds(q, v, w);
    assert Bitwise(Or, Shl(q, w), v) == Shl(q, w) + v;
    hide Bitwise, Shl, Pow2;
    OrNothing(low);
    SplitOp(Or, k, Shl(q, w), low, v, 0);
  }

  lemma OrNothing(x: nat)
    ensures Bitwise(Or, x, 0) == x
  {
  }

  /** Clearing the field of `w` bits at bit `k`, then or-ing a value into it, replaces exactly that field. */
  lemma Overwrite(q: nat, field: nat, low: nat, k: nat, w: nat, v: nat)
    requires field < Pow2(w) && v < Pow2(w) && low < Pow2(k)
    ensures Bitwise(Or, Bitwise(AndNot, Shl(Shl(q, w) + field, k) + low, Shl(Pow2(w) - 1, k)), Shl(v, k))
            == Shl(Shl(q, w) + v, k) + low
  {
    ClearField(q, field, low, k, w);
    SetField(q, low, k, w, v);
  }

  lemma Pow2Step(k: nat)
    ensures Pow2(k + 8) == 0x100 * Pow2(k)
  {
    assert Pow2(k + 8) == 4 * Pow2(k + 6);
    assert Pow2(k + 6) == 4 * Pow2(k + 4);
    assert Pow2(k + 4) == 4 * Pow2(k + 2);
  }

  lemma SmallPowers()
    ensures Pow2(2) == 4 && Pow2(4) == 16 && Pow2(6) == 0x40 && Pow2(8) == 0x100 && Pow2(12) == 0x1000
    ensures Pow2(16) == 0x1_0000 && Pow2(32) == 0x1_0000_0000 && Pow2(48) == 0x1_0000_0000_0000
  {
    Pow2Step(0); Pow2Step(8); Pow2Step(16); Pow2Step(24); Pow2Step(32); Pow2Step(40);
    assert Pow2(8 + 4) == 16 * Pow2(8);
  }

  /** The powers that 128-bit layouts need. */
  lemma Pow2Values()
    ensures Pow2(2) == 4 && Pow2(4) == 16 && Pow2(6) == 0x40 && Pow2(8) == 0x100 && Pow2(12) == 0x1000
    ensures Pow2(16) == 0x1_0000 && Pow2(32) == 0x1_0000_0000 && Pow2(48) == 0x1_0000_0000_0000
    ensures Pow2(56) == 0x100_0000_0000_0000 && Pow2(61) == 0x2000_0000_0000_0000
    ensures Pow2(62) == 0x4000_0000_0000_0000 && Pow2(63) == 0x8000_0000_0000_0000
    ensures Pow2(64) == 0x1_0000_0000_0000_0000 && Pow2(76) == 0x1000_0000_0000_0000_0000
    ensures Pow2(80) == 0x1_0000_0000_0000_0000_0000 && Pow2(96) == 0x1_0000_0000_0000_0000_0000_0000
    ensures Pow2(128) == 0x1_0000_0000_0000_0000_0000_0000_0000_0000
  {
    hide Pow2;
    SmallPowers();
    Pow2Step(48); Pow2Step(56); Pow2Step(64); Pow2Step(72); Pow2Step(80); Pow2Step(88);
    Pow2Step(96); Pow2Step(104); Pow2Step(112); Pow2Step(120);
    Pow2Next(61); Pow2Next(62); Pow2Next(63);
    Pow2Next(76); Pow2Next(77); Pow2Next(78); Pow2Next(79);
  }

  lemma Pow2Next(k: nat)
    ensures Pow2(k + 1) == 2 * Pow2(k)
  {
  }

  /** `(x >> k) & mask` is a slice. */
  lemma Slice(x: int, k: nat, w: nat, shift: nat, mask: nat)
    requires shift == Pow2(k) && mask == Pow2(w) - 1
    ensures Bitwise(And, Shr(x, k), mask) == x / shift % (mask + 1)
  {
    ShrIsDiv(x, k);
    MaskIsMod(Shr(x, k), w);
  }

  /** `(hi << k) | lo` is a sum, with the power of two as a number. */
  lemma Joins(hi: int, lo: nat, k: nat, shift: nat)
    requires shift == Pow2(k) && lo < shift
    ensures Shl(hi, k) == hi * shift && Bitwise(Or, hi * shift, lo) == hi * shift + lo
  {
    ShlIsTimes(hi, k);
    OrAdds(hi, lo, k);
  }

  /** `x & (1 << k)` tests bit `k`. */
  lemma TestBit(x: nat, k: nat)
    ensures Bitwise(And, x, Shl(1, k)) == 0 <==> x / Pow2(k) % 2 == 0
  {
    hide Bitwise, Shl, Pow2;
    var hi, low := x / Pow2(k), x % Pow2(k);
    ShlIsTimes(hi, k);
    SplitOp(And, k, hi, low, 1, 0);
    LowestBit(hi);
    AndZero(low);
    ShlIsTimes(hi % 2, k);
  }

  lemma LowestBit(x: nat)
    ensures Bitwise(And, x, 1) == x % 2
  {
  }

  lemma AndZero(x: nat)
    ensures Bitwise(And, x, 0) == 0
  {
  }
}
