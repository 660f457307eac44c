/**
 * Integer helpers for the JavaScript bit operators.
 *
 * Values are plain integers. A mask with a constant (`x & 0xff`) is written
 * as arithmetic (`x % 0x100`) where it is used; `And`, `Or` and `Xor` model
 * the operators between two variable operands over the low `w` bits.
 */
module Bits {
  type byte = x: int | 0 <= x < 0x100
  type word = x: int | 0 <= x < 0x1_0000

  function Pow2(n: nat): (r: nat)
    ensures r >= 1
  {
    if n == 0 then 1 else 2 * Pow2(n - 1)
  }

  /** Quotient and remainder are determined by any decomposition `x == q * d + r` with `0 <= r < d`. */
  lemma DivModOf(x: int, d: int, q: int, r: int)
    requires d > 0 && 0 <= r < d && x == q * d + r
    ensures x / d == q && x % d == r
  {
    var q', r' := x / d, x % d;
    assert (q - q') * d == r' - r;
    if q > q' {
      MulAtLeast(q - q', d);
    } else if q < q' {
      MulAtLeast(q' - q, d);
    }
  }

  lemma MulAtLeast(k: int, d: int)
    requires k >= 1 && d > 0
    ensures k * d >= d
  {
    assert k * d == (k - 1) * d + d;
  }

  /** `p` less its bit of weight `w`, for `p < 2 * w`: peeling the top bits off a status byte one at a time. */
  function Below(p: int, w: int): int
  {
    if p >= w then p - w else p
  }

  /** Bit `k` of `x` (`(x >>> k) & 1`). */
  function Bit(x: nat, k: nat): bool
  {
    if k == 0 then x % 2 == 1 else Bit(x / 2, k - 1)
  }

  /** `a & b` on the low `w` bits. */
  function And(a: nat, b: nat, w: nat): (r: nat)
    ensures r < Pow2(w)
  {
    if w == 0 then 0
    else 2 * And(a / 2, b / 2, w - 1) + (if a % 2 == 1 && b % 2 == 1 then 1 else 0)
  }

  /** `a | b` on the low `w` bits. */
  function Or(a: nat, b: nat, w: nat): (r: nat)
    ensures r < Pow2(w)
  {
    if w == 0 then 0
    else 2 * Or(a / 2, b / 2, w - 1) + (if a % 2 == 1 || b % 2 == 1 then 1 else 0)
  }

  /** `a ^ b` on the low `w` bits. */
  function Xor(a: nat, b: nat, w: nat): (r: nat)
    ensures r < Pow2(w)
  {
    if w == 0 then 0
    else 2 * Xor(a / 2, b / 2, w - 1) + (if (a % 2 == 1) != (b % 2 == 1) then 1 else 0)
  }

  /** `~a` restricted to the low `w` bits. */
  function Not(a: nat, w: nat): (r: nat)
    ensures r < Pow2(w)
  {
    if w == 0 then 0 else 2 * Not(a / 2, w - 1) + (if a % 2 == 1 then 0 else 1)
  }

  lemma {:induction false} BitOfAnd(a: nat, b: nat, w: nat, k: nat)
    requires k < w
    ensures Bit(And(a, b, w), k) == (Bit(a, k) && Bit(b, k))
    decreases k
  {
    if k > 0 {
      BitOfAnd(a / 2, b / 2, w - 1, k - 1);
    }
  }

  lemma {:induction false} BitOfOr(a: nat, b: nat, w: nat, k: nat)
    requires k < w
    ensures Bit(Or(a, b, w), k) == (Bit(a, k) || Bit(b, k))
    decreases k
  {
    if k > 0 {
      BitOfOr(a / 2, b / 2, w - 1, k - 1);
    }
  }

  lemma {:induction false} BitOfXor(a: nat, b: nat, w: nat, k: nat)
    requires k < w
    ensures Bit(Xor(a, b, w), k) == (Bit(a, k) != Bit(b, k))
    decreases k
  {
    if k > 0 {
      BitOfXor(a / 2, b / 2, w - 1, k - 1);
    }
  }

  /** Two `w`-bit values are bitwise complements exactly when they add up to all ones. */
  lemma {:induction false} XorAllOnes(a: nat, b: nat, w: nat)
    requires a < Pow2(w) && b < Pow2(w)
    ensures Xor(a, b, w) == Pow2(w) - 1 <==> a + b == Pow2(w) - 1
    decreases w
  {
    if w > 0 {
      XorAllOnes(a / 2, b / 2, w - 1);
    }
  }

  /** The top bit of a `w`-bit value is set exactly when the value is at least `2^(w-1)`. */
  lemma {:induction false} TopBit(x: nat, w: nat)
    requires 0 < w && x < Pow2(w)
    ensures Bit(x, w - 1) == (x >= Pow2(w - 1))
    decreases w
  {
    if w > 1 {
      TopBit(x / 2, w - 1);
    }
  }

  /** The powers of two used as widths and moduli. */
  lemma Pow2Values()
    ensures Pow2(4) == 0x10 && Pow2(8) == 0x100 && Pow2(12) == 0x1000 && Pow2(16) == 0x1_0000
  {
    assert Pow2(1) == 2;
    assert Pow2(2) == 4;
    assert Pow2(3) == 8;
    assert Pow2(4) == 0x10;
    assert Pow2(5) == 0x20;
    assert Pow2(6) == 0x40;
    assert Pow2(7) == 0x80;
    assert Pow2(8) == 0x100;
    assert Pow2(9) == 0x200;
    assert Pow2(10) == 0x400;
    assert Pow2(11) == 0x800;
    assert Pow2(12) == 0x1000;
    assert Pow2(13) == 0x2000;
    assert Pow2(14) == 0x4000;
    assert Pow2(15) == 0x8000;
  }

  lemma {:induction false} BitOfNot(a: nat, w: nat, k: nat)
    requires k < w
    ensures Bit(Not(a, w), k) == !Bit(a, k)
    decreases k
  {
    if k > 0 {
      BitOfNot(a / 2, w - 1, k - 1);
    }
  }

  lemma {:induction false} BitOfZero(k: nat)
    ensures !Bit(0, k)
  {
    if k > 0 {
      BitOfZero(k - 1);
    }
  }

  /** `1 << k` has bit `k` and no other. */
  lemma {:induction false} BitOfPow2(k: nat, j: nat)
    ensures Bit(Pow2(k), j) == (j == k)
    decreases k
  {
    if k == 0 {
      if j > 0 {
        BitOfZero(j - 1);
      }
    } else if j > 0 {
      BitOfPow2(k - 1, j - 1);
    }
  }

  /** A value below `2^w` has no bit at position `w` or above. */
  lemma {:induction false} BitAboveWidth(x: nat, w: nat, j: nat)
    requires x < Pow2(w) && j >= w
    ensures !Bit(x, j)
    decreases j
  {
    if w == 0 {
      assert x == 0;
      BitOfZero(j);
    } else {
      BitAboveWidth(x / 2, w - 1, j - 1);
    }
  }

  /** Equal low bits give equal values. */
  lemma {:induction false} BitsDetermine(x: nat, y: nat, w: nat)
    requires x < Pow2(w) && y < Pow2(w)
    requires forall j :: 0 <= j < w ==> Bit(x, j) == Bit(y, j)
    ensures x == y
    decreases w
  {
    if w > 0 {
      forall j | 0 <= j < w - 1
        ensures Bit(x / 2, j) == Bit(y / 2, j)
      {
        assert Bit(x, j + 1) == Bit(y, j + 1);
      }
      BitsDetermine(x / 2, y / 2, w - 1);
      assert Bit(x, 0) == Bit(y, 0);
    }
  }

  /** `a ^ (2^w - 1)` flips every bit, which is `2^w - 1 - a`. */
  lemma {:induction false} XorWithOnes(a: nat, w: nat)
    requires a < Pow2(w)
    ensures Xor(a, Pow2(w) - 1, w) == Pow2(w) - 1 - a
    decreases w
  {
    if w > 0 {
      XorWithOnes(a / 2, w - 1);
      assert (Pow2(w) - 1) / 2 == Pow2(w - 1) - 1;
      assert (Pow2(w) - 1) % 2 == 1;
    }
  }
}
