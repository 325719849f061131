/** Bitwise AND on naturals, bit by bit, and what masking with a run of leading ones
    means arithmetically, at any width. */
module Bits {

  function Pow2(n: nat): (r: nat)
    ensures r >= 1
  {
    if n == 0 then 1 else 2 * Pow2(n - 1)
  }

  /** Bitwise AND. */
  function And(a: nat, b: nat): nat {
    if a == 0 || b == 0 then 0 else 2 * And(a / 2, b / 2) + (a % 2) * (b % 2)
  }

  /** The low `w` bits of `MAX << h`: `w` ones shifted left by `h` in a `w`-bit word. */
  function Mask(w: nat, h: nat): nat
    requires h <= w
  {
    Pow2Monotone(h, w);
    Pow2(w) - Pow2(h)
  }

  lemma Pow2Monotone(a: nat, b: nat)
    requires a <= b
    ensures Pow2(a) <= Pow2(b)
    decreases b - a
  {
    if a < b {
      Pow2Monotone(a + 1, b);
    }
  }

  /** The shifted word really is that number: (2^w - 1) * 2^h, cut to `w` bits. */
  lemma MaskIsShift(w: nat, h: nat)
    requires h <= w
    ensures (Pow2(w) - 1) * Pow2(h) % Pow2(w) == Mask(w, h)
  {
    Pow2Monotone(h, w);
    ShiftedOnes(Pow2(w), Pow2(h));
  }

  lemma ShiftedOnes(m: nat, s: nat)
    requires 1 <= s <= m
    ensures (m - 1) * s % m == m - s
  {
    assert (m - 1) * s == m * (s - 1) + (m - s);
    Remainder((m - 1) * s, m, s - 1, m - s);
  }

  lemma {:induction false} AndAllOnes(x: nat, w: nat)
    requires x < Pow2(w)
    ensures And(x, Pow2(w) - 1) == x
  {
    if w > 0 && x > 0 {
      assert (Pow2(w) - 1) / 2 == Pow2(w - 1) - 1 && (Pow2(w) - 1) % 2 == 1;
      AndAllOnes(x / 2, w - 1);
    }
  }

  /** Masking clears the low `h` bits. */
  lemma {:induction false} AndMask(x: nat, w: nat, h: nat)
    requires h <= w && x < Pow2(w)
    ensures And(x, Mask(w, h)) == x - x % Pow2(h)
  {
    if h == 0 {
      AndAllOnes(x, w);
    } else {
      Pow2Monotone(h, w);
      Pow2Monotone(h - 1, w - 1);
      assert Mask(w, h) == 2 * Mask(w - 1, h - 1);
      AndMask(x / 2, w - 1, h - 1);
      ModHalf(x, Pow2(h - 1));
    }
  }

  lemma ModHalf(x: nat, s: nat)
    requires s >= 1
    ensures x % (2 * s) == 2 * (x / 2 % s) + x % 2
  {
    var y := x / 2;
    assert x == 2 * y + x % 2;
    assert y == s * (y / s) + y % s;
    var r := 2 * (y % s) + x % 2;
    assert x == 2 * s * (y / s) + r && 0 <= r < 2 * s;
    Remainder(x, 2 * s, y / s, r);
  }

  lemma Remainder(x: int, d: int, q: int, r: int)
    requires 0 <= r < d && x == d * q + r
    ensures x % d == r && x / d == q
  {
    var k := x / d - q;
    assert d * k == r - x % d;
    assert k >= 1 ==> d * k >= d;
    assert k <= -1 ==> d * k <= -d;
  }

  /** Agreeing under a mask is lying in the same aligned block of 2^h numbers. */
  lemma MaskIsInterval(x: nat, net: nat, w: nat, h: nat)
    requires h <= w && x < Pow2(w) && net < Pow2(w)
    ensures And(x, Mask(w, h)) == And(net, Mask(w, h)) <==>
      net - net % Pow2(h) <= x < net - net % Pow2(h) + Pow2(h)
  {
    AndMask(x, w, h);
    AndMask(net, w, h);
    SameBlock(x, net, Pow2(h));
  }

  lemma SameBlock(x: nat, net: nat, s: nat)
    requires s >= 1
    ensures x - x % s == net - net % s <==> net - net % s <= x < net - net % s + s
  {
    var base := net - net % s;
    if base <= x < base + s {
      assert net == s * (net / s) + net % s;
      Remainder(x, s, net / s, x - base);
    }
  }

  /** A block of 2^h numbers starts aligned and stays inside the word. */
  lemma BlockFits(net: nat, w: nat, h: nat)
    requires h <= w && net < Pow2(w)
    ensures var base := net - net % Pow2(h);
      base >= 0 && base % Pow2(h) == 0 && base + Pow2(h) <= Pow2(w)
  {
    Pow2Sum(h, w - h);
    BlockFitsIn(net, Pow2(h), Pow2(w - h));
  }

  lemma BlockFitsIn(net: nat, s: nat, t: nat)
    requires s >= 1 && net < s * t
    ensures var base := net - net % s;
      base >= 0 && base % s == 0 && base + s <= s * t
  {
    var q := net / s;
    assert net == s * q + net % s;
    Remainder(s * q, s, q, 0);
    if q >= t {
      Times(s, t, q);
    } else {
      Times(s, q + 1, t);
    }
  }

  lemma Times(s: nat, a: nat, b: nat)
    requires a <= b
    ensures s * a <= s * b
  {
  }

  lemma {:induction false} Pow2Sum(a: nat, b: nat)
    ensures Pow2(a + b) == Pow2(a) * Pow2(b)
  {
    if a > 0 {
      Pow2Sum(a - 1, b);
    }
  }
}
