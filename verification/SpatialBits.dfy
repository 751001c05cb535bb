/**
 * The Morton key at bit level. The program spreads a coordinate's bits with a ladder of
 * shifts and masks; here that ladder meets the arithmetic definition of the code.
 */
module SpatialBits {

  // ---------- binary numerals ----------

  function Double(w: bv64, odd: bool): bv64 { (if odd then 1 else 0) | (w << 1) }

  /** The two's complement of a non-negative number; from 2^64 on its top is cut off. */
  function Bits(x: nat): bv64 {
    if x == 0 then 0 else Double(Bits(x / 2), x % 2 == 1)
  }

  function Low(v: bv64): nat { if v & 1 == 1 then 1 else 0 }

  function Half(v: bv64): bv64 { v >> 1 }

  /** The number that the `n` low bits stand for. */
  function Value(v: bv64, n: nat): nat {
    if n == 0 then 0 else Low(v) + 2 * Value(Half(v), n - 1)
  }

  function Pow2(n: nat): (p: nat)
    ensures p >= 1
  {
    if n == 0 then 1 else 2 * Pow2(n - 1)
  }

  // ---------- the program's ladder ----------

  function Spread(v: bv64): bv64 {
    var v := v & 0xFFFFFFFF;
    var v := (v | (v << 16)) & 0x0000FFFF0000FFFF;
    var v := (v | (v << 8)) & 0x00FF00FF00FF00FF;
    var v := (v | (v << 4)) & 0x0F0F0F0F0F0F0F0F;
    var v := (v | (v << 2)) & 0x3333333333333333;
    var v := (v | (v << 1)) & 0x5555555555555555;
    v
  }

  function Pair(s: bv64, t: bv64): bv64 { s | (t << 1) }

  function Weave(u: bv64, v: bv64): bv64 { Pair(Spread(u), Spread(v)) }

  /** The key of a grid cell: x's bits in the even positions, y's in the odd. */
  function Interleave(x: nat, y: nat): nat { Value(Weave(Bits(x), Bits(y)), 64) }

  // ---------- the arithmetic definition ----------

  function Morton(x: nat, y: nat): nat {
    if x == 0 && y == 0 then 0 else x % 2 + 2 * (y % 2) + 4 * Morton(x / 2, y / 2)
  }

  lemma MortonStep(x: nat, y: nat)
    ensures Morton(x, y) == x % 2 + 2 * (y % 2) + 4 * Morton(x / 2, y / 2)
  {
  }

  function Join(u: bv64, p: bv64): bv64 { (u & 1) | (p << 2) }

  predicate Narrow(u: bv64) { u <= 0xFFFFFFFF }

  predicate Sparse(p: bv64) { p & 0xEAAAAAAAAAAAAAAA == 0 }

  /** The ladder spreads bit by bit. */
  lemma SpreadStep(u: bv64)
    requires Narrow(u)
    ensures Spread(u) == Join(u, Spread(Half(u)))
    ensures Narrow(Half(u)) && Sparse(Spread(Half(u)))
  {
  }

  lemma PairStep(u: bv64, p: bv64, v: bv64, q: bv64)
    requires Sparse(p) && Sparse(q)
    ensures var w := Pair(Join(u, p), Join(v, q));
      Low(w) == Low(u) && Low(Half(w)) == Low(v) && Half(Half(w)) == Pair(p, q)
  {
  }

  lemma WeaveStep(u: bv64, v: bv64)
    requires Narrow(u) && Narrow(v)
    ensures Narrow(Half(u)) && Narrow(Half(v))
    ensures Low(Weave(u, v)) == Low(u) && Low(Half(Weave(u, v))) == Low(v)
    ensures Half(Half(Weave(u, v))) == Weave(Half(u), Half(v))
  {
    hide Spread, Join, Narrow, Sparse, Half, Low, Pair;
    SpreadStep(u);
    SpreadStep(v);
    PairStep(u, Spread(Half(u)), v, Spread(Half(v)));
  }

  lemma {:induction false} WeaveIsMorton(u: bv64, v: bv64, n: nat)
    requires Narrow(u) && Narrow(v)
    ensures Value(Weave(u, v), 2 * n) == Morton(Value(u, n), Value(v, n))
    decreases n
  {
    hide Weave, Low, Half, Morton, Narrow;
    if n == 0 {
      MortonZero();
    } else {
      WeaveStep(u, v);
      WeaveIsMorton(Half(u), Half(v), n - 1);
      ValueStep(Weave(u, v), 2 * n);
      ValueStep(Half(Weave(u, v)), 2 * n - 1);
      ValueStep(u, n);
      ValueStep(v, n);
      MortonStep(Value(u, n), Value(v, n));
    }
  }

  lemma MortonZero()
    ensures Morton(0, 0) == 0
  {
  }

  lemma ValueStep(v: bv64, n: nat)
    requires n > 0
    ensures Value(v, n) == Low(v) + 2 * Value(Half(v), n - 1)
    ensures Value(v, n) % 2 == Low(v) && Value(v, n) / 2 == Value(Half(v), n - 1)
  {
    hide Half;
  }

  // ---------- numerals are exact ----------

  lemma DoubleHalves(w: bv64, odd: bool)
    requires Narrow(w)
    ensures Half(Double(w, odd)) == w && Low(Double(w, odd)) == if odd then 1 else 0
  {
  }

  /** `v` has at most `n` bits. */
  predicate Fits(v: bv64, n: nat) {
    if n == 0 then v == 0 else Fits(Half(v), n - 1)
  }

  lemma {:induction false} FitsMore(v: bv64, n: nat, m: nat)
    requires Fits(v, n) && n <= m
    ensures Fits(v, m)
    decreases m
  {
    if n == 0 && m > 0 {
      assert Half(0) == 0;
      FitsMore(0, 0, m - 1);
    } else if m > 0 {
      FitsMore(Half(v), n - 1, m - 1);
    }
  }

  function Eighth(v: bv64): bv64 { v >> 8 }

  lemma HalfEight(v: bv64)
    ensures Half(Half(Half(Half(Half(Half(Half(Half(v)))))))) == Eighth(v)
  {
  }

  lemma FitsEight(v: bv64, n: nat)
    requires Fits(v, n + 8)
    ensures Fits(Eighth(v), n)
  {
    hide Half, Eighth;
    HalfEight(v);
    var a := Half(v);
    assert Fits(a, n + 7);
    var b := Half(a);
    assert Fits(b, n + 6);
    var c := Half(b);
    assert Fits(c, n + 5);
    var d := Half(c);
    assert Fits(d, n + 4);
    var e := Half(d);
    assert Fits(e, n + 3);
    var f := Half(e);
    assert Fits(f, n + 2);
    var g := Half(f);
    assert Fits(g, n + 1);
    assert Fits(Half(g), n);
  }

  lemma FitsNarrow(v: bv64, n: nat)
    requires Fits(v, n) && n <= 32
    ensures Narrow(v)
  {
    FitsMore(v, n, 32);
    FitsEight(v, 24);
    FitsEight(Eighth(v), 16);
    FitsEight(Eighth(Eighth(v)), 8);
    FitsEight(Eighth(Eighth(Eighth(v))), 0);
    AllShifted(v);
    hide Narrow, Eighth;
  }

  lemma AllShifted(v: bv64)
    ensures Eighth(Eighth(Eighth(Eighth(v)))) == 0 ==> Narrow(v)
  {
  }

  lemma {:induction false} BitsFit(x: nat, n: nat)
    requires x < Pow2(n) && n <= 32
    ensures Fits(Bits(x), n) && Value(Bits(x), n) == x
  {
    hide Half, Double, Low;
    if n == 0 {
    } else {
      BitsFit(x / 2, n - 1);
      FitsNarrow(Bits(x / 2), n - 1);
      DoubleHalves(Bits(x / 2), x % 2 == 1);
      if x == 0 { assert Double(0, false) == 0 by { DoubleZero(); } }
      assert Bits(x) == Double(Bits(x / 2), x % 2 == 1);
      ValueStep(Bits(x), n);
    }
  }

  lemma DoubleZero()
    ensures Double(0, false) == 0
  {
  }

  // ---------- the key ----------

  /** The ladder computes the Morton code of every pair of 32-bit coordinates. */
  lemma InterleaveIsMorton(x: nat, y: nat)
    requires x < Pow2(32) && y < Pow2(32)
    ensures Interleave(x, y) == Morton(x, y)
  {
    hide Weave, Bits, Narrow, Value, Morton, Fits;
    BitsFit(x, 32);
    BitsFit(y, 32);
    FitsNarrow(Bits(x), 32);
    FitsNarrow(Bits(y), 32);
    WeaveIsMorton(Bits(x), Bits(y), 32);
  }
}
