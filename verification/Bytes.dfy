/** Bytes as numbers below 256, with exclusive or defined bit by bit. */
module Bytes {

  type byte = n: nat | n < 256

  function Pow2(w: nat): (r: nat)
    ensures r >= 1
  {
    if w == 0 then 1 else 2 * Pow2(w - 1)
  }

  /** Exclusive or of the low `w` bits. */
  function XorBits(a: nat, b: nat, w: nat): (r: nat)
    ensures r < Pow2(w)
  {
    if w == 0 then 0 else Differ(a % 2, b % 2) + 2 * XorBits(a / 2, b / 2, w - 1)
  }

  function Differ(x: nat, y: nat): nat { if x == y then 0 else 1 }

  lemma Halves(p: nat, q: nat)
    requires p <= 1
    ensures (p + 2 * q) % 2 == p && (p + 2 * q) / 2 == q
  {
  }

  function Xor(a: byte, b: byte): byte {
    assert Pow2(8) == 256 by { Pow2Of8(); }
    XorBits(a, b, 8)
  }

  lemma Pow2Of8()
    ensures Pow2(8) == 256
  {
    assert Pow2(4) == 16;
    assert Pow2(6) == 64;
  }

  lemma XorStep(a: nat, b: nat, w: nat)
    requires w > 0
    ensures XorBits(a, b, w) % 2 == (a % 2 + b % 2) % 2 && XorBits(a, b, w) / 2 == XorBits(a / 2, b / 2, w - 1)
  {
    Halves(Differ(a % 2, b % 2), XorBits(a / 2, b / 2, w - 1));
  }

  lemma {:induction false} BitsTwice(a: nat, b: nat, w: nat)
    requires a < Pow2(w)
    ensures XorBits(XorBits(a, b, w), b, w) == a
    decreases w
  {
    if w > 0 {
      assert a / 2 < Pow2(w - 1);
      hide *;
      XorStep(a, b, w);
      XorStep(XorBits(a, b, w), b, w);
      BitsTwice(a / 2, b / 2, w - 1);
    }
  }

  lemma {:induction false} BitsSwap(a: nat, b: nat, c: nat, w: nat)
    ensures XorBits(XorBits(a, b, w), c, w) == XorBits(XorBits(a, c, w), b, w)
    decreases w
  {
    if w > 0 {
      hide *;
      XorStep(a, b, w);
      XorStep(a, c, w);
      XorStep(XorBits(a, b, w), c, w);
      XorStep(XorBits(a, c, w), b, w);
      BitsSwap(a / 2, b / 2, c / 2, w - 1);
    }
  }

  /** Masking twice with the same byte restores, and masks commute. */
  lemma XorTwice(a: byte, b: byte)
    ensures Xor(Xor(a, b), b) == a
  {
    Pow2Of8();
    BitsTwice(a, b, 8);
  }

  lemma XorSwap(a: byte, b: byte, c: byte)
    ensures Xor(Xor(a, b), c) == Xor(Xor(a, c), b)
  {
    Pow2Of8();
    BitsSwap(a, b, c, 8);
  }

  /** Different bytes stay different under a mask. */
  lemma XorApart(x: byte, y: byte, k: byte)
    requires x != y
    ensures Xor(x, k) != Xor(y, k)
  {
    XorTwice(x, k);
    XorTwice(y, k);
  }

  // ---- Exclusive or, bit by bit ----

  /** Bit `i` of a number, read off by division. */
  function BitOf(a: nat, i: nat): (b: nat)
    ensures b <= 1
  {
    (a / Pow2(i)) % 2
  }

  lemma TimesApart(n: nat, m: nat, d: nat)
    requires n > m
    ensures n * d >= m * d + d
  {
    assert n * d == m * d + d + (n - m - 1) * d;
  }

  lemma DivUnique(x: nat, d: nat, q: nat, r: nat)
    requires x == q * d + r && r < d
    ensures x / d == q
  {
    assert x == (x / d) * d + x % d;
    if x / d < q {
      TimesApart(q, x / d, d);
    } else if x / d > q {
      TimesApart(x / d, q, d);
    }
  }

  lemma BitOfHalf(x: nat, i: nat)
    ensures BitOf(x, i + 1) == BitOf(x / 2, i)
  {
    var y := Pow2(i);
    var q, r := (x / 2) / y, (x / 2) % y;
    assert x / 2 == q * y + r;
    assert x == q * (2 * y) + (2 * r + x % 2);
    DivUnique(x, 2 * y, q, 2 * r + x % 2);
  }

  lemma LowBit(x: nat)
    ensures BitOf(x, 0) == x % 2
  {
  }

  lemma {:induction false} XorBitsAt(a: nat, b: nat, w: nat, i: nat)
    requires i < w
    ensures BitOf(XorBits(a, b, w), i) == (BitOf(a, i) + BitOf(b, i)) % 2
    decreases w
  {
    hide *;
    var x := XorBits(a, b, w);
    XorStep(a, b, w);
    if i == 0 {
      LowBit(x);
      LowBit(a);
      LowBit(b);
    } else {
      BitOfHalf(x, i - 1);
      BitOfHalf(a, i - 1);
      BitOfHalf(b, i - 1);
      XorBitsAt(a / 2, b / 2, w - 1, i - 1);
    }
  }

  /** Numbers below a power of two with the same bits are the same. */
  lemma {:induction false} BitsDetermine(x: nat, y: nat, w: nat)
    requires x < Pow2(w) && y < Pow2(w) && forall i :: 0 <= i < w ==> BitOf(x, i) == BitOf(y, i)
    ensures x == y
    decreases w
  {
    if w > 0 {
      assert BitOf(x, 0) == x % 2 && BitOf(y, 0) == y % 2;
      forall i | 0 <= i < w - 1 ensures BitOf(x / 2, i) == BitOf(y / 2, i) {
        BitOfHalf(x, i);
        BitOfHalf(y, i);
        assert BitOf(x, i + 1) == BitOf(y, i + 1);
      }
      BitsDetermine(x / 2, y / 2, w - 1);
    }
  }

  /** What exclusive or computes: the one byte whose every bit says whether the bits of the operands differ. */
  lemma XorIff(a: byte, b: byte, z: byte)
    ensures z == Xor(a, b) <==> forall i :: 0 <= i < 8 ==> (BitOf(z, i) == 1 <==> BitOf(a, i) != BitOf(b, i))
  {
    hide Xor, BitOf, XorBits;
    Pow2Of8();
    forall i | 0 <= i < 8 ensures BitOf(Xor(a, b), i) == (BitOf(a, i) + BitOf(b, i)) % 2 {
      XorAt(a, b, i);
    }
    hide Pow2;
    if forall i :: 0 <= i < 8 ==> (BitOf(z, i) == 1 <==> BitOf(a, i) != BitOf(b, i)) {
      BitsDetermine(z, Xor(a, b), 8);
    }
  }

  lemma XorAt(a: byte, b: byte, i: nat)
    requires i < 8
    ensures BitOf(Xor(a, b), i) == (BitOf(a, i) + BitOf(b, i)) % 2
  {
    XorBitsAt(a, b, 8, i);
  }
}
