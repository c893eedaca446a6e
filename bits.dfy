/** Fixed-width integers of the emulator (Rust's u8 and u16) and the bitwise
    operators on them, defined on plain integers bit by bit. */
module Bits {

  /** Rust's u8. */
  type Byte = x: int | 0 <= x < 0x100

  /** Rust's u16. */
  type Word = x: int | 0 <= x < 0x1_0000

  function Pow2(n: nat): (p: nat)
    ensures p >= 1
  {
    if n == 0 then 1 else 2 * Pow2(n - 1)
  }

  /** Bit `i` of `x` (0 or 1). */
  function Bit(x: nat, i: nat): (b: nat)
    ensures b < 2
  {
    x / Pow2(i) % 2
  }

  /** `x & y` on `w`-bit values. */
  function BitAnd(x: nat, y: nat, w: nat): (r: nat)
    requires x < Pow2(w) && y < Pow2(w)
    ensures r < Pow2(w)
    decreases w
  {
    if w == 0 then 0
    else 2 * BitAnd(x / 2, y / 2, w - 1) + (if x % 2 == 1 && y % 2 == 1 then 1 else 0)
  }

  /** `x | y` on `w`-bit values. */
  function BitOr(x: nat, y: nat, w: nat): (r: nat)
    requires x < Pow2(w) && y < Pow2(w)
    ensures r < Pow2(w)
    decreases w
  {
    if w == 0 then 0
    else 2 * BitOr(x / 2, y / 2, w - 1) + (if x % 2 == 1 || y % 2 == 1 then 1 else 0)
  }

  /** `x ^ y` on `w`-bit values. */
  function BitXor(x: nat, y: nat, w: nat): (r: nat)
    requires x < Pow2(w) && y < Pow2(w)
    ensures r < Pow2(w)
    decreases w
  {
    if w == 0 then 0
    else 2 * BitXor(x / 2, y / 2, w - 1) + (if x % 2 != y % 2 then 1 else 0)
  }

  /** `!x` on `w`-bit values. */
  function BitNot(x: nat, w: nat): (r: nat)
    requires x < Pow2(w)
    ensures r < Pow2(w)
    decreases w
  {
    if w == 0 then 0
    else 2 * BitNot(x / 2, w - 1) + (1 - x % 2)
  }

  /** Rust's `u8::count_ones`: the sum of the eight bits. */
  function CountOnes(x: Byte): (n: nat)
    ensures n <= 8
  {
    x % 2 + x / 2 % 2 + x / 4 % 2 + x / 8 % 2 + x / 0x10 % 2 + x / 0x20 % 2 + x / 0x40 % 2 + x / 0x80 % 2
  }

  function And(x: Byte, y: Byte): Byte { BitAnd(x, y, 8) }
  function And16(x: Word, y: Word): Word { Pow2Values(); BitAnd(x, y, 16) }
  function Or16(x: Word, y: Word): Word { Pow2Values(); BitOr(x, y, 16) }
  function Or(x: Byte, y: Byte): Byte { BitOr(x, y, 8) }
  function Xor(x: Byte, y: Byte): Byte { BitXor(x, y, 8) }
  function Not(x: Byte): Byte { BitNot(x, 8) }

  /** Bit `i + 1` of `2 q + b` is bit `i` of `q`; bit 0 is `b`. */
  lemma {:induction false} BitOfDouble(q: nat, b: nat, i: nat)
    requires b < 2
    ensures Bit(2 * q + b, 0) == b
    ensures Bit(2 * q + b, i + 1) == Bit(q, i)
  {
    var p := Pow2(i);
    var n := 2 * q + b;
    assert Pow2(i + 1) == 2 * p;
    var k, r := q / p, q % p;
    assert n == (2 * p) * k + (2 * r + b) by {
      assert q == p * k + r;
    }
    DivUnique(n, 2 * p, k, 2 * r + b);
  }

  /** The quotient of `n` by `d` is the unique `k` with `n == d k + r`, `0 <= r < d`. */
  lemma DivUnique(n: int, d: int, k: int, r: int)
    requires d > 0 && n == d * k + r && 0 <= r < d
    ensures n / d == k
  {
    var k', r' := n / d, n % d;
    assert n == d * k' + r';
    if k' > k {
      assert d * k' >= d * (k + 1) by { MulMono(d, k + 1, k'); }
    } else if k' < k {
      assert d * k >= d * (k' + 1) by { MulMono(d, k' + 1, k); }
    }
  }

  lemma MulMono(d: int, a: int, b: int)
    requires d >= 0 && a <= b
    ensures d * a <= d * b
  {
    assert d * b - d * a == d * (b - a);
  }

  lemma {:induction false} BitAndBits(x: nat, y: nat, w: nat, i: nat)
    requires x < Pow2(w) && y < Pow2(w)
    ensures Bit(BitAnd(x, y, w), i) == if Bit(x, i) == 1 && Bit(y, i) == 1 then 1 else 0
    decreases w
  {
    if w == 0 {
      assert x == 0 && y == 0;
      ZeroBits(i);
    } else {
      var q := BitAnd(x / 2, y / 2, w - 1);
      var b := if x % 2 == 1 && y % 2 == 1 then 1 else 0;
      BitOfDouble(q, b, if i == 0 then 0 else i - 1);
      BitOfDouble(x / 2, x % 2, if i == 0 then 0 else i - 1);
      BitOfDouble(y / 2, y % 2, if i == 0 then 0 else i - 1);
      if i > 0 { BitAndBits(x / 2, y / 2, w - 1, i - 1); }
    }
  }

  lemma ZeroBits(i: nat)
    ensures Bit(0, i) == 0
  {
  }

  lemma {:induction false} BitOrBits(x: nat, y: nat, w: nat, i: nat)
    requires x < Pow2(w) && y < Pow2(w)
    ensures Bit(BitOr(x, y, w), i) == if Bit(x, i) == 1 || Bit(y, i) == 1 then 1 else 0
    decreases w
  {
    if w == 0 {
      assert x == 0 && y == 0;
      ZeroBits(i);
    } else {
      var j := if i == 0 then 0 else i - 1;
      BitOfDouble(BitOr(x / 2, y / 2, w - 1), if x % 2 == 1 || y % 2 == 1 then 1 else 0, j);
      BitOfDouble(x / 2, x % 2, j);
      BitOfDouble(y / 2, y % 2, j);
      if i > 0 { BitOrBits(x / 2, y / 2, w - 1, i - 1); }
    }
  }

  lemma {:induction false} BitXorBits(x: nat, y: nat, w: nat, i: nat)
    requires x < Pow2(w) && y < Pow2(w)
    ensures Bit(BitXor(x, y, w), i) == if Bit(x, i) != Bit(y, i) then 1 else 0
    decreases w
  {
    if w == 0 {
      assert x == 0 && y == 0;
      ZeroBits(i);
    } else {
      var j := if i == 0 then 0 else i - 1;
      BitOfDouble(BitXor(x / 2, y / 2, w - 1), if x % 2 != y % 2 then 1 else 0, j);
      BitOfDouble(x / 2, x % 2, j);
      BitOfDouble(y / 2, y % 2, j);
      if i > 0 { BitXorBits(x / 2, y / 2, w - 1, i - 1); }
    }
  }

  /** `!x` flips exactly the `w` low bits: it is `2^w - 1 - x`. */
  lemma {:induction false} BitNotIsComplement(x: nat, w: nat)
    requires x < Pow2(w)
    ensures BitNot(x, w) == Pow2(w) - 1 - x
    decreases w
  {
    if w > 0 {
      BitNotIsComplement(x / 2, w - 1);
    }
  }

  lemma {:induction false} BitNotBits(x: nat, w: nat, i: nat)
    requires x < Pow2(w)
    ensures Bit(BitNot(x, w), i) == if i < w then 1 - Bit(x, i) else 0
    decreases w
  {
    if w == 0 {
      ZeroBits(i);
    } else {
      var j := if i == 0 then 0 else i - 1;
      BitOfDouble(BitNot(x / 2, w - 1), 1 - x % 2, j);
      BitOfDouble(x / 2, x % 2, j);
      if i > 0 { BitNotBits(x / 2, w - 1, i - 1); }
    }
  }

  /** `1 << k` has exactly bit `k` set. */
  lemma {:induction false} Pow2Bits(k: nat, i: nat)
    ensures Bit(Pow2(k), i) == if i == k then 1 else 0
    decreases k
  {
    if k == 0 {
      BitOfDouble(0, 1, if i == 0 then 0 else i - 1);
      if i > 0 { ZeroBits(i - 1); }
    } else {
      BitOfDouble(Pow2(k - 1), 0, if i == 0 then 0 else i - 1);
      if i > 0 { Pow2Bits(k - 1, i - 1); }
    }
  }

  /** A `w`-bit value is determined by its `w` low bits. */
  lemma {:induction false} BitsDetermine(x: nat, y: nat, w: nat)
    requires x < Pow2(w) && y < Pow2(w)
    requires forall i :: 0 <= i < w ==> Bit(x, i) == Bit(y, i)
    ensures x == y
    decreases w
  {
    if w > 0 {
      BitOfDouble(x / 2, x % 2, 0);
      BitOfDouble(y / 2, y % 2, 0);
      forall i | 0 <= i < w - 1
        ensures Bit(x / 2, i) == Bit(y / 2, i)
      {
        BitOfDouble(x / 2, x % 2, i);
        BitOfDouble(y / 2, y % 2, i);
      }
      BitsDetermine(x / 2, y / 2, w - 1);
    }
  }

  lemma {:induction false} Pow2Mono(j: nat, k: nat)
    requires j <= k
    ensures Pow2(j) <= Pow2(k)
    decreases k
  {
    if j < k {
      Pow2Mono(j, k - 1);
    }
  }

  /** The bits of `h * 2^k + l`, for `l < 2^k`: those of `l` below `k`, those
      of `h` from `k` on. */
  lemma {:induction false} BitOfShifted(h: nat, l: nat, k: nat, i: nat)
    requires l < Pow2(k)
    ensures Bit(h * Pow2(k) + l, i) == if i < k then Bit(l, i) else Bit(h, i - k)
    decreases k
  {
    if k == 0 {
      assert h * Pow2(k) + l == h;
    } else {
      var p := Pow2(k - 1);
      assert h * Pow2(k) + l == 2 * (h * p + l / 2) + l % 2;
      assert l / 2 < p;
      BitOfDouble(l / 2, l % 2, if i == 0 then 0 else i - 1);
      BitOfDouble(h * p + l / 2, l % 2, if i == 0 then 0 else i - 1);
      if i > 0 {
        BitOfShifted(h, l / 2, k - 1, i - 1);
      }
    }
  }

  /** Bit `i` of a value below `2^k` is zero from `k` on. */
  lemma HighBitsZero(x: nat, k: nat, i: nat)
    requires x < Pow2(k) && k <= i
    ensures Bit(x, i) == 0
  {
    BitOfShifted(0, x, k, i);
    ZeroBits(i - k);
  }

  /** `2^k - 1` has exactly its `k` low bits set. */
  lemma {:induction false} BitOfMask(k: nat, i: nat)
    ensures Bit(Pow2(k) - 1, i) == if i < k then 1 else 0
    decreases k
  {
    if k == 0 {
      ZeroBits(i);
    } else {
      assert Pow2(k) - 1 == 2 * (Pow2(k - 1) - 1) + 1;
      BitOfDouble(Pow2(k - 1) - 1, 1, if i == 0 then 0 else i - 1);
      if i > 0 {
        BitOfMask(k - 1, i - 1);
      }
    }
  }

  lemma {:induction false} BitAndComm(x: nat, y: nat, w: nat)
    requires x < Pow2(w) && y < Pow2(w)
    ensures BitAnd(x, y, w) == BitAnd(y, x, w)
    decreases w
  {
    if w > 0 {
      BitAndComm(x / 2, y / 2, w - 1);
    }
  }

  lemma ModDouble(x: nat, p: nat)
    requires p > 0
    ensures x % (2 * p) == 2 * (x / 2 % p) + x % 2
  {
    var a, b := x / 2, x % 2;
    var c, d := a / p, a % p;
    assert x == (2 * p) * c + (2 * d + b);
    DivUnique(x, 2 * p, c, 2 * d + b);
  }

  lemma {:induction false} AndZero(x: nat, w: nat)
    requires x < Pow2(w)
    ensures BitAnd(0, x, w) == 0
    decreases w
  {
    if w > 0 {
      AndZero(x / 2, w - 1);
    }
  }

  /** Masking with `2^k - 1` keeps the remainder modulo `2^k`. */
  lemma {:induction false} LowMask(x: nat, k: nat, w: nat)
    requires k <= w && x < Pow2(w)
    ensures Pow2(k) - 1 < Pow2(w)
    ensures BitAnd(Pow2(k) - 1, x, w) == x % Pow2(k)
    decreases w
  {
    Pow2Mono(k, w);
    if k == 0 {
      AndZero(x, w);
    } else {
      var p := Pow2(k - 1);
      assert (Pow2(k) - 1) / 2 == p - 1 && (Pow2(k) - 1) % 2 == 1;
      LowMask(x / 2, k - 1, w - 1);
      ModDouble(x, p);
    }
  }

  /** `x & 2^k` is non-zero exactly when bit `k` of `x` is set. */
  lemma AndPow2(x: nat, k: nat, w: nat)
    requires k < w && x < Pow2(w)
    ensures Pow2(k) < Pow2(w)
    ensures BitAnd(x, Pow2(k), w) != 0 <==> Bit(x, k) == 1
  {
    Pow2Mono(k + 1, w);
    var r := BitAnd(x, Pow2(k), w);
    BitAndBits(x, Pow2(k), w, k);
    Pow2Bits(k, k);
    ZeroBits(k);
    if Bit(x, k) == 0 {
      forall i | 0 <= i < w
        ensures Bit(r, i) == Bit(0, i)
      {
        BitAndBits(x, Pow2(k), w, i);
        Pow2Bits(k, i);
        ZeroBits(i);
      }
      BitsDetermine(r, 0, w);
    }
  }

  /** `(h << k) | l` is `h * 2^k + l` when `l < 2^k`. */
  lemma OrShifted(h: nat, l: nat, k: nat, w: nat)
    requires l < Pow2(k) && h * Pow2(k) + l < Pow2(w)
    ensures h * Pow2(k) < Pow2(w)
    ensures BitOr(h * Pow2(k), l, w) == h * Pow2(k) + l
  {
    var r := BitOr(h * Pow2(k), l, w);
    forall i | 0 <= i < w
      ensures Bit(r, i) == Bit(h * Pow2(k) + l, i)
    {
      BitOrBits(h * Pow2(k), l, w, i);
      BitOfShifted(h, 0, k, i);
      BitOfShifted(h, l, k, i);
      if i < k {
        ZeroBits(i);
      } else {
        HighBitsZero(l, k, i);
      }
    }
    BitsDetermine(r, h * Pow2(k) + l, w);
  }

  /** Adding `2^k` to a number whose bit `k` is clear sets that bit and no other. */
  lemma BitAddPow2(x: nat, k: nat, i: nat)
    requires Bit(x, k) == 0
    ensures Bit(x + Pow2(k), i) == if i == k then 1 else Bit(x, i)
  {
    var p := Pow2(k);
    var q, lo := x / p, x % p;
    assert x == q * p + lo;
    assert x + p == (q + 1) * p + lo;
    BitOfShifted(q, lo, k, i);
    BitOfShifted(q + 1, lo, k, i);
    if i >= k {
      var j := if i == k then 0 else i - k - 1;
      BitOfDouble(q / 2, 0, j);
      BitOfDouble(q / 2, 1, j);
    }
  }

  /** Subtracting `2^k` from a number whose bit `k` is set clears that bit and no other. */
  lemma BitSubPow2(x: nat, k: nat, i: nat)
    requires Bit(x, k) == 1
    ensures x >= Pow2(k)
    ensures Bit(x - Pow2(k), i) == if i == k then 0 else Bit(x, i)
  {
    ClearedBit(x, k);
    BitAddPow2(x - Pow2(k), k, i);
  }

  lemma ClearedBit(x: nat, k: nat)
    requires Bit(x, k) == 1
    ensures x >= Pow2(k) && Bit(x - Pow2(k), k) == 0
  {
    var p := Pow2(k);
    var q, lo := x / p, x % p;
    var h := q / 2;
    assert q == 2 * h + 1;
    assert x - p == (2 * h) * p + lo by {
      assert x == q * p + lo;
      assert q * p == (2 * h) * p + p;
    }
    BitOfShifted(2 * h, lo, k, k);
    BitOfDouble(h, 0, 0);
  }

  lemma Pow2Values()
    ensures Pow2(0) == 1 && Pow2(2) == 4 && Pow2(4) == 0x10 && Pow2(6) == 0x40
    ensures Pow2(7) == 0x80 && Pow2(8) == 0x100 && Pow2(16) == 0x1_0000
  {
  }

  /** `(h << 8) | l` on 16 bits is `h * 256 + l`. */
  lemma OrHighLow(h: Byte, l: Byte)
    ensures Or16(h * 0x100, l) == h * 0x100 + l
  {
    Pow2Values();
    OrShifted(h, l, 8, 16);
  }

  /** `x & 0xff` is the low byte of `x`. */
  lemma AndLowByte(x: Word)
    ensures And16(x, 0xff) == x % 0x100
  {
    Pow2Values();
    LowMask(x, 8, 16);
    BitAndComm(x, 0xff, 16);
  }

  /** `0x0f & x` is the low nibble of `x`. */
  lemma AndLowNibble(x: Byte)
    ensures And(0x0f, x) == x % 0x10
  {
    Pow2Values();
    LowMask(x, 4, 8);
  }

  /** `!x` is `255 - x`. */
  lemma NotByte(x: Byte)
    ensures Not(x) == 0xff - x
  {
    Pow2Values();
    BitNotIsComplement(x, 8);
  }

  lemma Pow2Byte()
    ensures Pow2(8) == 0x100
  {
  }
}
