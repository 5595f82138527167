/**
  hash.c: a 64-bit mixing hash.  The accumulator absorbs one 8-byte lane at a time; each absorption
  is a bijection of the accumulator and injective in the lane.
*/
module Hash {

  const TWO64: nat := 0x1_0000_0000_0000_0000

  type U64 = n: nat | n < TWO64
  type Byte = n: nat | n < 256

  function Pow2(k: nat): (p: nat)
    ensures p > 0
  {
    if k == 0 then 1 else 2 * Pow2(k - 1)
  }

  // ----- machine words: a ^ b, a >> r, a * c and rotation

  function Xor(a: nat, b: nat): nat {
    if a == 0 then b else 2 * Xor(a / 2, b / 2) + (a + b) % 2
  }

  lemma {:induction false} XorStep(a: nat, b: nat)
    ensures Xor(a, b) / 2 == Xor(a / 2, b / 2) && Xor(a, b) % 2 == (a + b) % 2
  {}

  lemma {:induction false} XorBack(a: nat, b: nat)
    ensures Xor(Xor(a, b), b) == a
  {
    if a == 0 {
      XorSelf(b);
    } else {
      XorBack(a / 2, b / 2);
      XorStep(a, b);
      XorStep(Xor(a, b), b);
      hide Xor;
      Halves(a, b, Xor(a, b), Xor(Xor(a, b), b));
    }
  }

  lemma Halves(a: nat, b: nat, c: nat, d: nat)
    requires d / 2 == a / 2 && c % 2 == (a + b) % 2 && d % 2 == (c + b) % 2
    ensures d == a
  {}

  lemma {:induction false} XorSelf(b: nat)
    ensures Xor(b, b) == 0
  {
    if b != 0 { XorSelf(b / 2); }
  }

  lemma {:induction false} XorComm(a: nat, b: nat)
    ensures Xor(a, b) == Xor(b, a)
  {
    if a != 0 && b != 0 {
      XorComm(a / 2, b / 2);
    } else if a != 0 {
      XorZero(a);
    } else if b != 0 {
      XorZero(b);
    }
  }

  lemma {:induction false} XorZero(a: nat)
    ensures Xor(a, 0) == a
  {
    if a != 0 { XorZero(a / 2); }
  }

  lemma {:induction false} XorBound(a: nat, b: nat, k: nat)
    requires a < Pow2(k) && b < Pow2(k)
    ensures Xor(a, b) < Pow2(k)
  {
    if a != 0 { XorBound(a / 2, b / 2, k - 1); }
  }

  lemma Pow64()
    ensures Pow2(64) == TWO64
  {
    Pow2Add(2, 2);
    Pow2Add(4, 4);
    Pow2Add(8, 8);
    Pow2Add(16, 16);
    Pow2Add(32, 32);
  }

  function Xor64(a: U64, b: U64): U64 {
    Pow64();
    XorBound(a, b, 64);
    Xor(a, b)
  }

  lemma Xor64Back(a: U64, b: U64)
    ensures Xor64(Xor64(a, b), b) == a && Xor64(Xor64(a, b), a) == b
  {
    XorBack(a, b);
    XorComm(a, b);
    XorBack(b, a);
  }

  function Shr(a: nat, r: nat): (s: nat)
    ensures s <= a
  {
    if r == 0 then a else Shr(a / 2, r - 1)
  }

  lemma {:induction false} ShrXor(a: nat, b: nat, r: nat)
    ensures Shr(Xor(a, b), r) == Xor(Shr(a, r), Shr(b, r))
  {
    if r > 0 {
      XorStep(a, b);
      ShrXor(a / 2, b / 2, r - 1);
    }
  }

  lemma {:induction false} ShrTwice(a: nat, q: nat, r: nat)
    ensures Shr(Shr(a, q), r) == Shr(a, q + r)
  {
    if q > 0 { ShrTwice(a / 2, q - 1, r); }
  }

  lemma {:induction false} ShrAll(a: nat, r: nat)
    requires a < Pow2(r)
    ensures Shr(a, r) == 0
  {
    if r > 0 { ShrAll(a / 2, r - 1); }
  }

  // x ^ (x >> r) undoes itself when twice r covers the word
  lemma XorShiftBack(a: U64, r: nat)
    requires 32 <= r <= 64
    ensures var b := Xor64(a, Shr(a, r)); Xor64(b, Shr(b, r)) == a
  {
    var b := Xor64(a, Shr(a, r));
    Pow64();
    ShrXor(a, Shr(a, r), r);
    ShrTwice(a, r, r);
    ShrTwice(a, 64, 2 * r - 64);
    ShrAll(a, 64);
    ShrNone(2 * r - 64);
    XorZero(Shr(a, r));
    assert Shr(b, r) == Shr(a, r);
    XorBack(a, Shr(a, r));
  }

  lemma {:induction false} ShrNone(r: nat)
    ensures Shr(0, r) == 0
  {
    if r > 0 { ShrNone(r - 1); }
  }

  // ----- what the operations do to single bits and bytes

  function Bit(x: nat, i: nat): nat {
    x / Pow2(i) % 2
  }

  lemma BitNext(x: nat, i: nat)
    ensures Bit(x, i + 1) == Bit(x / 2, i) && Bit(x, 0) == x % 2
  {
    DivTwice(x, 2, Pow2(i), Pow2(i + 1));
  }

  lemma DivTwice(x: nat, p: nat, q: nat, n: nat)
    requires p > 0 && q > 0 && n == p * q
    ensures n > 0 && x / n == x / p / q
  {
    var y := x / p;
    var a, low := y / q, y % q * p + x % p;
    Split(x, p, q);
    DigitsBelow(y % q, x % p, p, q);
    DivParts(x, a, n, low);
  }

  lemma DigitsBelow(a: nat, b: nat, p: nat, q: nat)
    requires a < q && b < p
    ensures a * p + b < p * q
  {
    MulLe(a, q - 1, p);
    assert (q - 1) * p == p * q - p;
  }

  // x in the three digits of bases p and q
  lemma Split(x: nat, p: nat, q: nat)
    requires p > 0 && q > 0
    ensures p * q > 0 && x == x / p / q * (p * q) + (x / p % q * p + x % p)
  {
    var y := x / p;
    calc {
      x;
      y * p + x % p;
      (y / q * q + y % q) * p + x % p;
      y / q * (p * q) + (y % q * p + x % p);
    }
  }

  lemma {:induction false} XorBits(a: nat, b: nat, i: nat)
    ensures Bit(Xor(a, b), i) == (Bit(a, i) + Bit(b, i)) % 2
  {
    XorStep(a, b);
    hide Xor, Bit;
    if i == 0 {
      BitNext(a, 0);
      BitNext(b, 0);
      BitNext(Xor(a, b), 0);
    } else {
      XorBits(a / 2, b / 2, i - 1);
      BitNext(a, i - 1);
      BitNext(b, i - 1);
      BitNext(Xor(a, b), i - 1);
    }
  }

  lemma {:induction false} ShrIs(a: nat, r: nat)
    ensures Shr(a, r) == a / Pow2(r)
  {
    if r > 0 {
      ShrIs(a / 2, r - 1);
      DivTwice(a, 2, Pow2(r - 1), Pow2(r));
    }
  }

  function Times(x: U64, c: U64): U64 {
    x * c % TWO64
  }

  function Plus(x: U64, y: U64): U64 {
    (x + y) % TWO64
  }

  function Minus(x: U64, y: U64): U64 {
    (x - y) % TWO64
  }

  lemma PlusBack(x: U64, y: U64)
    ensures Minus(Plus(x, y), y) == x && Minus(Plus(x, y), x) == y && Plus(Minus(x, y), y) == x
  {}

  lemma ModUnique(a: nat, k: int)
    requires a < TWO64
    ensures (a + TWO64 * k) % TWO64 == a
  {}

  // Multiplication by an odd constant is undone by its inverse modulo 2^64.
  lemma TimesBack(x: U64, c: U64, d: U64)
    requires c * d % TWO64 == 1
    ensures Times(Times(x, c), d) == x
  {
    var q, r := x * c / TWO64, c * d / TWO64;
    calc {
      (x * c - TWO64 * q) * d;
      x * (c * d) - TWO64 * q * d;
      x * (1 + TWO64 * r) - TWO64 * q * d;
      x + TWO64 * (x * r - q * d);
    }
    ModUnique(x, x * r - q * d);
  }

  lemma {:induction false} Pow2Add(a: nat, b: nat)
    ensures Pow2(a) * Pow2(b) == Pow2(a + b)
  {
    if a > 0 { Pow2Add(a - 1, b); }
  }

  lemma RotlParts(x: U64, p: nat, q: nat)
    requires p > 0 && q > 0 && p * q == TWO64
    ensures x * p % TWO64 == x % q * p && x / q < p && x * p % TWO64 + x / q < TWO64
  {
    var h, l := x / q, x % q;
    assert h < p by { if h >= p { MulLe(p, h, q); assert false; } }
    calc {
      x * p;
      (h * q + l) * p;
      l * p + TWO64 * h;
    }
    MulLe(l, q - 1, p);
    assert (q - 1) * p == TWO64 - p;
    ModUnique(l * p, h);
  }

  lemma MulLe(a: int, b: int, c: nat)
    requires a <= b
    ensures a * c <= b * c
  {}

  // The word x == h * q + l becomes l * p + h.
  function Rot(x: U64, p: nat, q: nat): U64
    requires p > 0 && q > 0 && p * q == TWO64
  {
    RotlParts(x, p, q);
    x * p % TWO64 + x / q
  }

  lemma RotBack(x: U64, p: nat, q: nat)
    requires p > 0 && q > 0 && p * q == TWO64
    ensures q * p == TWO64 && Rot(Rot(x, p, q), q, p) == x
  {
    RotlParts(x, p, q);
    var y := Rot(x, p, q);
    DivParts(y, x % q, p, x / q);
    RotlParts(y, q, p);
  }

  // (x << r) | (x >> (64 - r)): the two parts have no bit in common
  function Rotl(x: U64, r: nat): U64
    requires 0 < r < 64
  {
    Pow64();
    Pow2Add(r, 64 - r);
    Rot(x, Pow2(r), Pow2(64 - r))
  }

  lemma RotlBack(x: U64, r: nat)
    requires 0 < r < 64
    ensures Rotl(Rotl(x, r), 64 - r) == x
  {
    hide Pow2, Rot;
    Pow64();
    Pow2Add(r, 64 - r);
    RotBack(x, Pow2(r), Pow2(64 - r));
  }

  lemma DivParts(y: nat, l: nat, p: nat, h: nat)
    requires p > 0 && h < p && y == l * p + h
    ensures y / p == l && y % p == h
  {
    var k := y / p;
    assert (k - l) * p == h - y % p;
    if k > l {
      MulLe(1, k - l, p);
      assert false;
    }
    if k < l {
      MulLe(k - l, -1, p);
      assert false;
    }
  }

  // Rotation carries bit i to bit i + r, around the end of the word.
  lemma RotlBits(x: U64, r: nat, i: nat)
    requires 0 < r < 64 && i < 64
    ensures Bit(Rotl(x, r), (i + r) % 64) == Bit(x, i)
  {
    hide Rotl, Rot, Bit, Pow2;
    var p, q, y := Pow2(r), Pow2(64 - r), Rotl(x, r);
    RotlHalves(x, r);
    if i + r < 64 {
      BitShift(y, r, x % q, i);
      LowBit(x, i, q, 64 - r, x % q);
    } else {
      BitShift(x, 64 - r, x / q, i + r - 64);
      LowBit(y, i + r - 64, p, r, x / q);
    }
  }

  lemma RotlHalves(x: U64, r: nat)
    requires 0 < r < 64
    ensures Rotl(x, r) % Pow2(r) == x / Pow2(64 - r) && Rotl(x, r) / Pow2(r) == x % Pow2(64 - r)
  {
    var p, q := Pow2(r), Pow2(64 - r);
    hide Pow2;
    Pow64();
    Pow2Add(r, 64 - r);
    RotlParts(x, p, q);
    DivParts(Rotl(x, r), x % q, p, x / q);
  }

  lemma BitShift(x: nat, r: nat, y: nat, i: nat)
    requires y == x / Pow2(r)
    ensures Bit(x, i + r) == Bit(y, i)
  {
    Pow2Add(r, i);
    hide Pow2;
    DivTwice(x, Pow2(r), Pow2(i), Pow2(i + r));
  }

  // The bits below k are those of the remainder.
  lemma LowBit(x: nat, i: nat, n: nat, k: nat, y: nat)
    requires i < k && n == Pow2(k) && y == x % n
    ensures Bit(y, i) == Bit(x, i)
  {
    var p, m := Pow2(i), Pow2(k - i - 1);
    assert Pow2(k - i) == 2 * m;
    Pow2Add(i, k - i);
    hide Pow2;
    ModDiv(x, p, 2 * m, n);
    EvenMod(x / p, m);
  }

  lemma EvenMod(y: nat, m: nat)
    requires m > 0
    ensures y % (2 * m) % 2 == y % 2
  {
    var n := 2 * m;
    var a, b := y / n, y % n;
    assert y == 2 * (m * a) + b by { assert a * n == 2 * (m * a); }
    ModTwo(m * a, b);
  }

  lemma ModDiv(x: nat, p: nat, q: nat, n: nat)
    requires p > 0 && q > 0 && n == p * q
    ensures n > 0 && x % n / p == x / p % q
  {
    var y := x / p;
    var low := y % q * p + x % p;
    Split(x, p, q);
    DigitsBelow(y % q, x % p, p, q);
    DivParts(x, y / q, n, low);
    LowDigit(low, y % q, p, x % p);
  }

  lemma LowDigit(y: nat, l: nat, p: nat, h: nat)
    requires p > 0 && h < p && y == l * p + h
    ensures y / p == l
  {
    DivParts(y, l, p, h);
  }

  lemma ModTwo(a: nat, b: nat)
    ensures (2 * a + b) % 2 == b % 2
  {}

  // ----- the multipliers and their inverses modulo 2^64

  const MUL1: U64 := 0x051B051B051B051B
  const INV1: U64 := 0x373C21B07A38CD13
  const MUL2: U64 := 0x7CB07CB07CB07CB1
  const INV2: U64 := 0x704AF01F12644C51
  const MUL3: U64 := 0xC6A4A7935BD1E995
  const INV3: U64 := 0x5F7A0EA7E59B19BD
  const MUL4: U64 := 0x9FB21C651E98DF25
  const INV4: U64 := 0x02AB9C720D1024AD
  const MUL5: U64 := 0xA0761D6478BD642F
  const INV5: U64 := 0x939C72E4AF1E62CF
  const MUL6: U64 := 0x165667919E3779F9
  const INV6: U64 := 0x08DA8EE41D6DF849

  // ----- the finalizer is a bijection

  function Avalanche(h: U64): U64 {
    var a := Times(Xor64(h, Shr(h, 37)), MUL6);
    Xor64(a, Shr(a, 32))
  }

  function Unavalanche(h: U64): U64 {
    var a := Times(Xor64(h, Shr(h, 32)), INV6);
    Xor64(a, Shr(a, 37))
  }

  lemma AvalancheBack(h: U64)
    ensures Unavalanche(Avalanche(h)) == h
  {
    hide Times, Xor64, Shr;
    XorShiftBack(h, 37);
    TimesBack(Xor64(h, Shr(h, 37)), MUL6, INV6);
    XorShiftBack(Times(Xor64(h, Shr(h, 37)), MUL6), 32);
  }

  lemma AvalancheForth(h: U64)
    ensures Avalanche(Unavalanche(h)) == h
  {
    hide Times, Xor64, Shr;
    XorShiftBack(h, 32);
    TimesBack(Xor64(h, Shr(h, 32)), INV6, MUL6);
    XorShiftBack(Times(Xor64(h, Shr(h, 32)), INV6), 37);
  }

  // ----- absorbing one lane

  // First to fourth lane of a 32-byte block, first and second of a 16-byte block, the tail
  datatype Kind = A1 | A2 | A3 | A4 | B1 | B2 | Tail

  function Absorb(kind: Kind, acc: U64, k: U64): U64 {
    match kind
    case A1 => Rotl(Xor64(acc, Times(k, MUL1)), 29)
    case A2 => Rotl(Plus(acc, Times(k, MUL2)), 21)
    case A3 => Plus(Times(acc, MUL3), k)
    case A4 => Xor64(Rotl(acc, 19), Times(k, MUL1))
    case B1 => Times(Rotl(Xor64(acc, Times(k, MUL4)), 31), MUL4)
    case B2 => Plus(acc, Times(k, MUL4))
    case Tail => Times(Rotl(Xor64(acc, Times(k, MUL5)), 27), MUL5)
  }

  // The accumulator before a lane, from the one after it
  function Unabsorb(kind: Kind, acc: U64, k: U64): U64 {
    match kind
    case A1 => Xor64(Rotl(acc, 35), Times(k, MUL1))
    case A2 => Minus(Rotl(acc, 43), Times(k, MUL2))
    case A3 => Times(Minus(acc, k), INV3)
    case A4 => Rotl(Xor64(acc, Times(k, MUL1)), 45)
    case B1 => Xor64(Rotl(Times(acc, INV4), 33), Times(k, MUL4))
    case B2 => Minus(acc, Times(k, MUL4))
    case Tail => Xor64(Rotl(Times(acc, INV5), 37), Times(k, MUL5))
  }

  // The lane, from the accumulators before and after it
  function Lane(kind: Kind, acc: U64, after: U64): U64 {
    match kind
    case A1 => Times(Xor64(Rotl(after, 35), acc), INV1)
    case A2 => Times(Minus(Rotl(after, 43), acc), INV2)
    case A3 => Minus(after, Times(acc, MUL3))
    case A4 => Times(Xor64(after, Rotl(acc, 19)), INV1)
    case B1 => Times(Xor64(Rotl(Times(after, INV4), 33), acc), INV4)
    case B2 => Times(Minus(after, acc), INV4)
    case Tail => Times(Xor64(Rotl(Times(after, INV5), 37), acc), INV5)
  }

  lemma AbsorbBack(kind: Kind, acc: U64, k: U64)
    ensures Unabsorb(kind, Absorb(kind, acc, k), k) == acc
  {
    hide Rotl, Times, Xor64, Plus, Minus;
    match kind
    case A1 =>
      RotlBack(Xor64(acc, Times(k, MUL1)), 29);
      Xor64Back(acc, Times(k, MUL1));
    case A2 =>
      RotlBack(Plus(acc, Times(k, MUL2)), 21);
      PlusBack(acc, Times(k, MUL2));
    case A3 =>
      PlusBack(Times(acc, MUL3), k);
      TimesBack(acc, MUL3, INV3);
    case A4 =>
      Xor64Back(Rotl(acc, 19), Times(k, MUL1));
      RotlBack(acc, 19);
    case B1 =>
      TimesBack(Rotl(Xor64(acc, Times(k, MUL4)), 31), MUL4, INV4);
      RotlBack(Xor64(acc, Times(k, MUL4)), 31);
      Xor64Back(acc, Times(k, MUL4));
    case B2 =>
      PlusBack(acc, Times(k, MUL4));
    case Tail =>
      TimesBack(Rotl(Xor64(acc, Times(k, MUL5)), 27), MUL5, INV5);
      RotlBack(Xor64(acc, Times(k, MUL5)), 27);
      Xor64Back(acc, Times(k, MUL5));
  }

  lemma AbsorbForth(kind: Kind, acc: U64, k: U64)
    ensures Absorb(kind, Unabsorb(kind, acc, k), k) == acc
  {
    hide Rotl, Times, Xor64, Plus, Minus;
    match kind
    case A1 =>
      Xor64Back(Rotl(acc, 35), Times(k, MUL1));
      RotlBack(acc, 35);
    case A2 =>
      PlusBack(Rotl(acc, 43), Times(k, MUL2));
      RotlBack(acc, 43);
    case A3 =>
      TimesBack(Minus(acc, k), INV3, MUL3);
      PlusBack(acc, k);
    case A4 =>
      RotlBack(Xor64(acc, Times(k, MUL1)), 45);
      Xor64Back(acc, Times(k, MUL1));
    case B1 =>
      Xor64Back(Rotl(Times(acc, INV4), 33), Times(k, MUL4));
      RotlBack(Times(acc, INV4), 33);
      TimesBack(acc, INV4, MUL4);
    case B2 =>
      PlusBack(acc, Times(k, MUL4));
    case Tail =>
      Xor64Back(Rotl(Times(acc, INV5), 37), Times(k, MUL5));
      RotlBack(Times(acc, INV5), 37);
      TimesBack(acc, INV5, MUL5);
  }

  lemma AbsorbLane(kind: Kind, acc: U64, k: U64)
    ensures Lane(kind, acc, Absorb(kind, acc, k)) == k
  {
    hide Rotl, Times, Xor64, Plus, Minus;
    match kind
    case A1 =>
      RotlBack(Xor64(acc, Times(k, MUL1)), 29);
      Xor64Back(acc, Times(k, MUL1));
      TimesBack(k, MUL1, INV1);
    case A2 =>
      RotlBack(Plus(acc, Times(k, MUL2)), 21);
      PlusBack(acc, Times(k, MUL2));
      TimesBack(k, MUL2, INV2);
    case A3 =>
      PlusBack(Times(acc, MUL3), k);
    case A4 =>
      Xor64Back(Rotl(acc, 19), Times(k, MUL1));
      TimesBack(k, MUL1, INV1);
    case B1 =>
      TimesBack(Rotl(Xor64(acc, Times(k, MUL4)), 31), MUL4, INV4);
      RotlBack(Xor64(acc, Times(k, MUL4)), 31);
      Xor64Back(acc, Times(k, MUL4));
      TimesBack(k, MUL4, INV4);
    case B2 =>
      PlusBack(acc, Times(k, MUL4));
      TimesBack(k, MUL4, INV4);
    case Tail =>
      TimesBack(Rotl(Xor64(acc, Times(k, MUL5)), 27), MUL5, INV5);
      RotlBack(Xor64(acc, Times(k, MUL5)), 27);
      Xor64Back(acc, Times(k, MUL5));
      TimesBack(k, MUL5, INV5);
  }

  // The constants, by the values they give
  lemma AbsorbsOne()
    ensures Absorb(A1, 0, 1) == 0x60A3_60A3_60A3_60A3
    ensures Absorb(A2, 0, 1) == 0x960F_960F_962F_960F
    ensures Absorb(A3, 1, 0) == 0xC6A4_A793_5BD1_E995
    ensures Absorb(A4, 1, 0) == 0x8_0000 && Absorb(A4, 0, 1) == 0x051B_051B_051B_051B
    ensures Absorb(B1, 0, 1) == 0x69B7_ED8A_676C_9B3A
    ensures Absorb(B2, 0, 1) == 0x9FB2_1C65_1E98_DF25
    ensures Absorb(Tail, 0, 1) == 0xD850_016F_2A48_4725
  {
    Rotated();
    Units();
    hide Rotl, Xor64, Times;
  }

  // The finalizer in plain arithmetic
  lemma AvalancheIs(h: U64)
    ensures var a: U64 := Xor64(h, h / 0x20_0000_0000) * 0x1656_6791_9E37_79F9 % 0x1_0000_0000_0000_0000;
            Avalanche(h) == Xor64(a, a / 0x1_0000_0000)
  {
    PowValues();
    hide Pow2, Xor64;
    ShrIs(h, 37);
    ShrIs(Times(Xor64(h, Shr(h, 37)), MUL6), 32);
  }

  lemma Units()
    ensures forall x: U64 :: Xor64(0, x) == x && Xor64(x, 0) == x && Times(1, x) == x && Times(x, 1) == x && Times(0, x) == 0
    ensures Times(0x8F4C_6F92_CFD9_0E32, MUL4) == 0x69B7_ED8A_676C_9B3A
    ensures Times(0x23C5_EB21_7D03_B0EB, MUL5) == 0xD850_016F_2A48_4725
  {
    forall x: U64 ensures Xor64(x, 0) == x { XorZero(x); }
  }

  lemma Rotated()
    ensures Rotl(MUL1, 29) == 0x60A3_60A3_60A3_60A3
    ensures Rotl(MUL2, 21) == 0x960F_960F_962F_960F
    ensures Rotl(1, 19) == 0x8_0000 && Rotl(0, 19) == 0
    ensures Rotl(MUL4, 31) == 0x8F4C_6F92_CFD9_0E32
    ensures Rotl(MUL5, 27) == 0x23C5_EB21_7D03_B0EB
  {
    hide Rotl, Pow2;
    PowValues();
    RotlValue(MUL1, 29, 0x2000_0000, 0x8_0000_0000);
    RotlValue(MUL2, 21, 0x20_0000, 0x800_0000_0000);
    RotlValue(1, 19, 0x8_0000, 0x2000_0000_0000);
    RotlValue(0, 19, 0x8_0000, 0x2000_0000_0000);
    RotlValue(MUL4, 31, 0x8000_0000, 0x2_0000_0000);
    RotlValue(MUL5, 27, 0x800_0000, 0x20_0000_0000);
  }

  lemma RotlValue(x: U64, r: nat, p: nat, q: nat)
    requires 0 < r < 64 && p == Pow2(r) && q == Pow2(64 - r)
    ensures q > 0 && Rotl(x, r) == x * p % TWO64 + x / q
  {
    hide Pow2;
    Pow64();
    Pow2Add(r, 64 - r);
  }

  lemma PowValues()
    ensures Pow2(19) == 0x8_0000 && Pow2(21) == 0x20_0000 && Pow2(27) == 0x800_0000
    ensures Pow2(29) == 0x2000_0000 && Pow2(31) == 0x8000_0000
    ensures Pow2(32) == 0x1_0000_0000 && Pow2(33) == 0x2_0000_0000 && Pow2(35) == 0x8_0000_0000
    ensures Pow2(37) == 0x20_0000_0000
    ensures Pow2(43) == 0x800_0000_0000 && Pow2(45) == 0x2000_0000_0000
  {
    assert Pow2(2) == 4 && Pow2(5) == 32 && Pow2(8) == 256 && Pow2(11) == 2048;
    hide Pow2;
    Pow2Add(8, 11);
    Pow2Add(19, 2);
    Pow2Add(19, 8);
    Pow2Add(27, 2);
    Pow2Add(29, 2);
    Pow2Add(31, 2);
    Pow2Add(27, 5);
    Pow2Add(33, 2);
    Pow2Add(35, 2);
    Pow2Add(35, 8);
    Pow2Add(43, 2);
  }

  // ----- the lanes of an input of n bytes

  function LaneCount(n: nat): nat {
    n / 16 * 2 + if n % 16 != 0 then 1 else 0
  }

  function KindOf(n: nat, i: nat): Kind {
    if i < n / 32 * 4 then
      if i % 4 == 0 then A1 else if i % 4 == 1 then A2 else if i % 4 == 2 then A3 else A4
    else if i < n / 16 * 2 then
      if i % 2 == 0 then B1 else B2
    else Tail
  }

  // The accumulator after the first i lanes
  function Fold(n: nat, lanes: seq<U64>, i: nat): U64
    requires i <= |lanes|
  {
    if i == 0 then 0 else Absorb(KindOf(n, i - 1), Fold(n, lanes, i - 1), lanes[i - 1])
  }

  function HashOf(n: U64, lanes: seq<U64>): U64
    requires |lanes| == LaneCount(n)
  {
    Avalanche(Xor64(Fold(n, lanes, |lanes|), n))
  }

  lemma {:induction false} FoldDiffers(n: nat, s: seq<U64>, t: seq<U64>, j: nat, i: nat)
    requires j < |s| == |t| && i <= |s| && forall k | 0 <= k < |s| && k != j :: s[k] == t[k]
    ensures Fold(n, s, i) == Fold(n, t, i) <==> i <= j || s[j] == t[j]
  {
    if i > 0 {
      FoldDiffers(n, s, t, j, i - 1);
      var kind, a, b := KindOf(n, i - 1), Fold(n, s, i - 1), Fold(n, t, i - 1);
      hide Absorb, Unabsorb, Lane;
      AbsorbBack(kind, a, s[i - 1]);
      AbsorbBack(kind, b, t[i - 1]);
      AbsorbLane(kind, a, s[i - 1]);
      AbsorbLane(kind, b, t[i - 1]);
    }
  }

  // Inputs of one length that differ in at most one lane hash alike exactly when the lane is equal.
  lemma SingleLane(n: U64, s: seq<U64>, t: seq<U64>, j: nat)
    requires j < |s| == |t| == LaneCount(n) && forall k | 0 <= k < |s| && k != j :: s[k] == t[k]
    ensures HashOf(n, s) == HashOf(n, t) <==> s[j] == t[j]
  {
    FoldDiffers(n, s, t, j, |s|);
    var a, b := Fold(n, s, |s|), Fold(n, t, |t|);
    hide Fold, Avalanche, Unavalanche, Xor64;
    Xor64Back(a, n);
    Xor64Back(b, n);
    AvalancheBack(Xor64(a, n));
    AvalancheBack(Xor64(b, n));
  }

  lemma {:induction false} FoldSame(n: nat, m: nat, s: seq<U64>, i: nat)
    requires n / 16 == m / 16 && i <= |s|
    ensures Fold(n, s, i) == Fold(m, s, i)
  {
    if i > 0 {
      FoldSame(n, m, s, i - 1);
      assert n / 32 == n / 16 / 2 && m / 32 == m / 16 / 2;
    }
  }

  // Inputs with equal lanes hash alike exactly when they have one length.
  lemma LengthCounts(n: U64, m: U64, s: seq<U64>)
    requires n / 16 == m / 16 && |s| == LaneCount(n) == LaneCount(m)
    ensures HashOf(n, s) == HashOf(m, s) <==> n == m
  {
    FoldSame(n, m, s, |s|);
    var a := Fold(n, s, |s|);
    hide Fold, Avalanche, Unavalanche, Xor64;
    Xor64Back(a, n);
    Xor64Back(a, m);
    AvalancheBack(Xor64(a, n));
    AvalancheBack(Xor64(a, m));
  }

  // ----- memory

  // *(const u64*)p on a little-endian machine
  function Load(mem: seq<Byte>, i: nat): U64
    requires i + 8 <= |mem|
  {
    At(mem, i) + 0x100 * At(mem, i + 1) + 0x1_0000 * At(mem, i + 2) + 0x100_0000 * At(mem, i + 3)
      + 0x1_0000_0000 * At(mem, i + 4) + 0x100_0000_0000 * At(mem, i + 5)
      + 0x1_0000_0000_0000 * At(mem, i + 6) + 0x100_0000_0000_0000 * At(mem, i + 7)
  }

  function At(mem: seq<Byte>, i: nat): (b: nat)
    requires i < |mem|
    ensures b < 256
  {
    mem[i]
  }

  lemma LoadDiffers(mem: seq<Byte>, i: nat, b: nat, v: Byte)
    requires i + 8 <= |mem| && i <= b < i + 8
    ensures Load(mem[b := v], i) == Load(mem, i) <==> v == mem[b]
  {}

  // The hash may read up to 7 bytes past the terminator; what is there counts as padding.
  predicate Readable(mem: seq<Byte>, n: nat) {
    n < |mem| && LaneCount(n) * 8 <= |mem|
  }

  lemma LanesEnd(n: nat)
    ensures LaneCount(n) * 8 <= n + 7
    ensures n % 16 == 0 || n % 16 <= 8 ==> n <= LaneCount(n) * 8
    ensures n % 16 > 8 ==> LaneCount(n) * 8 == n / 16 * 16 + 8 < n
  {}

  function Lanes(mem: seq<Byte>, n: nat): (r: seq<U64>)
    requires Readable(mem, n)
    ensures |r| == LaneCount(n)
  {
    seq(LaneCount(n), i requires 0 <= i < LaneCount(n) => Load(mem, 8 * i))
  }

  // A changed byte changes the hash exactly when it lies in a lane: of a tail longer than 8 bytes
  // only the first 8 count.
  lemma SingleByte(mem: seq<Byte>, n: U64, b: nat, v: Byte)
    requires Readable(mem, n) && b < n && v != mem[b]
    ensures HashOf(n, Lanes(mem[b := v], n)) == HashOf(n, Lanes(mem, n)) <==> b >= LaneCount(n) * 8
  {
    LanesChange(mem, n, b, v);
    hide HashOf, LaneCount, Lanes, Load;
    var j := b / 8;
    if b < LaneCount(n) * 8 {
      LoadDiffers(mem, 8 * j, b, v);
      SingleLane(n, Lanes(mem[b := v], n), Lanes(mem, n), j);
    }
  }

  lemma LanesChange(mem: seq<Byte>, n: nat, b: nat, v: Byte)
    requires Readable(mem, n) && b < n
    ensures forall i | 0 <= i < LaneCount(n) && i != b / 8 :: Lanes(mem[b := v], n)[i] == Lanes(mem, n)[i]
    ensures b < LaneCount(n) * 8 ==> 8 * (b / 8) + 8 <= |mem|
    ensures b < LaneCount(n) * 8 ==> Lanes(mem, n)[b / 8] == Load(mem, 8 * (b / 8))
    ensures b < LaneCount(n) * 8 ==> Lanes(mem[b := v], n)[b / 8] == Load(mem[b := v], 8 * (b / 8))
    ensures b >= LaneCount(n) * 8 ==> Lanes(mem[b := v], n) == Lanes(mem, n)
  {
    hide LaneCount, Load;
    forall i | 0 <= i < LaneCount(n) && i != b / 8 ensures Lanes(mem[b := v], n)[i] == Lanes(mem, n)[i] {
      LoadSame(mem, 8 * i, b, v);
    }
  }

  // Byte k of a word comes from address i + k.
  lemma LoadByte(mem: seq<Byte>, i: nat, k: nat)
    requires i + 8 <= |mem| && k < 8
    ensures Above(Load(mem, i), k) % 256 == mem[i + k]
  {
    LoadIs(mem, i);
    hide Load, Above;
    FromIs(mem, i, k);
    FromDigit(mem, i, k);
  }

  lemma LoadIs(mem: seq<Byte>, i: nat)
    requires i + 8 <= |mem|
    ensures Load(mem, i) == From(mem, i, 0)
  {
    assert From(mem, i, 4) == At(mem, i + 4) + 256 * (At(mem, i + 5) + 256 * (At(mem, i + 6) + 256 * At(mem, i + 7)));
  }

  lemma FromDigit(mem: seq<Byte>, i: nat, k: nat)
    requires i + 8 <= |mem| && k < 8
    ensures From(mem, i, k) % 256 == mem[i + k] && From(mem, i, k) / 256 == From(mem, i, k + 1)
  {}

  // The number whose digits are bytes k to 7
  function From(mem: seq<Byte>, i: nat, k: nat): nat
    requires i + 8 <= |mem| && k <= 8
    decreases 8 - k
  {
    if k == 8 then 0 else At(mem, i + k) + 256 * From(mem, i, k + 1)
  }

  lemma {:induction false} FromIs(mem: seq<Byte>, i: nat, k: nat)
    requires i + 8 <= |mem| && k < 8
    ensures Above(From(mem, i, 0), k) == From(mem, i, k)
  {
    if k == 0 {
      assert Pow2(0) == 1;
    } else {
      FromIs(mem, i, k - 1);
      AboveStep(From(mem, i, 0), k - 1);
      FromDigit(mem, i, k - 1);
      hide Above;
    }
  }

  // x without its k lowest bytes
  function Above(x: nat, k: nat): int {
    x / Pow2(8 * k)
  }

  lemma AboveStep(x: nat, k: nat)
    ensures Above(x, k + 1) == Above(x, k) / 256
  {
    Pow2Byte(8 * k);
    hide Pow2;
    DivByte(x, Pow2(8 * k), Pow2(8 * k + 8));
  }

  lemma Pow2Byte(k: nat)
    ensures Pow2(k + 8) == 256 * Pow2(k)
  {
    assert Pow2(k + 2) == 4 * Pow2(k);
    assert Pow2(k + 4) == 4 * Pow2(k + 2);
    assert Pow2(k + 6) == 4 * Pow2(k + 4);
  }

  lemma DivByte(x: nat, p: nat, n: nat)
    requires p > 0 && n == 256 * p
    ensures x / n == x / p / 256
  {
    DivTwice(x, p, 256, n);
  }

  lemma LoadSame(mem: seq<Byte>, i: nat, b: nat, v: Byte)
    requires i + 8 <= |mem| && b < |mem| && (b < i || i + 8 <= b)
    ensures Load(mem[b := v], i) == Load(mem, i)
  {}

  // ----- XXH3_64bit

  function StrLen(mem: seq<Byte>): (n: nat)
    requires 0 in mem
    ensures n < |mem| && mem[n] == 0 && forall i | 0 <= i < n :: mem[i] != 0
  {
    if mem[0] == 0 then 0 else 1 + StrLen(mem[1..])
  }

  lemma FoldBlock32(n: nat, lanes: seq<U64>, i: nat)
    requires i % 4 == 0 && i + 4 <= n / 32 * 4 && i + 4 <= |lanes|
    ensures Fold(n, lanes, i + 4) ==
      Xor64(Rotl(Plus(Times(Rotl(Plus(Rotl(Xor64(Fold(n, lanes, i), Times(lanes[i], MUL1)), 29),
                                      Times(lanes[i + 1], MUL2)), 21), MUL3), lanes[i + 2]), 19),
            Times(lanes[i + 3], MUL1))
  {
    hide Rotl, Times, Xor64, Plus;
    assert Fold(n, lanes, i + 1) == Absorb(A1, Fold(n, lanes, i), lanes[i]);
    assert Fold(n, lanes, i + 2) == Absorb(A2, Fold(n, lanes, i + 1), lanes[i + 1]);
    assert Fold(n, lanes, i + 3) == Absorb(A3, Fold(n, lanes, i + 2), lanes[i + 2]);
  }

  lemma FoldBlock16(n: nat, lanes: seq<U64>, i: nat)
    requires i == n / 32 * 4 && i + 2 <= n / 16 * 2 && i + 2 <= |lanes|
    ensures Fold(n, lanes, i + 2) ==
      Plus(Times(Rotl(Xor64(Fold(n, lanes, i), Times(lanes[i], MUL4)), 31), MUL4), Times(lanes[i + 1], MUL4))
  {
    hide Rotl, Times, Xor64, Plus, KindOf;
    KindsB(n, i);
    assert Fold(n, lanes, i + 1) == Absorb(B1, Fold(n, lanes, i), lanes[i]);
  }

  lemma KindsB(n: nat, i: nat)
    requires i == n / 32 * 4 && i + 2 <= n / 16 * 2
    ensures KindOf(n, i) == B1 && KindOf(n, i + 1) == B2
  {}

  lemma FoldTail(n: nat, lanes: seq<U64>, i: nat)
    requires i == n / 16 * 2 && i + 1 <= |lanes|
    ensures Fold(n, lanes, i + 1) == Times(Rotl(Xor64(Fold(n, lanes, i), Times(lanes[i], MUL5)), 27), MUL5)
  {
    hide Rotl, Times, Xor64, Plus;
    assert n / 32 * 4 <= i;
    assert KindOf(n, i) == Tail;
  }

  // The body of the do loop; i is the lane at p
  method Block32(mem: seq<Byte>, p: nat, acc0: U64, ghost n: nat, ghost i: nat) returns (acc: U64)
    requires Readable(mem, n) && p == 8 * i && i % 4 == 0 && i + 4 <= n / 32 * 4 <= LaneCount(n)
    requires acc0 == Fold(n, Lanes(mem, n), i)
    ensures acc == Fold(n, Lanes(mem, n), i + 4)
  {
    hide Rotl, Times, Xor64, Plus, Fold, Load, LaneCount;
    FoldBlock32(n, Lanes(mem, n), i);
    var k1, k2, k3, k4 := Load(mem, p), Load(mem, p + 8), Load(mem, p + 16), Load(mem, p + 24);
    acc := Plus(Rotl(Xor64(acc0, Times(k1, MUL1)), 29), Times(k2, MUL2));
    acc := Rotl(acc, 21);
    acc := Plus(Times(acc, MUL3), k3);
    acc := Xor64(Rotl(acc, 19), Times(k4, MUL1));
  }

  // The body of the while loop
  method Block16(mem: seq<Byte>, p: nat, acc0: U64, ghost n: nat, ghost i: nat) returns (acc: U64)
    requires Readable(mem, n) && p == 8 * i && i == n / 32 * 4 && i + 2 <= n / 16 * 2 <= LaneCount(n)
    requires acc0 == Fold(n, Lanes(mem, n), i)
    ensures acc == Fold(n, Lanes(mem, n), i + 2)
  {
    hide Rotl, Times, Xor64, Plus, Fold, Load, LaneCount;
    FoldBlock16(n, Lanes(mem, n), i);
    var k1, k2 := Load(mem, p), Load(mem, p + 8);
    acc := Plus(Times(Rotl(Xor64(acc0, Times(k1, MUL4)), 31), MUL4), Times(k2, MUL4));
  }

  lemma Halving(n: nat)
    ensures n / 16 == 2 * (n / 32) + (if n - n / 32 * 32 >= 16 then 1 else 0)
    ensures n / 32 * 4 <= n / 16 * 2 <= LaneCount(n) && n / 32 * 32 <= n < n / 32 * 32 + 32
    ensures n / 16 * 16 <= n < n / 16 * 16 + 16
  {}

  method Xxh3(mem: seq<Byte>) returns (acc: U64)
    requires 0 in mem && StrLen(mem) < TWO64 && Readable(mem, StrLen(mem))
    ensures acc == HashOf(StrLen(mem), Lanes(mem, StrLen(mem)))
  {
    hide Rotl, Times, Xor64, Plus, Fold, Avalanche, Load, StrLen, Lanes, LaneCount;
    var n := StrLen(mem);
    ghost var lanes, q := Lanes(mem, n), n / 32;
    Halving(n);
    FoldStart(n, lanes);
    var p := 0;
    ghost var i := 0;
    acc := 0;
    if n >= 32 {
      var limit := n - 32;
      var again := true;
      while again
        invariant p == 8 * i && i % 4 == 0 && i <= 4 * q && acc == Fold(n, lanes, i)
        invariant again <==> p <= limit
        decreases n - p + if again then 1 else 0
      {
        acc := Block32(mem, p, acc, n, i);
        p := p + 32;
        i := i + 4;
        again := p <= limit;
      }
    }
    assert i == 4 * q;
    // may lie before the start of the input
    var limit: int := n - 16;
    while p <= limit
      invariant p == 8 * i && (i == 4 * q || i == n / 16 * 2) && acc == Fold(n, lanes, i)
    {
      acc := Block16(mem, p, acc, n, i);
      p := p + 16;
      i := i + 2;
    }
    assert i == n / 16 * 2;
    if p < n {
      TailLane(mem, n, i);
      FoldTail(n, lanes, i);
      var k1 := Load(mem, p);
      acc := Times(Rotl(Xor64(acc, Times(k1, MUL5)), 27), MUL5);
      i := i + 1;
    }
    CountIs(n, i);
    acc := Xor64(acc, n);
    acc := Avalanche(acc);
  }

  lemma TailLane(mem: seq<Byte>, n: nat, i: nat)
    requires Readable(mem, n) && i == n / 16 * 2 && 8 * i < n
    ensures i < LaneCount(n) && 8 * i + 8 <= |mem| && Lanes(mem, n)[i] == Load(mem, 8 * i)
  {}

  lemma CountIs(n: nat, i: nat)
    ensures i == LaneCount(n) <==> i == n / 16 * 2 + if n / 16 * 2 * 8 < n then 1 else 0
  {}

  lemma FoldStart(n: nat, lanes: seq<U64>)
    ensures Fold(n, lanes, 0) == 0
  {}
}
