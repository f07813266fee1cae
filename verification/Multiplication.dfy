/** 64-bit multiplication on 32-bit limbs (Karatsuba). Sums that the program computes without wrap-around
    are assigned to words, so that their range is checked. */
module Multiplication {
  import opened Words
  import Sequences
  import Numerics
  import Limbs

  /** Wrapping sum and its carry. */
  method Add32(a: Word, b: Word) returns (sum: Word, carry: Word)
    ensures a + b == sum + carry * B32 && carry <= 1
  {
    sum := (a + b) % B32;
    carry := if a + b >= B32 then 1 else 0;
  }

  /** Wrapping difference and its borrow. */
  method Sub32(a: Word, b: Word) returns (diff: Word, borrow: Word)
    ensures a - b == diff - borrow * B32 && borrow == if a < b then 1 else 0
  {
    diff := (a - b) % B32;
    borrow := if a < b then 1 else 0;
  }

  method Add64(lo: Word, hi: Word, addLo: Word, addHi: Word) returns (lo': Word, hi': Word)
    requires addHi + (if lo + addLo >= B32 then 1 else 0) < B32
    ensures Join(lo', hi') == ToDWord(Join(lo, hi) + Join(addLo, addHi))
  {
    var s, c := Add32(lo, addLo);
    var add: Word := addHi + c;
    lo' := s;
    hi' := (hi + add) % B32;
    var carry := (hi + add) / B32;
    assert Join(lo, hi) + Join(addLo, addHi) == Join(lo', hi') + carry * B64;
    Wraps(Join(lo, hi) + Join(addLo, addHi), Join(lo', hi'), carry);
  }

  method Sub64(lo: Word, hi: Word, subLo: Word, subHi: Word) returns (lo': Word, hi': Word)
    requires subHi <= B32 - 2
    ensures Join(lo', hi') == ToDWord(Join(lo, hi) - Join(subLo, subHi))
  {
    var s, b := Sub32(lo, subLo);
    var sub: Word := subHi + b;
    var h, b2 := Sub32(hi, sub);
    lo', hi' := s, h;
    assert Join(lo, hi) - Join(subLo, subHi) == Join(lo', hi') - b2 * B64;
    Wraps(Join(lo, hi) - Join(subLo, subHi), Join(lo', hi'), -b2);
  }

  lemma Wraps(x: int, r: DWord, q: int)
    requires x == r + q * B64
    ensures ToDWord(x) == r
  {
  }

  /** 32 x 32 -> 64 bits from four 16-bit products: exact, with a high word of at most 2^32 - 2. */
  method Mul32(x: Word, y: Word) returns (low: Word, high: Word)
    ensures x * y == low + high * B32 == Join(low, high) && high <= B32 - 2
  {
    var x0, x1 := x % B16, x / B16;
    var y0, y1 := y % B16, y / B16;
    Small(x0, y0);
    Small(x0, y1);
    Small(x1, y0);
    Small(x1, y1);
    var t: Word := x0 * y0;
    var s1: Word := x0 * y1;
    var s2: Word := x1 * y0;
    var v: Word := x1 * y1;
    var crossLo, carryCross := Add32(s1, s2);
    var carryLow;
    low, carryLow := Add32(t, (crossLo % B16) * B16);
    var crossHi: Word := crossLo / B16 + carryCross * B16;
    Expand(x0, x1, y0, y1, x, y);
    Bounded(x, y);
    assert x * y == (v + crossHi + carryLow) * B32 + low;
    assert v + crossHi + carryLow <= B32 - 2;
    var tmp, carryHi := Add32(v, crossHi);
    assert carryHi == 0;
    high := tmp + carryLow + carryHi;
  }

  lemma Small(x: nat, y: nat)
    requires x < B16 && y < B16
    ensures x * y <= 0xFFFE_0001
  {
    Numerics.Scale(x, 0xFFFF, y);
    Numerics.Scale(y, 0xFFFF, 0xFFFF);
    Numerics.Commutes(0xFFFF, y);
  }

  lemma Expand(x0: nat, x1: nat, y0: nat, y1: nat, x: nat, y: nat)
    requires x == x0 + x1 * B16 && y == y0 + y1 * B16
    ensures x * y == x0 * y0 + (x0 * y1 + x1 * y0) * B16 + (x1 * y1) * B32
  {
    DistributeLimbs(x0, x1, y, B16);
    Distribute2(x0, y0, y1, B16);
    Distribute2(x1, y0, y1, B16);
  }

  lemma DistributeLimbs(x0: nat, x1: nat, y: nat, b: nat)
    ensures (x0 + x1 * b) * y == x0 * y + (x1 * y) * b
  {
  }

  lemma Distribute2(x: nat, y0: nat, y1: nat, b: nat)
    ensures x * (y0 + y1 * b) == x * y0 + (x * y1) * b
  {
  }

  lemma Bounded(x: Word, y: Word)
    ensures x * y <= (B32 - 1) * (B32 - 1)
  {
    Numerics.ProductFits(x, y);
  }

  /** The Karatsuba middle term. */
  lemma Middle(aLo: nat, aHi: nat, bLo: nat, bHi: nat)
    ensures (aLo + aHi) * (bLo + bHi) == aLo * bLo + aHi * bHi + (aLo * bHi + aHi * bLo)
  {
  }

  /** The middle term from the wrapped sums. */
  lemma FromSums(saLo: Word, ca: Word, sbLo: Word, cb: Word)
    requires ca <= 1 && cb <= 1
    ensures (saLo + ca * B32) * (sbLo + cb * B32)
         == saLo * sbLo + (if ca == 0 then 0 else sbLo * B32) + (if cb == 0 then 0 else saLo * B32) + ca * cb * B64
  {
    var x, y := ca * B32, cb * B32;
    assert (saLo + x) * (sbLo + y) == saLo * sbLo + x * sbLo + saLo * y + x * y by { Cross(saLo, x, sbLo, y); }
  }

  lemma Cross(a: nat, x: nat, b: nat, y: nat)
    ensures (a + x) * (b + y) == a * b + x * b + a * y + x * y
  {
  }

  lemma ModAdds(x: int, y: int)
    ensures ToDWord(ToDWord(x) + y) == ToDWord(x + y)
    ensures ToDWord(ToDWord(x) - y) == ToDWord(x - y)
  {
    WholeDWords(x + y, x / B64);
    WholeDWords(x - y, x / B64);
  }

  lemma WholeDWords(z: int, q: int)
    ensures ToDWord(z - q * B64) == ToDWord(z)
  {
    Limbs.ModUnique(z - q * B64, z % B64, z / B64 - q, B64);
  }

  /** Only the low word of the middle term reaches the result. */
  lemma Assemble(z0: DWord, z1: int, z2: nat, low: Word)
    requires low == ToDWord(z1) % B32
    ensures ToDWord(z0 + low * B32) == ToDWord(z0 + z1 * B32 + z2 * B64)
  {
    var q := ToDWord(z1) / B32;
    var p := z1 / B64;
    assert z1 == low + q * B32 + p * B64;
    assert z0 + z1 * B32 + z2 * B64 == z0 + low * B32 + (q + p * B32 + z2) * B64;
    Shifted(z0 + low * B32, q + p * B32 + z2);
  }

  lemma Shifted(x: int, q: int)
    ensures ToDWord(x + q * B64) == ToDWord(x)
  {
  }

  lemma FullProduct(aLo: Word, aHi: Word, bLo: Word, bHi: Word)
    ensures Join(aLo, aHi) * Join(bLo, bHi) == aLo * bLo + (aLo * bHi + aHi * bLo) * B32 + (aHi * bHi) * B64
  {
    var x, y := aHi * B32, bHi * B32;
    Cross(aLo, x, bLo, y);
    assert x * bLo == aHi * bLo * B32 by { Scaled(aHi, bLo, B32); }
    assert aLo * y == aLo * bHi * B32;
    assert x * y == aHi * bHi * B64 by { ScaledTwice(aHi, bHi); }
  }

  lemma Scaled(a: nat, b: nat, s: nat)
    ensures (a * s) * b == (a * b) * s
  {
  }

  lemma ScaledTwice(a: nat, b: nat)
    ensures (a * B32) * (b * B32) == (a * b) * B64
  {
    Scaled(a, b * B32, B32);
  }

  /** The product modulo 2^64; it agrees with the bytecode sequence for the same operator. */
  method Mul(aLo: Word, aHi: Word, bLo: Word, bHi: Word) returns (lo: Word, hi: Word)
    ensures Join(lo, hi) == ToDWord(Join(aLo, aHi) * Join(bLo, bHi))
    ensures [lo, hi] == Sequences.MulWords(aLo, aHi, bLo, bHi)
  {
    hide Join;
    hide ToDWord;
    hide Sequences.MulWords;
    var z0Lo, z0Hi := Mul32(aLo, bLo);
    var z2Lo, z2Hi := Mul32(aHi, bHi);
    var saLo, ca := Add32(aLo, aHi);
    var sbLo, cb := Add32(bLo, bHi);
    var z1Lo, z1Hi := Mul32(saLo, sbLo);
    ghost var w0 := Join(z1Lo, z1Hi);
    JoinHigh(saLo);
    JoinHigh(sbLo);
    if ca != 0 {
      z1Lo, z1Hi := Add64(z1Lo, z1Hi, 0, sbLo);
    }
    ghost var w1 := Join(z1Lo, z1Hi);
    if cb != 0 {
      z1Lo, z1Hi := Add64(z1Lo, z1Hi, 0, saLo);
    }
    ghost var w2 := Join(z1Lo, z1Hi);
    z1Lo, z1Hi := Sub64(z1Lo, z1Hi, z0Lo, z0Hi);
    z1Lo, z1Hi := Sub64(z1Lo, z1Hi, z2Lo, z2Hi);
    MiddleIs(aLo, aHi, bLo, bHi, saLo, ca, sbLo, cb, w0, w1, w2, Join(z1Lo, z1Hi));
    JoinHigh(z1Lo);
    lo, hi := Add64(z0Lo, z0Hi, 0, z1Lo);
    SplitJoin(z1Lo, z1Hi);
    ResultIs(aLo, aHi, bLo, bHi, Join(z1Lo, z1Hi), z1Lo, Join(lo, hi));
    Agrees(aLo, aHi, bLo, bHi, lo, hi);
  }

  lemma JoinHigh(x: Word)
    ensures Join(0, x) == x * B32
  {
  }

  lemma Agrees(aLo: Word, aHi: Word, bLo: Word, bHi: Word, lo: Word, hi: Word)
    requires Join(lo, hi) == ToDWord(Join(aLo, aHi) * Join(bLo, bHi))
    ensures [lo, hi] == Sequences.MulWords(aLo, aHi, bLo, bHi)
  {
    Numerics.MulMeans(aLo, aHi, bLo, bHi);
    SplitJoin(lo, hi);
    hide Sequences.MulWords;
  }

  /** The middle term modulo 2^64, through all its corrections. */
  lemma MiddleIs(aLo: Word, aHi: Word, bLo: Word, bHi: Word, saLo: Word, ca: Word, sbLo: Word, cb: Word,
                 w0: DWord, w1: DWord, w2: DWord, w4: DWord)
    requires aLo + aHi == saLo + ca * B32 && bLo + bHi == sbLo + cb * B32 && ca <= 1 && cb <= 1
    requires w0 == saLo * sbLo
    requires w1 == if ca != 0 then ToDWord(w0 + sbLo * B32) else w0
    requires w2 == if cb != 0 then ToDWord(w1 + saLo * B32) else w1
    requires w4 == ToDWord(ToDWord(w2 - aLo * bLo) - aHi * bHi)
    ensures w4 == ToDWord(aLo * bHi + aHi * bLo)
  {
    Corrections(saLo, ca, sbLo, cb, w0, w1, w2, w4, aLo * bLo, aHi * bHi);
    var y := w0 + (if ca != 0 then sbLo * B32 else 0) + (if cb != 0 then saLo * B32 else 0);
    MiddleTerm(aLo, aHi, bLo, bHi, saLo, ca, sbLo, cb, y - aLo * bLo - aHi * bHi);
    Shifted(aLo * bHi + aHi * bLo, -(ca * cb));
    hide ToDWord;
  }

  lemma Corrections(saLo: Word, ca: Word, sbLo: Word, cb: Word, w0: DWord, w1: DWord, w2: DWord, w4: DWord, z0: int,
                    z2: int)
    requires w1 == if ca != 0 then ToDWord(w0 + sbLo * B32) else w0
    requires w2 == if cb != 0 then ToDWord(w1 + saLo * B32) else w1
    requires w4 == ToDWord(ToDWord(w2 - z0) - z2)
    ensures w4 == ToDWord(w0 + (if ca != 0 then sbLo * B32 else 0) + (if cb != 0 then saLo * B32 else 0) - z0 - z2)
  {
    var x := w0 + (if ca != 0 then sbLo * B32 else 0);
    var y := x + (if cb != 0 then saLo * B32 else 0);
    assert w1 == ToDWord(x);
    ModAdds(x, saLo * B32);
    assert w2 == ToDWord(y);
    ModAdds(y, z0);
    ModAdds(y - z0, z2);
  }

  lemma ResultIs(aLo: Word, aHi: Word, bLo: Word, bHi: Word, w: DWord, low: Word, r: DWord)
    requires w == ToDWord(aLo * bHi + aHi * bLo) && low == w % B32 && r == ToDWord(aLo * bLo + low * B32)
    ensures r == ToDWord(Join(aLo, aHi) * Join(bLo, bHi))
  {
    Bounded(aLo, bLo);
    Assemble(aLo * bLo, aLo * bHi + aHi * bLo, aHi * bHi, low);
    FullProduct(aLo, aHi, bLo, bHi);
  }

  lemma MiddleTerm(aLo: Word, aHi: Word, bLo: Word, bHi: Word, saLo: Word, ca: Word, sbLo: Word, cb: Word, z1: int)
    requires aLo + aHi == saLo + ca * B32 && bLo + bHi == sbLo + cb * B32 && ca <= 1 && cb <= 1
    requires z1 == saLo * sbLo + (if ca != 0 then sbLo * B32 else 0) + (if cb != 0 then saLo * B32 else 0)
                   - aLo * bLo - aHi * bHi
    ensures z1 == aLo * bHi + aHi * bLo - ca * cb * B64
  {
    FromSums(saLo, ca, sbLo, cb);
    Middle(aLo, aHi, bLo, bHi);
  }
}
