/** 64-bit division and remainder on 32-bit limbs. Sums that the program computes without wrap-around are
    assigned to words, so that their range is checked; a left shift drops the top bit. */
module Division {
  import opened Words
  import Limbs
  import Multiplication

  /** `(x << 1) | bit` on a word. */
  function ShiftIn(x: Word, bit: Word): Word
    requires bit <= 1
  {
    (2 * x) % B32 + bit
  }

  function ShiftRight(n: nat, k: nat): int { n / Pow2(k) }

  function TopBit(x: Word): (b: Word)
    ensures b <= 1
  {
    x / B31
  }

  /** Shifting both limbs: nothing is lost if the top bit of the pair is clear. */
  lemma ShiftPair(lo: Word, hi: Word, bit: Word)
    requires bit <= 1
    ensures 2 * Join(lo, hi) + bit == TopBit(hi) * B64 + Join(ShiftIn(lo, bit), ShiftIn(hi, TopBit(lo)))
  {
    Doubled(lo);
    Doubled(hi);
  }

  lemma Doubled(x: Word)
    ensures 2 * x == TopBit(x) * B32 + (2 * x) % B32
  {
  }

  /** A quotient and remainder of the bits of the dividend seen so far. */
  ghost predicate Divided(p: nat, d: nat, q: nat, r: nat) {
    p == q * d + r && r < d
  }

  /** One more bit of the dividend. */
  lemma NextBit(p: nat, d: nat, q: nat, r: nat, bit: nat)
    requires Divided(p, d, q, r) && bit <= 1
    ensures var s := 2 * r + bit;
            if s >= d then Divided(2 * p + bit, d, 2 * q + 1, s - d) else Divided(2 * p + bit, d, 2 * q, s)
  {
    assert (2 * q) * d == 2 * (q * d);
    assert (2 * q + 1) * d == 2 * (q * d) + d;
  }

  lemma {:induction false} DividedUnique(p: nat, d: nat, q: nat, r: nat)
    requires Divided(p, d, q, r)
    ensures q == p / d && r == p % d && q <= p && r <= p
  {
    Limbs.ModUnique(p, r, q, d);
    if q > 0 {
      assert q * d >= q by { AtLeast(q, d); }
    }
  }

  lemma AtLeast(q: nat, d: nat)
    requires d >= 1
    ensures q * d >= q
  {
  }

  /** `prefix` is the dividend shifted right by the number of bits still to come. */
  ghost predicate Prefix(n: nat, k: nat, prefix: nat, rest: DWord) {
    n * Pow2(k) == prefix * B64 + rest && prefix < Pow2(k)
  }

  lemma PrefixStep(n: nat, k: nat, prefix: nat, rest: DWord, bit: nat, rest': DWord)
    requires Prefix(n, k, prefix, rest) && 2 * rest == bit * B64 + rest' && bit <= 1
    ensures Prefix(n, k + 1, 2 * prefix + bit, rest')
  {
    assert Pow2(k + 1) == 2 * Pow2(k);
    assert n * Pow2(k + 1) == 2 * (n * Pow2(k)) by { Twice(n, Pow2(k)); }
  }

  lemma Twice(n: nat, p: nat)
    ensures n * (2 * p) == 2 * (n * p)
  {
  }

  lemma PrefixEnd(n: nat, prefix: nat, rest: DWord)
    requires Prefix(n, 64, prefix, rest)
    ensures prefix == n
  {
    Pow2Values();
    hide Pow2;
    assert (n - prefix) * B64 == rest;
  }

  /** The prefix in terms of a right shift. */
  lemma PrefixIsShift(n: nat, k: nat, prefix: nat, rest: DWord)
    requires Prefix(n, k, prefix, rest) && k <= 64
    ensures prefix == ShiftRight(n, 64 - k)
  {
    Pow2Add(k, 64 - k);
    Pow2Values();
    var a, b := Pow2(k), Pow2(64 - k);
    hide Pow2;
    assert a * b == B64;
    Cancel(n, a, b, prefix, rest);
  }

  lemma Cancel(n: nat, a: nat, b: nat, prefix: nat, rest: nat)
    requires a >= 1 && b >= 1 && n * a == prefix * (a * b) + rest && rest < a * b
    ensures prefix == n / b
  {
    var m := n - prefix * b;
    Reorder(prefix, a, b);
    assert m * a == n * a - (prefix * b) * a by { DistributeDifference(n, prefix * b, a); }
    assert m * a == rest;
    Smaller(m, a, b);
    Limbs.ModUnique(n, m, prefix, b);
  }

  lemma Reorder(p: nat, a: nat, b: nat)
    ensures p * (a * b) == (p * b) * a
  {
  }

  lemma DistributeDifference(x: int, y: int, a: int)
    ensures (x - y) * a == x * a - y * a
  {
  }

  lemma Smaller(m: int, a: nat, b: nat)
    requires a >= 1 && 0 <= m * a < a * b
    ensures 0 <= m < b
  {
    Grows(b, m, a);
    Grows(m, -1, a);
  }

  lemma Grows(x: int, y: int, k: nat)
    ensures x <= y ==> x * k <= y * k
  {
  }

  /** The 64-step long division: after `k` steps the remainder is at most the dividend shifted right by
      `64 - k`, so that no shift loses a bit, and the borrow never overflows the high limb of the divisor. */
  method LongDivide(nLo0: Word, nHi0: Word, dLo: Word, dHi: Word) returns (qLo: Word, qHi: Word, rLo: Word, rHi: Word)
    requires Join(dLo, dHi) != 0
    ensures Join(qLo, qHi) == Join(nLo0, nHi0) / Join(dLo, dHi)
    ensures Join(rLo, rHi) == Join(nLo0, nHi0) % Join(dLo, dHi)
  {
    var nLo, nHi := nLo0, nHi0;
    qLo, qHi, rLo, rHi := 0, 0, 0, 0;
    ghost var n, d := Join(nLo0, nHi0), Join(dLo, dHi);
    ghost var prefix: nat := 0;
    hide Prefix;
    hide Divided;
    hide Pow2;
    hide ShiftRight;
    Start(n, d);
    for k := 0 to 64
      invariant Prefix(n, k, prefix, Join(nLo, nHi))
      invariant Divided(prefix, d, Join(qLo, qHi), Join(rLo, rHi))
      invariant Join(rLo, rHi) <= ShiftRight(n, 64 - k)
    {
      ghost var rest, q, r := Join(nLo, nHi), Join(qLo, qHi), Join(rLo, rHi);
      Room(n, k, prefix, rest, d, q, r);
      var carry, lostR, lostQ;
      nLo, nHi, carry := ShiftLeft(nLo, nHi, 0);
      rLo, rHi, lostR := ShiftLeft(rLo, rHi, carry);
      assert lostR == 0;
      var ge := rHi > dHi || (rHi == dHi && rLo >= dLo);
      assert ge <==> 2 * r + carry >= d;
      if ge {
        rLo, rHi := Subtract(rLo, rHi, dLo, dHi);
      }
      qLo, qHi, lostQ := ShiftLeft(qLo, qHi, if ge then 1 else 0);
      assert lostQ == 0;
      StepDone(n, k, prefix, rest, d, q, r, carry, Join(nLo, nHi), Join(qLo, qHi), Join(rLo, rHi));
      prefix := 2 * prefix + carry;
    }
    PrefixEnd(n, prefix, Join(nLo, nHi));
    DividedUnique(n, d, Join(qLo, qHi), Join(rLo, rHi));
  }

  /** `(hi, lo) << 1` with `bit` shifted in, and the bit shifted out. */
  method ShiftLeft(lo: Word, hi: Word, bit: Word) returns (lo': Word, hi': Word, carry: Word)
    requires bit <= 1
    ensures 2 * Join(lo, hi) + bit == carry * B64 + Join(lo', hi') && carry <= 1
  {
    ShiftPair(lo, hi, bit);
    carry := TopBit(hi);
    hi' := ShiftIn(hi, TopBit(lo));
    lo' := ShiftIn(lo, bit);
  }

  lemma Start(n: DWord, d: nat)
    requires d > 0
    ensures Prefix(n, 0, 0, n) && Divided(0, d, 0, 0) && ShiftRight(n, 64) >= 0
  {
    Quotients(n, 64);
  }

  lemma Quotients(x: nat, k: nat)
    ensures ShiftRight(x, k) >= 0
  {
    var p := Pow2(k);
    hide Pow2;
    assert x == (x / p) * p + x % p;
    Grows(x / p, -1, p);
  }

  /** Before every step the remainder and the quotient have their top bit clear. */
  lemma Room(n: nat, k: nat, prefix: nat, rest: DWord, d: nat, q: DWord, r: DWord)
    requires Prefix(n, k, prefix, rest) && Divided(prefix, d, q, r) && k < 64
    ensures q < B63 && r < B63
  {
    DividedUnique(prefix, d, q, r);
    NoLoss(n, k, prefix, rest, q);
    NoLoss(n, k, prefix, rest, r);
  }

  lemma StepDone(n: nat, k: nat, prefix: nat, rest: DWord, d: nat, q: DWord, r: DWord, bit: nat, rest': DWord,
                 q': DWord, r': DWord)
    requires Prefix(n, k, prefix, rest) && Divided(prefix, d, q, r) && k < 64
    requires 2 * rest == bit * B64 + rest' && bit <= 1
    requires r' == (if 2 * r + bit >= d then 2 * r + bit - d else 2 * r + bit)
    requires q' == 2 * q + (if 2 * r + bit >= d then 1 else 0)
    ensures Prefix(n, k + 1, 2 * prefix + bit, rest') && Divided(2 * prefix + bit, d, q', r')
    ensures r' <= ShiftRight(n, 64 - (k + 1))
  {
    PrefixStep(n, k, prefix, rest, bit, rest');
    NextBit(prefix, d, q, r, bit);
    PrefixIsShift(n, k + 1, 2 * prefix + bit, rest');
    DividedUnique(2 * prefix + bit, d, q', r');
  }

  /** Before the last step every partial result has its top bit clear. */
  lemma NoLoss(n: nat, k: nat, prefix: nat, rest: DWord, x: DWord)
    requires Prefix(n, k, prefix, rest) && k < 64 && x <= prefix
    ensures x < B63
  {
    Pow2Values();
    Pow2Add(k, 63 - k);
    Smallest(Pow2(k), Pow2(63 - k));
  }

  lemma Smallest(a: nat, b: nat)
    requires b >= 1
    ensures a <= a * b
  {
  }

  /** `r -= d` on limbs, where `r >= d`; the high limb of the divisor plus the borrow is a word. */
  method Subtract(rLo: Word, rHi: Word, dLo: Word, dHi: Word) returns (lo: Word, hi: Word)
    requires Join(rLo, rHi) >= Join(dLo, dHi)
    ensures Join(lo, hi) == Join(rLo, rHi) - Join(dLo, dHi)
  {
    var newLo, borrow := Multiplication.Sub32(rLo, dLo);
    var sub: Word := dHi + borrow;
    var newHi, over := Multiplication.Sub32(rHi, sub);
    lo, hi := newLo, newHi;
  }

  // ----- the fast path: a divisor below 2^31 -----

  /** `x >> i` by repeated halving. */
  function Shr(x: nat, i: nat): nat { if i == 0 then x else Shr(x, i - 1) / 2 }

  /** Bit `i` of a word. */
  function BitAt(x: Word, i: nat): (b: Word)
    ensures b <= 1
  {
    Shr(x, i) % 2
  }

  lemma {:induction false} ShrAtMost(x: nat, i: nat)
    ensures Shr(x, i) <= x
  {
    if i > 0 {
      ShrAtMost(x, i - 1);
    }
  }

  lemma {:induction false} ShrBelow(x: nat, n: nat, i: nat)
    requires x < Pow2(n + i)
    ensures Shr(x, i) < Pow2(n)
    decreases i
  {
    if i > 0 {
      ShrBelow(x, n + 1, i - 1);
    }
  }

  /** The low half: `big * 2^i` is the quotient so far, for the bits of `(hi, lo)` down to bit `i`. */
  ghost predicate LowHalf(hi: Word, lo: Word, d: nat, i: nat, big: nat, q: nat, r: nat) {
    i <= 32 && q == big * Pow2(i) && big < Pow2(32 - i) && Divided(Seen(hi, lo, i), d, big, r)
  }

  /** The dividend without its lowest `i` bits. */
  function Seen(hi: Word, lo: Word, i: nat): nat
    requires i <= 32
  {
    hi * Pow2(32 - i) + Shr(lo, i)
  }

  lemma LowStart(hi: Word, lo: Word, d: nat)
    requires hi < d
    ensures LowHalf(hi, lo, d, 32, 0, 0, hi)
  {
    Pow2Values();
    ShrBelow(lo, 0, 32);
    assert Pow2(0) == 1;
    hide Pow2;
    hide Shr;
  }

  lemma SeenStep(hi: Word, lo: Word, i: nat)
    requires i < 32
    ensures Seen(hi, lo, i) == 2 * Seen(hi, lo, i + 1) + BitAt(lo, i)
  {
    assert Pow2(32 - i) == 2 * Pow2(31 - i);
    Twice(hi, Pow2(31 - i));
    assert Shr(lo, i + 1) == Shr(lo, i) / 2;
  }

  lemma QuotientBit(big: nat, q: nat, i: nat)
    requires i < 32 && q == big * Pow2(i + 1) && big < Pow2(32 - (i + 1))
    ensures q == (2 * big) * Pow2(i) && q + Pow2(i) == (2 * big + 1) * Pow2(i)
    ensures q + Pow2(i) < B32 + 1 && 2 * big + 1 < Pow2(32 - i)
    ensures q + Pow2(i) < B32
  {
    var b := Pow2(i);
    assert Pow2(i + 1) == 2 * b && Pow2(32 - i) == 2 * Pow2(31 - i);
    Pow2Add(32 - i, i);
    Pow2Values();
    var a := Pow2(32 - i);
    hide Pow2;
    Twice(big, b);
    Twice2(big, b);
    OneMore(2 * big, b);
    Grows(2 * big + 1, a - 1, b);
    OneLess(a, b);
  }

  lemma Twice2(x: nat, b: nat)
    ensures (2 * x) * b == 2 * (x * b)
  {
  }

  lemma OneMore(x: nat, b: nat)
    ensures (x + 1) * b == x * b + b
  {
  }

  lemma OneLess(x: nat, b: nat)
    ensures (x - 1) * b == x * b - b
  {
  }

  lemma LowStep(hi: Word, lo: Word, d: nat, i: nat, big: nat, q: nat, r: nat)
    requires i < 32 && LowHalf(hi, lo, d, i + 1, big, q, r)
    ensures var s := 2 * r + BitAt(lo, i);
            && q + Pow2(i) < B32
            && if s >= d then LowHalf(hi, lo, d, i, 2 * big + 1, q + Pow2(i), s - d)
               else LowHalf(hi, lo, d, i, 2 * big, q, s)
  {
    SeenStep(hi, lo, i);
    NextBit(Seen(hi, lo, i + 1), d, big, r, BitAt(lo, i));
    QuotientBit(big, q, i);
    hide Seen;
    hide Divided;
    hide Pow2;
    hide BitAt;
  }

  lemma LowEnd(hi: Word, lo: Word, d: nat, big: nat, q: nat, r: nat)
    requires LowHalf(hi, lo, d, 0, big, q, r)
    ensures hi * B32 + lo == q * d + r && r < d
  {
    Pow2Values();
    assert Pow2(0) == 1;
    hide Pow2;
    assert big * 1 == big;
  }

  lemma HighStep(hi: Word, i: nat)
    ensures 2 * Shr(hi, i + 1) + BitAt(hi, i) == Shr(hi, i) <= hi
  {
    ShrAtMost(hi, i);
    hide Shr;
    assert Shr(hi, i + 1) == Shr(hi, i) / 2 by { Halved(hi, i); }
  }

  lemma Halved(x: nat, i: nat)
    ensures Shr(x, i + 1) == Shr(x, i) / 2
  {
  }

  lemma HighStart(hi: Word)
    ensures Shr(hi, 32) == 0
  {
    Pow2Values();
    ShrBelow(hi, 0, 32);
    assert Pow2(0) == 1;
    hide Pow2;
    hide Shr;
  }

  /** The bits of the dividend from `i` on have been divided. */
  ghost predicate Scanned(hi: Word, lo: Word, d: nat, i: nat, big: nat, q: nat, r: nat) {
    && r < d
    && (i >= 32 ==> q == 0 && big == 0 && r == Shr(hi, i - 32))
    && (i <= 32 ==> LowHalf(hi, lo, d, i, big, q, r))
  }

  lemma ScanStarts(hi: Word, lo: Word, d: nat)
    requires hi < d
    ensures Scanned(hi, lo, d, 64, 0, 0, 0)
  {
    hide Shr;
    hide LowHalf;
    HighStart(hi);
  }

  /** One more bit. */
  lemma ScanStep(hi: Word, lo: Word, d: nat, i: nat, big: nat, q: nat, r: nat)
    requires i < 64 && hi < d && Scanned(hi, lo, d, i + 1, big, q, r)
    ensures var s := 2 * r + (if i >= 32 then BitAt(hi, i - 32) else BitAt(lo, i));
            && (if i >= 32 then s < d else q + Pow2(i) < B32)
            && if s >= d then Scanned(hi, lo, d, i, 2 * big + 1, q + Pow2(i), s - d)
               else Scanned(hi, lo, d, i, 2 * big, q, s)
  {
    hide Pow2;
    hide BitAt;
    hide LowHalf;
    if i >= 32 {
      HighStep(hi, i - 32);
      if i == 32 {
        LowStart(hi, lo, d);
      }
    } else {
      hide Shr;
      LowStep(hi, lo, d, i, big, q, r);
    }
  }

  /** 64 / 32 bits, one bit of the dividend at a time; the remainder stays below the divisor, so that
      shifting it never loses a bit. */
  method DivMod64By32(hi: Word, lo: Word, d: Word) returns (q: Word, r: Word)
    requires 0 < d < B31 && hi < d
    ensures hi * B32 + lo == q * d + r && r < d
  {
    hide Pow2;
    hide BitAt;
    hide Scanned;
    q, r := 0, 0;
    ghost var big: nat := 0;
    ScanStarts(hi, lo, d);
    for i := 64 downto 0
      invariant r < d && Scanned(hi, lo, d, i, big, q, r)
    {
      ScanStep(hi, lo, d, i, big, q, r);
      var bit := if i >= 32 then BitAt(hi, i - 32) else BitAt(lo, i);
      r := 2 * r + bit;
      if r >= d {
        r := r - d;
        if i >= 32 {
          // Bits of the high limb never reach the divisor, so that no bit of the quotient is set twice.
          assert false;
        } else {
          q := q + Pow2(i);
          big := 2 * big + 1;
        }
      } else {
        big := 2 * big;
      }
      Remains(hi, lo, d, i, big, q, r);
    }
    ScanEnds(hi, lo, d, big, q, r);
  }

  lemma Remains(hi: Word, lo: Word, d: nat, i: nat, big: nat, q: nat, r: nat)
    requires Scanned(hi, lo, d, i, big, q, r)
    ensures r < d
  {
  }

  lemma ScanEnds(hi: Word, lo: Word, d: nat, big: nat, q: nat, r: nat)
    requires Scanned(hi, lo, d, 0, big, q, r)
    ensures hi * B32 + lo == q * d + r && r < d
  {
    LowEnd(hi, lo, d, big, q, r);
  }

  // ----- the four operators -----

  /** Two limbs, or the breakpoint that stands for a trap. */
  datatype Outcome = Limbs2(lo: Word, hi: Word) | Breakpoint

  predicate Holds(r: Outcome, n: int) { r.Limbs2? && Join(r.lo, r.hi) == n }

  predicate HoldsSigned(r: Outcome, n: int) { r.Limbs2? && Signed64(Join(r.lo, r.hi)) == n }

  lemma TwoHalves(nLo: nat, nHi: nat, d: nat, qLo: nat, qHi: nat, rem: nat, r: nat)
    requires nHi == qHi * d + rem && rem * B32 + nLo == qLo * d + r && r < d
    ensures Divided(nLo + nHi * B32, d, qLo + qHi * B32, r)
  {
    assert (qLo + qHi * B32) * d == qLo * d + (qHi * d) * B32 by { Multiplication.DistributeLimbs(qLo, qHi, d, B32); }
  }

  lemma FastQuotient(nLo: Word, nHi: Word, d: Word, qLo: Word, qHi: Word, rem: Word, r: Word)
    requires nHi == qHi * d + rem && rem * B32 + nLo == qLo * d + r && r < d
    ensures Join(qLo, qHi) == Join(nLo, nHi) / d && r == Join(nLo, nHi) % d
  {
    TwoHalves(nLo, nHi, d, qLo, qHi, rem, r);
    DividedUnique(Join(nLo, nHi), d, Join(qLo, qHi), r);
  }

  lemma SmallQuotient(n: nat, d: nat)
    requires n < d
    ensures n / d == 0
  {
    Limbs.ModUnique(n, n, 0, d);
  }

  method DivU(nLo: Word, nHi: Word, dLo: Word, dHi: Word) returns (r: Outcome)
    ensures Join(dLo, dHi) == 0 ==> r.Breakpoint?
    ensures Join(dLo, dHi) != 0 ==> Holds(r, Join(nLo, nHi) / Join(dLo, dHi))
  {
    if dHi == 0 && dLo == 0 {
      return Breakpoint;
    }
    if nHi < dHi || (nHi == dHi && nLo < dLo) {
      SmallQuotient(Join(nLo, nHi), Join(dLo, dHi));
      return Limbs2(0, 0);
    }
    var qLo, qHi, rem, last;
    if dHi == 0 && dLo < B31 {
      qHi, rem := DivMod64By32(0, nHi, dLo);
      qLo, last := DivMod64By32(rem, nLo, dLo);
      FastQuotient(nLo, nHi, dLo, qLo, qHi, rem, last);
    } else {
      qLo, qHi, rem, last := LongDivide(nLo, nHi, dLo, dHi);
    }
    r := Limbs2(qLo, qHi);
  }

  method RemU(nLo: Word, nHi: Word, dLo: Word, dHi: Word) returns (r: Outcome)
    ensures Join(dLo, dHi) == 0 ==> r.Breakpoint?
    ensures Join(dLo, dHi) != 0 ==> Holds(r, Join(nLo, nHi) % Join(dLo, dHi))
  {
    if dHi == 0 && dLo == 0 {
      return Breakpoint;
    }
    if dHi == 0 && dLo < B31 {
      var qHi, remHi := DivMod64By32(0, nHi, dLo);
      var qLo, remLo := DivMod64By32(remHi, nLo, dLo);
      FastQuotient(nLo, nHi, dLo, qLo, qHi, remHi, remLo);
      return Limbs2(remLo, 0);
    }
    var qLo, qHi, rLo, rHi := LongDivide(nLo, nHi, dLo, dHi);
    r := Limbs2(rLo, rHi);
  }

  /** Two's-complement negation of a pair of limbs. */
  method Neg64(lo: Word, hi: Word) returns (lo': Word, hi': Word)
    ensures Join(lo', hi') == ToDWord(0 - Join(lo, hi))
  {
    lo' := (B32 - 1 - lo + 1) % B32;
    hi' := (B32 - 1 - hi + (if lo' == 0 then 1 else 0)) % B32;
    if lo == 0 && hi == 0 {
      assert lo' == 0 && hi' == 0;
    } else if lo == 0 {
      assert lo' == 0 && hi' == B32 - hi;
      Multiplication.Wraps(0 - Join(lo, hi), Join(lo', hi'), -1);
    } else {
      assert lo' == B32 - lo && hi' == B32 - 1 - hi;
      Multiplication.Wraps(0 - Join(lo, hi), Join(lo', hi'), -1);
    }
  }

  /** The absolute value of a signed pair of limbs, as an unsigned one. */
  method Magnitude(lo: Word, hi: Word) returns (lo': Word, hi': Word)
    ensures Join(lo', hi') == Abs(Signed64(Join(lo, hi)))
  {
    lo', hi' := lo, hi;
    if TopBit(hi) != 0 {
      lo', hi' := Neg64(lo, hi);
    }
    MagnitudeIs(lo, hi, Join(lo', hi'));
  }

  lemma MagnitudeIs(lo: Word, hi: Word, m: DWord)
    requires m == if TopBit(hi) != 0 then ToDWord(0 - Join(lo, hi)) else Join(lo, hi)
    ensures m == Abs(Signed64(Join(lo, hi))) && (TopBit(hi) != 0 <==> Signed64(Join(lo, hi)) < 0)
  {
    assert TopBit(hi) != 0 <==> hi >= B31;
    if hi >= B31 {
      Multiplication.Wraps(0 - Join(lo, hi), B64 - Join(lo, hi), -1);
    }
  }

  /** A magnitude below 2^63 keeps its value under either sign. */
  lemma SignedResult(m: DWord, negative: bool)
    requires m < B63 || (m == B63 && negative)
    ensures Signed64(if negative then ToDWord(0 - m) else m) == if negative then 0 - m else m
  {
    if negative && m > 0 {
      Multiplication.Wraps(0 - m, B64 - m, -1);
    }
  }

  /** The quotient of the magnitudes fits, except for MIN / -1. */
  lemma QuotientFits(n: int, d: int)
    requires -B63 <= n < B63 && -B63 <= d < B63 && d != 0 && !(n == -B63 && d == -1)
    ensures var q := Abs(n) / Abs(d); q < B63 || (q == B63 && (n < 0) != (d < 0))
    ensures Abs(n) % Abs(d) < B63
  {
    var a, b := Abs(n), Abs(d);
    DivisionIs(a, b);
    if b >= 2 {
      Grows(2, b, a / b);
      assert (a / b) * 2 <= (a / b) * b by { Grows2(a / b, 2, b); }
    }
  }

  lemma DivisionIs(a: nat, b: nat)
    requires b >= 1
    ensures a == (a / b) * b + a % b && 0 <= a % b < b && 0 <= a / b
    ensures b == 1 ==> a / b == a
  {
    Limbs.ModUnique(a, a % b, a / b, b);
    Grows(a / b, -1, b);
  }

  lemma Grows2(k: nat, x: int, y: int)
    ensures x <= y ==> k * x <= k * y
  {
  }

  method DivS(nLo: Word, nHi: Word, dLo: Word, dHi: Word) returns (r: Outcome)
    ensures var n, d := Signed64(Join(nLo, nHi)), Signed64(Join(dLo, dHi));
            if d == 0 || (n == -B63 && d == -1) then r.Breakpoint? else HoldsSigned(r, TruncDiv(n, d))
  {
    if dHi == 0 && dLo == 0 {
      return Breakpoint;
    }
    if nHi == 0x8000_0000 && nLo == 0 && dHi == 0xFFFF_FFFF && dLo == 0xFFFF_FFFF {
      return Breakpoint;
    }
    var nNeg, dNeg := TopBit(nHi) != 0, TopBit(dHi) != 0;
    ghost var n, d := Signed64(Join(nLo, nHi)), Signed64(Join(dLo, dHi));
    var aLo, aHi := Magnitude(nLo, nHi);
    var bLo, bHi := Magnitude(dLo, dHi);
    var qLo, qHi, rLo, rHi := LongDivide(aLo, aHi, bLo, bHi);
    QuotientFits(n, d);
    SignedResult(Abs(n) / Abs(d), (n < 0) != (d < 0));
    Signs(nLo, nHi);
    Signs(dLo, dHi);
    if nNeg != dNeg {
      qLo, qHi := Neg64(qLo, qHi);
    }
    r := Limbs2(qLo, qHi);
  }

  lemma Signs(lo: Word, hi: Word)
    ensures TopBit(hi) != 0 <==> Signed64(Join(lo, hi)) < 0
  {
    MagnitudeIs(lo, hi, if TopBit(hi) != 0 then ToDWord(0 - Join(lo, hi)) else Join(lo, hi));
  }

  method RemS(nLo: Word, nHi: Word, dLo: Word, dHi: Word) returns (r: Outcome)
    ensures var n, d := Signed64(Join(nLo, nHi)), Signed64(Join(dLo, dHi));
            && (if d == 0 then r.Breakpoint? else HoldsSigned(r, TruncRem(n, d)))
            && (n == -B63 && d == -1 ==> HoldsSigned(r, 0))
  {
    MinRemMinusOne();
    if dHi == 0 && dLo == 0 {
      return Breakpoint;
    }
    ghost var n, d := Signed64(Join(nLo, nHi)), Signed64(Join(dLo, dHi));
    var aLo, aHi := Magnitude(nLo, nHi);
    var bLo, bHi := Magnitude(dLo, dHi);
    var qLo, qHi, rLo, rHi := LongDivide(aLo, aHi, bLo, bHi);
    RemainderFits(n, d);
    SignedResult(Abs(n) % Abs(d), n < 0);
    Signs(nLo, nHi);
    if TopBit(nHi) != 0 {
      rLo, rHi := Neg64(rLo, rHi);
    }
    r := Limbs2(rLo, rHi);
  }

  lemma RemainderFits(n: int, d: int)
    requires -B63 <= n < B63 && -B63 <= d < B63 && d != 0
    ensures Abs(n) % Abs(d) < B63
  {
    DivisionIs(Abs(n), Abs(d));
  }

  /** Truncated division: the remainder is smaller than the divisor and has the sign of the dividend. */
  lemma Truncates(n: int, d: int)
    requires d != 0
    ensures var q, r := TruncDiv(n, d), TruncRem(n, d);
            && n == q * d + r && Abs(r) < Abs(d) && (r == 0 || (r < 0 <==> n < 0))
            && Abs(q * d) <= Abs(n)
  {
    var a, b := Abs(n), Abs(d);
    DivisionIs(a, b);
    var q := a / b;
    Negations(q, b);
  }

  lemma Negations(q: int, b: int)
    ensures (-q) * b == -(q * b) && q * (-b) == -(q * b) && (-q) * (-b) == q * b
  {
  }

  /** The one signed remainder whose quotient overflows. */
  lemma MinRemMinusOne()
    ensures TruncRem(-B63, -1) == 0
  {
    assert Abs(-B63) % Abs(-1) == 0;
  }
}
