/** What the 64-bit operators are, in terms of the two limbs of their operands. */
module Limbs {
  import opened Words
  import opened Opcodes
  import opened Machine

  // ----- sums, differences, products -----

  /** `x` reduced modulo 2^64, limb by limb. */
  lemma SplitMod(lo: Word, hi: int, over: int)
    ensures ToDWord(lo + hi * B32 + over * B64) == Join(lo, hi % B32)
  {
    var x := lo + hi * B32 + over * B64;
    assert hi == (hi / B32) * B32 + hi % B32;
    var q := hi / B32 + over;
    assert x == Join(lo, hi % B32) + q * B64;
    ModUnique(x, Join(lo, hi % B32), q, B64);
  }

  lemma ModUnique(x: int, r: int, q: int, m: int)
    requires m > 0 && 0 <= r < m && x == r + q * m
    ensures x % m == r && x / m == q
  {
    var q' := x / m - q;
    assert x == (x / m) * m + x % m;
    assert q' * m == r - x % m;
    Multiples(q', m);
  }

  lemma Multiples(q: int, m: int)
    requires m > 0
    ensures q >= 1 ==> q * m >= m
    ensures q <= -1 ==> q * m <= -m
  {
  }

  lemma AddLimbs(a: Word, b: Word, c: Word, d: Word)
    ensures ToDWord(Join(a, b) + Join(c, d)) == Join(ToWord(a + c), ToWord(b + d + (a + c) / B32))
  {
    var lo, carry := ToWord(a + c), (a + c) / B32;
    assert Join(a, b) + Join(c, d) == lo + (b + d + carry) * B32 + 0 * B64;
    SplitMod(lo, b + d + carry, 0);
  }

  lemma SubLimbs(a: Word, b: Word, c: Word, d: Word)
    ensures ToDWord(Join(a, b) - Join(c, d)) == Join(ToWord(a - c), ToWord(b - d - (if a < c then 1 else 0)))
  {
    var lo, borrow := ToWord(a - c), if a < c then 1 else 0;
    ModUnique(a - c, a - c + borrow * B32, -borrow, B32);
    assert Join(a, b) - Join(c, d) == lo + (b - d - borrow) * B32 + 0 * B64;
    SplitMod(lo, b - d - borrow, 0);
  }

  lemma MulExpand(a: int, b: int, c: int, d: int, m: int)
    ensures (a + b * m) * (c + d * m) == a * c + (a * d + b * c) * m + b * d * (m * m)
  {
    calc {
      (a + b * m) * (c + d * m);
      (a + b * m) * c + (a + b * m) * (d * m);
      a * c + (b * m) * c + a * (d * m) + (b * m) * (d * m);
      { assert (b * m) * c == (b * c) * m && a * (d * m) == (a * d) * m; }
      a * c + (b * c) * m + (a * d) * m + (b * m) * (d * m);
      { assert (b * m) * (d * m) == b * d * (m * m); }
      a * c + (a * d + b * c) * m + b * d * (m * m);
    }
  }

  lemma MulLimbs(a: Word, b: Word, c: Word, d: Word)
    ensures ToDWord(Join(a, b) * Join(c, d)) == Join(ToWord(a * c), ToWord(a * c / B32 + a * d + b * c))
  {
    var lo, carry := ToWord(a * c), a * c / B32;
    MulExpand(a, b, c, d, B32);
    assert Join(a, b) * Join(c, d) == lo + (carry + a * d + b * c) * B32 + b * d * B64;
    SplitMod(lo, carry + a * d + b * c, b * d);
  }

  // ----- comparisons -----

  function UnsignedRel(r: RelOp): RelOp {
    match r case LtS => LtU case GtS => GtU case LeS => LeU case GeS => GeU case _ => r
  }

  lemma SignedJoin(a: Word, b: Word)
    ensures Signed64(Join(a, b)) == a + Signed32(b) * B32
  {
  }

  /** Double words compare by their high limbs first; the low limbs always compare unsigned. */
  lemma CompareLimbs(r: RelOp, a: Word, b: Word, c: Word, d: Word)
    requires r != Eq && r != Ne
    ensures Compare(r, Join(a, b), Join(c, d), Signed64(Join(a, b)), Signed64(Join(c, d)))
         == if b == d then Compare(UnsignedRel(r), a, c, Signed32(a), Signed32(c))
            else Compare(r, b, d, Signed32(b), Signed32(d))
  {
    SignedJoin(a, b);
    SignedJoin(c, d);
  }

  // ----- bit operators -----

  lemma HalfSplit(k: nat, x: nat, y: nat)
    requires k > 0 && x < Pow2(k)
    ensures (x + Pow2(k) * y) / 2 == x / 2 + Pow2(k - 1) * y
    ensures (x + Pow2(k) * y) % 2 == x % 2
    ensures x / 2 < Pow2(k - 1)
  {
    var h := Pow2(k - 1) * y;
    assert Pow2(k) * y == 2 * h;
    assert x + Pow2(k) * y == x + 2 * h;
  }

  lemma {:induction false} BitwiseSplit(op: BitOp, k: nat, m: nat, x: nat, y: nat, u: nat, v: nat)
    requires x < Pow2(k) && u < Pow2(k)
    ensures Bitwise(op, k + m, x + Pow2(k) * y, u + Pow2(k) * v)
            == Bitwise(op, k, x, u) + Pow2(k) * Bitwise(op, m, y, v)
    decreases k
  {
    if k == 0 {
      assert x == 0 && u == 0;
    } else {
      hide Bit;
      Pow2Step(k);
      BitSplit(op, k, x, y, u, v);
      HalfSplit(k, x, y);
      HalfSplit(k, u, v);
      BitwiseSplit(op, k - 1, m, x / 2, y, u / 2, v);
      SplitStep(op, k, m, x, y, u, v);
    }
  }

  lemma SplitStep(op: BitOp, k: nat, m: nat, x: nat, y: nat, u: nat, v: nat)
    requires k > 0 && Pow2(k) == 2 * Pow2(k - 1)
    requires (x + Pow2(k) * y) / 2 == x / 2 + Pow2(k - 1) * y && (u + Pow2(k) * v) / 2 == u / 2 + Pow2(k - 1) * v
    requires Bit(op, x + Pow2(k) * y, u + Pow2(k) * v) == Bit(op, x, u)
    requires Bitwise(op, k - 1 + m, x / 2 + Pow2(k - 1) * y, u / 2 + Pow2(k - 1) * v)
          == Bitwise(op, k - 1, x / 2, u / 2) + Pow2(k - 1) * Bitwise(op, m, y, v)
    ensures Bitwise(op, k + m, x + Pow2(k) * y, u + Pow2(k) * v)
            == Bitwise(op, k, x, u) + Pow2(k) * Bitwise(op, m, y, v)
  {
    hide Bitwise;
    hide Bit;
    hide Pow2;
    BitwiseStep(op, k + m, x + Pow2(k) * y, u + Pow2(k) * v);
    BitwiseStep(op, k, x, u);
    Assemble(Bit(op, x, u), Bitwise(op, k - 1, x / 2, u / 2), Pow2(k - 1), Pow2(k), Bitwise(op, m, y, v));
  }

  lemma Pow2Step(k: nat)
    requires k > 0
    ensures Pow2(k) == 2 * Pow2(k - 1)
  {
  }

  /** The lowest bits do not see what is above them. */
  lemma BitSplit(op: BitOp, k: nat, x: nat, y: nat, u: nat, v: nat)
    requires k > 0 && x < Pow2(k) && u < Pow2(k)
    ensures Bit(op, x + Pow2(k) * y, u + Pow2(k) * v) == Bit(op, x, u)
  {
    HalfSplit(k, x, y);
    HalfSplit(k, u, v);
  }

  lemma Assemble(bit: int, rest: int, p: int, q: int, high: int)
    requires q == 2 * p
    ensures bit + 2 * (rest + p * high) == bit + 2 * rest + q * high
  {
  }

  lemma BitwiseStep(op: BitOp, n: nat, x: nat, y: nat)
    requires n > 0
    ensures Bitwise(op, n, x, y) == Bit(op, x, y) + 2 * Bitwise(op, n - 1, x / 2, y / 2)
  {
  }

  lemma {:induction false} BitwiseSymmetric(op: BitOp, k: nat, x: nat, y: nat)
    ensures Bitwise(op, k, x, y) == Bitwise(op, k, y, x)
    decreases k
  {
    if k > 0 {
      BitwiseSymmetric(op, k - 1, x / 2, y / 2);
    }
  }

  lemma BitwiseLimbs(op: BitOp, a: Word, b: Word, c: Word, d: Word)
    ensures ToDWord(Bitwise(op, 64, Join(a, b), Join(c, d)))
         == Join(ToWord(Bitwise(op, 32, c, a)), ToWord(Bitwise(op, 32, d, b)))
  {
    hide Bitwise;
    hide Pow2;
    Pow2Values();
    JoinAsSum(a, b);
    JoinAsSum(c, d);
    BitwiseSplit(op, 32, 32, a, b, c, d);
    BitwiseSymmetric(op, 32, a, c);
    BitwiseSymmetric(op, 32, b, d);
    JoinOf(Bitwise(op, 32, c, a), Bitwise(op, 32, d, b));
  }

  lemma JoinAsSum(a: Word, b: Word)
    ensures Join(a, b) == a + Pow2(32) * b
  {
    hide Pow2;
    Pow2Values();
  }

  lemma JoinOf(lo: nat, hi: nat)
    requires lo < Pow2(32) && hi < Pow2(32)
    ensures ToDWord(lo + Pow2(32) * hi) == Join(ToWord(lo), ToWord(hi))
  {
    hide Pow2;
    Pow2Values();
    assert lo + B32 * hi < B64;
  }

  lemma {:induction false} PopcountSplit(k: nat, m: nat, x: nat, y: nat)
    requires x < Pow2(k)
    ensures Popcount(k + m, x + Pow2(k) * y) == Popcount(k, x) + Popcount(m, y)
    decreases k
  {
    if k > 0 {
      HalfSplit(k, x, y);
      PopcountSplit(k - 1, m, x / 2, y);
    }
  }

  lemma {:induction false} TrailingZerosSplit(k: nat, m: nat, x: nat, y: nat)
    requires x < Pow2(k)
    ensures TrailingZeros(k + m, x + Pow2(k) * y)
         == if TrailingZeros(k, x) == k then k + TrailingZeros(m, y) else TrailingZeros(k, x)
    decreases k
  {
    if k > 0 {
      HalfSplit(k, x, y);
      TrailingZerosSplit(k - 1, m, x / 2, y);
    }
  }

  lemma {:induction false} LeadingZerosSplit(k: nat, m: nat, x: nat, y: nat)
    requires x < Pow2(k) && y < Pow2(m)
    ensures LeadingZeros(k + m, x + Pow2(k) * y)
         == if LeadingZeros(m, y) == m then m + LeadingZeros(k, x) else LeadingZeros(m, y)
    decreases m
  {
    if m > 0 {
      TopBit(k, m, x, y);
      LeadingZerosStep(k + m, x + Pow2(k) * y);
      LeadingZerosStep(m, y);
      if y < Pow2(m - 1) {
        LeadingZerosSplit(k, m - 1, x, y);
      }
      hide LeadingZeros;
    }
  }

  lemma LeadingZerosStep(n: nat, x: nat)
    requires n > 0
    ensures LeadingZeros(n, x) == if x >= Pow2(n - 1) then 0 else 1 + LeadingZeros(n - 1, x)
  {
  }

  lemma TopBit(k: nat, m: nat, x: nat, y: nat)
    requires x < Pow2(k) && m > 0
    ensures x + Pow2(k) * y >= Pow2(k + m - 1) <==> y >= Pow2(m - 1)
  {
    Pow2Add(k, m - 1);
    hide Pow2;
    LeadingDigit(x, y, Pow2(m - 1), Pow2(k));
  }

  lemma LeadingDigit(x: int, y: int, p: int, q: int)
    requires 0 <= x < q
    ensures x + q * y >= q * p <==> y >= p
  {
    var d := y - p;
    assert q * y - q * p == q * d;
    Multiples(d, q);
    assert d * q == q * d;
  }

  lemma CountLimbs(op: CountOp, a: Word, b: Word)
    ensures EvalCount(op, 64, Join(a, b))
         == match op
            case Clz => if LeadingZeros(32, b) == 32 then 32 + LeadingZeros(32, a) else LeadingZeros(32, b)
            case Ctz => if TrailingZeros(32, a) == 32 then 32 + TrailingZeros(32, b) else TrailingZeros(32, a)
            case Popcnt => Popcount(32, a) + Popcount(32, b)
  {
    Pow2Values();
    assert Join(a, b) == a + Pow2(32) * b;
    match op
    case Clz => LeadingZerosSplit(32, 32, a, b);
    case Ctz => TrailingZerosSplit(32, 32, a, b);
    case Popcnt => PopcountSplit(32, 32, a, b);
  }

  /** Sign extension replicates the top bit of the low word. */
  lemma ExtendLimbs(a: Word)
    ensures ToDWord(Signed32(a)) == Join(a, EvalBinary(ShrS, a, 31))
  {
    SignWord(a);
    hide EvalBinary;
    SplitMod(a, if a < B31 then 0 else -1, 0);
  }

  /** Shifting by 31 leaves copies of the sign bit. */
  lemma SignWord(a: Word)
    ensures EvalBinary(ShrS, a, 31) == if a < B31 then 0 else B32 - 1
  {
    Pow2Values();
    hide Pow2;
  }
}
