/** What the source operators compute, told without their definitions: quotients by the division equation, sums and
    products by congruence, everything else bit by bit. */
module Operators {
  import opened Words
  import O = Opcodes
  import opened Source
  import Limbs

  /** Two's-complement readings. */
  function Read32(x: Word): int { if x < 0x8000_0000 then x else x - 0x1_0000_0000 }

  function Read64(x: DWord): int {
    if x < 0x8000_0000_0000_0000 then x else x - 0x1_0000_0000_0000_0000
  }

  /** Bit `i`, counted from the lowest; negative numbers have ones without end. */
  predicate BitOf(x: int, i: nat) { x / Pow2(i) % 2 == 1 }

  predicate Congruent(a: int, b: int, m: int)
    requires m != 0
  {
    (a - b) % m == 0
  }

  // ----- operators applied to plain numbers -----

  function Of32(op: NumOp, x: Word): NumOutcome
    requires NumParams(op) == [I32]
  {
    assert TypesOf([Val(I32, x)]) == [I32];
    NumEval(op, [Val(I32, x)])
  }

  function Of64(op: NumOp, x: DWord): NumOutcome
    requires NumParams(op) == [I64]
  {
    assert TypesOf([Val(I64, x)]) == [I64];
    NumEval(op, [Val(I64, x)])
  }

  function On32(op: NumOp, x: Word, y: Word): NumOutcome
    requires NumParams(op) == [I32, I32]
  {
    assert TypesOf([Val(I32, x), Val(I32, y)]) == [I32, I32];
    NumEval(op, [Val(I32, x), Val(I32, y)])
  }

  function On64(op: NumOp, x: DWord, y: DWord): NumOutcome
    requires NumParams(op) == [I64, I64]
  {
    assert TypesOf([Val(I64, x), Val(I64, y)]) == [I64, I64];
    NumEval(op, [Val(I64, x), Val(I64, y)])
  }

  // ----- division -----

  /** `n` divided by `d` is `q` and leaves `r`, rounding toward zero. */
  predicate Divides(n: int, d: int, q: int, r: int) {
    n == q * d + r && (if r < 0 then -r else r) < (if d < 0 then -d else d) && (r == 0 || (r < 0 <==> n < 0))
  }

  lemma TruncatesAs(n: int, d: int)
    requires d != 0
    ensures Divides(n, d, TruncDiv(n, d), TruncRem(n, d))
  {
    var t, m := Abs(n) / Abs(d), Abs(n) % Abs(d);
    assert Abs(n) == t * Abs(d) + m;
    WithSigns(n, d, t, m);
  }

  lemma WithSigns(n: int, d: int, t: int, m: int)
    requires d != 0 && Abs(n) == t * Abs(d) + m && 0 <= m < Abs(d)
    ensures Divides(n, d, if (n < 0) == (d < 0) then t else -t, if n < 0 then -m else m)
  {
    assert (-t) * d == -(t * d) && t * (-d) == -(t * d);
  }

  /** Signed quotients and remainders; the one quotient out of range traps, its remainder is zero. */
  lemma SignedDivision(x: Word, y: Word)
    ensures y == 0 ==>
      On32(I32Division(O.DivS), x, y) == On32(I32Division(O.RemS), x, y) == NumTrap(O.IntegerDivisionByZero)
    ensures x == 0x8000_0000 && y == 0xFFFF_FFFF ==>
      On32(I32Division(O.DivS), x, y) == NumTrap(O.IntegerOverflow) && On32(I32Division(O.RemS), x, y) == Number(0)
    ensures y != 0 && !(x == 0x8000_0000 && y == 0xFFFF_FFFF) ==>
      && On32(I32Division(O.DivS), x, y).Number? && On32(I32Division(O.RemS), x, y).Number?
      && Divides(Read32(x), Read32(y), Read32(On32(I32Division(O.DivS), x, y).bits),
                 Read32(On32(I32Division(O.RemS), x, y).bits))
  {
    hide On32;
    DivisionIs(O.DivS, x, y);
    DivisionIs(O.RemS, x, y);
    var n, d := Read32(x), Read32(y);
    if d != 0 {
      TruncatesAs(n, d);
      RemainderFits(n, d);
      hide TruncDiv, TruncRem;
      if x == 0x8000_0000 && y == 0xFFFF_FFFF {
        hide Divides;
        Limbs.ModUnique(0, 0, 0, B32);
      } else {
        QuotientFits(n, d);
        hide Divides;
        ReadBack(TruncDiv(n, d));
        ReadBack(TruncRem(n, d));
        hide ToWord;
      }
    }
  }

  lemma DivisionIs(op: O.DivOp, x: Word, y: Word)
    ensures On32(I32Division(op), x, y) == match M.EvalDivision(op, x, y)
                                           case Value(z) => Number(z)
                                           case Fault(t) => NumTrap(t)
  {
    hide M.EvalDivision;
  }

  lemma ReadBack(n: int)
    requires -B31 <= n < B31
    ensures Read32(ToWord(n)) == n
  {
  }

  lemma RemainderFits(n: int, d: int)
    requires -B31 <= n < B31 && -B31 <= d < B31 && d != 0
    ensures -B31 <= TruncRem(n, d) < B31
    ensures d == -1 ==> TruncRem(n, d) == 0
  {
  }

  lemma QuotientFits(n: int, d: int)
    requires -B31 <= n < B31 && d != 0 && !(n == -B31 && d == -1)
    ensures -B31 <= TruncDiv(n, d) < B31
  {
    var p, q := Abs(n), Abs(d);
    assert p == p / q * q + p % q;
    if q >= 2 {
      AtLeast(p / q, 2, q);
    }
  }

  lemma AtLeast(t: int, a: int, b: int)
    requires t >= 0 && a <= b
    ensures t * a <= t * b
  {
  }

  lemma UnsignedDivision(x: Word, y: Word)
    ensures y == 0 ==>
      On32(I32Division(O.DivU), x, y) == On32(I32Division(O.RemU), x, y) == NumTrap(O.IntegerDivisionByZero)
    ensures y != 0 ==>
      && On32(I32Division(O.DivU), x, y).Number? && On32(I32Division(O.RemU), x, y).Number?
      && Divides(x, y, On32(I32Division(O.DivU), x, y).bits, On32(I32Division(O.RemU), x, y).bits)
  {
    hide On32;
    DivisionIs(O.DivU, x, y);
    DivisionIs(O.RemU, x, y);
    if y != 0 {
      var q, r := x / y, x % y;
      assert x == q * y + r;
      AtLeast(q, 1, y);
      assert ToWord(q) == q && ToWord(r) == r;
      hide M.EvalDivision;
    }
  }

  // ----- sums, differences, products -----

  lemma Arithmetic32(x: Word, y: Word)
    ensures On32(I32Binary(O.Add), x, y).Number? && On32(I32Binary(O.Sub), x, y).Number?
    ensures On32(I32Binary(O.Mul), x, y).Number?
    ensures Congruent(On32(I32Binary(O.Add), x, y).bits, x + y, 0x1_0000_0000)
    ensures Congruent(On32(I32Binary(O.Sub), x, y).bits, x - y, 0x1_0000_0000)
    ensures Congruent(On32(I32Binary(O.Mul), x, y).bits, x * y, 0x1_0000_0000)
  {
    var p := x * y;
    Reduced(x + y, B32);
    Reduced(x - y, B32);
    Reduced(p, B32);
  }

  lemma Arithmetic64(x: DWord, y: DWord)
    ensures On64(I64Snippet(AddWide), x, y).Number? && On64(I64Snippet(SubWide), x, y).Number?
    ensures On64(I64Snippet(MulWide), x, y).Number?
    ensures Congruent(On64(I64Snippet(AddWide), x, y).bits, x + y, 0x1_0000_0000_0000_0000)
    ensures Congruent(On64(I64Snippet(SubWide), x, y).bits, x - y, 0x1_0000_0000_0000_0000)
    ensures Congruent(On64(I64Snippet(MulWide), x, y).bits, x * y, 0x1_0000_0000_0000_0000)
  {
    var p := x * y;
    Reduced(x + y, B64);
    Reduced(x - y, B64);
    Reduced(p, B64);
  }

  lemma Reduced(z: int, m: int)
    requires m > 0
    ensures Congruent(z % m, z, m)
  {
    Limbs.ModUnique(z % m - z, 0, -(z / m), m);
  }

  // ----- comparisons -----

  /** The answer of a comparison: one if it holds, zero if not. */
  function Answer(b: bool): NumOutcome { Number(if b then 1 else 0) }

  lemma Compares32(x: Word, y: Word)
    ensures On32(I32Binary(O.Rel(O.Eq)), x, y) == Answer(x == y)
    ensures On32(I32Binary(O.Rel(O.Ne)), x, y) == Answer(x != y)
    ensures On32(I32Binary(O.Rel(O.LtU)), x, y) == Answer(x < y)
    ensures On32(I32Binary(O.Rel(O.GtU)), x, y) == Answer(x > y)
    ensures On32(I32Binary(O.Rel(O.LeU)), x, y) == Answer(x <= y)
    ensures On32(I32Binary(O.Rel(O.GeU)), x, y) == Answer(x >= y)
    ensures On32(I32Binary(O.Rel(O.LtS)), x, y) == Answer(Read32(x) < Read32(y))
    ensures On32(I32Binary(O.Rel(O.GtS)), x, y) == Answer(Read32(x) > Read32(y))
    ensures On32(I32Binary(O.Rel(O.LeS)), x, y) == Answer(Read32(x) <= Read32(y))
    ensures On32(I32Binary(O.Rel(O.GeS)), x, y) == Answer(Read32(x) >= Read32(y))
    ensures Of32(I32Unary(O.Eqz), x) == Answer(x == 0)
  {
  }

  lemma Compares64(x: DWord, y: DWord)
    ensures On64(I64Snippet(Rel64(O.Eq)), x, y) == Answer(x == y)
    ensures On64(I64Snippet(Rel64(O.Ne)), x, y) == Answer(x != y)
    ensures On64(I64Snippet(Rel64(O.LtU)), x, y) == Answer(x < y)
    ensures On64(I64Snippet(Rel64(O.GtU)), x, y) == Answer(x > y)
    ensures On64(I64Snippet(Rel64(O.LeU)), x, y) == Answer(x <= y)
    ensures On64(I64Snippet(Rel64(O.GeU)), x, y) == Answer(x >= y)
    ensures On64(I64Snippet(Rel64(O.LtS)), x, y) == Answer(Read64(x) < Read64(y))
    ensures On64(I64Snippet(Rel64(O.GtS)), x, y) == Answer(Read64(x) > Read64(y))
    ensures On64(I64Snippet(Rel64(O.LeS)), x, y) == Answer(Read64(x) <= Read64(y))
    ensures On64(I64Snippet(Rel64(O.GeS)), x, y) == Answer(Read64(x) >= Read64(y))
    ensures Of64(I64Eqz, x) == Answer(x == 0)
  {
  }

  // ----- widths -----

  /** Sign extension keeps the low bits and gives a number in their signed range. */
  lemma Extensions32(x: Word)
    ensures Of32(I32Unary(O.Extend8S), x).Number? && Of32(I32Unary(O.Extend16S), x).Number?
    ensures var n := Read32(Of32(I32Unary(O.Extend8S), x).bits); -0x80 <= n < 0x80 && Congruent(n, x, 0x100)
    ensures var n := Read32(Of32(I32Unary(O.Extend16S), x).bits);
            -0x8000 <= n < 0x8000 && Congruent(n, x, 0x1_0000)
  {
    var m, n := x % 0x100, x % 0x1_0000;
    ReadBack(if m < 0x80 then m else m - 0x100);
    ReadBack(if n < 0x8000 then n else n - 0x1_0000);
    hide ToWord;
  }

  lemma Extensions64(x: Word)
    ensures Of32(ExtendS, x).Number? && Read64(Of32(ExtendS, x).bits) == Read32(x)
    ensures Of32(ExtendU, x) == Number(x)
  {
  }

  lemma Wraps(x: DWord)
    ensures Of64(WrapI64, x).Number? && Of64(WrapI64, x).bits < 0x1_0000_0000
    ensures Congruent(Of64(WrapI64, x).bits, x, 0x1_0000_0000)
  {
    Reduced(x, B32);
  }

  // ----- bits of sums and shifts -----

  lemma AddMultiple(z: int, q: int, p: int)
    requires p > 0
    ensures (z + q * p) / p == z / p + q
  {
    var t := z / p;
    assert (t + q) * p == t * p + q * p;
    Limbs.ModUnique(z + q * p, z % p, t + q, p);
  }

  lemma DivTwice(z: int, a: int, b: int)
    requires a > 0 && b > 0
    ensures a * b > 0 && z / a / b == z / (a * b)
  {
    var s, t := z / a, z / a / b;
    var m, n := z % a, s % b;
    assert z == (t * b + n) * a + m;
    assert (t * b + n) * a == t * (a * b) + n * a;
    assert a * b > 0;
    assert 0 <= n * a + m < a * b by {
      assert n * a <= (b - 1) * a;
      assert (b - 1) * a == a * b - a;
      assert n * a >= 0;
    }
    Limbs.ModUnique(z, n * a + m, t, a * b);
  }

  lemma BitShifted(z: int, k: nat, i: nat)
    ensures BitOf(z / Pow2(k), i) == BitOf(z, i + k)
  {
    Pow2Add(k, i);
    hide Pow2;
    DivTwice(z, Pow2(k), Pow2(i));
  }

  /** Low bits do not see multiples of a higher power. */
  lemma BitBelow(z: int, q: int, n: nat, i: nat)
    requires i < n
    ensures BitOf(z + q * Pow2(n), i) == BitOf(z, i)
  {
    Pow2Add(i + 1, n - i - 1);
    Limbs.Pow2Step(i + 1);
    hide Pow2;
    EvenMultiple(z, q, Pow2(i), Pow2(n - i - 1));
    SameParity(z / Pow2(i), q * Pow2(n - i - 1));
  }

  lemma EvenMultiple(z: int, q: int, p: int, c: int)
    requires p > 0
    ensures (z + q * (2 * p * c)) / p == z / p + 2 * (q * c)
  {
    AddMultiple(z, 2 * (q * c), p);
    assert q * (2 * p * c) == 2 * (q * c) * p by {
      assert 2 * p * c == 2 * c * p;
      assert q * (2 * c * p) == q * (2 * c) * p;
      assert q * (2 * c) == 2 * (q * c);
    }
  }

  lemma SameParity(t: int, u: int)
    ensures (t + 2 * u) % 2 == t % 2
  {
  }

  lemma BitAbove(low: int, z: int, k: nat, i: nat)
    requires 0 <= low < Pow2(k) && i >= k
    ensures BitOf(low + z * Pow2(k), i) == BitOf(z, i - k)
  {
    hide Pow2, BitOf;
    Limbs.ModUnique(low + z * Pow2(k), low, z, Pow2(k));
    BitShifted(low + z * Pow2(k), k, i - k);
  }

  lemma BitOfWord(z: int, i: nat)
    requires i < 32
    ensures BitOf(ToWord(z), i) == BitOf(z, i)
  {
    Pow2Values();
    hide Pow2, BitOf;
    BitBelow(ToWord(z), z / B32, 32, i);
    assert ToWord(z) + z / B32 * Pow2(32) == z;
  }

  lemma BitOfDWord(z: int, i: nat)
    requires i < 64
    ensures BitOf(ToDWord(z), i) == BitOf(z, i)
  {
    Pow2Values();
    hide Pow2, BitOf;
    BitBelow(ToDWord(z), z / B64, 64, i);
    assert ToDWord(z) + z / B64 * Pow2(64) == z;
  }

  lemma Pow2Grows(m: nat, n: nat)
    requires m <= n
    ensures Pow2(m) <= Pow2(n)
  {
    Pow2Add(m, n - m);
    hide Pow2;
    AtLeast(Pow2(m), 1, Pow2(n - m));
  }

  /** Beyond its width a number has only copies of its sign. */
  lemma SignBits(z: int, n: nat, i: nat)
    requires 0 <= z + Pow2(n) && z < Pow2(n) && i >= n
    ensures BitOf(z, i) <==> z < 0
  {
    Pow2Grows(n, i);
    hide Pow2;
    Limbs.ModUnique(z, if z < 0 then z + Pow2(i) else z, if z < 0 then -1 else 0, Pow2(i));
  }

  // ----- shifts and rotations -----

  lemma ShiftBits(x: Word, y: Word, i: nat)
    requires i < 32
    ensures On32(I32Binary(O.Shl), x, y).Number? && On32(I32Binary(O.ShrU), x, y).Number?
    ensures On32(I32Binary(O.ShrS), x, y).Number?
    ensures BitOf(On32(I32Binary(O.Shl), x, y).bits, i) == (i >= y % 32 && BitOf(x, i - y % 32))
    ensures BitOf(On32(I32Binary(O.ShrU), x, y).bits, i) == (i + y % 32 < 32 && BitOf(x, i + y % 32))
    ensures BitOf(On32(I32Binary(O.ShrS), x, y).bits, i) == BitOf(x, if i + y % 32 < 32 then i + y % 32 else 31)
  {
    var k := y % 32;
    hide Pow2, BitOf;
    BitOfWord(x * Pow2(k), i);
    if i >= k { BitAbove(0, x, k, i); } else { LowZero(x, k, i); }
    BitOfWord(x / Pow2(k), i);
    BitShifted(x, k, i);
    BitOfWord(Signed32(x) / Pow2(k), i);
    BitShifted(Signed32(x), k, i);
    WordBits(x, i + k);
  }

  lemma LowZero(x: Word, k: nat, i: nat)
    requires i < k
    ensures !BitOf(x * Pow2(k), i)
  {
    BitBelow(0, x, k, i);
    assert 0 + x * Pow2(k) == x * Pow2(k);
    Limbs.ModUnique(0, 0, 0, Pow2(i));
  }

  /** A word and its signed reading share their 32 bits. */
  lemma WordBits(x: Word, j: nat)
    ensures j >= 32 ==> !BitOf(x, j)
    ensures BitOf(Signed32(x), j) == BitOf(x, if j < 32 then j else 31)
  {
    Pow2Values();
    hide Pow2;
    if j >= 32 { SignBits(x, 32, j); }
    if j < 32 && x >= B31 { hide BitOf; BitBelow(x, -1, 32, j); }
    if j >= 31 {
      SignBits(Signed32(x), 31, j);
      Limbs.ModUnique(x, if x < B31 then x else x - B31, if x < B31 then 0 else 1, B31);
    }
  }

  lemma RotationBits(x: Word, y: Word, i: nat)
    requires i < 32
    ensures On32(I32Binary(O.Rotl), x, y).Number? && On32(I32Binary(O.Rotr), x, y).Number?
    ensures BitOf(On32(I32Binary(O.Rotl), x, y).bits, (i + y % 32) % 32) == BitOf(x, i)
    ensures BitOf(On32(I32Binary(O.Rotr), x, y).bits, i) == BitOf(x, (i + y % 32) % 32)
  {
    hide BitOf, M.RotateLeft, On32;
    var k := y % 32;
    BinaryIs(O.Rotl, x, y);
    BinaryIs(O.Rotr, x, y);
    RotatedBit(x, k, i);
    RotatedBit(x, (32 - k) % 32, (i + k) % 32);
    BackAgain(i, k);
  }

  lemma BackAgain(i: nat, k: nat)
    requires i < 32 && k < 32
    ensures ((i + k) % 32 + (32 - k) % 32) % 32 == i
  {
  }

  lemma BinaryIs(op: O.BinOp, x: Word, y: Word)
    ensures On32(I32Binary(op), x, y) == Number(M.EvalBinary(op, x, y))
  {
    hide M.EvalBinary;
  }

  lemma RotatedBit(x: Word, k: nat, i: nat)
    requires k < 32 && i < 32
    ensures BitOf(M.RotateLeft(x, k), (i + k) % 32) == BitOf(x, i)
  {
    hide Pow2, BitOf;
    var top := x / Pow2(32 - k);
    TopPart(x, k);
    BitOfWord(x * Pow2(k) + top, (i + k) % 32);
    hide ToWord;
    if i + k < 32 {
      BitAbove(top, x, k, i + k);
    } else {
      BitBelow(top, x, k, i + k - 32);
      BitShifted(x, 32 - k, i + k - 32);
    }
  }

  lemma TopPart(x: Word, k: nat)
    requires k < 32
    ensures 0 <= x / Pow2(32 - k) < Pow2(k)
  {
    Pow2Values();
    Pow2Add(32 - k, k);
    hide Pow2;
    QuotientBelow(x, Pow2(32 - k), Pow2(k));
  }

  lemma QuotientBelow(x: nat, p: int, q: int)
    requires p > 0 && x < p * q
    ensures 0 <= x / p < q
  {
    var t := x / p;
    assert x == t * p + x % p;
    if t >= q { AtLeast(p, q, t); }
  }

  // ----- bitwise operators -----

  function Combined(op: BitOp, a: bool, b: bool): bool {
    match op case And => a && b case Or => a || b case Xor => a != b
  }

  lemma LogicBits32(op: BitOp, x: Word, y: Word, i: nat)
    requires i < 32
    ensures On32(I32Binary(O.Logic(op)), x, y).Number?
    ensures BitOf(On32(I32Binary(O.Logic(op)), x, y).bits, i) == Combined(op, BitOf(x, i), BitOf(y, i))
  {
    BitwiseBit(op, 32, x, y, i);
    BitOfWord(Bitwise(op, 32, x, y), i);
    hide Bitwise, BitOf;
  }

  lemma LogicBits64(op: BitOp, x: DWord, y: DWord, i: nat)
    requires i < 64
    ensures On64(I64Logic(op), x, y).Number?
    ensures BitOf(On64(I64Logic(op), x, y).bits, i) == Combined(op, BitOf(x, i), BitOf(y, i))
  {
    BitwiseBit(op, 64, x, y, i);
    BitOfDWord(Bitwise(op, 64, x, y), i);
    hide Bitwise, BitOf;
  }

  lemma LowestBit(x: nat)
    ensures BitOf(x, 0) == (x % 2 == 1)
    ensures forall i: nat | i > 0 :: BitOf(x, i) == BitOf(x / 2, i - 1)
  {
    forall i: nat | i > 0
      ensures BitOf(x, i) == BitOf(x / 2, i - 1)
    {
      assert Pow2(1) == 2;
      BitShifted(x, 1, i - 1);
    }
  }

  lemma {:induction false} BitwiseBit(op: BitOp, n: nat, x: nat, y: nat, i: nat)
    requires i < n
    ensures BitOf(Bitwise(op, n, x, y), i) == Combined(op, BitOf(x, i), BitOf(y, i))
  {
    hide Bitwise, BitOf, Pow2;
    LowestBit(x);
    LowestBit(y);
    LowestBit(Bitwise(op, n, x, y));
    Limbs.BitwiseStep(op, n, x, y);
    if i > 0 {
      assert Bitwise(op, n, x, y) / 2 == Bitwise(op, n - 1, x / 2, y / 2);
      BitwiseBit(op, n - 1, x / 2, y / 2, i - 1);
    }
  }

  // ----- counting -----

  /** The places of the one bits among the lowest `n`. */
  function Ones(n: nat, x: nat): set<nat> { set i: nat | i < n && BitOf(x, i) }

  ghost predicate LeadingCount(n: nat, x: nat, r: nat) {
    r <= n && (forall i: nat | n - r <= i < n :: !BitOf(x, i)) && (r < n ==> BitOf(x, n - 1 - r))
  }

  ghost predicate TrailingCount(n: nat, x: nat, r: nat) {
    r <= n && (forall i: nat | i < r :: !BitOf(x, i)) && (r < n ==> BitOf(x, r))
  }

  lemma Counts32(x: Word)
    ensures forall c :: Of32(I32Unary(O.Count(c)), x).Number?
    ensures LeadingCount(32, x, Of32(I32Unary(O.Count(O.Clz)), x).bits)
    ensures TrailingCount(32, x, Of32(I32Unary(O.Count(O.Ctz)), x).bits)
    ensures Of32(I32Unary(O.Count(O.Popcnt)), x).bits == |Ones(32, x)|
  {
    hide Of32, LeadingZeros, TrailingZeros, Popcount, LeadingCount, TrailingCount, Ones, Pow2;
    Pow2Values();
    LeadingAre(32, x);
    TrailingAre(32, x);
    OnesCounted(32, x);
    forall c
      ensures Of32(I32Unary(O.Count(c)), x) == Number(M.EvalCount(c, 32, x))
    {
      Count32Is(c, x);
    }
  }

  lemma Counts64(x: DWord)
    ensures forall c :: Of64(I64Count(c), x).Number?
    ensures LeadingCount(64, x, Of64(I64Count(O.Clz), x).bits)
    ensures TrailingCount(64, x, Of64(I64Count(O.Ctz), x).bits)
    ensures Of64(I64Count(O.Popcnt), x).bits == |Ones(64, x)|
  {
    hide Of64, LeadingZeros, TrailingZeros, Popcount, LeadingCount, TrailingCount, Ones, Pow2;
    Pow2Values();
    LeadingAre(64, x);
    TrailingAre(64, x);
    OnesCounted(64, x);
    forall c
      ensures Of64(I64Count(c), x) == Number(M.EvalCount(c, 64, x))
    {
      Count64Is(c, x);
    }
  }

  lemma Count32Is(c: O.CountOp, x: Word)
    ensures Of32(I32Unary(O.Count(c)), x) == Number(M.EvalCount(c, 32, x))
  {
    hide LeadingZeros, TrailingZeros, Popcount;
  }

  lemma Count64Is(c: O.CountOp, x: DWord)
    ensures Of64(I64Count(c), x) == Number(M.EvalCount(c, 64, x))
  {
    hide LeadingZeros, TrailingZeros, Popcount;
  }

  lemma {:induction false} LeadingAre(n: nat, x: nat)
    requires x < Pow2(n)
    ensures LeadingCount(n, x, LeadingZeros(n, x))
  {
    if n > 0 {
      Limbs.LeadingZerosStep(n, x);
      Limbs.Pow2Step(n);
      hide Pow2;
      if x >= Pow2(n - 1) {
        Limbs.ModUnique(x, x - Pow2(n - 1), 1, Pow2(n - 1));
      } else {
        SignBits(x, n - 1, n - 1);
        LeadingAre(n - 1, x);
      }
    }
  }

  lemma {:induction false} TrailingAre(n: nat, x: nat)
    ensures TrailingCount(n, x, TrailingZeros(n, x))
  {
    LowestBit(x);
    if n > 0 && x % 2 == 0 {
      TrailingAre(n - 1, x / 2);
      hide BitOf;
    }
  }

  lemma {:induction false} OnesCounted(n: nat, x: nat)
    ensures |Ones(n, x)| == Popcount(n, x)
  {
    hide BitOf;
    if n == 0 {
      assert Ones(n, x) == {};
    } else {
      LowestBit(x);
      OnesCounted(n - 1, x / 2);
      var rest := Ones(n - 1, x / 2);
      Raised(rest);
      OnesSplit(n, x);
      hide Ones;
    }
  }

  lemma OnesSplit(n: nat, x: nat)
    requires n > 0 && (BitOf(x, 0) <==> x % 2 == 1)
    requires forall i: nat | i > 0 :: BitOf(x, i) == BitOf(x / 2, i - 1)
    ensures Ones(n, x) == (if x % 2 == 1 then {0} else {}) + Up(Ones(n - 1, x / 2))
  {
    hide BitOf;
    var rest := Ones(n - 1, x / 2);
    forall i | i in Ones(n, x) && i > 0
      ensures i in Up(rest)
    {
      assert i - 1 in rest;
    }
  }

  function Up(s: set<nat>): set<nat> { set i | i in s :: i + 1 }

  lemma {:induction false} Raised(s: set<nat>)
    ensures |Up(s)| == |s| && 0 !in Up(s)
  {
    if s == {} {
      assert Up(s) == {};
    } else {
      var k :| k in s;
      Raised(s - {k});
      UpAdds(s, k);
      hide Up;
    }
  }

  lemma UpAdds(s: set<nat>, k: nat)
    requires k in s
    ensures Up(s) == Up(s - {k}) + {k + 1} && k + 1 !in Up(s - {k}) && 0 !in Up(s)
    ensures |s| == |s - {k}| + 1
  {
    forall i | i in Up(s) ensures i in Up(s - {k}) + {k + 1} {
      if i != k + 1 { assert i - 1 in s - {k}; }
    }
  }
}
