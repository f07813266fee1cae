/** Every emitted numeric sequence computes its WebAssembly operator, within its declared headroom. */
module Numerics {
  import opened Words
  import O = Opcodes
  import M = Machine
  import opened Blocks
  import opened Limbs
  import opened Source
  import opened Layout
  import opened Sequences

  function Limbs2(x: DWord, y: DWord): seq<Word> { [Lo(x), Hi(x), Lo(y), Hi(y)] }

  function SnippetResult(s: Snippet): ValType { if s.Rel64? then I32 else I64 }

  /** Calling a snippet's code on the limbs of `x` and `y` leaves the words of the result. */
  lemma SnippetRuns(s: Snippet, x: DWord, y: DWord)
    ensures RunBlock(SnippetCode(s), 0, Limbs2(x, y), 4 + SnippetHeadroom(s), 16)
         == Leaves(FlatValue(Val(SnippetResult(s), SnippetEval(s, x, y))))
  {
    hide RunBlock;
    hide SnippetCode;
    var a, b, c, d := Lo(x), Hi(x), Lo(y), Hi(y);
    JoinSplit(x);
    JoinSplit(y);
    match s
    case Rel64(r) => RelRuns(r, a, b, c, d);
    case AddWide => AddRuns(a, b, c, d); AddMeans(a, b, c, d);
    case SubWide => SubRuns(a, b, c, d); SubMeans(a, b, c, d);
    case MulWide => MulRuns(a, b, c, d); MulMeans(a, b, c, d);
  }

  lemma RelRuns(r: O.RelOp, a: Word, b: Word, c: Word, d: Word)
    ensures RunBlock(SnippetCode(Rel64(r)), 0, [a, b, c, d], 4 + SnippetHeadroom(Rel64(r)), 16)
         == Leaves([Bool(M.Compare(r, Join(a, b), Join(c, d), Signed64(Join(a, b)), Signed64(Join(c, d))))])
  {
    hide RunBlock;
    hide SnippetCode;
    if r == O.Eq || r == O.Ne {
      EqualityRuns(r, a, b, c, d);
      EqualityMeans(r, a, b, c, d);
    } else {
      CompareRuns(r, a, b, c, d);
      CompareLimbs(r, a, b, c, d);
    }
  }

  lemma BitOps(p: bool, q: bool)
    ensures M.EvalBinary(O.Logic(And), Bool(p), Bool(q)) == Bool(p && q)
    ensures M.EvalBinary(O.Logic(Or), Bool(p), Bool(q)) == Bool(p || q)
  {
    BitwiseOnBools(And, p, q);
    BitwiseOnBools(Or, p, q);
    hide Bitwise;
  }

  lemma BitwiseOnBools(op: BitOp, p: bool, q: bool)
    ensures Bitwise(op, 32, Bool(p), Bool(q)) == Bit(op, Bool(p), Bool(q))
  {
    hide Bitwise;
    hide Pow2;
    BitwiseStep(op, 32, Bool(p), Bool(q));
    BitwiseZero(op, 31);
  }

  lemma {:induction false} BitwiseZero(op: BitOp, n: nat)
    ensures Bitwise(op, n, 0, 0) == 0
  {
    if n > 0 {
      BitwiseZero(op, n - 1);
    }
  }

  lemma EqualityMeans(r: O.RelOp, a: Word, b: Word, c: Word, d: Word)
    requires r == O.Eq || r == O.Ne
    ensures EqualityWord(r, if r == O.Eq then And else Or, a, b, c, d)
         == Bool(if r == O.Eq then Join(a, b) == Join(c, d) else Join(a, b) != Join(c, d))
  {
    SplitJoin(a, b);
    SplitJoin(c, d);
    if r == O.Eq {
      BitOps(c == a, d == b);
    } else {
      BitOps(c != a, d != b);
    }
  }

  lemma AddMeans(a: Word, b: Word, c: Word, d: Word)
    ensures AddWords(a, b, c, d) == M.TwoWords(ToDWord(Join(a, b) + Join(c, d)))
  {
    AddLimbs(a, b, c, d);
    var carry := (a + c) / B32;
    SplitJoin(ToWord(a + c), ToWord(b + d + carry));
    assert ToDWord(a + c) == a + c;
    ModSum(carry, b + d);
  }

  /** Reducing a summand first does not change a sum modulo 2^32. */
  lemma ModSum(x: int, y: int)
    ensures ToWord(x + ToWord(y)) == ToWord(y + x)
    ensures ToWord(ToWord(y) - x) == ToWord(y - x)
  {
    WholeWords(y + x, y / B32);
    WholeWords(y - x, y / B32);
  }

  lemma WholeWords(z: int, q: int)
    ensures ToWord(z - q * B32) == ToWord(z)
  {
    ModUnique(z - q * B32, z % B32, z / B32 - q, B32);
  }

  lemma SubMeans(a: Word, b: Word, c: Word, d: Word)
    ensures SubWords(a, b, c, d) == M.TwoWords(ToDWord(Join(a, b) - Join(c, d)))
  {
    SubLimbs(a, b, c, d);
    var borrow := if a < c then 1 else 0;
    SplitJoin(ToWord(a - c), ToWord(b - d - borrow));
    ModSum(borrow, b - d);
  }

  lemma MulMeans(a: Word, b: Word, c: Word, d: Word)
    ensures MulWords(a, b, c, d) == M.TwoWords(ToDWord(Join(a, b) * Join(c, d)))
  {
    MulLimbs(a, b, c, d);
    ProductFits(a, c);
    var p, x, y := a * c, a * d, b * c;
    Commutes(a, c);
    Commutes(a, d);
    Commutes(b, c);
    SplitJoin(ToWord(p), ToWord(p / B32 + x + y));
    MulHigh(p, x, y);
    MulWordsAre(a, b, c, d);
  }

  lemma MulWordsAre(a: Word, b: Word, c: Word, d: Word)
    ensures var p := ToDWord(a * c);
            MulWords(a, b, c, d) == [Lo(p), ToWord(Hi(p) + ToWord(ToWord(a * d) + ToWord(b * c)))]
  {
    Commutes(a, c);
    Commutes(a, d);
    Commutes(b, c);
    LowProduct(d, a);
    LowProduct(c, b);
    LowSum(ToWord(a * d), ToWord(b * c));
    LowSum(Hi(ToDWord(a * c)), ToWord(ToWord(a * d) + ToWord(b * c)));
    hide M.EvalBinary;
    hide ToDWord;
    hide ToWord;
    hide Lo;
    hide Hi;
  }

  lemma LowSum(x: Word, y: Word)
    ensures M.EvalBinary(O.Add, x, y) == ToWord(x + y)
  {
  }

  lemma LowProduct(x: Word, y: Word)
    ensures M.EvalBinary(O.Mul, x, y) == ToWord(x * y)
  {
  }

  lemma MulHigh(p: nat, x: int, y: int)
    requires p < B64
    ensures Lo(ToDWord(p)) == ToWord(p)
    ensures ToWord(Hi(ToDWord(p)) + ToWord(ToWord(x) + ToWord(y))) == ToWord(p / B32 + x + y)
  {
    assert ToDWord(p) == p;
    ModSum(p / B32, ToWord(x) + ToWord(y));
    ModSum(p / B32 + ToWord(x), y);
    ModSum(p / B32 + y, x);
  }

  lemma Commutes(x: int, y: int)
    ensures x * y == y * x
  {
  }

  lemma ProductFits(a: Word, c: Word)
    ensures 0 <= a * c <= (B32 - 1) * (B32 - 1)
  {
    Scale(a, B32 - 1, c);
    Scale(c, B32 - 1, B32 - 1);
    Commutes(B32 - 1, c);
  }

  lemma Scale(x: int, y: int, k: nat)
    requires 0 <= x <= y
    ensures 0 <= x * k <= y * k
  {
  }

  // ----- inline operators -----

  lemma NumRuns(op: NumOp, args: seq<Value>)
    requires TypesOf(args) == NumParams(op) && !op.I64Snippet?
    ensures match NumEval(op, args)
            case Number(bits) =>
              RunBlock(NumCode(op), 0, Flat(args), |Flat(args)| + Headroom(op), 16)
                  == Leaves(FlatValue(Val(NumResult(op), bits)))
            case NumTrap(t) => RunBlock(NumCode(op), 0, Flat(args), |Flat(args)| + Headroom(op), 16) == Faults(t)
  {
    FlatArgs(args);
    if |args| == 1 {
      UnaryRuns(op, args[0]);
    } else {
      BinaryRuns(op, args[0], args[1]);
    }
  }

  lemma FlatArgs(args: seq<Value>)
    ensures |args| == 1 ==> args == [args[0]] && Flat(args) == FlatValue(args[0])
    ensures |args| == 2 ==> args == [args[0], args[1]] && Flat(args) == FlatValue(args[0]) + FlatValue(args[1])
  {
    hide Flat;
    hide FlatValue;
    if |args| == 1 {
      FlatOne(args[0]);
      assert args == [args[0]];
    } else if |args| == 2 {
      assert args == [args[0]] + [args[1]];
      FlatAppend([args[0]], [args[1]]);
      FlatOne(args[0]);
      FlatOne(args[1]);
    }
  }

  lemma UnaryRuns(op: NumOp, v: Value)
    requires NumParams(op) == [v.ty]
    ensures TypesOf([v]) == NumParams(op)
    ensures match NumEval(op, [v])
            case Number(bits) =>
              RunBlock(NumCode(op), 0, FlatValue(v), Width(v.ty) + Headroom(op), 16)
                  == Leaves(FlatValue(Val(NumResult(op), bits)))
            case NumTrap(_) => false
  {
    hide RunBlock;
    hide NumCode;
    assert TypesOf([v]) == [v.ty];
    var x := v.bits;
    JoinSplitIfWide(v);
    match op
    case I32Unary(u) => I32UnaryRuns(u, x);
    case I64Eqz =>
      EqzRuns(Lo(x), Hi(x));
      BitOps(Lo(x) == 0, Hi(x) == 0);
    case I64Count(c) => CountMeans(c, x);
    case WrapI64 => WrapRuns(x);
    case ExtendS =>
      ExtendSRuns(x);
      ExtendLimbs(x);
      SplitJoin(x, M.EvalBinary(O.ShrS, x, 31));
    case ExtendU => ExtendURuns(x);
  }

  lemma I32UnaryRuns(u: O.UnOp, x: Word)
    ensures RunBlock(NumCode(I32Unary(u)), 0, [x], 1, 16) == Leaves([M.EvalUnary(u, x)])
  {
    hide RunBlock;
    hide M.EvalUnary;
    var ops, y := NumCode(I32Unary(u)), M.EvalUnary(u, x);
    assert [] + [x] == [x] && [] + [y] == [y];
    Apply1(ops, 0, [], x, 1, 16, [y]);
    BlockEnd(ops, [y], 1, 15);
  }

  lemma WrapRuns(x: DWord)
    ensures RunBlock(NumCode(WrapI64), 0, [Lo(x), Hi(x)], 2, 16) == Leaves([Lo(x)])
  {
    hide RunBlock;
    Pop(NumCode(WrapI64), 0, [Lo(x), Hi(x)], 2, 16);
    assert [Lo(x), Hi(x)][..1] == [Lo(x)];
    BlockEnd(NumCode(WrapI64), [Lo(x)], 2, 15);
  }

  lemma ExtendURuns(x: Word)
    ensures RunBlock(NumCode(ExtendU), 0, [x], 2, 16) == Leaves([x, 0])
  {
    hide RunBlock;
    Push(NumCode(ExtendU), 0, [x], 2, 16, 0);
    assert [x] + [0] == [x, 0];
    BlockEnd(NumCode(ExtendU), [x, 0], 2, 15);
  }

  lemma JoinSplitIfWide(v: Value)
    ensures Wide(v.ty) ==> Join(Lo(v.bits), Hi(v.bits)) == v.bits
  {
    if Wide(v.ty) { JoinSplit(v.bits); }
  }

  lemma CountMeans(c: O.CountOp, x: DWord)
    ensures RunBlock(NumCode(I64Count(c)), 0, [Lo(x), Hi(x)], 2 + Headroom(I64Count(c)), 16)
         == Leaves(M.TwoWords(ToDWord(M.EvalCount(c, 64, x))))
  {
    hide RunBlock;
    hide CountCode;
    var a, b := Lo(x), Hi(x);
    JoinSplit(x);
    CountLimbs(c, a, b);
    CountFits(c, a);
    CountFits(c, b);
    SmallTwoWords(M.EvalCount(c, 64, x));
    hide M.EvalCount;
    hide ToDWord;
    hide M.TwoWords;
    match c
    case Clz => ClzRuns(a, b);
    case Ctz => CtzRuns(a, b);
    case Popcnt => PopcntRuns(a, b);
    hide M.EvalUnary;
  }

  lemma CountFits(c: O.CountOp, a: Word)
    ensures M.EvalUnary(O.Count(c), a) == M.EvalCount(c, 32, a) <= 32
    ensures M.EvalCount(c, 64, a) <= 64
  {
    hide LeadingZeros;
    hide TrailingZeros;
    hide Popcount;
  }

  lemma SmallTwoWords(n: nat)
    requires n < B32
    ensures M.TwoWords(ToDWord(n)) == [n, 0]
  {
  }

  lemma BinaryRuns(op: NumOp, v: Value, u: Value)
    requires NumParams(op) == [v.ty, u.ty] && !op.I64Snippet?
    ensures TypesOf([v, u]) == NumParams(op)
    ensures var room := Width(v.ty) + Width(u.ty) + Headroom(op);
            match NumEval(op, [v, u])
            case Number(bits) => RunBlock(NumCode(op), 0, FlatValue(v) + FlatValue(u), room, 16)
                == Leaves(FlatValue(Val(NumResult(op), bits)))
            case NumTrap(t) => RunBlock(NumCode(op), 0, FlatValue(v) + FlatValue(u), room, 16) == Faults(t)
  {
    assert TypesOf([v, u]) == [v.ty, u.ty];
    match op
    case I32Binary(b) => I32BinaryRuns(b, v.bits, u.bits);
    case I32Division(d) => I32DivisionRuns(d, v.bits, u.bits);
    case I64Logic(l) => LogicMeans(l, v.bits, u.bits);
  }

  lemma I32BinaryRuns(b: O.BinOp, x: Word, y: Word)
    ensures RunBlock([O.Binary(b)], 0, [x] + [y], 2, 16) == Leaves([M.EvalBinary(b, x, y)])
  {
    hide RunBlock;
    hide M.EvalBinary;
    var ops, z := [O.Binary(b)], M.EvalBinary(b, x, y);
    assert [x] + [y] == [] + [x] + [y];
    Apply2(ops, 0, [], x, y, 2, 16, [z]);
    assert [] + [z] == [z];
    BlockEnd(ops, [z], 2, 15);
  }

  lemma I32DivisionRuns(d: O.DivOp, x: Word, y: Word)
    ensures match M.EvalDivision(d, x, y)
            case Value(z) => RunBlock([O.Division(d)], 0, [x] + [y], 2, 16) == Leaves([z])
            case Fault(t) => RunBlock([O.Division(d)], 0, [x] + [y], 2, 16) == Faults(t)
  {
    hide M.EvalDivision;
    var ops, w := [O.Division(d)], [x] + [y];
    assert w[|w| - 2..] == [x, y] && w[..|w| - 2] == [];
    var e := M.Compute(ops[0], [x, y]);
    assert Move(ops, 0, w, 2) == Settle(M.OnTop([], e), 0, 2);
    if e.Ok? {
      assert [] + e.stack == e.stack;
      LastMove(ops, 0, w, 2, 16, e.stack);
    }
  }

  lemma LogicMeans(l: BitOp, x: DWord, y: DWord)
    ensures RunBlock(NumCode(I64Logic(l)), 0, [Lo(x), Hi(x)] + [Lo(y), Hi(y)], 5, 16)
         == Leaves(M.TwoWords(ToDWord(Bitwise(l, 64, x, y))))
  {
    hide RunBlock;
    var a, b, c, d := Lo(x), Hi(x), Lo(y), Hi(y);
    JoinSplit(x);
    JoinSplit(y);
    assert [a, b] + [c, d] == [a, b, c, d];
    LogicRuns(l, a, b, c, d);
    BitwiseLimbs(l, a, b, c, d);
    SplitJoin(ToWord(Bitwise(l, 32, c, a)), ToWord(Bitwise(l, 32, d, b)));
  }
}
