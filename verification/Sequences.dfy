/** The opcode sequences emitted for numeric operators. */
module Sequences {
  import opened Words
  import opened Opcodes
  import opened Machine
  import opened Blocks
  import opened Limbs
  import S = Source

  function Rel(r: RelOp): Opcode { Binary(BinOp.Rel(r)) }

  function Logical(op: BitOp): Opcode { Binary(Logic(op)) }

  function NumCode(op: S.NumOp): seq<Opcode> {
    match op
    case I32Unary(u) => [Unary(u)]
    case I32Binary(b) => [Binary(b)]
    case I32Division(d) => [Division(d)]
    case I64Eqz => [Unary(Eqz), LocalGet(2), Unary(Eqz), LocalSet(2), Logical(And)]
    case I64Count(c) => CountCode(c)
    case I64Logic(l) => [LocalGet(3), Logical(l), LocalSet(2), LocalGet(3), Logical(l), LocalSet(2)]
    case I64Snippet(s) => SnippetCode(s)
    case WrapI64 => [Drop]
    case ExtendS => [LocalGet(1), I32Const(31), Binary(ShrS)]
    case ExtendU => [I32Const(0)]
  }

  function CountCode(c: CountOp): seq<Opcode> {
    match c
    case Clz =>
      [Unary(Count(Clz)), LocalGet(1), I32Const(32), Rel(Eq), Branch(IfEqz, 4),
       LocalGet(2), Unary(Count(Clz)), Binary(Add), LocalSet(1), I32Const(0)]
    case Ctz =>
      [LocalGet(2), Unary(Count(Ctz)), LocalGet(1), I32Const(32), Rel(Eq), Branch(IfEqz, 5),
       LocalSet(2), Unary(Count(Ctz)), Binary(Add), Branch(Always, 3), LocalSet(2), Drop, I32Const(0)]
    case Popcnt =>
      [Unary(Count(Popcnt)), LocalGet(2), Unary(Count(Popcnt)), LocalSet(2), Binary(Add), I32Const(0)]
  }

  /** Compares the high words, and the low ones if they are equal. */
  function OrderCode(r: RelOp): seq<Opcode> {
    [LocalGet(3), LocalGet(2), Rel(Eq), Branch(IfNez, 5), LocalGet(3), LocalGet(2), Rel(r), Branch(Always, 4),
     LocalGet(4), LocalGet(3), Rel(UnsignedRel(r)), LocalSet(4), Drop, Drop, Drop]
  }

  function SnippetCode(s: S.Snippet): seq<Opcode> {
    match s
    case Rel64(r) =>
      if r == Eq then [LocalGet(3), Rel(Eq), LocalSet(2), LocalGet(3), Rel(Eq), LocalSet(2), Logical(And)]
      else if r == Ne then [LocalGet(3), Rel(Ne), LocalSet(2), LocalGet(3), Rel(Ne), LocalSet(2), Logical(Or)]
      else OrderCode(r)
    case AddWide =>
      [LocalGet(4), LocalGet(3), Add64, LocalGet(5), LocalGet(4), Binary(Add), Binary(Add),
       LocalSet(4), LocalSet(4), Drop, Drop]
    case SubWide =>
      [LocalGet(4), LocalGet(3), Binary(Sub), LocalGet(5), LocalGet(4), Rel(LtU), LocalGet(5), LocalGet(4),
       Binary(Sub), LocalGet(2), Binary(Sub), LocalSet(5), Drop, LocalSet(4), Drop, Drop]
    case MulWide =>
      [LocalGet(2), LocalGet(5), Mul64, LocalGet(3), LocalGet(7), Binary(Mul), LocalGet(5), LocalGet(7),
       Binary(Mul), Binary(Add), Binary(Add), LocalSet(4), LocalSet(4), Drop, Drop]
  }

  /** Declared number of words a sequence may need above its operands. */
  function Headroom(op: S.NumOp): nat {
    match op
    case I64Eqz => 1
    case I64Count(c) => if c == Popcnt then 1 else 3
    case I64Logic(_) => 1
    case I64Snippet(s) => SnippetHeadroom(s)
    case ExtendS => 2
    case ExtendU => 1
    case _ => 0
  }

  function SnippetHeadroom(s: S.Snippet): nat {
    match s
    case Rel64(r) => if r == Eq || r == Ne then 1 else 2
    case AddWide => 4
    case SubWide => 8
    case MulWide => 5
  }

  // ----- single steps, in a form that chains -----

  lemma Get(ops: seq<Opcode>, pc: nat, w: seq<Word>, room: nat, n: nat, d: Word, x: Word)
    requires pc < |ops| && ops[pc] == LocalGet(d) && 1 <= d <= |w| < room && w[|w| - d] == x && n > 0
    ensures RunBlock(ops, pc, w, room, n) == RunBlock(ops, pc + 1, w + [x], room, n - 1)
  {
    MoveGet(ops, pc, w, room, d);
  }

  lemma Set(ops: seq<Opcode>, pc: nat, w: seq<Word>, x: Word, room: nat, n: nat, d: Word)
    requires pc < |ops| && ops[pc] == LocalSet(d) && 1 <= d <= |w| <= room && n > 0
    ensures RunBlock(ops, pc, w + [x], room, n) == RunBlock(ops, pc + 1, Put(w, d, x), room, n - 1)
  {
    MoveSet(ops, pc, w, x, room, d);
  }

  lemma Apply2(ops: seq<Opcode>, pc: nat, w: seq<Word>, x: Word, y: Word, room: nat, n: nat, z: seq<Word>)
    requires pc < |ops| && Arity(ops[pc]) == Some(2) && Compute(ops[pc], [x, y]) == Ok(z) && |w| + |z| <= room && n > 0
    ensures RunBlock(ops, pc, w + [x] + [y], room, n) == RunBlock(ops, pc + 1, w + z, room, n - 1)
  {
    hide Compute;
    var v := w + [x] + [y];
    assert v[|v| - 2..] == [x, y] && v[..|v| - 2] == w;
    assert Move(ops, pc, v, room) == To(pc + 1, w + z);
  }

  /** A binary operator. */
  lemma Calc(ops: seq<Opcode>, pc: nat, w: seq<Word>, x: Word, y: Word, room: nat, n: nat, z: Word)
    requires pc < |ops| && ops[pc].Binary? && z == EvalBinary(ops[pc].bin, x, y) && |w| < room && n > 0
    ensures RunBlock(ops, pc, w + [x] + [y], room, n) == RunBlock(ops, pc + 1, w + [z], room, n - 1)
  {
    hide EvalBinary;
    Apply2(ops, pc, w, x, y, room, n, [z]);
  }

  lemma Apply1(ops: seq<Opcode>, pc: nat, w: seq<Word>, x: Word, room: nat, n: nat, z: seq<Word>)
    requires pc < |ops| && Arity(ops[pc]) == Some(1) && Compute(ops[pc], [x]) == Ok(z) && |w| + |z| <= room && n > 0
    ensures RunBlock(ops, pc, w + [x], room, n) == RunBlock(ops, pc + 1, w + z, room, n - 1)
  {
    hide Compute;
    var v := w + [x];
    assert v[|v| - 1..] == [x] && v[..|v| - 1] == w;
    assert Move(ops, pc, v, room) == To(pc + 1, w + z);
  }

  lemma Pop(ops: seq<Opcode>, pc: nat, w: seq<Word>, room: nat, n: nat)
    requires pc < |ops| && ops[pc] == Drop && 0 < |w| <= room && n > 0
    ensures RunBlock(ops, pc, w, room, n) == RunBlock(ops, pc + 1, w[..|w| - 1], room, n - 1)
  {
    Apply1(ops, pc, w[..|w| - 1], w[|w| - 1], room, n, []);
    assert w[..|w| - 1] + [w[|w| - 1]] == w;
    assert w[..|w| - 1] + [] == w[..|w| - 1];
  }

  lemma Jump(ops: seq<Opcode>, pc: nat, w: seq<Word>, room: nat, n: nat, to: nat)
    requires pc < |ops| && ops[pc].Branch? && ops[pc].kind.Always? && to == pc + ops[pc].offset && n > 0
    ensures RunBlock(ops, pc, w, room, n) == RunBlock(ops, to, w, room, n - 1)
  {
  }

  lemma JumpIf(ops: seq<Opcode>, pc: nat, w: seq<Word>, x: Word, room: nat, n: nat, to: nat)
    requires pc < |ops| && ops[pc].Branch? && !ops[pc].kind.Always? && to == pc + ops[pc].offset && n > 0
    ensures RunBlock(ops, pc, w + [x], room, n)
            == RunBlock(ops, if Taken(ops[pc].kind, x) then to else pc + 1, w, room, n - 1)
  {
    assert (w + [x])[..|w|] == w;
  }

  lemma Push(ops: seq<Opcode>, pc: nat, w: seq<Word>, room: nat, n: nat, x: Word)
    requires pc < |ops| && ops[pc] == I32Const(x) && |w| < room && n > 0
    ensures RunBlock(ops, pc, w, room, n) == RunBlock(ops, pc + 1, w + [x], room, n - 1)
  {
    assert w[..|w| - 0] == w;
  }

  lemma BlockEnd(ops: seq<Opcode>, w: seq<Word>, room: nat, n: nat)
    ensures RunBlock(ops, |ops|, w, room, n) == Leaves(w)
  {
  }

  // ----- the snippets -----

  function AddWords(a: Word, b: Word, c: Word, d: Word): seq<Word> {
    [Sum(a, c)[0], EvalBinary(Add, Sum(a, c)[1], EvalBinary(Add, b, d))]
  }

  lemma AddRuns(a: Word, b: Word, c: Word, d: Word)
    ensures RunBlock(SnippetCode(S.AddWide), 0, [a, b, c, d], 8, 16) == Leaves(AddWords(a, b, c, d))
  {
    hide RunBlock;
    hide EvalBinary;
    var ops := SnippetCode(S.AddWide);
    var w, lo, hi := [a, b, c, d], Sum(a, c)[0], Sum(a, c)[1];
    var h' := EvalBinary(Add, b, d);
    var h := EvalBinary(Add, hi, h');
    Get(ops, 0, w, 8, 16, 4, a);
    Get(ops, 1, w + [a], 8, 15, 3, c);
    Apply2(ops, 2, w, a, c, 8, 14, [lo, hi]);
    assert w + [lo, hi] == w + [lo] + [hi];
    var v := w + [lo];
    Get(ops, 3, v + [hi], 8, 13, 5, b);
    Get(ops, 4, v + [hi] + [b], 8, 12, 4, d);
    Calc(ops, 5, v + [hi], b, d, 8, 11, h');
    Calc(ops, 6, v, hi, h', 8, 10, h);
    Set(ops, 7, v, h, 8, 9, 4);
    assert Put(v, 4, h) == [a, h, c, d] + [lo];
    Set(ops, 8, [a, h, c, d], lo, 8, 8, 4);
    LastTwo(ops, 9, lo, h, c, d, 8, 7);
  }

  /** The common ending: two words below two spent ones. */
  lemma LastTwo(ops: seq<Opcode>, pc: nat, x: Word, y: Word, c: Word, d: Word, room: nat, n: nat)
    requires |ops| == pc + 2 && ops[pc] == Drop && ops[pc + 1] == Drop && room >= 4 && n >= 2
    ensures RunBlock(ops, pc, Put([x, y, c, d], 4, x), room, n) == Leaves([x, y])
    ensures Put([x, y, c, d], 4, x) == [x, y, c, d]
    ensures forall z :: Put([z, y, c, d], 4, x) == [x, y, c, d]
  {
    hide RunBlock;
    assert Put([x, y, c, d], 4, x) == [x, y, c, d];
    forall z ensures Put([z, y, c, d], 4, x) == [x, y, c, d] { }
    Pop(ops, pc, [x, y, c, d], room, n);
    assert [x, y, c, d][..3] == [x, y, c];
    Pop(ops, pc + 1, [x, y, c], room, n - 1);
    assert [x, y, c][..2] == [x, y];
    BlockEnd(ops, [x, y], room, n - 2);
  }

  function SubWords(a: Word, b: Word, c: Word, d: Word): seq<Word> {
    [EvalBinary(Sub, a, c), EvalBinary(Sub, EvalBinary(Sub, b, d), EvalBinary(BinOp.Rel(LtU), a, c))]
  }

  lemma SubRuns(a: Word, b: Word, c: Word, d: Word)
    ensures RunBlock(SnippetCode(S.SubWide), 0, [a, b, c, d], 12, 16) == Leaves(SubWords(a, b, c, d))
  {
    hide RunBlock;
    hide Compute;
    hide EvalUnary;
    hide EvalBinary;
    var ops, w := SnippetCode(S.SubWide), [a, b, c, d];
    var lo, br := EvalBinary(Sub, a, c), EvalBinary(BinOp.Rel(LtU), a, c);
    Get(ops, 0, w, 12, 16, 4, a);
    Get(ops, 1, w + [a], 12, 15, 3, c);
    Calc(ops, 2, w, a, c, 12, 14, lo);
    var v := w + [lo];
    Get(ops, 3, v, 12, 13, 5, a);
    Get(ops, 4, v + [a], 12, 12, 4, c);
    Calc(ops, 5, v, a, c, 12, 11, br);
    SubHigh(ops, a, b, c, d, lo, br);
  }

  lemma SubHigh(ops: seq<Opcode>, a: Word, b: Word, c: Word, d: Word, lo: Word, br: Word)
    requires ops == SnippetCode(S.SubWide)
    ensures RunBlock(ops, 6, [a, b, c, d] + [lo] + [br], 12, 10)
            == Leaves([lo, EvalBinary(Sub, EvalBinary(Sub, b, d), br)])
  {
    hide RunBlock;
    hide Compute;
    hide EvalUnary;
    hide EvalBinary;
    var v := [a, b, c, d] + [lo];
    var h' := EvalBinary(Sub, b, d);
    var h := EvalBinary(Sub, h', br);
    Get(ops, 6, v + [br], 12, 10, 5, b);
    Get(ops, 7, v + [br] + [b], 12, 9, 4, d);
    Calc(ops, 8, v + [br], b, d, 12, 8, h');
    Get(ops, 9, v + [br] + [h'], 12, 7, 2, br);
    Calc(ops, 10, v + [br], h', br, 12, 6, h);
    Set(ops, 11, v + [br], h, 12, 5, 5);
    assert Put(v + [br], 5, h) == [a, h, c, d] + [lo] + [br];
    SubEnd(ops, a, h, c, d, lo, br);
  }

  lemma SubEnd(ops: seq<Opcode>, a: Word, h: Word, c: Word, d: Word, lo: Word, br: Word)
    requires ops == SnippetCode(S.SubWide)
    ensures RunBlock(ops, 12, [a, h, c, d] + [lo] + [br], 12, 4) == Leaves([lo, h])
  {
    hide RunBlock;
    var u := [a, h, c, d] + [lo] + [br];
    Pop(ops, 12, u, 12, 4);
    assert u[..5] == [a, h, c, d] + [lo];
    Set(ops, 13, [a, h, c, d], lo, 12, 3, 4);
    LastTwo(ops, 14, lo, h, c, d, 12, 2);
  }

  function MulWords(a: Word, b: Word, c: Word, d: Word): seq<Word> {
    var p := Product(c, a);
    [p[0], EvalBinary(Add, p[1], EvalBinary(Add, EvalBinary(Mul, d, a), EvalBinary(Mul, c, b)))]
  }

  lemma MulRuns(a: Word, b: Word, c: Word, d: Word)
    ensures RunBlock(SnippetCode(S.MulWide), 0, [a, b, c, d], 9, 16) == Leaves(MulWords(a, b, c, d))
  {
    hide RunBlock;
    hide EvalBinary;
    hide ToDWord;
    var ops, w := SnippetCode(S.MulWide), [a, b, c, d];
    var lo, hi := Product(c, a)[0], Product(c, a)[1];
    var x, y := EvalBinary(Mul, d, a), EvalBinary(Mul, c, b);
    var z := EvalBinary(Add, x, y);
    var h := EvalBinary(Add, hi, z);
    Get(ops, 0, w, 9, 16, 2, c);
    Get(ops, 1, w + [c], 9, 15, 5, a);
    Apply2(ops, 2, w, c, a, 9, 14, [lo, hi]);
    assert w + [lo, hi] == w + [lo] + [hi];
    var v := w + [lo];
    var u := v + [hi];
    Get(ops, 3, u, 9, 13, 3, d);
    Get(ops, 4, u + [d], 9, 12, 7, a);
    Calc(ops, 5, u, d, a, 9, 11, x);
    Get(ops, 6, u + [x], 9, 10, 5, c);
    Get(ops, 7, u + [x] + [c], 9, 9, 7, b);
    Calc(ops, 8, u + [x], c, b, 9, 8, y);
    Calc(ops, 9, u, x, y, 9, 7, z);
    Calc(ops, 10, v, hi, z, 9, 6, h);
    Set(ops, 11, v, h, 9, 5, 4);
    assert Put(v, 4, h) == [a, h, c, d] + [lo];
    Set(ops, 12, [a, h, c, d], lo, 9, 4, 4);
    LastTwo(ops, 13, lo, h, c, d, 9, 3);
  }

  function CompareWord(r: RelOp, a: Word, b: Word, c: Word, d: Word): Word {
    if b == d then EvalBinary(BinOp.Rel(UnsignedRel(r)), a, c) else EvalBinary(BinOp.Rel(r), b, d)
  }

  lemma CompareRuns(r: RelOp, a: Word, b: Word, c: Word, d: Word)
    requires r != Eq && r != Ne
    ensures RunBlock(SnippetCode(S.Rel64(r)), 0, [a, b, c, d], 6, 16) == Leaves([CompareWord(r, a, b, c, d)])
  {
    hide RunBlock;
    var ops, w := SnippetCode(S.Rel64(r)), [a, b, c, d];
    assert ops == OrderCode(r);
    hide SnippetCode;
    var e := EvalBinary(BinOp.Rel(Eq), b, d);
    assert Taken(IfNez, e) == (b == d);
    hide EvalBinary;
    Get(ops, 0, w, 6, 16, 3, b);
    Get(ops, 1, w + [b], 6, 15, 2, d);
    Calc(ops, 2, w, b, d, 6, 14, e);
    JumpIf(ops, 3, w, e, 6, 13, 8);
    if b == d {
      CompareLow(r, ops, a, b, c, d);
    } else {
      CompareHigh(r, ops, a, b, c, d);
    }
  }

  lemma CompareLow(r: RelOp, ops: seq<Opcode>, a: Word, b: Word, c: Word, d: Word)
    requires ops == OrderCode(r)
    ensures RunBlock(ops, 8, [a, b, c, d], 6, 12) == Leaves([EvalBinary(BinOp.Rel(UnsignedRel(r)), a, c)])
  {
    hide RunBlock;
    hide Compute;
    hide EvalUnary;
    hide EvalBinary;
    var w, x := [a, b, c, d], EvalBinary(BinOp.Rel(UnsignedRel(r)), a, c);
    Get(ops, 8, w, 6, 12, 4, a);
    Get(ops, 9, w + [a], 6, 11, 3, c);
    Calc(ops, 10, w, a, c, 6, 10, x);
    CompareEnd(ops, a, b, c, d, x, 9);
  }

  /** The second half of an order comparison. */
  lemma HighOps(r: RelOp, ops: seq<Opcode>)
    requires ops == OrderCode(r)
    ensures |ops| == 15 && ops[4] == LocalGet(3) && ops[5] == LocalGet(2) && ops[6] == Rel(r)
    ensures ops[7] == Branch(Always, 4) && ops[11] == LocalSet(4) && ops[12] == ops[13] == ops[14] == Drop
  {
  }

  lemma CompareHigh(r: RelOp, ops: seq<Opcode>, a: Word, b: Word, c: Word, d: Word)
    requires ops == OrderCode(r)
    ensures RunBlock(ops, 4, [a, b, c, d], 6, 12) == Leaves([EvalBinary(BinOp.Rel(r), b, d)])
  {
    hide RunBlock;
    hide Compute;
    hide EvalUnary;
    hide EvalBinary;
    HighOps(r, ops);
    hide OrderCode;
    var w, x := [a, b, c, d], EvalBinary(BinOp.Rel(r), b, d);
    Get(ops, 4, w, 6, 12, 3, b);
    Get(ops, 5, w + [b], 6, 11, 2, d);
    Calc(ops, 6, w, b, d, 6, 10, x);
    Jump(ops, 7, w + [x], 6, 9, 11);
    CompareEnd(ops, a, b, c, d, x, 8);
  }

  lemma CompareEnd(ops: seq<Opcode>, a: Word, b: Word, c: Word, d: Word, x: Word, n: nat)
    requires |ops| == 15 && ops[11] == LocalSet(4) && ops[12] == Drop && ops[13] == Drop && ops[14] == Drop && n >= 4
    ensures RunBlock(ops, 11, [a, b, c, d] + [x], 6, n) == Leaves([x])
  {
    hide RunBlock;
    Set(ops, 11, [a, b, c, d], x, 6, n, 4);
    assert Put([a, b, c, d], 4, x) == [x, b, c, d];
    Pop(ops, 12, [x, b, c, d], 6, n - 1);
    assert [x, b, c, d][..3] == [x, b, c];
    Pop(ops, 13, [x, b, c], 6, n - 2);
    assert [x, b, c][..2] == [x, b];
    Pop(ops, 14, [x, b], 6, n - 3);
    assert [x, b][..1] == [x];
    BlockEnd(ops, [x], 6, n - 4);
  }

  /** `eq` and `ne`, and the three bitwise operators, share a shape: high words first, then low words. */
  lemma LimbwiseRuns(ops: seq<Opcode>, op: BinOp, a: Word, b: Word, c: Word, d: Word, n: nat)
    requires |ops| >= 6 && n >= 6
    requires ops[..6] == [LocalGet(3), Binary(op), LocalSet(2), LocalGet(3), Binary(op), LocalSet(2)]
    ensures RunBlock(ops, 0, [a, b, c, d], 5, n)
            == RunBlock(ops, 6, [EvalBinary(op, c, a), EvalBinary(op, d, b)], 5, n - 6)
  {
    hide RunBlock;
    hide EvalBinary;
    var x, y := EvalBinary(op, d, b), EvalBinary(op, c, a);
    assert forall i :: 0 <= i < 6 ==> ops[i] == ops[..6][i];
    assert [a, b, c, d] == [a, b, c] + [d];
    Get(ops, 0, [a, b, c, d], 5, n, 3, b);
    Calc(ops, 1, [a, b, c], d, b, 5, n - 1, x);
    Set(ops, 2, [a, b, c], x, 5, n - 2, 2);
    assert Put([a, b, c], 2, x) == [a, x] + [c];
    Get(ops, 3, [a, x] + [c], 5, n - 3, 3, a);
    Calc(ops, 4, [a, x], c, a, 5, n - 4, y);
    Set(ops, 5, [a, x], y, 5, n - 5, 2);
    assert Put([a, x], 2, y) == [y, x];
  }

  function EqualityWord(op: RelOp, join: BitOp, a: Word, b: Word, c: Word, d: Word): Word {
    EvalBinary(Logic(join), EvalBinary(BinOp.Rel(op), c, a), EvalBinary(BinOp.Rel(op), d, b))
  }

  lemma EqualityRuns(r: RelOp, a: Word, b: Word, c: Word, d: Word)
    requires r == Eq || r == Ne
    ensures RunBlock(SnippetCode(S.Rel64(r)), 0, [a, b, c, d], 5, 16)
         == Leaves([EqualityWord(r, if r == Eq then And else Or, a, b, c, d)])
  {
    hide RunBlock;
    hide EvalBinary;
    var ops := SnippetCode(S.Rel64(r));
    LimbwiseRuns(ops, BinOp.Rel(r), a, b, c, d, 16);
    var y, x := EvalBinary(BinOp.Rel(r), c, a), EvalBinary(BinOp.Rel(r), d, b);
    assert [y, x] == [] + [y] + [x];
    var z := EqualityWord(r, if r == Eq then And else Or, a, b, c, d);
    Calc(ops, 6, [], y, x, 5, 10, z);
    assert [] + [z] == [z];
    BlockEnd(ops, [z], 5, 9);
  }

  // ----- the inline sequences -----

  lemma LogicRuns(l: BitOp, a: Word, b: Word, c: Word, d: Word)
    ensures RunBlock(NumCode(S.I64Logic(l)), 0, [a, b, c, d], 5, 16)
         == Leaves([EvalBinary(Logic(l), c, a), EvalBinary(Logic(l), d, b)])
  {
    hide RunBlock;
    hide EvalBinary;
    var ops := NumCode(S.I64Logic(l));
    LimbwiseRuns(ops, Logic(l), a, b, c, d, 16);
    BlockEnd(ops, [EvalBinary(Logic(l), c, a), EvalBinary(Logic(l), d, b)], 5, 10);
  }

  lemma EqzRuns(a: Word, b: Word)
    ensures RunBlock(NumCode(S.I64Eqz), 0, [a, b], 3, 16)
         == Leaves([EvalBinary(Logic(And), EvalUnary(Eqz, a), EvalUnary(Eqz, b))])
  {
    hide RunBlock;
    hide EvalBinary;
    hide EvalUnary;
    var ops := NumCode(S.I64Eqz);
    var x, y := EvalUnary(Eqz, a), EvalUnary(Eqz, b);
    assert [a, b] == [a] + [b];
    Apply1(ops, 0, [a], b, 3, 16, [y]);
    Get(ops, 1, [a] + [y], 3, 15, 2, a);
    Apply1(ops, 2, [a] + [y], a, 3, 14, [x]);
    Set(ops, 3, [a] + [y], x, 3, 13, 2);
    assert Put([a] + [y], 2, x) == [] + [x] + [y];
    var z := EvalBinary(Logic(And), x, y);
    Calc(ops, 4, [], x, y, 3, 12, z);
    assert [] + [z] == [z];
    BlockEnd(ops, [z], 3, 11);
  }

  lemma PopcntRuns(a: Word, b: Word)
    ensures RunBlock(CountCode(Popcnt), 0, [a, b], 3, 16)
         == Leaves([EvalBinary(Add, EvalUnary(Count(Popcnt), a), EvalUnary(Count(Popcnt), b)), 0])
  {
    hide RunBlock;
    hide EvalBinary;
    hide EvalUnary;
    var ops := CountCode(Popcnt);
    var x, y := EvalUnary(Count(Popcnt), a), EvalUnary(Count(Popcnt), b);
    assert [a, b] == [a] + [b];
    Apply1(ops, 0, [a], b, 3, 16, [y]);
    Get(ops, 1, [a] + [y], 3, 15, 2, a);
    Apply1(ops, 2, [a] + [y], a, 3, 14, [x]);
    Set(ops, 3, [a] + [y], x, 3, 13, 2);
    assert Put([a] + [y], 2, x) == [] + [x] + [y];
    var z := EvalBinary(Add, x, y);
    Calc(ops, 4, [], x, y, 3, 12, z);
    assert [] + [z] == [z];
    Push(ops, 5, [z], 3, 11, 0);
    assert [z] + [0] == [z, 0];
    BlockEnd(ops, [z, 0], 3, 10);
  }

  /** Branches away unless the counted word was all zeros; the count stays on the stack. */
  lemma FullCount(ops: seq<Opcode>, pc: nat, w: seq<Word>, y: Word, n: nat, to: nat)
    requires pc + 3 < |ops| && |w| <= 2 && n >= 4
    requires ops[pc] == LocalGet(1) && ops[pc + 1] == I32Const(32) && ops[pc + 2] == Rel(Eq)
    requires ops[pc + 3].Branch? && ops[pc + 3].kind.IfEqz? && to == pc + 3 + ops[pc + 3].offset
    ensures RunBlock(ops, pc, w + [y], 5, n) == RunBlock(ops, if y == 32 then pc + 4 else to, w + [y], 5, n - 4)
  {
    hide RunBlock;
    var e := EvalBinary(BinOp.Rel(Eq), y, 32);
    assert Taken(IfEqz, e) == (y != 32);
    hide EvalBinary;
    Get(ops, pc, w + [y], 5, n, 1, y);
    Push(ops, pc + 1, w + [y] + [y], 5, n - 1, 32);
    Calc(ops, pc + 2, w + [y], y, 32, 5, n - 2, e);
    JumpIf(ops, pc + 3, w + [y], e, 5, n - 3, to);
  }

  lemma ClzRuns(a: Word, b: Word)
    ensures var x, y := EvalUnary(Count(Clz), a), EvalUnary(Count(Clz), b);
            RunBlock(CountCode(Clz), 0, [a, b], 5, 16) == Leaves([if y == 32 then EvalBinary(Add, 32, x) else y, 0])
  {
    hide RunBlock;
    hide EvalBinary;
    hide EvalUnary;
    var ops := CountCode(Clz);
    var x, y := EvalUnary(Count(Clz), a), EvalUnary(Count(Clz), b);
    assert [a, b] == [a] + [b];
    Apply1(ops, 0, [a], b, 5, 16, [y]);
    FullCount(ops, 1, [a], y, 15, 8);
    if y == 32 {
      ClzLow(ops, a, y);
    } else {
      ClzEnd(ops, a, y, 11);
    }
  }

  lemma ClzLow(ops: seq<Opcode>, a: Word, y: Word)
    requires ops == CountCode(Clz)
    ensures RunBlock(ops, 5, [a] + [y], 5, 11) == Leaves([EvalBinary(Add, y, EvalUnary(Count(Clz), a)), 0])
  {
    hide RunBlock;
    hide EvalBinary;
    hide EvalUnary;
    var x := EvalUnary(Count(Clz), a);
    var z := EvalBinary(Add, y, x);
    Get(ops, 5, [a] + [y], 5, 11, 2, a);
    Apply1(ops, 6, [a] + [y], a, 5, 10, [x]);
    Calc(ops, 7, [a], y, x, 5, 9, z);
    ClzEnd(ops, a, z, 8);
  }

  lemma ClzEnd(ops: seq<Opcode>, a: Word, z: Word, n: nat)
    requires |ops| == 10 && ops[8] == LocalSet(1) && ops[9] == I32Const(0) && n >= 2
    ensures RunBlock(ops, 8, [a] + [z], 5, n) == Leaves([z, 0])
  {
    hide RunBlock;
    Set(ops, 8, [a], z, 5, n, 1);
    assert Put([a], 1, z) == [z];
    Push(ops, 9, [z], 5, n - 1, 0);
    assert [z] + [0] == [z, 0];
    BlockEnd(ops, [z, 0], 5, n - 2);
  }

  lemma CtzRuns(a: Word, b: Word)
    ensures var x, y := EvalUnary(Count(Ctz), a), EvalUnary(Count(Ctz), b);
            RunBlock(CountCode(Ctz), 0, [a, b], 5, 16) == Leaves([if x == 32 then EvalBinary(Add, 32, y) else x, 0])
  {
    hide RunBlock;
    hide EvalBinary;
    hide EvalUnary;
    var ops := CountCode(Ctz);
    var x, y := EvalUnary(Count(Ctz), a), EvalUnary(Count(Ctz), b);
    Get(ops, 0, [a, b], 5, 16, 2, a);
    Apply1(ops, 1, [a, b], a, 5, 15, [x]);
    FullCount(ops, 2, [a, b], x, 14, 10);
    if x == 32 {
      CtzHigh(ops, a, b, x, 10);
    } else {
      CtzLow(ops, a, b, x, 10);
    }
  }

  lemma CtzLow(ops: seq<Opcode>, a: Word, b: Word, x: Word, n: nat)
    requires ops == CountCode(Ctz) && n >= 3
    ensures RunBlock(ops, 10, [a, b] + [x], 5, n) == Leaves([x, 0])
  {
    hide RunBlock;
    Set(ops, 10, [a, b], x, 5, n, 2);
    assert Put([a, b], 2, x) == [x, b];
    Pop(ops, 11, [x, b], 5, n - 1);
    assert [x, b][..1] == [x];
    Push(ops, 12, [x], 5, n - 2, 0);
    assert [x] + [0] == [x, 0];
    BlockEnd(ops, [x, 0], 5, n - 3);
  }

  lemma CtzHigh(ops: seq<Opcode>, a: Word, b: Word, x: Word, n: nat)
    requires ops == CountCode(Ctz) && n >= 5
    ensures RunBlock(ops, 6, [a, b] + [x], 5, n) == Leaves([EvalBinary(Add, x, EvalUnary(Count(Ctz), b)), 0])
  {
    hide RunBlock;
    hide EvalBinary;
    hide EvalUnary;
    var y := EvalUnary(Count(Ctz), b);
    var z := EvalBinary(Add, x, y);
    Set(ops, 6, [a, b], x, 5, n, 2);
    assert Put([a, b], 2, x) == [x] + [b];
    Apply1(ops, 7, [x], b, 5, n - 1, [y]);
    assert [x] + [y] == [] + [x] + [y];
    Calc(ops, 8, [], x, y, 5, n - 2, z);
    assert [] + [z] == [z];
    Jump(ops, 9, [z], 5, n - 3, 12);
    Push(ops, 12, [z], 5, n - 4, 0);
    assert [z] + [0] == [z, 0];
    BlockEnd(ops, [z, 0], 5, n - 5);
  }

  lemma ExtendSRuns(a: Word)
    ensures RunBlock(NumCode(S.ExtendS), 0, [a], 3, 16) == Leaves([a, EvalBinary(ShrS, a, 31)])
  {
    hide RunBlock;
    hide EvalBinary;
    var ops := NumCode(S.ExtendS);
    var z := EvalBinary(ShrS, a, 31);
    Get(ops, 0, [a], 3, 16, 1, a);
    Push(ops, 1, [a] + [a], 3, 15, 31);
    Calc(ops, 2, [a], a, 31, 3, 14, z);
    assert [a] + [z] == [a, z];
    BlockEnd(ops, [a, z], 3, 13);
  }
}
