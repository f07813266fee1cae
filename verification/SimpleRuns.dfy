/** The code emitted for operators without control flow computes what the operator means. */
module SimpleRuns {
  import opened Words
  import O = Opcodes
  import M = Machine
  import B = Blocks
  import Store
  import opened Source
  import opened Validation
  import opened Layout
  import opened Translator
  import opened Invariants
  import opened Progress
  import opened Branches
  import opened Locals
  import opened Images
  import Sequences
  import Numerics

  /** A piece of straight-line code and the words it works on. */
  datatype Piece = Piece(ops: seq<O.Opcode>, below: seq<Word>, window: seq<Word>, room: nat)

  ghost predicate Covers(p: Piece, before: seq<Word>, bound: nat) {
    before == p.below + p.window && |p.below| + p.room <= bound
  }

  ghost predicate Turns(p: Piece, after: seq<Word>) {
    var r := B.RunBlock(p.ops, 0, p.window, p.room, 16);
    r.Leaves? && after == p.below + r.window
  }

  ghost predicate Trips(p: Piece, trap: O.TrapCode) {
    B.RunBlock(p.ops, 0, p.window, p.room, 16) == B.Faults(trap)
  }

  /** The piece does to the flattened state what the operator does to the typed one. */
  ghost predicate Performs(p: Piece, hidden: seq<Word>, r: Source.Result) {
    match r
    case Normal(ls, st) => Turns(p, Window(ls, hidden, st))
    case Trapped(t) => Trips(p, t)
    case _ => true
  }

  ghost predicate Implements(s: Translation, plan: Plan, i: Instr, ls: seq<Value>, hidden: seq<Word>, st: seq<Value>,
                             p: Piece) {
    && plan.code == Ops(p.ops)
    && Covers(p, Window(ls, hidden, st), s.paramWords + Max(s.maxHeight, plan.peak))
    && Performs(p, hidden, Plain(i, ls, st))
  }

  predicate Inline(i: Instr) { Simple(i) && !(i.Num? && i.op.I64Snippet?) }

  lemma PlanRuns(s: Translation, i: Instr, c: Ctx, below: seq<ValType>, ls: seq<Value>, hidden: seq<Word>,
                 st: seq<Value>)
    returns (p: Piece)
    requires View(s, c, below, ls, hidden, st) && Inline(i) && PlanFor(s, i).Ok?
    requires CheckPlain(i, c, TypesOf(st)).Live?
    ensures Implements(s, PlanFor(s, i).value, i, ls, hidden, st, p)
  {
    hide Implements;
    hide View;
    match i
    case Drop => p := DropPiece(s, c, below, ls, hidden, st);
    case Select => p := SelectPiece(s, c, below, ls, hidden, st);
    case Const(v) => p := ConstPiece(s, v, c, below, ls, hidden, st);
    case LocalGet(k) => p := GetPiece(s, k, c, below, ls, hidden, st);
    case LocalSet(k) => p := SetPiece(s, k, c, below, ls, hidden, st);
    case LocalTee(k) => p := TeePiece(s, k, c, below, ls, hidden, st);
    case Num(op) => p := NumPiece(s, op, c, below, ls, hidden, st);
  }

  lemma Whole(w: seq<Word>)
    ensures [] + w == w
  {
  }

  /** A piece that works on the whole window and turns it into the window of the result. */
  lemma Assembled(s: Translation, plan: Plan, i: Instr, ls: seq<Value>, hidden: seq<Word>, st: seq<Value>, p: Piece)
    requires plan.code == Ops(p.ops) && p.below == [] && p.window == Window(ls, hidden, st)
    requires p.room <= s.paramWords + Max(s.maxHeight, plan.peak)
    requires Plain(i, ls, st).Normal?
    requires B.RunBlock(p.ops, 0, p.window, p.room, 16)
             == B.Leaves(Window(Plain(i, ls, st).locals, hidden, Plain(i, ls, st).stack))
    ensures Implements(s, plan, i, ls, hidden, st, p)
  {
    hide Plain;
    hide Window;
    hide B.RunBlock;
    hide Ops;
    Whole(p.window);
    Whole(Window(Plain(i, ls, st).locals, hidden, Plain(i, ls, st).stack));
  }

  lemma GetShape(s: Translation, k: nat, d: Word)
    requires PlanGet(s, k).Ok? && WordsOf(s.types[k..]) == d
    ensures var plan := PlanGet(s, k).value;
            plan.code == Ops(GetCode(Width(s.types[k]), d)) && plan.peak == s.height + Width(s.types[k])
  {
    hide WordsOf;
  }

  lemma SetShape(s: Translation, k: nat, d: Word)
    requires PlanSet(s, k).Ok? && WordsOf(s.types[..|s.types| - 1][k..]) == d
    ensures var plan := PlanSet(s, k).value;
            plan.code == Ops(SetCode(Width(s.types[|s.types| - 1]), d)) && plan.peak == s.height
  {
    hide WordsOf;
  }

  lemma TeeShape(s: Translation, k: nat, d: Word)
    requires PlanTee(s, k).Ok? && k < |s.types| && WordsOf(s.types[k..]) == d && d > 0
    ensures var plan := PlanTee(s, k).value;
            var w := Width(s.types[|s.types| - 1]);
            plan.code == Ops(TeeCode(w, d)) && plan.peak == s.height + w - 1
  {
    hide WordsOf;
  }

  lemma TypeAt(vs: seq<Value>, j: nat)
    requires j < |vs|
    ensures TypesOf(vs)[j] == vs[j].ty
  {
  }

  lemma LastType(s: Translation, c: Ctx, below: seq<ValType>, ls: seq<Value>, hidden: seq<Word>, st: seq<Value>)
    requires View(s, c, below, ls, hidden, st) && st != []
    ensures s.types != [] && s.types[|s.types| - 1] == st[|st| - 1].ty
    ensures s.types[..|s.types| - 1] == below + TypesOf(Below(st, 1))
  {
    hide WordsOf;
    hide WF;
    hide Placed;
    TypesOfSplit(st, 1);
    assert s.types == below + TypesOf(st);
  }

  lemma DropPiece(s: Translation, c: Ctx, below: seq<ValType>, ls: seq<Value>, hidden: seq<Word>, st: seq<Value>)
    returns (p: Piece)
    requires View(s, c, below, ls, hidden, st) && PlanDrop(s).Ok? && st != []
    ensures Implements(s, PlanDrop(s).value, Drop, ls, hidden, st, p)
  {
    hide View;
    hide WordsOf;
    hide TypesOf;
    LastType(s, c, below, ls, hidden, st);
    WindowSize(s, c, below, ls, hidden, st);
    hide B.RunBlock;
    var w := Window(ls, hidden, st);
    DropRuns(ls, hidden, st, |w|);
    hide Window;
    hide Implements;
    p := Piece(DropCode(Width(st[|st| - 1].ty)), [], w, |w|);
    Assembled(s, PlanDrop(s).value, Drop, ls, hidden, st, p);
  }

  lemma SelectTypes(s: Translation, c: Ctx, below: seq<ValType>, ls: seq<Value>, hidden: seq<Word>, st: seq<Value>)
    requires View(s, c, below, ls, hidden, st) && CheckPlain(Select, c, TypesOf(st)).Live?
    ensures |st| >= 3 && st[|st| - 3].ty == st[|st| - 2].ty && st[|st| - 1].ty == I32
    ensures |s.types| >= 2 && s.types[|s.types| - 2] == st[|st| - 2].ty
  {
    hide WordsOf;
    hide WF;
    hide Placed;
    assert s.types == below + TypesOf(st);
    var n := |st|;
    TypeAt(st, n - 1);
    TypeAt(st, n - 2);
    TypeAt(st, n - 3);
  }

  lemma SelectPiece(s: Translation, c: Ctx, below: seq<ValType>, ls: seq<Value>, hidden: seq<Word>, st: seq<Value>)
    returns (p: Piece)
    requires View(s, c, below, ls, hidden, st) && PlanSelect(s).Ok? && CheckPlain(Select, c, TypesOf(st)).Live?
    ensures Implements(s, PlanSelect(s).value, Select, ls, hidden, st, p)
  {
    hide View;
    hide WordsOf;
    hide TypesOf;
    SelectTypes(s, c, below, ls, hidden, st);
    WindowSize(s, c, below, ls, hidden, st);
    hide B.RunBlock;
    var w := Window(ls, hidden, st);
    SelectRuns(ls, hidden, st, |w|);
    hide Window;
    p := Piece(SelectCode(Width(st[|st| - 3].ty)), [], w, |w|);
    assert Ops([O.Select]) == [Op(O.Select)];
    hide Implements;
    Assembled(s, PlanSelect(s).value, Select, ls, hidden, st, p);
  }

  lemma ConstPiece(s: Translation, v: Value, c: Ctx, below: seq<ValType>, ls: seq<Value>, hidden: seq<Word>,
                   st: seq<Value>)
    returns (p: Piece)
    requires View(s, c, below, ls, hidden, st)
    ensures Implements(s, PlanConst(s, v), Const(v), ls, hidden, st, p)
  {
    hide View;
    hide WordsOf;
    hide TypesOf;
    WindowSize(s, c, below, ls, hidden, st);
    hide B.RunBlock;
    var w := Window(ls, hidden, st);
    ConstRuns(ls, hidden, st, v, |w| + Width(v.ty));
    hide Window;
    hide Implements;
    p := Piece(ConstCode(FlatValue(v)), [], w, |w| + Width(v.ty));
    Assembled(s, PlanConst(s, v), Const(v), ls, hidden, st, p);
  }

  /** The depth computed from the type stack reaches exactly the local. */
  lemma DepthOf(types: seq<ValType>, below: seq<ValType>, ls: seq<Value>, hidden: seq<Word>, st: seq<Value>, k: nat)
    requires types == below + TypesOf(st) && TypesOf(ls) <= below && WordsOf(below) == WordsOf(TypesOf(ls)) + |hidden|
    requires k < |ls|
    ensures k < |types| && types[k] == ls[k].ty
    ensures WordsOf(types[k..]) == Width(ls[k].ty) + |Above(ls, hidden, st, k)|
  {
    hide WordsOf;
    hide Flat;
    var a := types[..k];
    assert types == a + types[k..] && a == TypesOf(ls)[..k] == TypesOf(ls[..k]);
    WordsAppend(a, types[k..]);
    WordsAppend(below, TypesOf(st));
    TypeAt(ls, k);
    assert TypesOf(ls) == a + ([ls[k].ty] + TypesOf(ls[k + 1..]));
    WordsAppend(a, [ls[k].ty] + TypesOf(ls[k + 1..]));
    WordsAppend([ls[k].ty], TypesOf(ls[k + 1..]));
    FlatOne(ls[k]);
  }

  lemma DepthIn(s: Translation, c: Ctx, below: seq<ValType>, ls: seq<Value>, hidden: seq<Word>, st: seq<Value>, k: nat)
    requires View(s, c, below, ls, hidden, st) && k < |c.locals|
    ensures k < |ls| && k < |s.types| && s.types[k] == ls[k].ty
    ensures WordsOf(s.types[k..]) == Width(ls[k].ty) + |Above(ls, hidden, st, k)|
  {
    hide WordsOf;
    hide WF;
    DepthOf(s.types, below, ls, hidden, st, k);
  }

  lemma GetPiece(s: Translation, k: nat, c: Ctx, below: seq<ValType>, ls: seq<Value>, hidden: seq<Word>, st: seq<Value>)
    returns (p: Piece)
    requires View(s, c, below, ls, hidden, st) && PlanGet(s, k).Ok? && k < |c.locals|
    ensures Implements(s, PlanGet(s, k).value, LocalGet(k), ls, hidden, st, p)
  {
    hide View;
    hide WordsOf;
    hide TypesOf;
    DepthIn(s, c, below, ls, hidden, st, k);
    WindowSize(s, c, below, ls, hidden, st);
    hide B.RunBlock;
    hide Above;
    var w, t := Window(ls, hidden, st), ls[k].ty;
    var d := Width(t) + |Above(ls, hidden, st, k)|;
    GetShape(s, k, d);
    hide PlanGet;
    hide Implements;
    hide Ops;
    GetRuns(ls, hidden, st, k, d, |w| + Width(t));
    hide Window;
    p := Piece(GetCode(Width(t), d), [], w, |w| + Width(t));
    Assembled(s, PlanGet(s, k).value, LocalGet(k), ls, hidden, st, p);
  }

  lemma SetTypes(s: Translation, k: nat, c: Ctx, below: seq<ValType>, ls: seq<Value>, hidden: seq<Word>, st: seq<Value>)
    requires View(s, c, below, ls, hidden, st) && k < |c.locals| && st != [] && TypesOf(st)[|st| - 1] == c.locals[k]
    ensures k < |ls| && st[|st| - 1].ty == ls[k].ty
    ensures TypesOf(ls) <= below && WordsOf(below) == WordsOf(TypesOf(ls)) + |hidden|
  {
    hide WordsOf;
    hide WF;
    TypeAt(ls, k);
    TypeAt(st, |st| - 1);
  }

  lemma SetPiece(s: Translation, k: nat, c: Ctx, below: seq<ValType>, ls: seq<Value>, hidden: seq<Word>, st: seq<Value>)
    returns (p: Piece)
    requires View(s, c, below, ls, hidden, st) && PlanSet(s, k).Ok?
    requires k < |c.locals| && st != [] && TypesOf(st)[|st| - 1] == c.locals[k]
    ensures Implements(s, PlanSet(s, k).value, LocalSet(k), ls, hidden, st, p)
  {
    hide View;
    hide WordsOf;
    hide TypesOf;
    SetTypes(s, k, c, below, ls, hidden, st);
    LastType(s, c, below, ls, hidden, st);
    WindowSize(s, c, below, ls, hidden, st);
    hide B.RunBlock;
    var rest := Below(st, 1);
    DepthOf(s.types[..|s.types| - 1], below, ls, hidden, rest, k);
    hide Above;
    var w, t := Window(ls, hidden, st), ls[k].ty;
    var d := Width(t) + |Above(ls, hidden, rest, k)|;
    SetShape(s, k, d);
    hide PlanSet;
    hide Implements;
    hide Ops;
    SetRuns(ls, hidden, st, k, d, |w|);
    hide Window;
    p := Piece(SetCode(Width(t), d), [], w, |w|);
    Assembled(s, PlanSet(s, k).value, LocalSet(k), ls, hidden, st, p);
  }

  lemma PlainSets(s: Translation, k: nat, c: Ctx, below: seq<ValType>, ls: seq<Value>, hidden: seq<Word>,
                  st: seq<Value>)
    requires View(s, c, below, ls, hidden, st) && k < |c.locals| && st != []
    ensures |ls| == |c.locals|
    ensures Plain(LocalSet(k), ls, st) == Normal(ls[k := st[|st| - 1]], Below(st, 1))
    ensures Plain(LocalTee(k), ls, st) == Normal(ls[k := st[|st| - 1]], st)
  {
    hide WordsOf;
    hide At;
    assert |TypesOf(ls)| == |ls|;
  }

  lemma TeePiece(s: Translation, k: nat, c: Ctx, below: seq<ValType>, ls: seq<Value>, hidden: seq<Word>, st: seq<Value>)
    returns (p: Piece)
    requires View(s, c, below, ls, hidden, st) && PlanTee(s, k).Ok?
    requires k < |c.locals| && st != [] && TypesOf(st)[|st| - 1] == c.locals[k]
    ensures Implements(s, PlanTee(s, k).value, LocalTee(k), ls, hidden, st, p)
  {
    hide View;
    hide WordsOf;
    hide TypesOf;
    hide B.RunBlock;
    hide Above;
    hide Ops;
    hide Implements;
    PlainSets(s, k, c, below, ls, hidden, st);
    hide Plain;
    SetTypes(s, k, c, below, ls, hidden, st);
    LastType(s, c, below, ls, hidden, st);
    DepthIn(s, c, below, ls, hidden, st, k);
    WindowSize(s, c, below, ls, hidden, st);
    var w, t := Window(ls, hidden, st), ls[k].ty;
    var d := Width(t) + |Above(ls, hidden, st, k)|;
    TeeShape(s, k, d);
    hide PlanTee;
    TeeRuns(ls, hidden, st, k, d, |w| + Width(t) - 1);
    hide Window;
    p := Piece(TeeCode(Width(t), d), [], w, |w| + Width(t) - 1);
    Assembled(s, PlanTee(s, k).value, LocalTee(k), ls, hidden, st, p);
  }

  lemma NumPiece(s: Translation, op: NumOp, c: Ctx, below: seq<ValType>, ls: seq<Value>, hidden: seq<Word>,
                 st: seq<Value>)
    returns (p: Piece)
    requires View(s, c, below, ls, hidden, st) && Inline(Num(op)) && PlanFor(s, Num(op)).Ok?
    requires EndsWith(TypesOf(st), NumParams(op))
    ensures Implements(s, PlanFor(s, Num(op)).value, Num(op), ls, hidden, st, p)
  {
    hide View;
    hide WordsOf;
    hide TypesOf;
    WindowSize(s, c, below, ls, hidden, st);
    PlanShape(s, op);
    hide PlanFor;
    hide Ops;
    hide Sequences.NumCode;
    hide Plain;
    hide Performs;
    p := NumWindow(op, ls, hidden, st);
  }

  lemma NumWindow(op: NumOp, ls: seq<Value>, hidden: seq<Word>, st: seq<Value>) returns (p: Piece)
    requires !op.I64Snippet? && EndsWith(TypesOf(st), NumParams(op))
    ensures p.ops == Sequences.NumCode(op)
    ensures Covers(p, Window(ls, hidden, st), |Window(ls, hidden, st)| + Sequences.Headroom(op))
    ensures Performs(p, hidden, Plain(Num(op), ls, st))
  {
    hide WordsOf;
    hide B.RunBlock;
    hide Sequences.NumCode;
    hide Sequences.Headroom;
    hide NumEval;
    hide NumParams;
    hide NumResult;
    hide Flat;
    var n := |NumParams(op)|;
    var args, rest := Top(st, n), Below(st, n);
    TypesOfSplit(st, n);
    hide TypesOf;
    FlatSplit(st, n);
    Numerics.NumRuns(op, args);
    p := Piece(Sequences.NumCode(op), Window(ls, hidden, rest), Flat(args), |Flat(args)| + Sequences.Headroom(op));
    Associate(Flat(ls) + hidden, Flat(rest), Flat(args));
    var r := NumEval(op, args);
    if r.Number? {
      WindowPush(ls, hidden, rest, Val(NumResult(op), r.bits));
    }
  }

  lemma PlanShape(s: Translation, op: NumOp)
    requires !op.I64Snippet? && PlanFor(s, Num(op)).Ok?
    ensures var plan := PlanFor(s, Num(op)).value;
            && plan.code == Ops(Sequences.NumCode(op))
            && plan.peak >= s.height + Sequences.Headroom(op)
  {
    hide WordsOf;
    if !op.WrapI64? {
      hide Sequences.NumCode;
    } else {
      assert Ops([O.Drop]) == [Op(O.Drop)];
    }
  }
}
