/** Validation of structured code, and type soundness of the semantics for validated code. */
module Validation {
  import opened Words
  import opened Source

  /** `labels` holds the argument types of the enclosing labels, outermost first. */
  datatype Ctx = Ctx(locals: seq<ValType>, labels: seq<seq<ValType>>, results: seq<ValType>)

  /** What is known after an instruction: ill-typed, never reached, or the operand types. */
  datatype Flow = Bad | Dead | Live(types: seq<ValType>)

  predicate EndsWith(ts: seq<ValType>, us: seq<ValType>) {
    |us| <= |ts| && ts[|ts| - |us|..] == us
  }

  function Label(c: Ctx, depth: nat): seq<ValType>
    requires depth < |c.labels|
  {
    c.labels[|c.labels| - 1 - depth]
  }

  predicate Targets(c: Ctx, depth: nat, ts: seq<ValType>) {
    depth < |c.labels| && EndsWith(ts, Label(c, depth))
  }

  function Enter(c: Ctx, lab: seq<ValType>): Ctx { c.(labels := c.labels + [lab]) }

  /** Pops `us` off `ts` and pushes `vs`. */
  function Rewrite(ts: seq<ValType>, us: seq<ValType>, vs: seq<ValType>): Flow {
    if EndsWith(ts, us) then Live(ts[..|ts| - |us|] + vs) else Bad
  }

  function CheckPlain(i: Instr, c: Ctx, ts: seq<ValType>): Flow {
    var n := |ts|;
    match i
    case Nop => Live(ts)
    case Unreachable => Dead
    case Drop => if n >= 1 then Live(ts[..n - 1]) else Bad
    case Select => if n >= 3 && ts[n - 1] == I32 && ts[n - 2] == ts[n - 3] then Live(ts[..n - 2]) else Bad
    case Return => if EndsWith(ts, c.results) then Dead else Bad
    case Const(v) => if v.ty != FuncRef && v.ty != ExternRef then Live(ts + [v.ty]) else Bad
    case LocalGet(k) => if k < |c.locals| then Live(ts + [c.locals[k]]) else Bad
    case LocalSet(k) => if k < |c.locals| && n >= 1 && ts[n - 1] == c.locals[k] then Live(ts[..n - 1]) else Bad
    case LocalTee(k) => if k < |c.locals| && n >= 1 && ts[n - 1] == c.locals[k] then Live(ts) else Bad
    case Num(op) => Rewrite(ts, NumParams(op), [NumResult(op)])
    case Br(k) => if Targets(c, k, ts) then Dead else Bad
    case BrIf(k) => if n >= 1 && ts[n - 1] == I32 && Targets(c, k, ts[..n - 1]) then Live(ts[..n - 1]) else Bad
    case BrTable(ks, d) =>
      if n >= 1 && ts[n - 1] == I32 && (forall k | k in ks + [d] :: Targets(c, k, ts[..n - 1])) then Dead else Bad
    case _ => Bad
  }

  function Check(code: seq<Instr>, c: Ctx, ts: seq<ValType>): Flow
    decreases code, 0
  {
    if code == [] then Live(ts)
    else
      var f := CheckInstr(code[0], c, ts);
      if f.Live? then Check(code[1..], c, f.types) else f
  }

  /** Code after an instruction that never completes is not looked at. */
  function CheckInstr(i: Instr, c: Ctx, ts: seq<ValType>): Flow
    decreases i, 1
  {
    match i
    case Block(bt, body) => CheckBody(bt, body, Results(bt), c, ts)
    case Loop(bt, body) => CheckBody(bt, body, Params(bt), c, ts)
    case If(bt, thn) =>
      if |ts| >= 1 && ts[|ts| - 1] == I32 && Params(bt) == Results(bt)
      then CheckBody(bt, thn, Results(bt), c, ts[..|ts| - 1]) else Bad
    case IfElse(bt, thn, els) =>
      if |ts| >= 1 && ts[|ts| - 1] == I32 && CheckBody(bt, thn, Results(bt), c, ts[..|ts| - 1]).Live?
      then CheckBody(bt, els, Results(bt), c, ts[..|ts| - 1]) else Bad
    case _ => CheckPlain(i, c, ts)
  }

  function CheckBody(bt: BlockType, body: seq<Instr>, lab: seq<ValType>, c: Ctx, ts: seq<ValType>): Flow
    decreases body, 1
  {
    var f := Check(body, Enter(c, lab), Params(bt));
    if f == Bad || (f.Live? && f.types != Results(bt)) then Bad else Rewrite(ts, Params(bt), Results(bt))
  }

  // ----- soundness -----

  ghost predicate Fits(c: Ctx, f: Flow, r: Result) {
    match r
    case Normal(ls, st) => TypesOf(ls) == c.locals && f == Live(TypesOf(st))
    case Branching(k, ls, st) => TypesOf(ls) == c.locals && Targets(c, k, TypesOf(st))
    case Returned(st) => EndsWith(TypesOf(st), c.results)
    case Trapped(_) => true
    case Timeout(_) => true
    case Invalid => false
  }

  lemma TypesOfAppend(a: seq<Value>, b: seq<Value>)
    ensures TypesOf(a + b) == TypesOf(a) + TypesOf(b)
  {
  }

  lemma TypesOfSplit(vs: seq<Value>, n: nat)
    requires n <= |vs|
    ensures TypesOf(Below(vs, n)) == TypesOf(vs)[..|vs| - n]
    ensures TypesOf(Top(vs, n)) == TypesOf(vs)[|vs| - n..]
  {
  }

  lemma PlainSound(i: Instr, c: Ctx, ls: seq<Value>, st: seq<Value>)
    requires TypesOf(ls) == c.locals && CheckPlain(i, c, TypesOf(st)) != Bad
    ensures Fits(c, CheckPlain(i, c, TypesOf(st)), Plain(i, ls, st))
  {
    match i
    case Num(op) => NumericSound(op, c, ls, st);
    case Select => SelectSound(c, ls, st);
    case BrTable(ks, d) => BrTableSound(ks, d, c, ls, st);
    case LocalSet(k) => TypesOfSplit(st, 1); assert TypesOf(ls[k := st[|st| - 1]]) == c.locals;
    case LocalTee(k) => assert TypesOf(ls[k := st[|st| - 1]]) == c.locals;
    case Drop => TypesOfSplit(st, 1);
    case BrIf(_) => TypesOfSplit(st, 1);
    case _ =>
  }

  lemma SelectSound(c: Ctx, ls: seq<Value>, st: seq<Value>)
    requires TypesOf(ls) == c.locals && CheckPlain(Select, c, TypesOf(st)) != Bad
    ensures Fits(c, CheckPlain(Select, c, TypesOf(st)), Plain(Select, ls, st))
  {
    var ts := TypesOf(st);
    TypesOfSplit(st, 3);
    assert ts[..|ts| - 2] == ts[..|ts| - 3] + [ts[|ts| - 3]];
  }

  lemma BrTableSound(ks: seq<nat>, d: nat, c: Ctx, ls: seq<Value>, st: seq<Value>)
    requires TypesOf(ls) == c.locals && CheckPlain(BrTable(ks, d), c, TypesOf(st)) != Bad
    ensures Fits(c, CheckPlain(BrTable(ks, d), c, TypesOf(st)), Plain(BrTable(ks, d), ls, st))
  {
    TypesOfSplit(st, 1);
    var x := st[|st| - 1].bits;
    assert (if x < |ks| then ks[x] else d) in ks + [d];
  }

  lemma NumericSound(op: NumOp, c: Ctx, ls: seq<Value>, st: seq<Value>)
    requires TypesOf(ls) == c.locals && EndsWith(TypesOf(st), NumParams(op))
    ensures Fits(c, Rewrite(TypesOf(st), NumParams(op), [NumResult(op)]), Numeric(op, ls, st))
  {
    var k := |NumParams(op)|;
    TypesOfSplit(st, k);
    var r := NumEval(op, Top(st, k));
    if r.Number? {
      TypesOfAppend(Below(st, k), [Val(NumResult(op), r.bits)]);
    }
  }

  /** Leaving a label turns a well-typed body result into a well-typed block result. */
  lemma UnlabelSound(c: Ctx, lab: seq<ValType>, f: Flow, r: Result, under: seq<Value>, out: seq<ValType>)
    requires Fits(Enter(c, lab), f, r)
    requires f.Live? ==> f.types == out
    requires r.Branching? && r.depth == 0 ==> lab == out
    ensures Fits(c, Live(TypesOf(under) + out), Unlabel(r, under, |out|))
  {
    match r
    case Normal(_, st) => TypesOfAppend(under, st);
    case Branching(k, _, st) =>
      if k == 0 {
        TypesOfSplit(st, |out|);
        TypesOfAppend(under, Top(st, |out|));
      } else {
        assert Label(Enter(c, lab), k) == Label(c, k - 1);
      }
    case _ =>
  }

  /** Validated code never gets into an invalid state, and its result has the validated types. */
  lemma {:induction false} Sound(base: nat, n: nat, code: seq<Instr>, c: Ctx, ls: seq<Value>, st: seq<Value>)
    requires TypesOf(ls) == c.locals && Check(code, c, TypesOf(st)) != Bad
    ensures Fits(c, Check(code, c, TypesOf(st)), Exec(base, n, code, ls, st).result)
    decreases n, code, 0
  {
    if code != [] {
      SoundInstr(base, n, code[0], c, ls, st);
      var r := ExecInstr(base, n, code[0], ls, st).result;
      if r.Normal? {
        Sound(base, n, code[1..], c, r.locals, r.stack);
      }
    }
  }

  lemma {:induction false} SoundInstr(base: nat, n: nat, i: Instr, c: Ctx, ls: seq<Value>, st: seq<Value>)
    requires TypesOf(ls) == c.locals && CheckInstr(i, c, TypesOf(st)) != Bad
    ensures Fits(c, CheckInstr(i, c, TypesOf(st)), ExecInstr(base, n, i, ls, st).result)
    decreases n, i, 1
  {
    hide Plain;
    hide CheckPlain;
    hide ExecBlock;
    hide ExecLoop;
    match i
    case Block(bt, body) => SoundBlock(base, n, bt, body, c, ls, st);
    case Loop(bt, body) =>
      TypesOfSplit(st, |Params(bt)|);
      SoundLoop(base, n, bt, body, c, ls, Top(st, |Params(bt)|));
      var r := ExecLoop(base, n, bt, body, ls, Top(st, |Params(bt)|)).result;
      LoopExitSound(c, Params(bt), r, Below(st, |Params(bt)|), Results(bt));
    case If(bt, thn) =>
      TypesOfSplit(st, 1);
      if st[|st| - 1].bits != 0 {
        SoundBlock(base, n, bt, thn, c, ls, Below(st, 1));
      } else {
        SkippedIf(TypesOf(Below(st, 1)), Params(bt));
      }
    case IfElse(bt, thn, els) =>
      TypesOfSplit(st, 1);
      SoundBlock(base, n, bt, if st[|st| - 1].bits != 0 then thn else els, c, ls, Below(st, 1));
    case _ => PlainSound(i, c, ls, st);
  }

  lemma SkippedIf(ts: seq<ValType>, us: seq<ValType>)
    ensures Rewrite(ts, us, us) in {Bad, Live(ts)}
  {
    if EndsWith(ts, us) {
      assert ts[..|ts| - |us|] + us == ts;
    }
  }

  lemma LoopExitSound(c: Ctx, params: seq<ValType>, r: Result, under: seq<Value>, out: seq<ValType>)
    requires Fits(Enter(c, params), Live(out), r) && !(r.Branching? && r.depth == 0)
    ensures Fits(c, Live(TypesOf(under) + out), Unlabel(r, under, 0))
  {
    match r
    case Normal(_, st) => TypesOfAppend(under, st);
    case Branching(k, _, _) => assert Label(Enter(c, params), k) == Label(c, k - 1);
    case _ =>
  }

  lemma {:induction false} SoundBlock(base: nat, n: nat, bt: BlockType, body: seq<Instr>, c: Ctx, ls: seq<Value>,
                                      st: seq<Value>)
    requires TypesOf(ls) == c.locals && CheckBody(bt, body, Results(bt), c, TypesOf(st)) != Bad
    ensures Fits(c, CheckBody(bt, body, Results(bt), c, TypesOf(st)), ExecBlock(base, n, bt, body, ls, st).result)
    decreases n, body, 1
  {
    var k := |Params(bt)|;
    TypesOfSplit(st, k);
    Sound(base, n, body, Enter(c, Results(bt)), ls, Top(st, k));
    UnlabelSound(c, Results(bt), Check(body, Enter(c, Results(bt)), Params(bt)),
                 Exec(base, n, body, ls, Top(st, k)).result, Below(st, k), Results(bt));
  }

  lemma {:induction false} SoundLoop(base: nat, n: nat, bt: BlockType, body: seq<Instr>, c: Ctx, ls: seq<Value>,
                                     args: seq<Value>)
    requires TypesOf(ls) == c.locals && TypesOf(args) == Params(bt)
    requires Check(body, Enter(c, Params(bt)), Params(bt)) in {Dead, Live(Results(bt))}
    ensures var r := ExecLoop(base, n, bt, body, ls, args).result;
            Fits(Enter(c, Params(bt)), Live(Results(bt)), r) && !(r.Branching? && r.depth == 0)
    decreases n, body, 1
  {
    Sound(base, n, body, Enter(c, Params(bt)), ls, args);
    var r := Exec(base, n, body, ls, args).result;
    if r.Branching? && r.depth == 0 && n > 0 {
      TypesOfSplit(r.stack, |Params(bt)|);
      SoundLoop(base, n - 1, bt, body, c, r.locals, Top(r.stack, |Params(bt)|));
    }
  }
}
