/** Typing rules for structured code in the style of section 3.3 of the WebAssembly Core Specification 2.0, and the
    validator as the algorithm that decides them. Code behind an operator that never completes is not typed. */
module Typing {
  import O = Opcodes
  import opened Source
  import opened Validation

  /** Operand and result types of the numeric operators. */
  predicate NumRule(op: NumOp, us: seq<ValType>, t: ValType) {
    match op
    case I32Unary(_) => us == [I32] && t == I32
    case I32Binary(_) => us == [I32, I32] && t == I32
    case I32Division(_) => us == [I32, I32] && t == I32
    case I64Eqz => us == [I64] && t == I32
    case I64Count(_) => us == [I64] && t == I64
    case I64Logic(_) => us == [I64, I64] && t == I64
    case I64Snippet(s) => us == [I64, I64] && t == (if s.Rel64? then I32 else I64)
    case WrapI64 => us == [I64] && t == I32
    case ExtendS => us == [I32] && t == I64
    case ExtendU => us == [I32] && t == I64
  }

  /** The types a branch to the label takes along. */
  predicate LabelIs(c: Ctx, depth: nat, us: seq<ValType>) {
    depth < |c.labels| && us == c.labels[|c.labels| - 1 - depth]
  }

  /** The operator takes `us` off the stack and leaves `vs`. */
  ghost predicate Rule(i: Instr, c: Ctx, us: seq<ValType>, vs: seq<ValType>)
    decreases i, 1
  {
    match i
    case Nop => us == vs == []
    case Drop => |us| == 1 && vs == []
    case Select => |us| == 3 && us[0] == us[1] && us[2] == I32 && vs == [us[0]]
    case Const(v) => us == [] && vs == [v.ty] && v.ty in {I32, I64, F32, F64}
    case LocalGet(k) => k < |c.locals| && us == [] && vs == [c.locals[k]]
    case LocalSet(k) => k < |c.locals| && us == [c.locals[k]] && vs == []
    case LocalTee(k) => k < |c.locals| && us == vs == [c.locals[k]]
    case Num(op) => |vs| == 1 && NumRule(op, us, vs[0])
    case BrIf(k) => us == vs + [I32] && LabelIs(c, k, vs)
    case Block(bt, body) =>
      us == Params(bt) && vs == Results(bt) && Encloses(body, Enter(c, Results(bt)), Params(bt), Results(bt))
    case Loop(bt, body) =>
      us == Params(bt) && vs == Results(bt) && Encloses(body, Enter(c, Params(bt)), Params(bt), Results(bt))
    case If(bt, thn) =>
      us == Params(bt) + [I32] && vs == Results(bt) == Params(bt)
      && Encloses(thn, Enter(c, Results(bt)), Params(bt), Results(bt))
    case IfElse(bt, thn, els) =>
      us == Params(bt) + [I32] && vs == Results(bt)
      && Encloses(thn, Enter(c, Results(bt)), Params(bt), Results(bt))
      && Encloses(els, Enter(c, Results(bt)), Params(bt), Results(bt))
    case _ => false
  }

  /** The operator needs `us` on top of the stack and never completes. */
  ghost predicate LeavesWith(i: Instr, c: Ctx, us: seq<ValType>) {
    match i
    case Unreachable => us == []
    case Return => us == c.results
    case Br(k) => LabelIs(c, k, us)
    case BrTable(ks, d) => us != [] && us[|us| - 1] == I32 && forall k :: k in ks + [d] ==>
        Carries(c, k, us[..|us| - 1])
    case _ => false
  }

  /** The types on top suffice for the label. */
  ghost predicate Carries(c: Ctx, k: nat, us: seq<ValType>) {
    exists n: nat :: n <= |us| && LabelIs(c, k, us[n..])
  }

  /** A body with these parameter and result types. */
  ghost predicate Encloses(body: seq<Instr>, c: Ctx, ps: seq<ValType>, rs: seq<ValType>)
    decreases body, 1
  {
    Typed(body, c, ps, rs) || Cuts(body, c, ps)
  }

  ghost predicate Steps(i: Instr, c: Ctx, ts: seq<ValType>, mid: seq<ValType>)
    decreases i, 2
  {
    exists n: nat, vs: seq<ValType> :: n <= |ts| && Rule(i, c, ts[n..], vs) && mid == ts[..n] + vs
  }

  ghost predicate Departs(i: Instr, c: Ctx, ts: seq<ValType>) {
    exists n: nat :: n <= |ts| && LeavesWith(i, c, ts[n..])
  }

  /** The code leads from one stack to another. */
  ghost predicate Typed(code: seq<Instr>, c: Ctx, ts: seq<ValType>, us: seq<ValType>)
    decreases code, 0
  {
    if code == [] then ts == us else exists mid :: Steps(code[0], c, ts, mid) && Typed(code[1..], c, mid, us)
  }

  /** The code never gets to its end. */
  ghost predicate Cuts(code: seq<Instr>, c: Ctx, ts: seq<ValType>)
    decreases code, 0
  {
    code != [] && (Departs(code[0], c, ts) || exists mid :: Steps(code[0], c, ts, mid) && Cuts(code[1..], c, mid))
  }

  // ----- operators -----

  lemma NumDecided(op: NumOp, us: seq<ValType>, t: ValType)
    ensures NumRule(op, us, t) <==> us == NumParams(op) && t == NumResult(op)
  {
  }

  /** An operator that pops `us` and pushes `vs` is decided by looking at the top of the stack. */
  lemma TopDecided(i: Instr, c: Ctx, ts: seq<ValType>, mid: seq<ValType>, us: seq<ValType>, vs: seq<ValType>)
    requires forall xs, ys :: Rule(i, c, xs, ys) <==> xs == us && ys == vs
    ensures Steps(i, c, ts, mid) <==> Rewrite(ts, us, vs) == Live(mid)
  {
    if Rewrite(ts, us, vs) == Live(mid) {
      assert Rule(i, c, ts[|ts| - |us|..], vs);
    }
    if Steps(i, c, ts, mid) {
      var n: nat, ws: seq<ValType> :| n <= |ts| && Rule(i, c, ts[n..], ws) && mid == ts[..n] + ws;
      assert ts[n..] == us && ws == vs;
    }
  }

  lemma PlainDecided(i: Instr, c: Ctx, ts: seq<ValType>, mid: seq<ValType>)
    requires !i.Block? && !i.Loop? && !i.If? && !i.IfElse?
    ensures CheckPlain(i, c, ts) == Live(mid) <==> Steps(i, c, ts, mid)
  {
    match i
    case Nop => TopDecided(i, c, ts, mid, [], []);
    case Const(v) => ConstDecided(v, c, ts, mid);
    case LocalGet(k) => LocalsDecided(i, k, c, ts, mid);
    case LocalSet(k) => LocalsDecided(i, k, c, ts, mid);
    case LocalTee(k) => LocalsDecided(i, k, c, ts, mid);
    case Num(op) => NumsDecided(op, c, ts, mid);
    case Drop => DropDecided(c, ts, mid);
    case Select => SelectDecided(c, ts, mid);
    case BrIf(k) => BrIfDecided(k, c, ts, mid);
    case _ =>
  }

  lemma ConstDecided(v: Value, c: Ctx, ts: seq<ValType>, mid: seq<ValType>)
    ensures CheckPlain(Const(v), c, ts) == Live(mid) <==> Steps(Const(v), c, ts, mid)
  {
    if v.ty in {I32, I64, F32, F64} {
      TopDecided(Const(v), c, ts, mid, [], [v.ty]);
    }
  }

  lemma LocalsDecided(i: Instr, k: nat, c: Ctx, ts: seq<ValType>, mid: seq<ValType>)
    requires i in {LocalGet(k), LocalSet(k), LocalTee(k)}
    ensures CheckPlain(i, c, ts) == Live(mid) <==> Steps(i, c, ts, mid)
  {
    if k < |c.locals| {
      var t := c.locals[k];
      TopDecided(i, c, ts, mid, if i.LocalGet? then [] else [t], if i.LocalSet? then [] else [t]);
      assert ts != [] ==> ts == ts[..|ts| - 1] + [ts[|ts| - 1]];
    }
  }

  lemma NumsDecided(op: NumOp, c: Ctx, ts: seq<ValType>, mid: seq<ValType>)
    ensures CheckPlain(Num(op), c, ts) == Live(mid) <==> Steps(Num(op), c, ts, mid)
  {
    forall xs, ys ensures Rule(Num(op), c, xs, ys) <==> xs == NumParams(op) && ys == [NumResult(op)] {
      if |ys| == 1 { NumDecided(op, xs, ys[0]); }
    }
    TopDecided(Num(op), c, ts, mid, NumParams(op), [NumResult(op)]);
    hide NumParams, NumResult, NumRule, Steps;
  }

  lemma DropDecided(c: Ctx, ts: seq<ValType>, mid: seq<ValType>)
    ensures CheckPlain(Drop, c, ts) == Live(mid) <==> Steps(Drop, c, ts, mid)
  {
    if ts != [] {
      assert Rule(Drop, c, ts[|ts| - 1..], []) && ts[..|ts| - 1] + [] == ts[..|ts| - 1];
    }
  }

  lemma SelectDecided(c: Ctx, ts: seq<ValType>, mid: seq<ValType>)
    ensures CheckPlain(Select, c, ts) == Live(mid) <==> Steps(Select, c, ts, mid)
  {
    var n := |ts|;
    if n >= 3 {
      var us := ts[n - 3..];
      assert us[0] == ts[n - 3] && us[1] == ts[n - 2] && us[2] == ts[n - 1];
      assert ts[..n - 3] + [ts[n - 3]] == ts[..n - 2];
      if CheckPlain(Select, c, ts) == Live(mid) {
        assert Rule(Select, c, ts[n - 3..], [ts[n - 3]]);
      }
    }
  }

  lemma BrIfDecided(k: nat, c: Ctx, ts: seq<ValType>, mid: seq<ValType>)
    ensures CheckPlain(BrIf(k), c, ts) == Live(mid) <==> Steps(BrIf(k), c, ts, mid)
  {
    var n := |ts|;
    if k < |c.labels| {
      var l := Label(c, k);
      TopDecided(BrIf(k), c, ts, mid, l + [I32], l);
      ConditionSplit(ts, l);
    }
  }

  lemma ConditionSplit(ts: seq<ValType>, l: seq<ValType>)
    ensures EndsWith(ts, l + [I32]) <==> ts != [] && ts[|ts| - 1] == I32 && EndsWith(ts[..|ts| - 1], l)
    ensures EndsWith(ts, l + [I32]) ==> ts[..|ts| - |l| - 1] + l == ts[..|ts| - 1]
  {
    if ts != [] && ts[|ts| - 1] == I32 && EndsWith(ts[..|ts| - 1], l) {
      assert ts == ts[..|ts| - 1] + [I32];
      assert ts[|ts| - |l| - 1..] == l + [I32];
    }
    if EndsWith(ts, l + [I32]) {
      var us := ts[|ts| - |l| - 1..];
      assert us[|l|] == I32 && us[..|l|] == l;
      assert ts[..|ts| - 1][|ts| - 1 - |l|..] == us[..|l|];
    }
  }

  /** Operators that never complete. */
  lemma DepartureDecided(i: Instr, c: Ctx, ts: seq<ValType>)
    ensures CheckInstr(i, c, ts) == Dead <==> Departs(i, c, ts)
  {
    match i
    case Unreachable => assert ts[|ts|..] == []; assert LeavesWith(i, c, ts[|ts|..]);
    case Return => if EndsWith(ts, c.results) { assert LeavesWith(i, c, ts[|ts| - |c.results|..]); }
    case Br(k) => if Targets(c, k, ts) { assert LeavesWith(i, c, ts[|ts| - |Label(c, k)|..]); }
    case BrTable(ks, d) => TableDecided(ks, d, c, ts);
    case Block(_, _) =>
    case Loop(_, _) =>
    case If(_, _) =>
    case IfElse(_, _, _) =>
    case _ => NeverDead(i, c, ts);
  }

  lemma NeverDead(i: Instr, c: Ctx, ts: seq<ValType>)
    requires !i.Unreachable? && !i.Return? && !i.Br? && !i.BrTable?
    ensures CheckPlain(i, c, ts) != Dead
  {
  }

  lemma CarriesIs(c: Ctx, k: nat, us: seq<ValType>)
    ensures Carries(c, k, us) <==> Targets(c, k, us)
  {
    if Targets(c, k, us) { assert LabelIs(c, k, us[|us| - |Label(c, k)|..]); }
  }

  lemma TableDecided(ks: seq<nat>, d: nat, c: Ctx, ts: seq<ValType>)
    ensures CheckPlain(BrTable(ks, d), c, ts) == Dead <==> Departs(BrTable(ks, d), c, ts)
  {
    var i, n := BrTable(ks, d), |ts|;
    if CheckPlain(i, c, ts) == Dead {
      forall k | k in ks + [d] ensures Carries(c, k, ts[..n - 1]) { CarriesIs(c, k, ts[..n - 1]); }
      assert ts[0..] == ts && LeavesWith(i, c, ts[0..]);
    }
    if Departs(i, c, ts) {
      var m: nat :| m <= n && LeavesWith(i, c, ts[m..]);
      var us := ts[m..];
      assert us[|us| - 1] == ts[n - 1] && us[..|us| - 1] == ts[m..n - 1];
      forall k | k in ks + [d] ensures Targets(c, k, ts[..n - 1]) {
        CarriesIs(c, k, us[..|us| - 1]);
        Longer(c, k, ts[..n - 1], m);
        assert ts[..n - 1][m..] == us[..|us| - 1];
      }
    }
  }

  lemma Longer(c: Ctx, k: nat, us: seq<ValType>, m: nat)
    requires m <= |us| && Targets(c, k, us[m..])
    ensures Targets(c, k, us)
  {
  }

  // ----- code -----

  /** The validator decides the rules: it finds the stack that code leads to, or that the end is never reached. */
  lemma {:induction false} Decides(code: seq<Instr>, c: Ctx, ts: seq<ValType>)
    ensures forall us :: Check(code, c, ts) == Live(us) <==> Typed(code, c, ts, us)
    ensures Check(code, c, ts) == Dead <==> Cuts(code, c, ts)
    decreases code, 0
  {
    if code != [] {
      hide CheckInstr, Steps, Departs;
      StepDecided(code[0], c, ts);
      DepartureDecided(code[0], c, ts);
      var f := CheckInstr(code[0], c, ts);
      if f.Live? {
        Decides(code[1..], c, f.types);
        assert Steps(code[0], c, ts, f.types);
      }
    }
  }

  lemma {:induction false} StepDecided(i: Instr, c: Ctx, ts: seq<ValType>)
    ensures forall mid :: CheckInstr(i, c, ts) == Live(mid) <==> Steps(i, c, ts, mid)
    decreases i, 1
  {
    hide CheckPlain, CheckBody, Steps;
    forall mid ensures CheckInstr(i, c, ts) == Live(mid) <==> Steps(i, c, ts, mid) {
      match i
      case Block(bt, body) => BodyDecided(bt, body, Results(bt), c); BlockDecided(i, bt, body, Results(bt), c, ts, mid);
      case Loop(bt, body) => BodyDecided(bt, body, Params(bt), c); BlockDecided(i, bt, body, Params(bt), c, ts, mid);
      case If(bt, thn) => BodyDecided(bt, thn, Results(bt), c); IfDecided(i, bt, thn, thn, c, ts, mid);
      case IfElse(bt, thn, els) =>
        BodyDecided(bt, thn, Results(bt), c);
        BodyDecided(bt, els, Results(bt), c);
        IfDecided(i, bt, thn, els, c, ts, mid);
      case _ => PlainDecided(i, c, ts, mid);
    }
  }

  /** Checking a body is typing it. */
  lemma {:induction false} BodyDecided(bt: BlockType, body: seq<Instr>, lab: seq<ValType>, c: Ctx)
    ensures Check(body, Enter(c, lab), Params(bt)) in {Dead, Live(Results(bt))}
            <==> Encloses(body, Enter(c, lab), Params(bt), Results(bt))
    decreases body, 1
  {
    Decides(body, Enter(c, lab), Params(bt));
  }

  lemma BlockDecided(i: Instr, bt: BlockType, body: seq<Instr>, lab: seq<ValType>, c: Ctx, ts: seq<ValType>,
                     mid: seq<ValType>)
    requires (i == Block(bt, body) && lab == Results(bt)) || (i == Loop(bt, body) && lab == Params(bt))
    requires Check(body, Enter(c, lab), Params(bt)) in {Dead, Live(Results(bt))}
             <==> Encloses(body, Enter(c, lab), Params(bt), Results(bt))
    ensures CheckBody(bt, body, lab, c, ts) == Live(mid) <==> Steps(i, c, ts, mid)
  {
    hide Check, Encloses;
    if Encloses(body, Enter(c, lab), Params(bt), Results(bt)) {
      TopDecided(i, c, ts, mid, Params(bt), Results(bt));
      hide Steps;
    }
  }

  lemma IfDecided(i: Instr, bt: BlockType, thn: seq<Instr>, els: seq<Instr>, c: Ctx, ts: seq<ValType>,
                  mid: seq<ValType>)
    requires i == IfElse(bt, thn, els) || (i == If(bt, thn) && els == thn)
    requires Check(thn, Enter(c, Results(bt)), Params(bt)) in {Dead, Live(Results(bt))}
             <==> Encloses(thn, Enter(c, Results(bt)), Params(bt), Results(bt))
    requires Check(els, Enter(c, Results(bt)), Params(bt)) in {Dead, Live(Results(bt))}
             <==> Encloses(els, Enter(c, Results(bt)), Params(bt), Results(bt))
    ensures CheckInstr(i, c, ts) == Live(mid) <==> Steps(i, c, ts, mid)
  {
    hide Check, Encloses;
    var d, ps, rs := Enter(c, Results(bt)), Params(bt), Results(bt);
    ConditionSplit(ts, ps);
    if Encloses(thn, d, ps, rs) && Encloses(els, d, ps, rs) && (i.If? ==> ps == rs) {
      TopDecided(i, c, ts, mid, ps + [I32], rs);
      hide Steps;
    }
  }
}
