/** What the translator never emits inside a body: calls, function references and stack checks of its own. */
module Emissions {
  import opened Words
  import O = Opcodes
  import opened Source
  import opened Layout
  import opened Translator
  import opened Invariants
  import opened Metering
  import DK = DropKeeps
  import Sequences

  predicate Own(op: SymOp) {
    match op
    case Op(o) => !NamesFunction(o) && !o.StackCheck?
    case Jump(_, _) => true
    case CallSnippet(_) => true
    case ReserveStack => false
  }

  ghost predicate AllOwn(code: seq<SymOp>) { forall i :: 0 <= i < |code| ==> Own(code[i]) }

  /** `b` is `a` with charges raised and operators of the body appended. */
  ghost predicate Adds(a: seq<SymOp>, b: seq<SymOp>) {
    && |a| <= |b|
    && (forall i :: 0 <= i < |a| ==> b[i] == a[i] || (IsCharge(a, i) && IsCharge(b, i)))
    && (forall i :: |a| <= i < |b| ==> Own(b[i]))
  }

  ghost predicate AddsResult(s: Translation, r: Translator.Result<Translation>) { r.Ok? ==> Adds(s.code, r.value.code) }

  lemma AddsTransitive(a: seq<SymOp>, b: seq<SymOp>, c: seq<SymOp>)
    requires Adds(a, b) && Adds(b, c)
    ensures Adds(a, c)
  {
    forall i | |a| <= i < |c| ensures Own(c[i]) {
      if i < |b| {
        assert Own(b[i]);
      }
    }
  }

  lemma Appends(a: seq<SymOp>, ext: seq<SymOp>)
    requires AllOwn(ext)
    ensures Adds(a, a + ext)
  {
  }

  lemma OwnOps(ops: seq<O.Opcode>)
    requires forall i :: 0 <= i < |ops| ==> !NamesFunction(ops[i]) && !ops[i].StackCheck?
    ensures AllOwn(Ops(ops))
  {
  }

  lemma OwnLower(dk: DK.DropKeep)
    ensures AllOwn(Ops(DK.Lower(dk)))
  {
    LowerFine(dk);
    hide DK.Lower;
    OwnOps(DK.Lower(dk));
  }

  lemma OwnPlan(s: Translation, i: Instr)
    requires Simple(i) && PlanFor(s, i).Ok?
    ensures AllOwn(PlanFor(s, i).value.code)
  {
    hide WordsOf;
    hide PlanNum;
    hide PlanWrap;
    match i
    case Num(op) => OwnNum(s, op);
    case Select => OwnSelect(s);
    case LocalGet(k) => OwnLocals(s, k);
    case LocalSet(k) => OwnLocals(s, k);
    case LocalTee(k) => OwnLocals(s, k);
    case _ =>
  }

  lemma OwnSelect(s: Translation)
    ensures PlanSelect(s).Ok? ==> AllOwn(PlanSelect(s).value.code)
  {
  }

  lemma OwnLocals(s: Translation, k: nat)
    ensures PlanGet(s, k).Ok? ==> AllOwn(PlanGet(s, k).value.code)
    ensures PlanSet(s, k).Ok? ==> AllOwn(PlanSet(s, k).value.code)
    ensures PlanTee(s, k).Ok? ==> AllOwn(PlanTee(s, k).value.code)
  {
    hide WordsOf;
  }

  lemma OwnNum(s: Translation, op: NumOp)
    requires PlanFor(s, Num(op)).Ok?
    ensures AllOwn(PlanFor(s, Num(op)).value.code)
  {
    hide Popped;
    hide Pushed;
    if !op.I64Snippet? && !op.WrapI64? {
      NumCodeOwn(op);
      hide Sequences.NumCode;
      OwnOps(Sequences.NumCode(op));
    }
  }

  lemma NumCodeOwn(op: NumOp)
    requires !op.I64Snippet?
    ensures forall i :: 0 <= i < |Sequences.NumCode(op)| ==>
            !NamesFunction(Sequences.NumCode(op)[i]) && !Sequences.NumCode(op)[i].StackCheck?
  {
    if op.I64Count? {
      CountCodeOwn(op.count);
    }
  }

  lemma CountCodeOwn(c: O.CountOp)
    ensures forall i :: 0 <= i < |Sequences.CountCode(c)| ==>
            !NamesFunction(Sequences.CountCode(c)[i]) && !Sequences.CountCode(c)[i].StackCheck?
  {
  }

  lemma AddsBump(s: Translation, delta: nat)
    ensures AddsResult(s, Bump(s, delta))
  {
  }

  lemma AddsSimple(s: Translation, i: Instr)
    requires Simple(i)
    ensures AddsResult(s, VisitSimple(s, i))
  {
    hide Bump;
    hide PlanFor;
    hide Cost;
    if s.reachable && VisitSimple(s, i).Ok? {
      AddsBump(s, Cost(s.base, i));
      var u := Bump(s, Cost(s.base, i)).value;
      OwnPlan(u, i);
      Appends(u.code, PlanFor(u, i).value.code);
      AddsTransitive(s.code, u.code, VisitSimple(s, i).value.code);
    }
  }

  lemma AddsReturn(s: Translation)
    ensures AddsResult(s, VisitReturn(s))
  {
    hide DropKeepReturn;
    hide Ops;
    if s.reachable && DropKeepReturn(s).Ok? {
      var moves := Ops(DK.Lower(DropKeepReturn(s).value));
      OwnLower(DropKeepReturn(s).value);
      hide DK.Lower;
      Appends(s.code, moves);
      Appends(s.code + moves, [Op(O.Return)]);
      AddsTransitive(s.code, s.code + moves, s.code + moves + [Op(O.Return)]);
    }
  }

  lemma AddsJump(s: Translation, dk: DK.DropKeep, kind: O.JumpKind, l: nat)
    ensures AddsResult(s, EmitJump(s, kind, l)) && AddsResult(s, EmitJump(EmitDropKeep(s, dk), kind, l))
  {
    hide Ops;
    var moves := Ops(DK.Lower(dk));
    OwnLower(dk);
    hide DK.Lower;
    Appends(s.code, [Jump(kind, l)]);
    Appends(s.code, moves);
    Appends(s.code + moves, [Jump(kind, l)]);
    AddsTransitive(s.code, s.code + moves, s.code + moves + [Jump(kind, l)]);
  }

  lemma AddsBr(s: Translation, depth: nat)
    ensures AddsResult(s, VisitBr(s, depth))
  {
    hide Bump;
    hide Acquire;
    hide EmitDropKeep;
    hide EmitJump;
    hide VisitReturn;
    if s.reachable && Acquire(s, depth).Ok? && Bump(s, s.base).Ok? {
      var target, u := Acquire(s, depth).value, Bump(s, s.base).value;
      AddsBump(s, s.base);
      AddsReturn(u);
      if target.lab.Some? {
        AddsJump(u, target.dropKeep, O.Always, target.lab.value);
      }
      if VisitBr(s, depth).Ok? {
        AddsTransitive(s.code, u.code, VisitBr(s, depth).value.code);
      }
    }
  }

  lemma AddsCharge(s: Translation)
    ensures Adds(s.code, NewCharge(s).code) && AddsResult(s, Recharge(s))
  {
    Appends(s.code, [Op(O.ConsumeFuel(0))]);
  }

  lemma AddsEmitBrIf(s: Translation, target: Target)
    ensures AddsResult(s, EmitBrIf(s, target))
  {
    hide EmitJump;
    hide EmitDropKeep;
    AddsJump(s, target.dropKeep, O.IfNez, if target.lab.Some? then target.lab.value else 0);
    var skip := AsOffset(|DK.Lower(target.dropKeep)| + 2);
    hide DK.Lower;
    if EmitBrIf(s, target).Ok? && !(target.lab.Some? && target.dropKeep.drop == 0) {
      var u := Emit(s, [Op(O.Branch(O.IfEqz, skip.value))]);
      Appends(s.code, [Op(O.Branch(O.IfEqz, skip.value))]);
      if target.lab.Some? {
        AddsJump(u, target.dropKeep, O.Always, target.lab.value);
      } else {
        AddsMovesReturn(u, target.dropKeep);
      }
      AddsTransitive(s.code, u.code, EmitBrIf(s, target).value.code);
    }
  }

  lemma AddsMovesReturn(s: Translation, dk: DK.DropKeep)
    ensures Adds(s.code, Emit(EmitDropKeep(s, dk), [Op(O.Return)]).code)
  {
    hide Ops;
    var moves := Ops(DK.Lower(dk));
    OwnLower(dk);
    hide DK.Lower;
    Appends(s.code, moves);
    Appends(s.code + moves, [Op(O.Return)]);
    AddsTransitive(s.code, s.code + moves, s.code + moves + [Op(O.Return)]);
  }

  lemma AddsBrIf(s: Translation, depth: nat)
    ensures AddsResult(s, VisitBrIf(s, depth))
  {
    hide Bump;
    hide Acquire;
    hide EmitBrIf;
    hide Recharge;
    if s.reachable && VisitBrIf(s, depth).Ok? {
      var t := PopCondition(s).value;
      var target := Acquire(t, depth).value;
      var u := Bump(t, s.base).value;
      var v := EmitBrIf(u, target).value;
      AddsBump(t, s.base);
      AddsEmitBrIf(u, target);
      AddsCharge(v);
      AddsTransitive(s.code, u.code, v.code);
      AddsTransitive(s.code, v.code, VisitBrIf(s, depth).value.code);
    }
  }

  // ----- branch tables -----

  ghost predicate OwnTables(t: Tables) { AllOwn(t.slots) && AllOwn(t.trampolines) }

  lemma OwnTarget(s: Translation, at: nat, size: nat, target: Target, acc: Tables)
    requires OwnTables(acc) && EncodeTarget(s, at, size, target, acc).Ok?
    ensures OwnTables(EncodeTarget(s, at, size, target, acc).value)
  {
    OwnLower(target.dropKeep);
    hide DK.Lower;
    hide Ops;
    hide CheckJump;
  }

  lemma {:induction false} OwnTargets(s: Translation, at: nat, size: nat, depths: seq<nat>, acc: Tables)
    requires OwnTables(acc) && EncodeTargets(s, at, size, depths, acc).Ok?
    ensures OwnTables(EncodeTargets(s, at, size, depths, acc).value)
    decreases |depths|
  {
    hide EncodeTarget;
    hide Acquire;
    if depths != [] {
      var target := Acquire(s, depths[0]).value;
      OwnTarget(s, at, size, target, acc);
      OwnTargets(s, at, size, depths[1..], EncodeTarget(s, at, size, target, acc).value);
    }
  }

  lemma AddsBrTable(s: Translation, depths: seq<nat>, default: nat)
    ensures AddsResult(s, VisitBrTable(s, depths, default))
  {
    hide Bump;
    hide EncodeTargets;
    if s.reachable && VisitBrTable(s, depths, default).Ok? {
      var u := Bump(s, s.base).value;
      var t := PopCondition(u).value;
      AddsBump(s, s.base);
      var tables := EncodeTargets(t, |t.code| + 1, 2 * |depths| + 2, depths + [default], Tables([], [], 0)).value;
      OwnTargets(t, |t.code| + 1, 2 * |depths| + 2, depths + [default], Tables([], [], 0));
      var code := [Op(O.BrTable(|depths| + 1))] + tables.slots + tables.trampolines;
      assert AllOwn(code);
      Appends(t.code, code);
      AddsTransitive(s.code, t.code, t.code + code);
    }
  }

  // ----- blocks -----

  lemma AddsIf(s: Translation, bt: BlockType)
    ensures AddsResult(s, VisitIf(s, bt))
  {
    hide Bump;
    hide EmitJump;
    hide FrameHeight;
    if s.reachable && VisitIf(s, bt).Ok? {
      var t := Shrink(s, 1).value.(types := if s.types == [] then [] else s.types[..|s.types| - 1]);
      var t2 := NewLabel(NewLabel(t));
      var u := Bump(t2, s.base).value;
      var v := EmitJump(u, O.IfEqz, |s.labels|).value;
      AddsBump(t2, s.base);
      AddsJump(u, DK.DropKeep(0, 0), O.IfEqz, |s.labels|);
      AddsCharge(v);
      AddsTransitive(s.code, u.code, v.code);
      AddsTransitive(s.code, v.code, NewCharge(v).code);
    }
  }

  lemma AddsLoop(s: Translation, bt: BlockType)
    ensures AddsResult(s, VisitLoop(s, bt))
  {
    AddsCharge(NewLabel(s));
  }

  lemma ShrinkToCode(s: Translation, height: nat)
    ensures ShrinkTo(s, height).Ok? ==>
            ShrinkTo(s, height).value.code == s.code
            && ShrinkTo(s, height).value.frames == s.frames
  {
  }

  lemma PinEndCode(s: Translation, f: Frame)
    ensures PinEnd(s, f).Ok? ==> PinEnd(s, f).value.code == s.code && PinEnd(s, f).value.frames == s.frames
  {
  }

  lemma ReturnFrames(s: Translation)
    ensures VisitReturn(s).Ok? ==> VisitReturn(s).value.frames == s.frames
  {
  }

  lemma AddsElse(s: Translation)
    ensures AddsResult(s, VisitElse(s))
  {
    hide EmitJump;
    hide ShrinkTo;
    if VisitElse(s).Ok? {
      var f := LastFrame(s).value;
      if f.IfFrame? {
        var j := if s.reachable then EmitJump(s, O.Always, f.end) else Ok(s);
        AddsJump(s, DK.DropKeep(0, 0), O.Always, f.end);
        var t := Pin(j.value, f.els).value;
        AddsCharge(t);
        ShrinkToCode(NewCharge(t), f.height);
        AddsTransitive(s.code, t.code, NewCharge(t).code);
      }
    }
  }

  lemma AddsEnd(s: Translation)
    ensures AddsResult(s, VisitEnd(s))
  {
    hide VisitReturn;
    hide ShrinkTo;
    hide Recharge;
    hide PinEnd;
    if VisitEnd(s).Ok? {
      var f := LastFrame(s).value;
      PinEndCode(s, f);
      var p := PinEnd(s, f).value;
      AddsReturn(p);
      ReturnFrames(p);
      var t := if |s.frames| == 1 then VisitReturn(p).value else p.(reachable := !f.DeadFrame?);
      ShrinkToCode(t, if f.DeadFrame? then 0 else f.height);
      var u := if f.DeadFrame? then t else ShrinkTo(t, f.height).value;
      var v := PushTypes(u.(frames := u.frames[..|u.frames| - 1]), Results(f.bt));
      AddsCharge(v);
      AddsTransitive(s.code, t.code, VisitEnd(s).value.code);
    }
  }

  // ----- bodies -----

  /** Translating a body, valid or not, only adds operators of its own. */
  lemma {:induction false} AddsBody(s: Translation, code: seq<Instr>)
    ensures AddsResult(s, Translate(s, code))
    decreases code, 0
  {
    hide TranslateInstr;
    hide Adds;
    if code == [] {
      assert Adds(s.code, s.code) by {
        assert s.code + [] == s.code;
        Appends(s.code, []);
      }
    } else if Translate(s, code).Ok? {
      var t := TranslateInstr(s, code[0]).value;
      AddsInstr(s, code[0]);
      AddsBody(t, code[1..]);
      AddsTransitive(s.code, t.code, Translate(s, code).value.code);
    }
  }

  lemma {:induction false} AddsBlock(s: Translation, t: Translation, body: seq<Instr>)
    requires Adds(s.code, t.code)
    ensures AddsResult(s, Translate(t, body))
    ensures Translate(t, body).Ok? ==> AddsResult(s, VisitEnd(Translate(t, body).value))
    decreases body, 1
  {
    hide Adds;
    hide VisitEnd;
    if Translate(t, body).Ok? {
      var u := Translate(t, body).value;
      AddsBody(t, body);
      AddsTransitive(s.code, t.code, u.code);
      AddsEnd(u);
      if VisitEnd(u).Ok? {
        AddsTransitive(s.code, u.code, VisitEnd(u).value.code);
      }
    }
  }

  lemma {:induction false} AddsInstr(s: Translation, i: Instr)
    ensures AddsResult(s, TranslateInstr(s, i))
    decreases i, 1
  {
    hide VisitSimple, VisitReturn, VisitBr, VisitBrIf, VisitBrTable, VisitLoop, VisitIf, VisitElse, VisitEnd, Translate;
    match i
    case Nop => Appends(s.code, []);
    case Unreachable => Appends(s.code, [Op(O.Unreachable)]);
    case Return => AddsReturn(s);
    case Br(k) => AddsBr(s, k);
    case BrIf(k) => AddsBrIf(s, k);
    case BrTable(ks, d) => AddsBrTable(s, ks, d);
    case Block(bt, body) =>
      if VisitBlock(s, bt).Ok? {
        AddsBlock(s, VisitBlock(s, bt).value, body);
      }
    case Loop(bt, body) =>
      AddsLoop(s, bt);
      if VisitLoop(s, bt).Ok? {
        AddsBlock(s, VisitLoop(s, bt).value, body);
      }
    case If(bt, thn) =>
      AddsIf(s, bt);
      if VisitIf(s, bt).Ok? {
        AddsBlock(s, VisitIf(s, bt).value, thn);
      }
    case IfElse(bt, thn, els) =>
      AddsIf(s, bt);
      if VisitIf(s, bt).Ok? && Translate(VisitIf(s, bt).value, thn).Ok? {
        AddsBlock(s, VisitIf(s, bt).value, thn);
        var t := Translate(VisitIf(s, bt).value, thn).value;
        AddsElse(t);
        if VisitElse(t).Ok? {
          AddsTransitive(s.code, t.code, VisitElse(t).value.code);
          AddsBlock(s, VisitElse(t).value, els);
        }
      }
    case Drop => AddsSimple(s, i);
    case Select => AddsSimple(s, i);
    case Const(_) => AddsSimple(s, i);
    case LocalGet(_) => AddsSimple(s, i);
    case LocalSet(_) => AddsSimple(s, i);
    case LocalTee(_) => AddsSimple(s, i);
    case Num(_) => AddsSimple(s, i);
  }
}
