/** The one-pass translator as functions from one translation state to the next. Code is kept in
    symbolic form: jumps name their label, and the positions of labels are recorded beside it. */
module Translator {
  import opened Words
  import O = Opcodes
  import opened Source
  import opened Layout
  import DK = DropKeeps
  import Sequences

  /** Why translation stops: a broken internal assumption (a panic), a count beyond 32 bits,
      or one of the reported limits. */
  datatype Failure =
    | Panic
    | TooLarge
    | DropKeepOutOfBounds
    | BranchOffsetOutOfBounds
    | BlockFuelOutOfBounds
    | BranchTableTargetsOutOfBounds

  datatype Result<+T> = Ok(value: T) | Err(failure: Failure) {
    predicate IsFailure() { Err? }

    function PropagateFailure<U>(): Result<U>
      requires Err?
    {
      Err(failure)
    }

    function Extract(): T
      requires Ok?
    {
      value
    }
  }

  datatype SymOp =
    | Op(op: O.Opcode)
    | Jump(kind: O.JumpKind, target: nat)
    | CallSnippet(snippet: Snippet)
    | ReserveStack

  datatype Kind = BlockKind | LoopKind | IfKind

  datatype Frame =
    | BlockFrame(bt: BlockType, end: nat, height: nat, fuel: O.Option<nat>)
    | LoopFrame(bt: BlockType, head: nat, height: nat, fuel: O.Option<nat>)
    | IfFrame(bt: BlockType, end: nat, els: nat, height: nat, fuel: O.Option<nat>, thenReachable: O.Option<bool>)
    | DeadFrame(kind: Kind, bt: BlockType)

  datatype Translation = Translation(
    metered: bool,
    base: nat,
    paramWords: nat,
    code: seq<SymOp>,
    labels: seq<O.Option<nat>>,
    frames: seq<Frame>,
    types: seq<ValType>,
    height: nat,
    maxHeight: nat,
    reachable: bool)

  function Max(x: nat, y: nat): nat { if x > y then x else y }

  // ----- emitting -----

  function Ops(ops: seq<O.Opcode>): seq<SymOp> { seq(|ops|, i requires 0 <= i < |ops| => Op(ops[i])) }

  function Emit(s: Translation, code: seq<SymOp>): Translation { s.(code := s.code + code) }

  function AsWord(n: nat): Result<Word> { if n < B32 then Ok(n) else Err(TooLarge) }

  predicate FitsOffset(n: int) { -B31 <= n < B31 }

  function AsOffset(n: int): Result<O.I32> { if FitsOffset(n) then Ok(n) else Err(TooLarge) }

  function NewLabel(s: Translation): Translation { s.(labels := s.labels + [O.None]) }

  function Pin(s: Translation, l: nat): Result<Translation> {
    if l >= |s.labels| || s.labels[l].Some? then Err(Panic) else Ok(s.(labels := s.labels[l := O.Some(|s.code|)]))
  }

  function TryPin(s: Translation, l: nat): Result<Translation> {
    if l >= |s.labels| then Err(Panic) else if s.labels[l].Some? then Ok(s) else Pin(s, l)
  }

  /** A jump at `at` to an already pinned label must fit the offset; other labels are left for later. */
  predicate Resolvable(s: Translation, l: nat, at: nat) {
    l < |s.labels| && s.labels[l].Some? ==> FitsOffset(s.labels[l].value - at)
  }

  function CheckJump(s: Translation, l: nat, at: nat): Result<nat> {
    if l >= |s.labels| then Err(Panic)
    else if !Resolvable(s, l, at) then Err(BranchOffsetOutOfBounds)
    else Ok(l)
  }

  function EmitJump(s: Translation, kind: O.JumpKind, l: nat): Result<Translation> {
    var l :- CheckJump(s, l, |s.code|);
    Ok(Emit(s, [Jump(kind, l)]))
  }

  // ----- frames and fuel -----

  function LastFrame(s: Translation): Result<Frame> {
    if s.frames == [] then Err(Panic) else Ok(s.frames[|s.frames| - 1])
  }

  function FuelSlot(f: Frame): O.Option<nat> { if f.DeadFrame? then O.None else f.fuel }

  function Bump(s: Translation, delta: nat): Result<Translation> {
    var f :- LastFrame(s);
    if FuelSlot(f).None? || !s.metered then Ok(s) else BumpAt(s, FuelSlot(f).value, delta)
  }

  function BumpAt(s: Translation, at: nat, delta: nat): Result<Translation> {
    if at >= |s.code| || !s.code[at].Op? || !s.code[at].op.ConsumeFuel? then Err(Panic)
    else if s.code[at].op.fuel + delta >= B32 then Err(BlockFuelOutOfBounds)
    else Ok(s.(code := s.code[at := Op(O.ConsumeFuel(s.code[at].op.fuel + delta))]))
  }

  /** A fresh, still empty fuel charge, if metering is on. */
  function NewCharge(s: Translation): Translation { if s.metered then Emit(s, [Op(O.ConsumeFuel(0))]) else s }

  function NewSlot(s: Translation): O.Option<nat> { if s.metered then O.Some(|s.code|) else O.None }

  /** Emits a fresh charge and makes it the one of the innermost frame. */
  function Recharge(s: Translation): Result<Translation> {
    if !s.metered then Ok(s)
    else
      var f :- LastFrame(s);
      if f.DeadFrame? then Ok(NewCharge(s))
      else if f.fuel.None? then Err(Panic)
      else Ok(NewCharge(s).(frames := s.frames[|s.frames| - 1 := f.(fuel := O.Some(|s.code|))]))
  }

  function PushFrame(s: Translation, f: Frame): Translation { s.(frames := s.frames + [f]) }

  // ----- the emulated stack -----

  function Grow(s: Translation, n: nat): Translation {
    s.(height := s.height + n, maxHeight := Max(s.maxHeight, s.height + n))
  }

  function Shrink(s: Translation, n: nat): Result<Translation> {
    if n <= s.height then Ok(s.(height := s.height - n)) else Err(Panic)
  }

  function PushTypes(s: Translation, ts: seq<ValType>): Translation {
    Grow(s.(types := s.types + ts), WordsOf(ts))
  }

  /** Pops types until the emulated height falls from `from` to `to`. */
  function PopTypes(ts: seq<ValType>, from: int, to: nat): Result<seq<ValType>>
    decreases |ts|
  {
    if from <= to then Ok(ts)
    else if ts == [] || Width(ts[|ts| - 1]) > from then Err(Panic)
    else PopTypes(ts[..|ts| - 1], from - Width(ts[|ts| - 1]), to)
  }

  function ShrinkTo(s: Translation, height: nat): Result<Translation> {
    if height > s.height then Err(Panic)
    else
      var ts :- PopTypes(s.types, s.height, height);
      Ok(s.(height := height, types := ts))
  }

  // ----- operators without control flow -----

  /** What such an operator emits and what it does to the emulated stack. */
  datatype Plan = Plan(code: seq<SymOp>, types: seq<ValType>, height: nat, peak: nat)

  function Twice(op: O.Opcode, t: ValType): seq<SymOp> { if Wide(t) then [Op(op), Op(op)] else [Op(op)] }

  function PlanConst(s: Translation, v: Value): Plan {
    var h := s.height + Width(v.ty);
    var code := if Wide(v.ty) then [Op(O.I32Const(Lo(v.bits))), Op(O.I32Const(Hi(v.bits)))]
        else [Op(O.I32Const(v.bits))];
    Plan(code, s.types + [v.ty], h, h)
  }

  function PlanGet(s: Translation, k: nat): Result<Plan> {
    if k >= |s.types| then Err(Panic)
    else
      var depth :- AsWord(WordsOf(s.types[k..]));
      var h := s.height + Width(s.types[k]);
      Ok(Plan(Twice(O.LocalGet(depth), s.types[k]), s.types + [s.types[k]], h, h))
  }

  function PlanSet(s: Translation, k: nat): Result<Plan> {
    var n := |s.types|;
    if n == 0 || s.height < Width(s.types[n - 1]) || k >= n then Err(Panic)
    else
      var rest := s.types[..n - 1];
      var depth :- AsWord(WordsOf(rest[k..]));
      Ok(Plan(Twice(O.LocalSet(depth), s.types[n - 1]), rest, s.height - Width(s.types[n - 1]), s.height))
  }

  function PlanTee(s: Translation, k: nat): Result<Plan> {
    var n := |s.types|;
    if n == 0 || k > n then Err(Panic)
    else
      var depth :- AsWord(WordsOf(s.types[k..]));
      if !Wide(s.types[n - 1]) then Ok(Plan([Op(O.LocalTee(depth))], s.types, s.height, s.height))
      else if depth == 0 then Err(Panic)
      else Ok(Plan([Op(O.LocalTee(depth - 1)), Op(O.LocalGet(2)), Op(O.LocalSet(depth))], s.types, s.height,
                   s.height + 1))
  }

  function PlanDrop(s: Translation): Result<Plan> {
    var n := |s.types|;
    if n == 0 || s.height < Width(s.types[n - 1]) then Err(Panic)
    else Ok(Plan(Twice(O.Drop, s.types[n - 1]), s.types[..n - 1], s.height - Width(s.types[n - 1]), s.height))
  }

  function PlanSelect(s: Translation): Result<Plan> {
    var n := |s.types|;
    if n < 2 || s.height < 3 then Err(Panic)
    else if Wide(s.types[n - 2]) then
      Ok(Plan(Ops([O.Branch(O.IfEqz, 4), O.Drop, O.Drop, O.Branch(O.Always, 3), O.LocalSet(2), O.LocalSet(2)]),
              s.types[..n - 2], s.height - 3, s.height))
    else Ok(Plan([Op(O.Select)], s.types[..n - 2], s.height - 2, s.height))
  }

  /** Replaces the popped types by one result; `room` words above the operands may be used meanwhile. */
  function Replace(s: Translation, code: seq<SymOp>, popped: seq<ValType>, result: ValType, room: nat): Result<Plan> {
    var k, w := |popped|, WordsOf(popped);
    if |s.types| < k || s.types[|s.types| - k..] != popped || s.height + room < w then Err(Panic)
    else
      var h := s.height + room - w + Width(result);
      if h < room then Err(Panic)
      else Ok(Plan(code, s.types[..|s.types| - k] + [result], h - room, Max(s.height + room, h)))
  }

  /** The operand types a translation helper pops: most trust the type stack instead of the operator. */
  function Popped(s: Translation, op: NumOp): seq<ValType> {
    var n := |s.types|;
    match op
    case I32Unary(_) => if n >= 1 then [s.types[n - 1]] else [I32]
    case I64Eqz => if n >= 1 then [s.types[n - 1]] else [I64]
    case I64Count(_) => if n >= 1 then [s.types[n - 1]] else [I64]
    case I32Binary(_) => if n >= 1 then [s.types[n - 1], s.types[n - 1]] else [I32]
    case I32Division(_) => if n >= 1 then [s.types[n - 1], s.types[n - 1]] else [I32]
    case I64Logic(_) => if n >= 1 then [s.types[n - 1], s.types[n - 1]] else [I64]
    case _ => NumParams(op)
  }

  /** Unary and binary arithmetic gives back the popped type, comparisons give an i32. */
  function Pushed(s: Translation, op: NumOp): ValType {
    match op
    case I32Unary(u) => if u.Eqz? then I32 else Popped(s, op)[0]
    case I64Count(_) => Popped(s, op)[0]
    case I32Binary(b) => if b.Rel? then I32 else Popped(s, op)[0]
    case I32Division(_) => Popped(s, op)[0]
    case I64Logic(_) => Popped(s, op)[0]
    case _ => NumResult(op)
  }

  function PlanWrap(s: Translation): Result<Plan> {
    var n := |s.types|;
    if n == 0 || s.types[n - 1] != I64 || s.height == 0 then Err(Panic)
    else Ok(Plan([Op(O.Drop)], s.types[..n - 1] + [I32], s.height - 1, s.height))
  }

  function PlanNum(s: Translation, op: NumOp): Result<Plan> {
    var code := if op.I64Snippet? then [CallSnippet(op.snippet)] else Ops(Sequences.NumCode(op));
    Replace(s, code, Popped(s, op), Pushed(s, op), if op.I64Snippet? then 0 else Sequences.Headroom(op))
  }

  predicate Simple(i: Instr) {
    i.Drop? || i.Select? || i.Const? || i.LocalGet? || i.LocalSet? || i.LocalTee? || i.Num?
  }

  function PlanFor(s: Translation, i: Instr): Result<Plan>
    requires Simple(i)
  {
    match i
    case Drop => PlanDrop(s)
    case Select => PlanSelect(s)
    case Const(v) => Ok(PlanConst(s, v))
    case LocalGet(k) => PlanGet(s, k)
    case LocalSet(k) => PlanSet(s, k)
    case LocalTee(k) => PlanTee(s, k)
    case Num(op) => if op.WrapI64? then PlanWrap(s) else PlanNum(s, op)
  }

  function Follow(s: Translation, p: Plan): Translation {
    Emit(s, p.code).(types := p.types, height := p.height, maxHeight := Max(s.maxHeight, p.peak))
  }

  function VisitSimple(s: Translation, i: Instr): Result<Translation>
    requires Simple(i)
  {
    if !s.reachable then Ok(s)
    else
      var s :- Bump(s, Cost(s.base, i));
      var p :- PlanFor(s, i);
      Ok(Follow(s, p))
  }

  // ----- branch targets -----

  function NewDropKeep(drop: nat, keep: nat): Result<DK.DropKeep> {
    if drop < B16 && keep < B16 then Ok(DK.DropKeep(drop, keep)) else Err(DropKeepOutOfBounds)
  }

  /** The types a branch to the frame carries. */
  function LabelTypes(f: Frame): seq<ValType>
    requires !f.DeadFrame?
  {
    if f.LoopFrame? then Params(f.bt) else Results(f.bt)
  }

  function LabelOf(f: Frame): nat
    requires !f.DeadFrame?
  {
    if f.LoopFrame? then f.head else f.end
  }

  function NthBack(s: Translation, depth: nat): Result<Frame> {
    if depth >= |s.frames| || s.frames[|s.frames| - 1 - depth].DeadFrame? then Err(Panic)
    else Ok(s.frames[|s.frames| - 1 - depth])
  }

  function ComputeDropKeep(s: Translation, depth: nat, extra: nat): Result<DK.DropKeep> {
    var f :- NthBack(s, depth);
    var keep := WordsOf(if f.DeadFrame? then [] else LabelTypes(f));
    if f.DeadFrame? || f.height + keep > s.height then Err(Panic)
    else
      var dk :- NewDropKeep(s.height - f.height - keep, keep);
      NewDropKeep(dk.drop + extra, dk.keep)
  }

  /** A branch target: a label, or None for leaving the function. */
  datatype Target = Target(lab: O.Option<nat>, dropKeep: DK.DropKeep)

  function DropKeepReturn(s: Translation): Result<DK.DropKeep> {
    if s.frames == [] then Err(Panic) else ComputeDropKeep(s, |s.frames| - 1, s.paramWords)
  }

  function Acquire(s: Translation, depth: nat): Result<Target> {
    var f :- NthBack(s, depth);
    if f.DeadFrame? then Err(Panic)
    else if depth == |s.frames| - 1 then
      var dk :- DropKeepReturn(s);
      Ok(Target(O.None, dk))
    else
      var dk :- ComputeDropKeep(s, depth, 0);
      Ok(Target(O.Some(LabelOf(f)), dk))
  }

  function EmitDropKeep(s: Translation, dk: DK.DropKeep): Translation {
    Emit(s, Ops(DK.Lower(dk))).(maxHeight := Max(s.maxHeight, s.height + DK.Headroom(dk)))
  }

  // ----- control flow -----

  function VisitUnreachable(s: Translation): Translation {
    if !s.reachable then s else Emit(s, [Op(O.Unreachable)]).(reachable := false)
  }

  function VisitReturn(s: Translation): Result<Translation> {
    if !s.reachable then Ok(s)
    else
      var dk :- DropKeepReturn(s);
      Ok(Emit(EmitDropKeep(s, dk), [Op(O.Return)]).(reachable := false))
  }

  function FrameHeight(s: Translation, bt: BlockType): Result<nat> {
    var n := WordsOf(Params(bt));
    if n <= s.height then Ok(s.height - n) else Err(Panic)
  }

  function VisitBlock(s: Translation, bt: BlockType): Result<Translation> {
    if !s.reachable then Ok(PushFrame(s, DeadFrame(BlockKind, bt)))
    else
      var f :- LastFrame(s);
      var h :- FrameHeight(s, bt);
      Ok(PushFrame(NewLabel(s), BlockFrame(bt, |s.labels|, h, FuelSlot(f))))
  }

  function VisitLoop(s: Translation, bt: BlockType): Result<Translation> {
    if !s.reachable then Ok(PushFrame(s, DeadFrame(LoopKind, bt)))
    else
      var h :- FrameHeight(s, bt);
      var t :- Pin(NewLabel(s), |s.labels|);
      Ok(PushFrame(NewCharge(t), LoopFrame(bt, |s.labels|, h, NewSlot(t))))
  }

  function VisitIf(s: Translation, bt: BlockType): Result<Translation> {
    if !s.reachable then Ok(PushFrame(s, DeadFrame(IfKind, bt)))
    else
      var t :- Shrink(s, 1);
      var t := t.(types := if s.types == [] then [] else s.types[..|s.types| - 1]);
      var h :- FrameHeight(t, bt);
      var t :- Bump(NewLabel(NewLabel(t)), s.base);
      var t :- EmitJump(t, O.IfEqz, |s.labels|);
      Ok(PushFrame(NewCharge(t), IfFrame(bt, |s.labels| + 1, |s.labels|, h, NewSlot(t), O.None)))
  }

  function VisitElse(s: Translation): Result<Translation> {
    var f :- LastFrame(s);
    if f.DeadFrame? && f.kind == IfKind then Ok(s)
    else if !f.IfFrame? || f.thenReachable.Some? then Err(Panic)
    else
      var t :- if s.reachable then EmitJump(s, O.Always, f.end) else Ok(s);
      var t :- Pin(t, f.els);
      var slot := NewSlot(t);
      var u :- ShrinkTo(NewCharge(t), f.height);
      var u := PushTypes(u, Params(f.bt));
      if s.metered && f.fuel.None? then Err(Panic)
      else
        var g := f.(thenReachable := O.Some(s.reachable), fuel := if s.metered then slot else f.fuel);
        Ok(u.(frames := u.frames[..|u.frames| - 1] + [g], reachable := true))
  }

  function PinEnd(s: Translation, f: Frame): Result<Translation> {
    var t :- if f.IfFrame? then TryPin(s, f.els) else Ok(s);
    if f.DeadFrame? || f.LoopFrame? then Ok(t) else Pin(t, f.end)
  }

  function VisitEnd(s: Translation): Result<Translation> {
    var f :- LastFrame(s);
    var t :- PinEnd(s, f);
    var t :- if |s.frames| == 1 then VisitReturn(t) else Ok(t.(reachable := !f.DeadFrame?));
    var t :- if f.DeadFrame? then Ok(t) else ShrinkTo(t, f.height);
    var t := PushTypes(t.(frames := t.frames[..|t.frames| - 1]), Results(f.bt));
    if t.frames == [] then Ok(t) else Recharge(t)
  }

  function VisitBr(s: Translation, depth: nat): Result<Translation> {
    if !s.reachable then Ok(s)
    else
      var target :- Acquire(s, depth);
      var t :- Bump(s, s.base);
      var t :- if target.lab.None? then VisitReturn(t)
          else EmitJump(EmitDropKeep(t, target.dropKeep), O.Always, target.lab.value);
      Ok(t.(reachable := false))
  }

  function PopCondition(s: Translation): Result<Translation> {
    if s.height == 0 || s.types == [] then Err(Panic)
    else Ok(s.(height := s.height - 1, types := s.types[..|s.types| - 1]))
  }

  function VisitBrIf(s: Translation, depth: nat): Result<Translation> {
    if !s.reachable then Ok(s)
    else
      var t :- PopCondition(s);
      var target :- Acquire(t, depth);
      var t :- Bump(t, s.base);
      var t :- EmitBrIf(t, target);
      Recharge(t)
  }

  /** A conditional branch skips the moves it would need when it is not taken. */
  function EmitBrIf(s: Translation, target: Target): Result<Translation> {
    var moves := DK.Lower(target.dropKeep);
    if target.lab.Some? && target.dropKeep.drop == 0 then EmitJump(s, O.IfNez, target.lab.value)
    else
      var skip :- AsOffset(|moves| + 2);
      var t := EmitDropKeep(Emit(s, [Op(O.Branch(O.IfEqz, skip))]), target.dropKeep);
      if target.lab.None? then Ok(Emit(t, [Op(O.Return)])) else EmitJump(t, O.Always, target.lab.value)
  }

  // ----- branch tables -----

  /** The two-word slots, the code behind them, and the height it needs. */
  datatype Tables = Tables(slots: seq<SymOp>, trampolines: seq<SymOp>, peak: nat)

  /** Adds the slot of one target; `at` is the position right after the table opcode. */
  function EncodeTarget(s: Translation, at: nat, size: nat, target: Target, acc: Tables): Result<Tables> {
    var n, m := |acc.slots|, |acc.trampolines|;
    var peak := Max(acc.peak, s.height + DK.Headroom(target.dropKeep));
    if target.dropKeep.drop == 0 then
      if target.lab.None? then Ok(Tables(acc.slots + [Op(O.Return), Op(O.Return)], acc.trampolines, peak))
      else
        var l :- CheckJump(s, target.lab.value, at + n);
        Ok(Tables(acc.slots + [Jump(O.Always, l), Op(O.Return)], acc.trampolines, peak))
    else
      var over :- AsOffset(size - n + m);
      var moves := Ops(DK.Lower(target.dropKeep));
      var slots := acc.slots + [Op(O.Branch(O.Always, over)), Op(O.Return)];
      if target.lab.None? then Ok(Tables(slots, acc.trampolines + moves + [Op(O.Return)], peak))
      else
        var l :- CheckJump(s, target.lab.value, at + size + m + |moves|);
        Ok(Tables(slots, acc.trampolines + moves + [Jump(O.Always, l)], peak))
  }

  function EncodeTargets(s: Translation, at: nat, size: nat, depths: seq<nat>, acc: Tables): Result<Tables>
    decreases |depths|
  {
    if depths == [] then Ok(acc)
    else
      var target :- Acquire(s, depths[0]);
      var acc :- EncodeTarget(s, at, size, target, acc);
      EncodeTargets(s, at, size, depths[1..], acc)
  }

  function VisitBrTable(s: Translation, depths: seq<nat>, default: nat): Result<Translation> {
    if !s.reachable then Ok(s)
    else
      var t :- Bump(s, s.base);
      var t :- PopCondition(t);
      var tables :- EncodeTargets(t, |t.code| + 1, 2 * |depths| + 2, depths + [default], Tables([], [], 0));
      if |depths| + 1 >= B32 then Err(BranchTableTargetsOutOfBounds)
      else
        var code := [Op(O.BrTable(|depths| + 1))] + tables.slots + tables.trampolines;
        Ok(Emit(t, code).(maxHeight := Max(t.maxHeight, tables.peak), reachable := false))
  }

  // ----- whole bodies -----

  function Translate(s: Translation, code: seq<Instr>): Result<Translation>
    decreases code, 0
  {
    if code == [] then Ok(s)
    else
      var s :- TranslateInstr(s, code[0]);
      Translate(s, code[1..])
  }

  function TranslateInstr(s: Translation, i: Instr): Result<Translation>
    decreases i, 1
  {
    match i
    case Nop => Ok(s)
    case Unreachable => Ok(VisitUnreachable(s))
    case Return => VisitReturn(s)
    case Br(k) => VisitBr(s, k)
    case BrIf(k) => VisitBrIf(s, k)
    case BrTable(ks, d) => VisitBrTable(s, ks, d)
    case Block(bt, body) =>
      var s :- VisitBlock(s, bt);
      var s :- Translate(s, body);
      VisitEnd(s)
    case Loop(bt, body) =>
      var s :- VisitLoop(s, bt);
      var s :- Translate(s, body);
      VisitEnd(s)
    case If(bt, thn) =>
      var s :- VisitIf(s, bt);
      var s :- Translate(s, thn);
      VisitEnd(s)
    case IfElse(bt, thn, els) =>
      var s :- VisitIf(s, bt);
      var s :- Translate(s, thn);
      var s :- VisitElse(s);
      var s :- Translate(s, els);
      VisitEnd(s)
    case Drop => VisitSimple(s, i)
    case Select => VisitSimple(s, i)
    case Const(_) => VisitSimple(s, i)
    case LocalGet(_) => VisitSimple(s, i)
    case LocalSet(_) => VisitSimple(s, i)
    case LocalTee(_) => VisitSimple(s, i)
    case Num(_) => VisitSimple(s, i)
  }

  // ----- functions -----

  datatype Function = Function(
    signature: Word,
    params: seq<ValType>,
    results: seq<ValType>,
    locals: seq<(nat, ValType)>,
    body: seq<Instr>)

  /** Cost parameters; `params` and `locals` are charged on entry. */
  datatype Costs = Costs(metered: bool, base: Word, params: Word, locals: Word)

  function Repeat(t: ValType, n: nat): seq<ValType> { seq(n, _ => t) }

  /** Reserves zeroed locals group by group. */
  function TranslateLocals(s: Translation, locals: seq<(nat, ValType)>): Result<Translation>
    decreases |locals|
  {
    if locals == [] then Ok(s)
    else
      var (n, t) := locals[0];
      var words :- AsWord(n * Width(t));
      var s := Emit(s, [Op(O.BulkConst(words))]);
      TranslateLocals(Grow(s.(types := s.types + Repeat(t, n)), words), locals[1..])
  }

  function Start(c: Costs, f: Function, code: seq<SymOp>): Translation {
    var words := WordsOf(f.params);
    var s := Translation(c.metered, c.base, words, code, [O.None], [], f.params, 0, 0, true);
    var t := Emit(s, [Op(O.SignatureCheck(f.signature))]);
    PushFrame(NewCharge(t), BlockFrame(Func(f.params, f.results), 0, 0, NewSlot(t)))
  }

  function Prologue(c: Costs, f: Function, code: seq<SymOp>): Result<Translation> {
    var s :- Bump(Start(c, f, code), c.params);
    var s :- Bump(s, c.base);
    var s :- Bump(Emit(s, [ReserveStack]), c.locals);
    TranslateLocals(s, f.locals)
  }

  function TranslateFunction(c: Costs, f: Function, code: seq<SymOp>): Result<Translation> {
    var s :- Prologue(c, f, code);
    var s :- Translate(s, f.body);
    VisitEnd(s)
  }
}
