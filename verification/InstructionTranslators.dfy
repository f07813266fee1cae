/** The translator as the object it is: opcodes, labels, frames and heights change step by step, and
    every step agrees with the function on translation states. */
module InstructionTranslators {
  import opened Words
  import O = Opcodes
  import opened Source
  import opened Layout
  import opened T = Translator
  import DK = DropKeeps
  import L = Labels
  import B = Builders
  import Sequences
  import opened Pending

  class InstructionTranslator {
    const metered: bool
    const base: nat
    const paramWords: nat
    const instructionSet: B.InstructionSet
    const labels: L.LabelRegistry
    const stackHeight: B.ValueStackHeight
    const controlFrames: B.ControlFlowStack
    var stackTypes: seq<ValType>
    var reachable: bool
    var snippetCalls: seq<SnippetCall>
    ghost var code: seq<SymOp>

    ghost function Repr(): set<object> { {this, instructionSet, labels, stackHeight, controlFrames} }

    ghost predicate Valid()
      reads Repr()
    {
      && stackHeight.Valid()
      && Represents(instructionSet.instr, code, labels.labels, labels.users, snippetCalls)
    }

    /** The translation state without its code. */
    function View(): Translation
      reads Repr()
    {
      Translation(metered, base, paramWords, [], labels.labels, controlFrames.frames, stackTypes,
                  stackHeight.height, stackHeight.maxHeight, reachable)
    }

    ghost function Model(): Translation
      reads Repr()
    {
      View().(code := code)
    }

    /** A step ended as the function on states says: with the new state, or with its failure. */
    ghost predicate Outcome(r: O.Option<Failure>, spec: T.Result<Translation>)
      reads Repr()
    {
      match r
      case None => Valid() && spec == Ok(Model())
      case Some(e) => spec == Err(e)
    }

    /** Starts on the code of the functions before: its own jumps and stack checks are settled. */
    constructor (c: Costs, words: nat, alloc: B.InstructionSet, calls: seq<SnippetCall>, ghost earlier: seq<SymOp>)
      requires Represents(alloc.instr, earlier, [], [], calls)
      ensures Valid() && fresh(Repr() - {alloc}) && instructionSet == alloc
      ensures Model() == Translation(c.metered, c.base, words, earlier, [], [], [], 0, 0, true)
      ensures snippetCalls == calls && labels.users == []
    {
      metered, base, paramWords := c.metered, c.base, words;
      instructionSet := alloc;
      labels := new L.LabelRegistry();
      stackHeight := new B.ValueStackHeight();
      controlFrames := new B.ControlFlowStack();
      stackTypes, reachable, snippetCalls := [], true, calls;
      code := earlier;
    }

    // ----- emitting -----

    method PushAll(ops: seq<O.Opcode>)
      requires Valid()
      modifies this`code, instructionSet
      ensures Valid() && Model() == T.Emit(old(Model()), Ops(ops))
    {
      EmitsOps(instructionSet.instr, code, ops, labels.labels, labels.users, snippetCalls);
      hide Represents;
      instructionSet.PushAll(ops);
      code := code + Ops(ops);
    }

    method Push(op: O.Opcode)
      requires Valid()
      modifies this`code, instructionSet
      ensures Valid() && Model() == T.Emit(old(Model()), [Op(op)])
    {
      assert Ops([op]) == [Op(op)];
      EmitsOps(instructionSet.instr, code, [op], labels.labels, labels.users, snippetCalls);
      hide Represents;
      instructionSet.Push(op);
      code := code + [Op(op)];
    }

    method NewLabel() returns (l: nat)
      requires Valid()
      modifies labels
      ensures Valid() && Model() == T.NewLabel(old(Model())) && l == |old(labels.labels)|
    {
      ghost var before := labels.labels;
      l := labels.NewLabel();
      Relabels(instructionSet.instr, code, before, labels.users, snippetCalls, labels.labels);
    }

    method PinLabel(l: nat) returns (r: O.Option<Failure>)
      requires Valid()
      modifies labels
      ensures Outcome(r, T.Pin(old(Model()), l))
    {
      if l >= |labels.labels| {
        return O.Some(Panic);
      }
      ghost var before := labels.labels;
      var ok := labels.PinLabel(l, |instructionSet.instr|);
      if !ok {
        return O.Some(Panic);
      }
      Relabels(instructionSet.instr, code, before, labels.users, snippetCalls, labels.labels);
      r := O.None;
    }

    method TryPinLabel(l: nat) returns (r: O.Option<Failure>)
      requires Valid()
      modifies labels
      ensures Outcome(r, T.TryPin(old(Model()), l))
    {
      if l >= |labels.labels| {
        return O.Some(Panic);
      }
      ghost var before := labels.labels;
      labels.TryPinLabel(l, |instructionSet.instr|);
      Relabels(instructionSet.instr, code, before, labels.users, snippetCalls, labels.labels);
      r := O.None;
    }

    /** Emits a branch, resolving its label now or registering a user for it. */
    method PushJump(kind: O.JumpKind, l: nat) returns (r: O.Option<Failure>)
      requires Valid()
      modifies this`code, instructionSet, labels
      ensures Outcome(r, T.EmitJump(old(Model()), kind, l))
    {
      if l >= |labels.labels| {
        return O.Some(Panic);
      }
      ghost var instr, users := instructionSet.instr, labels.users;
      var offset := labels.TryResolveLabel(l, |instructionSet.instr|);
      if offset.None? {
        return O.Some(BranchOffsetOutOfBounds);
      }
      var op := O.Branch(kind, offset.value);
      EmitsJump(instr, code, op, kind, l, labels.labels, users, labels.users, snippetCalls);
      hide Represents;
      instructionSet.Push(op);
      code := code + [Jump(kind, l)];
      r := O.None;
    }

    method PushConsumeFuelEmpty() returns (at: nat)
      requires Valid()
      modifies this`code, instructionSet
      ensures Valid() && Model() == T.Emit(old(Model()), [Op(O.ConsumeFuel(0))]) && at == |old(code)|
    {
      at := |instructionSet.instr|;
      Push(O.ConsumeFuel(0));
    }

    method BumpFuelConsumption(delta: nat) returns (r: O.Option<Failure>)
      requires Valid()
      modifies this`code, instructionSet
      ensures Outcome(r, T.Bump(old(Model()), delta))
    {
      if controlFrames.frames == [] {
        return O.Some(Panic);
      }
      var slot := FuelSlot(controlFrames.frames[|controlFrames.frames| - 1]);
      if slot.None? || !metered {
        return O.None;
      }
      ghost var instr := instructionSet.instr;
      if slot.value < |code| {
        ConcreteAt(instr, code, slot.value, labels.labels, labels.users, snippetCalls);
      }
      r := instructionSet.BumpFuelConsumption(slot.value, delta);
      if r.None? {
        ghost var op := O.ConsumeFuel(instr[slot.value].fuel + delta);
        Replaces(instr, code, slot.value, op, labels.labels, labels.users, snippetCalls);
        code := code[slot.value := Op(op)];
      }
    }

    /** A fresh charge, which becomes the one of the innermost frame. */
    method Recharge() returns (r: O.Option<Failure>)
      requires Valid()
      modifies this`code, instructionSet, controlFrames
      ensures Outcome(r, T.Recharge(old(Model())))
    {
      if !metered {
        return O.None;
      }
      if controlFrames.frames == [] {
        return O.Some(Panic);
      }
      var at := PushConsumeFuelEmpty();
      var ok := controlFrames.UpdateConsumeFuelInstr(at);
      r := if ok then O.None else O.Some(Panic);
    }

    method PushDropKeep(dk: DK.DropKeep) returns (count: nat)
      requires Valid()
      modifies this`code, instructionSet, stackHeight
      ensures Valid() && Model() == T.EmitDropKeep(old(Model()), dk) && count == |DK.Lower(dk)|
    {
      ghost var instr := instructionSet.instr;
      count := B.TranslateDropKeep(dk, instructionSet, stackHeight);
      EmitsOps(instr, code, DK.Lower(dk), labels.labels, labels.users, snippetCalls);
      code := code + Ops(DK.Lower(dk));
    }

    // ----- the emulated stack -----

    method PushType(t: ValType)
      requires Valid()
      modifies this`stackTypes, stackHeight
      ensures Valid() && Model() == T.PushTypes(old(Model()), [t])
    {
      FlatWidth(t);
      if t == I64 || t == F64 {
        stackHeight.PushN(2);
      } else {
        stackHeight.PushN(1);
      }
      stackTypes := stackTypes + [t];
    }

    method PushTypes(ts: seq<ValType>)
      requires Valid()
      modifies this`stackTypes, stackHeight
      ensures Valid() && Model() == T.PushTypes(old(Model()), ts)
    {
      assert stackTypes + ts[..0] == stackTypes;
      for i := 0 to |ts|
        invariant Valid() && Model() == T.PushTypes(old(Model()), ts[..i])
      {
        PushType(ts[i]);
        assert ts[..i + 1] == ts[..i] + [ts[i]];
        WordsAppend(ts[..i], [ts[i]]);
        assert old(stackTypes) + ts[..i] + [ts[i]] == old(stackTypes) + ts[..i + 1];
      }
      assert ts[..|ts|] == ts;
    }

    /** Falls back to the height of a frame, popping the types above it. */
    method ShrinkTo(height: nat) returns (r: O.Option<Failure>)
      requires Valid()
      modifies this`stackTypes, stackHeight
      ensures Outcome(r, T.ShrinkTo(old(Model()), height))
    {
      if height > stackHeight.height {
        return O.Some(Panic);
      }
      var oldStackHeight := stackHeight.height;
      stackHeight.ShrinkTo(height);
      while oldStackHeight > height
        invariant stackHeight.height == height && stackHeight.maxHeight == old(stackHeight.maxHeight)
        invariant PopTypes(stackTypes, oldStackHeight, height)
                  == PopTypes(old(stackTypes), old(stackHeight.height), height)
        decreases |stackTypes|
      {
        var n := |stackTypes|;
        if n == 0 || Width(stackTypes[n - 1]) > oldStackHeight {
          return O.Some(Panic);
        }
        oldStackHeight := oldStackHeight - Width(stackTypes[n - 1]);
        stackTypes := stackTypes[..n - 1];
      }
      r := O.None;
    }

    // ----- operators without control flow -----

    /** What a simple operator does once its cost has been charged. */
    ghost predicate Follows(r: O.Option<Failure>, s: Translation, p: T.Result<Plan>)
      reads Repr()
    {
      Outcome(r, if p.Ok? then T.Result.Ok(Follow(s, p.value)) else T.Result.Err(p.failure))
    }

    /** The words of the topmost types. */
    method ExpressedDepth(n: nat) returns (words: nat)
      requires n <= |stackTypes|
      ensures words == WordsOf(stackTypes[|stackTypes| - n..])
    {
      words := 0;
      ghost var k := |stackTypes|;
      assert stackTypes[k..] == [];
      for i := 0 to n
        invariant words == WordsOf(stackTypes[|stackTypes| - i..])
      {
        var t := stackTypes[|stackTypes| - 1 - i];
        words := words + (if t == I64 || t == F64 then 2 else 1);
        FlatWidth(t);
        WordsAppend([t], stackTypes[|stackTypes| - i..]);
        assert stackTypes[|stackTypes| - (i + 1)..] == [t] + stackTypes[|stackTypes| - i..];
      }
    }

    /** The opcode once for each word of the value. */
    method PushTwice(op: O.Opcode, t: ValType)
      requires Valid()
      modifies this`code, instructionSet
      ensures Valid() && Model() == T.Emit(old(Model()), Twice(op, t))
    {
      hide Represents;
      Push(op);
      if t == I64 || t == F64 {
        Push(op);
        Paired(old(code), op);
      }
    }

    method PushLocalGet(k: nat) returns (r: O.Option<Failure>)
      requires Valid()
      modifies this`code, this`stackTypes, instructionSet, stackHeight
      ensures Follows(r, old(Model()), PlanGet(old(Model()), k))
    {
      hide Represents;
      hide WordsOf;
      if k >= |stackTypes| {
        return O.Some(Panic);
      }
      var value := stackTypes[k];
      var expressed := ExpressedDepth(|stackTypes| - k);
      if expressed >= B32 {
        return O.Some(TooLarge);
      }
      GetPlanned(old(Model()), k, expressed);
      hide T.PlanGet;
      hide Twice;
      PushTwice(O.LocalGet(expressed), value);
      stackHeight.PushN(Width(value));
      stackTypes := stackTypes + [value];
      r := O.None;
    }

    method PushLocalSet(k: nat) returns (r: O.Option<Failure>)
      requires Valid()
      modifies this`code, this`stackTypes, instructionSet, stackHeight
      ensures Follows(r, old(Model()), PlanSet(old(Model()), k))
    {
      hide Represents;
      hide WordsOf;
      hide T.PlanSet;
      hide Twice;
      ghost var s := Model();
      SetPlanned(s, k);
      var n := |stackTypes|;
      if n == 0 || stackHeight.height == 0 {
        return O.Some(Panic);
      }
      stackHeight.PopN(1);
      var value := stackTypes[n - 1];
      stackTypes := stackTypes[..n - 1];
      var wide := value == I64 || value == F64;
      if k > n - 1 || (wide && stackHeight.height == 0) {
        return O.Some(Panic);
      }
      var expressed := ExpressedDepth(n - 1 - k);
      if expressed >= B32 {
        return O.Some(TooLarge);
      }
      PushTwice(O.LocalSet(expressed), value);
      if wide {
        stackHeight.PopN(1);
      }
      r := O.None;
    }

    method PushLocalTee(k: nat) returns (r: O.Option<Failure>)
      requires Valid()
      modifies this`code, instructionSet, stackHeight
      ensures Follows(r, old(Model()), PlanTee(old(Model()), k))
    {
      hide Represents;
      hide WordsOf;
      var n := |stackTypes|;
      if n == 0 || k > n {
        return O.Some(Panic);
      }
      var expressed := ExpressedDepth(n - k);
      if expressed >= B32 {
        return O.Some(TooLarge);
      }
      var value := stackTypes[n - 1];
      if value == I64 || value == F64 {
        if expressed == 0 {
          return O.Some(Panic);
        }
        stackHeight.PushN(1);
        stackHeight.PopN(1);
        var ops := [O.LocalTee(expressed - 1), O.LocalGet(2), O.LocalSet(expressed)];
        PushAll(ops);
        assert Ops(ops) == [Op(ops[0]), Op(ops[1]), Op(ops[2])];
      } else {
        Push(O.LocalTee(expressed));
      }
      r := O.None;
    }

    method PushDropped() returns (r: O.Option<Failure>)
      requires Valid()
      modifies this`code, this`stackTypes, instructionSet, stackHeight
      ensures Follows(r, old(Model()), PlanDrop(old(Model())))
    {
      hide Represents;
      hide WordsOf;
      var n := |stackTypes|;
      if n == 0 || stackHeight.height < Width(stackTypes[n - 1]) {
        return O.Some(Panic);
      }
      var item := stackTypes[n - 1];
      stackHeight.PopN(Width(item));
      stackTypes := stackTypes[..n - 1];
      PushTwice(O.Drop, item);
      r := O.None;
    }

    method PushSelect() returns (r: O.Option<Failure>)
      requires Valid()
      modifies this`code, this`stackTypes, instructionSet, stackHeight
      ensures Follows(r, old(Model()), PlanSelect(old(Model())))
    {
      hide Represents;
      hide WordsOf;
      var n := |stackTypes|;
      if n < 2 || stackHeight.height < 3 {
        return O.Some(Panic);
      }
      stackHeight.PopN(3);
      stackHeight.PushN(1);
      var item := stackTypes[n - 2];
      stackTypes := stackTypes[..n - 2];
      if item == I64 || item == F64 {
        stackHeight.PopN(1);
        PushAll([O.Branch(O.IfEqz, 4), O.Drop, O.Drop, O.Branch(O.Always, 3), O.LocalSet(2), O.LocalSet(2)]);
      } else {
        Push(O.Select);
      }
      r := O.None;
    }

    method PushConst(v: Value)
      requires Valid()
      modifies this`code, this`stackTypes, instructionSet, stackHeight
      ensures Valid() && Model() == Follow(old(Model()), PlanConst(old(Model()), v))
    {
      if v.ty == I64 || v.ty == F64 {
        PushAll([O.I32Const(Lo(v.bits)), O.I32Const(Hi(v.bits))]);
      } else {
        Push(O.I32Const(v.bits));
      }
      stackHeight.PushN(Width(v.ty));
      stackTypes := stackTypes + [v.ty];
    }

    // ----- numeric operators -----

    /** `room` words above the operands are used while the operator replaces them by its result. */
    method AdjustHeight(words: nat, result: ValType, room: nat) returns (ok: bool)
      requires stackHeight.Valid()
      modifies stackHeight
      ensures stackHeight.Valid()
      ensures ok <==> words <= old(stackHeight.height) + room && words <= old(stackHeight.height) + Width(result)
      ensures ok ==> stackHeight.height == old(stackHeight.height) - words + Width(result)
      ensures ok ==>
              stackHeight.maxHeight
              == Max(old(stackHeight.maxHeight), Max(old(stackHeight.height) + room, stackHeight.height + room))
    {
      stackHeight.PushN(room);
      if stackHeight.height < words {
        return false;
      }
      stackHeight.PopN(words);
      stackHeight.PushN(Width(result));
      if stackHeight.height < room {
        return false;
      }
      stackHeight.PopN(room);
      ok := true;
    }

    /** The popped types make way for the result; no code is emitted yet. */
    method ReplaceOnStack(popped: seq<ValType>, result: ValType, room: nat) returns (ok: bool)
      requires Valid()
      modifies this`stackTypes, stackHeight
      ensures var p := Replace(old(Model()), [], popped, result, room);
              if ok then Valid() && p.Ok? && Model() == Follow(old(Model()), p.value) else p == T.Result.Err(Panic)
    {
      hide Represents;
      assert code + [] == code;
      var n, k := |stackTypes|, |popped|;
      if n < k || stackTypes[n - k..] != popped {
        return false;
      }
      ok := AdjustHeight(WordsOf(popped), result, room);
      hide WordsOf;
      if ok {
        stackTypes := stackTypes[..n - k] + [result];
      }
    }

    /** The common part of the helpers. */
    method ReplaceTypes(ops: seq<O.Opcode>, popped: seq<ValType>, result: ValType, room: nat)
      returns (r: O.Option<Failure>)
      requires Valid()
      modifies this`code, this`stackTypes, instructionSet, stackHeight
      ensures Follows(r, old(Model()), Replace(old(Model()), Ops(ops), popped, result, room))
    {
      hide Represents;
      ReplaceThenEmit(Model(), Ops(ops), popped, result, room);
      hide Replace;
      hide Follow;
      var ok := ReplaceOnStack(popped, result, room);
      if !ok {
        return O.Some(Panic);
      }
      PushAll(ops);
      r := O.None;
    }

    method TranslateUnary(op: NumOp) returns (r: O.Option<Failure>)
      requires Valid() && (op.I64Count? || (op.I32Unary? && !op.un.Eqz?))
      modifies this`code, this`stackTypes, instructionSet, stackHeight
      ensures Follows(r, old(Model()), PlanNum(old(Model()), op))
    {
      if stackTypes == [] {
        return O.Some(Panic);
      }
      var lhs := stackTypes[|stackTypes| - 1];
      r := ReplaceTypes(Sequences.NumCode(op), [lhs], lhs, Sequences.Headroom(op));
    }

    method TranslateUnaryCompare(op: NumOp) returns (r: O.Option<Failure>)
      requires Valid() && (op.I64Eqz? || (op.I32Unary? && op.un.Eqz?))
      modifies this`code, this`stackTypes, instructionSet, stackHeight
      ensures Follows(r, old(Model()), PlanNum(old(Model()), op))
    {
      if stackTypes == [] {
        return O.Some(Panic);
      }
      r := ReplaceTypes(Sequences.NumCode(op), [stackTypes[|stackTypes| - 1]], I32, Sequences.Headroom(op));
    }

    method TranslateBinary(op: NumOp) returns (r: O.Option<Failure>)
      requires Valid() && (op.I32Division? || op.I64Logic? || (op.I32Binary? && !op.bin.Rel?))
      modifies this`code, this`stackTypes, instructionSet, stackHeight
      ensures Follows(r, old(Model()), PlanNum(old(Model()), op))
    {
      if stackTypes == [] {
        return O.Some(Panic);
      }
      var lhs := stackTypes[|stackTypes| - 1];
      r := ReplaceTypes(Sequences.NumCode(op), [lhs, lhs], lhs, Sequences.Headroom(op));
    }

    method TranslateBinaryCompare(op: NumOp) returns (r: O.Option<Failure>)
      requires Valid() && op.I32Binary? && op.bin.Rel?
      modifies this`code, this`stackTypes, instructionSet, stackHeight
      ensures Follows(r, old(Model()), PlanNum(old(Model()), op))
    {
      if stackTypes == [] {
        return O.Some(Panic);
      }
      var lhs := stackTypes[|stackTypes| - 1];
      r := ReplaceTypes(Sequences.NumCode(op), [lhs, lhs], I32, Sequences.Headroom(op));
    }

    method TranslateConversion(op: NumOp) returns (r: O.Option<Failure>)
      requires Valid() && (op.ExtendS? || op.ExtendU?)
      modifies this`code, this`stackTypes, instructionSet, stackHeight
      ensures Follows(r, old(Model()), PlanNum(old(Model()), op))
    {
      r := ReplaceTypes(Sequences.NumCode(op), [I32], I64, Sequences.Headroom(op));
    }

    method TranslateWrap() returns (r: O.Option<Failure>)
      requires Valid()
      modifies this`code, this`stackTypes, instructionSet, stackHeight
      ensures Follows(r, old(Model()), PlanWrap(old(Model())))
    {
      hide Represents;
      var n := |stackTypes|;
      if n == 0 || stackTypes[n - 1] != I64 || stackHeight.height == 0 {
        return O.Some(Panic);
      }
      stackTypes := stackTypes[..n - 1] + [I32];
      Push(O.Drop);
      stackHeight.PopN(1);
      r := O.None;
    }

    /** The callee is not known yet: the call is recorded and filled in when the snippet is emitted. */
    method PushSnippetCall(sn: Snippet)
      requires Valid()
      modifies this`code, this`snippetCalls, instructionSet
      ensures Valid() && Model() == T.Emit(old(Model()), [CallSnippet(sn)])
    {
      EmitsCall(instructionSet.instr, code, sn, labels.labels, labels.users, snippetCalls);
      hide Represents;
      var loc := |instructionSet.instr|;
      instructionSet.Push(O.CallInternal(UNRESOLVED));
      snippetCalls := snippetCalls + [SnippetCall(loc, sn)];
      code := code + [CallSnippet(sn)];
    }

    method TranslateToSnippetCall(op: NumOp) returns (r: O.Option<Failure>)
      requires Valid() && op.I64Snippet?
      modifies this`code, this`stackTypes, this`snippetCalls, instructionSet, stackHeight
      ensures Follows(r, old(Model()), PlanNum(old(Model()), op))
    {
      hide Represents;
      ReplaceThenEmit(Model(), [CallSnippet(op.snippet)], [I64, I64], NumResult(op), 0);
      hide Replace;
      hide Follow;
      var ok := ReplaceOnStack([I64, I64], NumResult(op), 0);
      if !ok {
        return O.Some(Panic);
      }
      PushSnippetCall(op.snippet);
      r := O.None;
    }

    method TranslateNum(op: NumOp) returns (r: O.Option<Failure>)
      requires Valid()
      modifies this`code, this`stackTypes, this`snippetCalls, instructionSet, stackHeight
      ensures Follows(r, old(Model()), PlanFor(old(Model()), Instr.Num(op)))
    {
      hide PlanNum;
      hide PlanWrap;
      hide Represents;
      match op
      case I32Unary(u) =>
        if u.Eqz? {
          r := TranslateUnaryCompare(op);
        } else {
          r := TranslateUnary(op);
        }
      case I32Binary(b) =>
        if b.Rel? {
          r := TranslateBinaryCompare(op);
        } else {
          r := TranslateBinary(op);
        }
      case I32Division(_) => r := TranslateBinary(op);
      case I64Eqz => r := TranslateUnaryCompare(op);
      case I64Count(_) => r := TranslateUnary(op);
      case I64Logic(_) => r := TranslateBinary(op);
      case I64Snippet(_) => r := TranslateToSnippetCall(op);
      case WrapI64 => r := TranslateWrap();
      case ExtendS => r := TranslateConversion(op);
      case ExtendU => r := TranslateConversion(op);
    }

    /** Operators without control flow: skipped in unreachable code, charged otherwise. */
    method VisitSimple(i: Instr) returns (r: O.Option<Failure>)
      requires Valid() && Simple(i)
      modifies this`code, this`stackTypes, this`snippetCalls, instructionSet, stackHeight
      ensures Outcome(r, T.VisitSimple(old(Model()), i))
    {
      hide Represents;
      hide T.Bump;
      hide PlanGet;
      hide PlanSet;
      hide PlanTee;
      hide PlanDrop;
      hide PlanSelect;
      hide PlanConst;
      hide PlanNum;
      hide PlanWrap;
      hide Follow;
      if !reachable {
        return O.None;
      }
      r := BumpFuelConsumption(Cost(base, i));
      if r.Some? {
        return;
      }
      match i
      case Drop => r := PushDropped();
      case Select => r := PushSelect();
      case Const(v) => PushConst(v);
      case LocalGet(k) => r := PushLocalGet(k);
      case LocalSet(k) => r := PushLocalSet(k);
      case LocalTee(k) => r := PushLocalTee(k);
      case Num(op) => r := TranslateNum(op);
    }

    // ----- control flow -----

    method VisitUnreachable()
      requires Valid()
      modifies this`code, this`reachable, instructionSet
      ensures Valid() && Model() == T.VisitUnreachable(old(Model()))
    {
      if reachable {
        Push(O.Unreachable);
        reachable := false;
      }
    }

    method VisitReturn() returns (r: O.Option<Failure>)
      requires Valid()
      modifies this`code, this`reachable, instructionSet, stackHeight
      ensures Outcome(r, T.VisitReturn(old(Model())))
    {
      hide Represents;
      if !reachable {
        return O.None;
      }
      var dropKeep := DropKeepReturn(View());
      ReturnIgnoresCode(Model());
      hide DropKeepReturn;
      if dropKeep.Err? {
        return O.Some(dropKeep.failure);
      }
      var _ := PushDropKeep(dropKeep.value);
      Push(O.Return);
      reachable := false;
      r := O.None;
    }

    method VisitBlock(bt: BlockType) returns (r: O.Option<Failure>)
      requires Valid()
      modifies labels, controlFrames
      ensures Outcome(r, T.VisitBlock(old(Model()), bt))
    {
      hide Represents;
      hide WordsOf;
      if !reachable {
        controlFrames.PushFrame(DeadFrame(BlockKind, bt));
        return O.None;
      }
      var n := WordsOf(Params(bt));
      if controlFrames.frames == [] || n > stackHeight.height {
        return O.Some(Panic);
      }
      var fuel := FuelSlot(controlFrames.frames[|controlFrames.frames| - 1]);
      var end := NewLabel();
      controlFrames.PushFrame(BlockFrame(bt, end, stackHeight.height - n, fuel));
      r := O.None;
    }

    method VisitLoop(bt: BlockType) returns (r: O.Option<Failure>)
      requires Valid()
      modifies this`code, instructionSet, labels, controlFrames
      ensures Outcome(r, T.VisitLoop(old(Model()), bt))
    {
      hide Represents;
      hide WordsOf;
      if !reachable {
        controlFrames.PushFrame(DeadFrame(LoopKind, bt));
        return O.None;
      }
      var n := WordsOf(Params(bt));
      if n > stackHeight.height {
        return O.Some(Panic);
      }
      var header := NewLabel();
      r := PinLabel(header);
      if r.Some? {
        return;
      }
      var fuel := ChargeSlot();
      controlFrames.PushFrame(LoopFrame(bt, header, stackHeight.height - n, fuel));
    }

    /** A fresh charge for a frame, if metering is on. */
    method ChargeSlot() returns (slot: O.Option<nat>)
      requires Valid()
      modifies this`code, instructionSet
      ensures Valid() && Model() == NewCharge(old(Model())) && slot == NewSlot(old(Model()))
    {
      if metered {
        var at := PushConsumeFuelEmpty();
        slot := O.Some(at);
      } else {
        slot := O.None;
      }
    }

    /** The cost of an `if` goes to the charge before it. */
    method PushIf(els: nat) returns (r: O.Option<Failure>)
      requires Valid()
      modifies this`code, instructionSet, labels
      ensures Outcome(r, ChargedJump(old(Model()), els))
    {
      hide Represents;
      hide T.Bump;
      hide T.EmitJump;
      r := BumpFuelConsumption(base);
      if r.None? {
        r := PushJump(O.IfEqz, els);
      }
    }

    /** Allocates the labels, then branches away when the condition is zero. */
    method OpenIf(bt: BlockType) returns (r: O.Option<Failure>)
      requires Valid()
      modifies this`code, instructionSet, labels, controlFrames
      ensures Outcome(r, IfSteps(old(Model()), bt))
    {
      hide Represents;
      hide WordsOf;
      hide ChargedJump;
      var n := WordsOf(Params(bt));
      if n > stackHeight.height {
        return O.Some(Panic);
      }
      var els := NewLabel();
      var end := NewLabel();
      r := PushIf(els);
      if r.Some? {
        return;
      }
      var fuel := ChargeSlot();
      controlFrames.PushFrame(IfFrame(bt, end, els, stackHeight.height - n, fuel, O.None));
    }

    method VisitIf(bt: BlockType) returns (r: O.Option<Failure>)
      requires Valid()
      modifies this`code, this`stackTypes, instructionSet, labels, stackHeight, controlFrames
      ensures Outcome(r, T.VisitIf(old(Model()), bt))
    {
      hide Represents;
      hide T.Bump;
      hide T.EmitJump;
      hide FrameHeight;
      hide IfSteps;
      if !reachable {
        controlFrames.PushFrame(DeadFrame(IfKind, bt));
        return O.None;
      }
      if stackHeight.height < 1 {
        return O.Some(Panic);
      }
      IfInParts(Model(), bt);
      hide T.VisitIf;
      stackHeight.PopN(1);
      stackTypes := if stackTypes == [] then [] else stackTypes[..|stackTypes| - 1];
      r := OpenIf(bt);
    }

    method VisitElse() returns (r: O.Option<Failure>)
      requires Valid()
      modifies this`code, this`stackTypes, this`reachable, instructionSet, labels, stackHeight, controlFrames
      ensures Outcome(r, T.VisitElse(old(Model())))
    {
      hide Represents;
      hide WordsOf;
      if controlFrames.frames == [] {
        return O.Some(Panic);
      }
      var f := controlFrames.PopFrame();
      if f.DeadFrame? && f.kind == IfKind {
        controlFrames.PushFrame(f);
        assert controlFrames.frames == old(controlFrames.frames);
        return O.None;
      }
      if !f.IfFrame? || f.thenReachable.Some? {
        return O.Some(Panic);
      }
      ElseInParts(old(Model()));
      hide T.VisitElse;
      r := SwitchBranch(f);
    }

    /** From the end of the first branch to the start of the second. */
    method SwitchBranch(f: Frame) returns (r: O.Option<Failure>)
      requires Valid() && f.IfFrame?
      modifies this`code, this`stackTypes, this`reachable, instructionSet, labels, stackHeight, controlFrames
      ensures Outcome(r, ElseSteps(old(Model()), f))
    {
      hide Represents;
      hide WordsOf;
      hide T.EmitJump;
      hide T.Pin;
      hide T.ShrinkTo;
      var thenReachable := reachable;
      if reachable {
        r := PushJump(O.Always, f.end);
        if r.Some? {
          return;
        }
      }
      r := PinLabel(f.els);
      if r.Some? {
        return;
      }
      var slot := ChargeSlot();
      r := ShrinkTo(f.height);
      if r.Some? {
        return;
      }
      PushTypes(Params(f.bt));
      if metered && f.fuel.None? {
        return O.Some(Panic);
      }
      controlFrames.PushFrame(f.(thenReachable := O.Some(thenReachable), fuel := if metered then slot else f.fuel));
      reachable := true;
    }

    /** Labels that end here: an `if` without `else` also ends its first branch. */
    method PinEnd(f: Frame) returns (r: O.Option<Failure>)
      requires Valid()
      modifies labels
      ensures Outcome(r, T.PinEnd(old(Model()), f))
    {
      r := O.None;
      if f.IfFrame? {
        r := TryPinLabel(f.els);
        if r.Some? {
          return;
        }
      }
      if !f.DeadFrame? && !f.LoopFrame? {
        r := PinLabel(f.end);
      }
    }

    /** Gives up the frame: its results replace what is above its height. */
    method CloseFrame(f: Frame) returns (r: O.Option<Failure>)
      requires Valid() && controlFrames.frames != []
      modifies this`code, this`stackTypes, instructionSet, stackHeight, controlFrames
      ensures Outcome(r, EndSteps(old(Model()), f))
    {
      hide Represents;
      hide WordsOf;
      hide T.ShrinkTo;
      hide T.Recharge;
      if !f.DeadFrame? {
        r := ShrinkTo(f.height);
        if r.Some? {
          return;
        }
      }
      var _ := controlFrames.PopFrame();
      PushTypes(Results(f.bt));
      if controlFrames.frames == [] {
        return O.None;
      }
      r := Recharge();
    }

    method VisitEnd() returns (r: O.Option<Failure>)
      requires Valid()
      modifies Repr()
      ensures Outcome(r, T.VisitEnd(old(Model())))
    {
      hide Represents;
      hide T.PinEnd;
      hide T.VisitReturn;
      hide T.ShrinkTo;
      hide T.Recharge;
      EndInParts(Model());
      hide T.VisitEnd;
      hide EndSteps;
      if controlFrames.frames == [] {
        return O.Some(Panic);
      }
      var f := controlFrames.frames[|controlFrames.frames| - 1];
      r := PinEnd(f);
      if r.Some? {
        return;
      }
      if |controlFrames.frames| == 1 {
        r := VisitReturn();
        if r.Some? {
          return;
        }
      } else {
        reachable := !f.DeadFrame?;
      }
      r := CloseFrame(f);
    }

    method VisitBr(depth: nat) returns (r: O.Option<Failure>)
      requires Valid()
      modifies this`code, this`reachable, instructionSet, labels, stackHeight
      ensures Outcome(r, T.VisitBr(old(Model()), depth))
    {
      hide Represents;
      hide T.Bump;
      hide T.EmitJump;
      hide T.VisitReturn;
      if !reachable {
        return O.None;
      }
      var target := Acquire(View(), depth);
      AcquireIgnoresCode(Model(), depth);
      hide Acquire;
      if target.Err? {
        return O.Some(target.failure);
      }
      r := BumpFuelConsumption(base);
      if r.Some? {
        return;
      }
      if target.value.lab.None? {
        r := VisitReturn();
      } else {
        var _ := PushDropKeep(target.value.dropKeep);
        r := PushJump(O.Always, target.value.lab.value);
      }
      if r.None? {
        reachable := false;
      }
    }

    /** A conditional branch with moves: the skip over them is filled in once they have been counted. */
    method PushSkippedMoves(dk: DK.DropKeep) returns (r: O.Option<Failure>)
      requires Valid()
      modifies this`code, instructionSet, stackHeight
      ensures var k := AsOffset(|DK.Lower(dk)| + 2);
              if k.Err? then r == O.Some(k.failure)
              else r.None? && Valid() && Model() == EmitDropKeep(T.Emit(old(Model()), [Op(O.Branch(O.IfEqz, k.value))]),
                                                                 dk)
    {
      hide DK.Lower;
      ghost var s := Model();
      Push(O.Branch(O.IfEqz, 0));
      var count := PushDropKeep(dk);
      if !FitsOffset(count + 2) {
        return O.Some(TooLarge);
      }
      ghost var at, instr := |s.code|, instructionSet.instr;
      ConcreteAt(instr, code, at, labels.labels, labels.users, snippetCalls);
      assert at == |instr| - 1 - count;
      instructionSet.UpdateLastNth(count, count + 2);
      ghost var op := O.Branch(O.IfEqz, count + 2);
      Replaces(instr, code, at, op, labels.labels, labels.users, snippetCalls);
      hide Represents;
      code := code[at := Op(op)];
      Patched(s.code, O.Branch(O.IfEqz, 0), op, Ops(DK.Lower(dk)));
      r := O.None;
    }

    method PushBrIf(target: Target) returns (r: O.Option<Failure>)
      requires Valid()
      modifies this`code, instructionSet, labels, stackHeight
      ensures Outcome(r, EmitBrIf(old(Model()), target))
    {
      hide Represents;
      hide T.EmitJump;
      hide DK.Lower;
      if target.lab.Some? && target.dropKeep.drop == 0 {
        r := PushJump(O.IfNez, target.lab.value);
      } else {
        r := PushSkippedMoves(target.dropKeep);
        if r.Some? {
          return;
        }
        if target.lab.None? {
          Push(O.Return);
        } else {
          r := PushJump(O.Always, target.lab.value);
        }
      }
    }

    method TakeCondition() returns (r: O.Option<Failure>)
      requires Valid()
      modifies this`stackTypes, stackHeight
      ensures Outcome(r, PopCondition(old(Model())))
    {
      if stackHeight.height == 0 || stackTypes == [] {
        return O.Some(Panic);
      }
      stackHeight.PopN(1);
      stackTypes := stackTypes[..|stackTypes| - 1];
      r := O.None;
    }

    method VisitBrIf(depth: nat) returns (r: O.Option<Failure>)
      requires Valid()
      modifies Repr()
      ensures Outcome(r, T.VisitBrIf(old(Model()), depth))
    {
      hide Represents;
      hide T.Bump;
      hide EmitBrIf;
      hide T.Recharge;
      hide PopCondition;
      if !reachable {
        return O.None;
      }
      r := TakeCondition();
      if r.Some? {
        return;
      }
      var target := Acquire(View(), depth);
      AcquireIgnoresCode(Model(), depth);
      hide Acquire;
      if target.Err? {
        return O.Some(target.failure);
      }
      r := BumpFuelConsumption(base);
      if r.Some? {
        return;
      }
      r := PushBrIf(target.value);
      if r.Some? {
        return;
      }
      r := Recharge();
    }

    // ----- branch tables -----

    /** The table built so far, apart from the code, with its label users already registered. */
    ghost predicate Staging(s: Translation, size: nat, slots: B.InstructionSet, trampolines: B.InstructionSet,
                            acc: Tables)
      reads Repr(), slots, trampolines
    {
      && slots !in Repr() && trampolines !in Repr() && slots != trampolines
      && stackHeight.Valid()
      && Model() == s.(maxHeight := Max(s.maxHeight, acc.peak))
      && Segment(instructionSet.instr, s.code, 0, labels.labels, labels.users, snippetCalls)
      && Segment(slots.instr, acc.slots, |s.code| + 1, labels.labels, labels.users, snippetCalls)
      && Segment(trampolines.instr, acc.trampolines, |s.code| + 1 + size, labels.labels, labels.users, snippetCalls)
      && Staged(s.code, acc.slots, acc.trampolines, size, labels.users)
      && CallsFine(s.code, snippetCalls)
      && |acc.slots| <= size
    }

    /** Pushes a table jump that will end up at `pos`. */
    method PushTableJump(l: nat, pos: nat, to: B.InstructionSet) returns (r: O.Option<Failure>, offset: O.I32)
      requires to !in Repr()
      modifies labels, to
      ensures labels.labels == old(labels.labels)
      ensures r.Some? ==> CheckJump(View(), l, pos) == T.Result.Err(r.value)
      ensures r.None? ==>
                && CheckJump(View(), l, pos) == T.Result.Ok(l) && l < |labels.labels|
                && to.instr == old(to.instr) + [O.Branch(O.Always, offset)]
                && labels.users == old(labels.users) + UserFor(labels.labels, l, pos)
                && (labels.labels[l].Some? ==> offset == labels.labels[l].value - pos)
    {
      offset := 0;
      if l >= |labels.labels| {
        return O.Some(Panic), 0;
      }
      var resolved := labels.TryResolveLabel(l, pos);
      if resolved.None? {
        return O.Some(BranchOffsetOutOfBounds), 0;
      }
      offset := resolved.value;
      to.Push(O.Branch(O.Always, offset));
      r := O.None;
    }

    /** A target without moves gets its jump right in the table. */
    method EncodeDirect(target: Target, size: nat, slots: B.InstructionSet, trampolines: B.InstructionSet,
                        ghost s: Translation, ghost acc: Tables)
      returns (r: O.Option<Failure>, ghost next: Tables)
      requires Staging(s, size, slots, trampolines, acc) && |acc.slots| + 2 <= size && target.dropKeep.drop == 0
      modifies labels, slots
      ensures r.None? ==>
              T.EncodeTarget(s, |s.code| + 1, size, target, acc) == T.Result.Ok(next)
              && Staging(s, size, slots, trampolines, next)
      ensures r.None? ==> |next.slots| == |acc.slots| + 2
      ensures r.Some? ==> T.EncodeTarget(s, |s.code| + 1, size, target, acc) == T.Result.Err(r.value)
    {
      hide Segment;
      hide CallsFine;
      hide Staged;
      next := acc;
      ghost var ops, users := slots.instr, labels.users;
      ghost var at := |s.code| + 1;
      SegmentSize(instructionSet.instr, s.code, 0, labels.labels, users, snippetCalls);
      SegmentSize(ops, acc.slots, at, labels.labels, users, snippetCalls);
      if target.lab.None? {
        slots.PushAll([O.Return, O.Return]);
        OpsJoin(ops, acc.slots, at, [O.Return, O.Return], labels.labels, users, snippetCalls);
        next := Tables(acc.slots + Ops([O.Return, O.Return]), acc.trampolines, Max(acc.peak, s.height));
        assert Ops([O.Return, O.Return]) == [Op(O.Return), Op(O.Return)];
        StagedLater(s.code, acc.slots, acc.trampolines, size, users, Ops([O.Return, O.Return]), [], []);
        assert users + [] == users && acc.trampolines + [] == acc.trampolines;
        r := O.None;
      } else {
        var l := target.lab.value;
        var offset;
        r, offset := PushTableJump(l, |instructionSet.instr| + 1 + |slots.instr|, slots);
        if r.Some? {
          return;
        }
        slots.Push(O.Return);
        ghost var more := [Jump(O.Always, l), Op(O.Return)];
        JumpThenReturn(ops, acc.slots, at, offset, l, labels.labels, users, snippetCalls);
        next := Tables(acc.slots + more, acc.trampolines, Max(acc.peak, s.height));
        LaterBoth(instructionSet.instr, s.code, trampolines.instr, acc.trampolines, at + size, labels.labels, users,
                  labels.users, snippetCalls);
        StagedLater(s.code, acc.slots, acc.trampolines, size, users, more, [], UserFor(labels.labels, l, at + |ops|));
        assert acc.trampolines + [] == acc.trampolines;
      }
    }

    /** A target with moves: its slot jumps over the table to a trampoline. */
    method EncodeTrampoline(target: Target, size: nat, slots: B.InstructionSet, trampolines: B.InstructionSet,
                            ghost s: Translation, ghost acc: Tables)
      returns (r: O.Option<Failure>, ghost next: Tables)
      requires Staging(s, size, slots, trampolines, acc) && |acc.slots| + 2 <= size && target.dropKeep.drop != 0
      modifies labels, stackHeight, slots, trampolines
      ensures r.None? ==>
              T.EncodeTarget(s, |s.code| + 1, size, target, acc) == T.Result.Ok(next)
              && Staging(s, size, slots, trampolines, next)
      ensures r.None? ==> |next.slots| == |acc.slots| + 2
      ensures r.Some? ==> T.EncodeTarget(s, |s.code| + 1, size, target, acc) == T.Result.Err(r.value)
    {
      hide Segment;
      hide CallsFine;
      hide Staged;
      hide DK.Lower;
      next := acc;
      var dk := target.dropKeep;
      ghost var moves, users := DK.Lower(dk), labels.users;
      ghost var at: nat := |s.code| + 1;
      SegmentSize(instructionSet.instr, s.code, 0, labels.labels, users, snippetCalls);
      SegmentSize(slots.instr, acc.slots, at, labels.labels, users, snippetCalls);
      SegmentSize(trampolines.instr, acc.trampolines, at + size, labels.labels, users, snippetCalls);
      var over := size - |slots.instr| + |trampolines.instr|;
      if !FitsOffset(over) {
        return O.Some(TooLarge), next;
      }
      ghost var slot, before := [O.Branch(O.Always, over), O.Return], trampolines.instr;
      OpsJoin(slots.instr, acc.slots, at, slot, labels.labels, users, snippetCalls);
      assert Ops(slot) == [Op(slot[0]), Op(slot[1])];
      slots.PushAll([O.Branch(O.Always, over), O.Return]);
      var count := B.TranslateDropKeep(dk, trampolines, stackHeight);
      ghost var peak := Max(acc.peak, s.height + DK.Headroom(dk));
      ghost var moved := acc.trampolines + Ops(moves);
      OpsJoin(before, acc.trampolines, at + size, moves, labels.labels, users, snippetCalls);
      if target.lab.None? {
        OpsJoin(trampolines.instr, moved, at + size, [O.Return], labels.labels, users, snippetCalls);
        trampolines.Push(O.Return);
        assert Ops([O.Return]) == [Op(O.Return)];
        next := Tables(acc.slots + Ops(slot), moved + [Op(O.Return)], peak);
        StagedLater(s.code, acc.slots, acc.trampolines, size, users, Ops(slot), Ops(moves) + [Op(O.Return)], []);
        assert users + [] == users && moved + [Op(O.Return)] == acc.trampolines + (Ops(moves) + [Op(O.Return)]);
        r := O.None;
      } else {
        var l := target.lab.value;
        ghost var ops := trampolines.instr;
        var offset;
        r, offset := PushTableJump(l, |instructionSet.instr| + 1 + size + |trampolines.instr|, trampolines);
        if r.Some? {
          return;
        }
        ghost var jump := [Jump(O.Always, l)];
        JumpJoins(ops, moved, at + size, O.Branch(O.Always, offset), O.Always, l, labels.labels, users, snippetCalls);
        next := Tables(acc.slots + Ops(slot), moved + jump, peak);
        LaterBoth(instructionSet.instr, s.code, slots.instr, next.slots, at, labels.labels, users, labels.users,
                  snippetCalls);
        TrampolineUser(s.code, acc, size, users, Ops(slot), Ops(moves), labels.labels, l);
      }
    }

    method EncodeTarget(target: Target, size: nat, slots: B.InstructionSet, trampolines: B.InstructionSet,
                        ghost s: Translation, ghost acc: Tables)
      returns (r: O.Option<Failure>, ghost next: Tables)
      requires Staging(s, size, slots, trampolines, acc) && |acc.slots| + 2 <= size
      modifies labels, stackHeight, slots, trampolines
      ensures r.None? ==>
              T.EncodeTarget(s, |s.code| + 1, size, target, acc) == T.Result.Ok(next)
              && Staging(s, size, slots, trampolines, next)
      ensures r.None? ==> |next.slots| == |acc.slots| + 2
      ensures r.Some? ==> T.EncodeTarget(s, |s.code| + 1, size, target, acc) == T.Result.Err(r.value)
    {
      hide T.EncodeTarget;
      hide Staging;
      if target.dropKeep.drop == 0 {
        r, next := EncodeDirect(target, size, slots, trampolines, s, acc);
      } else {
        r, next := EncodeTrampoline(target, size, slots, trampolines, s, acc);
      }
    }

    method EncodeTargets(depths: seq<nat>, slots: B.InstructionSet, trampolines: B.InstructionSet, ghost s: Translation)
      returns (r: O.Option<Failure>, ghost acc: Tables)
      requires Staging(s, 2 * |depths|, slots, trampolines, Tables([], [], 0))
      modifies labels, stackHeight, slots, trampolines
      ensures r.None? ==> T.EncodeTargets(s, |s.code| + 1, 2 * |depths|, depths, Tables([], [], 0)) == T.Result.Ok(acc)
      ensures r.None? ==> Staging(s, 2 * |depths|, slots, trampolines, acc) && |acc.slots| == 2 * |depths|
      ensures r.Some? ==>
              T.EncodeTargets(s, |s.code| + 1, 2 * |depths|, depths, Tables([], [], 0))
              == T.Result.Err(r.value)
    {
      hide T.EncodeTarget;
      acc := Tables([], [], 0);
      ghost var all := T.EncodeTargets(s, |s.code| + 1, 2 * |depths|, depths, acc);
      for i := 0 to |depths|
        invariant Staging(s, 2 * |depths|, slots, trampolines, acc) && |acc.slots| == 2 * i
        invariant T.EncodeTargets(s, |s.code| + 1, 2 * |depths|, depths[i..], acc) == all
      {
        assert depths[i..][0] == depths[i] && depths[i..][1..] == depths[i + 1..];
        AcquireInTable(s, Model(), depths[i]);
        var target := Acquire(View(), depths[i]);
        hide Acquire;
        hide Staging;
        if target.Err? {
          return O.Some(target.failure), acc;
        }
        r, acc := EncodeTarget(target.value, 2 * |depths|, slots, trampolines, s, acc);
        if r.Some? {
          return;
        }
      }
      r := O.None;
    }

    method PushTable(count: Word, slots: B.InstructionSet, trampolines: B.InstructionSet, ghost s: Translation,
                     ghost tables: Tables)
      requires Staging(s, |tables.slots|, slots, trampolines, tables)
      modifies this`code, this`reachable, instructionSet
      ensures Valid()
      ensures Model() == T.Emit(s, [Op(O.BrTable(count))] + tables.slots + tables.trampolines).(
                           maxHeight := Max(s.maxHeight, tables.peak), reachable := false)
    {
      TableJoins(instructionSet.instr, s.code, O.BrTable(count), slots.instr, tables.slots, trampolines.instr,
                 tables.trampolines,
                 labels.labels, labels.users, snippetCalls);
      hide Represents;
      instructionSet.Push(O.BrTable(count));
      instructionSet.PushAll(slots.instr);
      instructionSet.PushAll(trampolines.instr);
      code := s.code + [Op(O.BrTable(count))] + tables.slots + tables.trampolines;
      assert code == s.code + ([Op(O.BrTable(count))] + tables.slots + tables.trampolines);
      reachable := false;
    }

    method EmptyTable(ghost size: nat) returns (slots: B.InstructionSet, trampolines: B.InstructionSet)
      requires Valid()
      ensures fresh(slots) && fresh(trampolines) && Staging(Model(), size, slots, trampolines, Tables([], [], 0))
    {
      slots := new B.InstructionSet();
      trampolines := new B.InstructionSet();
      NothingStaged(instructionSet.instr, code, size, labels.labels, labels.users, snippetCalls);
    }

    /** Builds the table and appends it; the selector has been popped. */
    method PushBrTable(depths: seq<nat>, default: nat) returns (r: O.Option<Failure>)
      requires Valid()
      modifies Repr()
      ensures Outcome(r, TableSteps(old(Model()), depths, default))
    {
      hide T.EncodeTargets;
      hide Model;
      hide Valid;
      ghost var s := Model();
      var all := depths + [default];
      var slots, trampolines := EmptyTable(2 * |all|);
      assert 2 * |all| == 2 * |depths| + 2;
      hide Staging;
      hide Represents;
      ghost var tables;
      r, tables := EncodeTargets(all, slots, trampolines, s);
      if r.Some? {
        return;
      }
      if |depths| + 1 >= B32 {
        return O.Some(BranchTableTargetsOutOfBounds);
      }
      PushTable(|depths| + 1, slots, trampolines, s, tables);
    }

    method VisitBrTable(depths: seq<nat>, default: nat) returns (r: O.Option<Failure>)
      requires Valid()
      modifies Repr()
      ensures Outcome(r, T.VisitBrTable(old(Model()), depths, default))
    {
      TableInParts(Model(), depths, default);
      hide T.VisitBrTable;
      hide T.Bump;
      hide PopCondition;
      hide TableSteps;
      hide Represents;
      if !reachable {
        return O.None;
      }
      r := BumpFuelConsumption(base);
      if r.Some? {
        return;
      }
      r := TakeCondition();
      if r.Some? {
        return;
      }
      r := PushBrTable(depths, default);
    }

    // ----- whole bodies -----

    /** Visits a body operator by operator. */
    method TranslateBody(body: seq<Instr>) returns (r: O.Option<Failure>)
      requires Valid()
      modifies Repr()
      ensures Outcome(r, T.Translate(old(Model()), body))
      decreases body, 0
    {
      hide Represents;
      hide T.TranslateInstr;
      hide Model;
      if body == [] {
        return O.None;
      }
      r := TranslateInstr(body[0]);
      if r.None? {
        r := TranslateBody(body[1..]);
      }
    }

    method TranslateInstr(i: Instr) returns (r: O.Option<Failure>)
      requires Valid()
      modifies Repr()
      ensures Outcome(r, T.TranslateInstr(old(Model()), i))
      decreases i, 1
    {
      hide Represents;
      hide Model;
      hide T.VisitSimple;
      hide T.VisitReturn;
      hide T.VisitUnreachable;
      hide T.VisitBr;
      hide T.VisitBrIf;
      hide T.VisitBrTable;
      hide T.VisitBlock;
      hide T.VisitLoop;
      hide T.VisitIf;
      hide T.VisitElse;
      hide T.VisitEnd;
      hide T.Translate;
      match i
      case Nop => r := O.None;
      case Unreachable =>
        VisitUnreachable();
        r := O.None;
      case Return => r := VisitReturn();
      case Br(k) => r := VisitBr(k);
      case BrIf(k) => r := VisitBrIf(k);
      case BrTable(ks, d) => r := VisitBrTable(ks, d);
      case Block(bt, body) =>
        r := VisitBlock(bt);
        if r.None? {
          r := TranslateBody(body);
        }
        if r.None? {
          r := VisitEnd();
        }
      case Loop(bt, body) =>
        r := VisitLoop(bt);
        if r.None? {
          r := TranslateBody(body);
        }
        if r.None? {
          r := VisitEnd();
        }
      case If(bt, thn) =>
        r := VisitIf(bt);
        if r.None? {
          r := TranslateBody(thn);
        }
        if r.None? {
          r := VisitEnd();
        }
      case IfElse(bt, thn, els) =>
        r := VisitIf(bt);
        if r.None? {
          r := TranslateBody(thn);
        }
        if r.None? {
          r := VisitElse();
        }
        if r.None? {
          r := TranslateBody(els);
        }
        if r.None? {
          r := VisitEnd();
        }
      case Drop => r := VisitSimple(i);
      case Select => r := VisitSimple(i);
      case Const(_) => r := VisitSimple(i);
      case LocalGet(_) => r := VisitSimple(i);
      case LocalSet(_) => r := VisitSimple(i);
      case LocalTee(_) => r := VisitSimple(i);
      case Num(_) => r := VisitSimple(i);
    }

    // ----- functions -----

    /** The frame around the whole body. */
    method InitFuncBodyBlock(f: Function)
      requires Valid() && labels.labels == [] && controlFrames.frames == [] && stackTypes == []
      requires stackHeight.height == stackHeight.maxHeight == 0 && reachable && paramWords == WordsOf(f.params)
      modifies Repr()
      ensures Valid() && forall c: Costs :: c.metered == metered && c.base == base ==> Model() == Start(c, f, old(code))
    {
      hide Represents;
      hide WordsOf;
      var end := NewLabel();
      Push(O.SignatureCheck(f.signature));
      var fuel := ChargeSlot();
      controlFrames.PushFrame(BlockFrame(Func(f.params, f.results), end, 0, fuel));
      stackTypes := f.params;
    }

    /** The reservation is filled in when the function is finished. */
    method TranslateStackAlloc()
      requires Valid()
      modifies this`code, instructionSet
      ensures Valid() && Model() == T.Emit(old(Model()), [ReserveStack])
    {
      EmitsReserve(instructionSet.instr, code, labels.labels, labels.users, snippetCalls);
      hide Represents;
      instructionSet.Push(O.StackCheck(UNRESOLVED));
      code := code + [ReserveStack];
    }

    /** The types of one group of locals, one by one, with the words they take. */
    method PushLocalTypes(amount: nat, t: ValType) returns (total: nat)
      modifies this`stackTypes
      ensures stackTypes == old(stackTypes) + Repeat(t, amount) && total == GroupSize(amount, t)
      ensures total == if t == I64 || t == F64 then 2 * amount else amount
    {
      total := 0;
      for i := 0 to amount
        invariant total == if Wide(t) then 2 * i else i
        invariant stackTypes == old(stackTypes) + Repeat(t, i)
      {
        total := total + (if t == I64 || t == F64 then 2 else 1);
        stackTypes := stackTypes + [t];
        assert Repeat(t, i + 1) == Repeat(t, i) + [t];
      }
    }

    method TranslateLocalGroup(amount: nat, t: ValType) returns (r: O.Option<Failure>)
      requires Valid()
      modifies this`code, this`stackTypes, instructionSet, stackHeight
      ensures Outcome(r, LocalGroup(old(Model()), amount, t))
    {
      hide Represents;
      hide GroupSize;
      hide Width;
      hide LocalGroup;
      GroupPlanned(Model(), amount, t);
      var total := PushLocalTypes(amount, t);
      if total >= B32 {
        return O.Some(TooLarge);
      }
      Push(O.BulkConst(total));
      stackHeight.PushN(amount);
      if t == I64 || t == F64 {
        stackHeight.PushN(amount);
      }
      r := O.None;
    }

    method TranslateLocals(locals: seq<(nat, ValType)>) returns (r: O.Option<Failure>)
      requires Valid()
      modifies this`code, this`stackTypes, instructionSet, stackHeight
      ensures Outcome(r, T.TranslateLocals(old(Model()), locals))
    {
      for i := 0 to |locals|
        invariant Valid()
        invariant T.TranslateLocals(Model(), locals[i..]) == T.TranslateLocals(old(Model()), locals)
      {
        hide Represents;
        assert locals[i..][0] == locals[i] && locals[i..][1..] == locals[i + 1..];
        LocalsStep(Model(), locals[i..]);
        r := TranslateLocalGroup(locals[i].0, locals[i].1);
        if r.Some? {
          return;
        }
      }
      r := O.None;
    }

    /** Fills in pending branch offsets and the stack reservation of the function that starts at `start`. */
    method Finish(start: nat) returns (r: O.Option<Failure>)
      requires Valid() && AllPinned(code, labels.labels)
      requires HeadAt(code, start, metered)
      requires forall i :: 0 <= i < |code| && code[i].ReserveStack? ==> i == start + HeadSize(metered) - 1
      modifies instructionSet
      ensures r == FinishFailure(code, labels.labels, stackHeight.maxHeight)
      ensures r.None? ==> |instructionSet.instr| == |code|
      ensures r.None? ==> forall i :: 0 <= i < |code| ==>
              Settled(instructionSet.instr[i], i, code[i], labels.labels, stackHeight.maxHeight)
    {
      var users := labels.users;
      for j := 0 to |users|
        invariant Segment(instructionSet.instr, code, 0, labels.labels, users[j..], snippetCalls)
      {
        hide Segment;
        var u := users[j];
        assert users[j..][0] == u && users[j..][1..] == users[j + 1..];
        assert Uses(code, 0, users[j]);
        UserIsBranch(instructionSet.instr, code, labels.labels, users[j..], snippetCalls);
        var offset := L.FromSrcToDst(u.user, labels.labels[u.lab].value);
        if offset.None? {
          assert !FitsAt(code, labels.labels, u.user);
          return O.Some(BranchOffsetOutOfBounds);
        }
        PatchesUser(instructionSet.instr, code, labels.labels, users[j..], snippetCalls,
                    instructionSet.instr[u.user].kind, offset.value);
        instructionSet.UpdateBranchOffset(u.user, offset.value);
      }
      assert users[|users|..] == [];
      r := PatchStackCheck(start);
    }

    /** Looks for the stack check among the first opcodes of the function. */
    method PatchStackCheck(start: nat) returns (r: O.Option<Failure>)
      requires Segment(instructionSet.instr, code, 0, labels.labels, [], snippetCalls)
      requires HeadAt(code, start, metered)
      requires forall i :: 0 <= i < |code| && code[i].ReserveStack? ==> i == start + HeadSize(metered) - 1
      modifies instructionSet
      ensures AllFit(code, labels.labels)
      ensures r == if stackHeight.maxHeight < B32 then O.None else O.Some(TooLarge)
      ensures r.None? ==> |instructionSet.instr| == |code|
      ensures r.None? ==> forall i :: 0 <= i < |code| ==>
              Settled(instructionSet.instr[i], i, code[i], labels.labels, stackHeight.maxHeight)
    {
      HeadOpcodes(instructionSet.instr, code, start, metered, labels.labels, snippetCalls);
      AllPatched(instructionSet.instr, code, labels.labels, snippetCalls, start + HeadSize(metered) - 1,
                 if stackHeight.maxHeight < B32 then stackHeight.maxHeight else 0);
      if stackHeight.maxHeight >= B32 {
        return O.Some(TooLarge);
      }
      var k := 0;
      while instructionSet.instr[start + k].SignatureCheck? || instructionSet.instr[start + k].ConsumeFuel?
        invariant k <= HeadSize(metered) - 1
        decreases HeadSize(metered) - k
      {
        k := k + 1;
      }
      instructionSet.UpdateStackCheck(start + k, stackHeight.maxHeight);
      r := O.None;
    }
  }

  lemma GroupPlanned(s: Translation, amount: nat, t: ValType)
    ensures var words := GroupSize(amount, t);
            LocalGroup(s, amount, t)
            == if words >= B32 then T.Result.Err(TooLarge)
               else T.Result.Ok(s.(code := s.code + [Op(O.BulkConst(words))], types := s.types + Repeat(t, amount),
                                   height := s.height + words, maxHeight := Max(s.maxHeight, s.height + words)))
  {
    hide GroupSize;
  }

  lemma SetPlanned(s: Translation, k: nat)
    ensures var n := |s.types|;
            if n == 0 || s.height < Width(s.types[n - 1]) || k >= n then PlanSet(s, k) == T.Result.Err(Panic)
            else
              var t, depth := s.types[n - 1], WordsOf(s.types[..n - 1][k..]);
              if depth >= B32 then PlanSet(s, k) == T.Result.Err(TooLarge)
              else PlanSet(s, k) == T.Result.Ok(Plan(Twice(O.LocalSet(depth), t), s.types[..n - 1],
                                                     s.height - Width(t), s.height))
  {
    hide WordsOf;
  }

  lemma GetPlanned(s: Translation, k: nat, depth: Word)
    requires k < |s.types| && WordsOf(s.types[k..]) == depth
    ensures var t := s.types[k];
            var h := s.height + Width(t);
            PlanGet(s, k) == T.Result.Ok(Plan(Twice(O.LocalGet(depth), t), s.types + [t], h, h))
  {
    hide WordsOf;
  }

  /** Branch targets depend on frames and heights only. */
  lemma AcquireIgnoresCode(s: Translation, depth: nat)
    ensures Acquire(s.(code := []), depth) == Acquire(s, depth)
  {
  }

  lemma AcquireInTable(s: Translation, t: Translation, depth: nat)
    requires t == s.(maxHeight := t.maxHeight)
    ensures Acquire(t.(code := []), depth) == Acquire(s, depth)
  {
  }

  lemma ReturnIgnoresCode(s: Translation)
    ensures DropKeepReturn(s.(code := [])) == DropKeepReturn(s)
  {
  }

  lemma Patched(code: seq<SymOp>, a: O.Opcode, b: O.Opcode, rest: seq<SymOp>)
    ensures (code + [Op(a)] + rest)[|code| := Op(b)] == code + [Op(b)] + rest
  {
  }

  lemma ReplaceThenEmit(s: Translation, code: seq<SymOp>, popped: seq<ValType>, result: ValType, room: nat)
    ensures var p, q := Replace(s, code, popped, result, room), Replace(s, [], popped, result, room);
            && (p.Ok? <==> q.Ok?) && (p.Err? ==> p == q)
            && (p.Ok? ==> Follow(s, p.value) == T.Emit(Follow(s, q.value), code))
  {
    hide WordsOf;
    assert s.code + [] == s.code;
  }

  lemma SegmentSize(ops: seq<O.Opcode>, sym: seq<SymOp>, from: nat, labels: seq<O.Option<nat>>, users: seq<L.LabelUser>,
                    calls: seq<SnippetCall>)
    requires Segment(ops, sym, from, labels, users, calls)
    ensures |ops| == |sym|
  {
  }

  function TableSteps(t: Translation, depths: seq<nat>, default: nat): T.Result<Translation> {
    var tables :- T.EncodeTargets(t, |t.code| + 1, 2 * |depths| + 2, depths + [default], Tables([], [], 0));
    if |depths| + 1 >= B32 then T.Result.Err(BranchTableTargetsOutOfBounds)
    else
      var code := [Op(O.BrTable(|depths| + 1))] + tables.slots + tables.trampolines;
      T.Result.Ok(T.Emit(t, code).(maxHeight := Max(t.maxHeight, tables.peak), reachable := false))
  }

  lemma TableInParts(s: Translation, depths: seq<nat>, default: nat)
    ensures T.VisitBrTable(s, depths, default) ==
            if !s.reachable then T.Result.Ok(s)
            else
              var t :- T.Bump(s, s.base);
              var t :- PopCondition(t);
              TableSteps(t, depths, default)
  {
    hide T.Bump;
    hide PopCondition;
    hide T.EncodeTargets;
  }

  function GroupSize(amount: nat, t: ValType): nat { amount * Width(t) }

  function LocalGroup(s: Translation, amount: nat, t: ValType): T.Result<Translation> {
    var words :- AsWord(GroupSize(amount, t));
    T.Result.Ok(Grow(T.Emit(s, [Op(O.BulkConst(words))]).(types := s.types + Repeat(t, amount)), words))
  }

  lemma LocalsStep(s: Translation, locals: seq<(nat, ValType)>)
    requires locals != []
    ensures T.TranslateLocals(s, locals) ==
            var t :- LocalGroup(s, locals[0].0, locals[0].1);
            T.TranslateLocals(t, locals[1..])
  {
  }

  /** A function starts with its signature check, its entry charge and its stack reservation. */
  function HeadSize(metered: bool): (n: nat)
    ensures n > 0
  {
    if metered then 3 else 2
  }

  ghost predicate HeadAt(code: seq<SymOp>, start: nat, metered: bool) {
    && start + HeadSize(metered) <= |code|
    && code[start].Op? && code[start].op.SignatureCheck?
    && (metered ==> code[start + 1].Op? && code[start + 1].op.ConsumeFuel?)
    && code[start + HeadSize(metered) - 1].ReserveStack?
  }

  lemma HeadOpcodes(instr: seq<O.Opcode>, code: seq<SymOp>, start: nat, metered: bool, labels: seq<O.Option<nat>>,
                    calls: seq<SnippetCall>)
    requires Segment(instr, code, 0, labels, [], calls) && HeadAt(code, start, metered)
    ensures |instr| == |code| && instr[start].SignatureCheck? && (metered ==> instr[start + 1].ConsumeFuel?)
    ensures instr[start + HeadSize(metered) - 1].StackCheck?
  {
    assert StandsAt(instr, code, start, 0, labels, [], calls);
    assert StandsAt(instr, code, start + 1, 0, labels, [], calls);
    assert StandsAt(instr, code, start + HeadSize(metered) - 1, 0, labels, [], calls);
  }

  lemma NothingStaged(instr: seq<O.Opcode>, code: seq<SymOp>, size: nat, labels: seq<O.Option<nat>>,
                      users: seq<L.LabelUser>, calls: seq<SnippetCall>)
    requires Represents(instr, code, labels, users, calls)
    ensures Segment(instr, code, 0, labels, users, calls) && CallsFine(code, calls) && Staged(code, [], [], size, users)
    ensures Segment([], [], |code| + 1, labels, users, calls)
    ensures Segment([], [], |code| + 1 + size, labels, users, calls)
  {
    forall j | 0 <= j < |users| ensures StagedUser(code, [], [], size, users[j]) {
      assert Uses(code, 0, users[j]);
    }
  }

  /** The user of a trampoline's jump sits behind its moves. */
  lemma TrampolineUser(code: seq<SymOp>, acc: Tables, size: nat, users: seq<L.LabelUser>, slot: seq<SymOp>,
                       moves: seq<SymOp>, labels: seq<O.Option<nat>>, l: nat)
    requires Staged(code, acc.slots, acc.trampolines, size, users) && l < |labels|
    ensures Staged(code, acc.slots + slot, acc.trampolines + moves + [Jump(O.Always, l)], size,
                   users + UserFor(labels, l, |code| + 1 + size + |acc.trampolines + moves|))
  {
    var more := moves + [Jump(O.Always, l)];
    assert acc.trampolines + moves + [Jump(O.Always, l)] == acc.trampolines + more;
    StagedLater(code, acc.slots, acc.trampolines, size, users, slot, more,
                UserFor(labels, l, |code| + 1 + size + |acc.trampolines + moves|));
  }

  /** A slot with its jump in the table. */
  lemma JumpThenReturn(ops: seq<O.Opcode>, sym: seq<SymOp>, from: nat, offset: O.I32, l: nat,
                       labels: seq<O.Option<nat>>, users: seq<L.LabelUser>, calls: seq<SnippetCall>)
    requires Segment(ops, sym, from, labels, users, calls) && l < |labels|
    requires labels[l].Some? ==> offset == labels[l].value - (from + |ops|)
    ensures Segment(ops + [O.Branch(O.Always, offset)] + [O.Return], sym + [Jump(O.Always, l), Op(O.Return)], from,
                    labels, users + UserFor(labels, l, from + |ops|), calls)
  {
    var op, users' := O.Branch(O.Always, offset), users + UserFor(labels, l, from + |ops|);
    JumpJoins(ops, sym, from, op, O.Always, l, labels, users, calls);
    OpsJoin(ops + [op], sym + [Jump(O.Always, l)], from, [O.Return], labels, users', calls);
    assert sym + [Jump(O.Always, l)] + Ops([O.Return]) == sym + [Jump(O.Always, l), Op(O.Return)];
  }

  /** More users leave two segments as they are. */
  lemma LaterBoth(a: seq<O.Opcode>, x: seq<SymOp>, b: seq<O.Opcode>, y: seq<SymOp>, from: nat,
                  labels: seq<O.Option<nat>>, users: seq<L.LabelUser>, users': seq<L.LabelUser>,
                  calls: seq<SnippetCall>)
    requires Segment(a, x, 0, labels, users, calls) && Segment(b, y, from, labels, users, calls) && users <= users'
    ensures Segment(a, x, 0, labels, users', calls) && Segment(b, y, from, labels, users', calls)
  {
    SegmentLater(a, x, 0, labels, users, calls, labels, users', calls);
    SegmentLater(b, y, from, labels, users, calls, labels, users', calls);
  }

  function ChargedJump(s: Translation, els: nat): T.Result<Translation> {
    var t :- T.Bump(s, s.base);
    T.EmitJump(t, O.IfEqz, els)
  }

  /** An `if` once its condition has been popped. */
  function IfSteps(s: Translation, bt: BlockType): T.Result<Translation> {
    var h :- FrameHeight(s, bt);
    var els := |s.labels|;
    var u :- ChargedJump(T.NewLabel(T.NewLabel(s)), els);
    T.Result.Ok(PushFrame(NewCharge(u), IfFrame(bt, els + 1, els, h, NewSlot(u), O.None)))
  }

  lemma IfInParts(s: Translation, bt: BlockType)
    requires s.reachable && s.height >= 1
    ensures var types := if s.types == [] then [] else s.types[..|s.types| - 1];
            T.VisitIf(s, bt) == IfSteps(s.(height := s.height - 1, types := types), bt)
  {
    hide WordsOf;
    hide T.Bump;
    hide T.EmitJump;
  }

  /** The rest of an `end` once labels are pinned and the function returns, if it ends. */
  function EndSteps(s: Translation, f: Frame): T.Result<Translation> {
    var _ :- LastFrame(s);
    var t :- if f.DeadFrame? then T.Result.Ok(s) else T.ShrinkTo(s, f.height);
    var t := T.PushTypes(t.(frames := s.frames[..|s.frames| - 1]), Results(f.bt));
    if t.frames == [] then T.Result.Ok(t) else T.Recharge(t)
  }

  lemma EndInParts(s: Translation)
    ensures s.frames == [] ==> T.VisitEnd(s) == T.Result.Err(Panic)
    ensures s.frames != [] ==>
              var n := |s.frames|;
              var f := s.frames[n - 1];
              var t := T.PinEnd(s, f);
              T.VisitEnd(s) ==
              if t.Err? then t
              else
                var u := if n == 1 then T.VisitReturn(t.value) else T.Result.Ok(t.value.(reachable := !f.DeadFrame?));
                if u.Err? then u else EndSteps(u.value, f)
  {
    hide WordsOf;
    hide PopTypes;
    hide T.PushTypes;
    hide T.Recharge;
    hide DropKeepReturn;
    hide T.EmitDropKeep;
    if s.frames != [] {
      FramesStay(s, s.frames[|s.frames| - 1]);
      hide T.PinEnd;
      hide T.VisitReturn;
    }
  }

  lemma FramesStay(s: Translation, f: Frame)
    ensures T.PinEnd(s, f).Ok? ==> T.PinEnd(s, f).value.frames == s.frames
    ensures T.PinEnd(s, f).Ok? && T.VisitReturn(T.PinEnd(s, f).value).Ok? ==>
              T.VisitReturn(T.PinEnd(s, f).value).value.frames == s.frames
  {
    hide DropKeepReturn;
    hide Ops;
    hide DK.Lower;
  }

  /** The second branch starts; the frame of the `if` has been popped. */
  function ElseSteps(s: Translation, f: Frame): T.Result<Translation>
    requires f.IfFrame?
  {
    var t :- if s.reachable then T.EmitJump(s, O.Always, f.end) else T.Result.Ok(s);
    var t :- T.Pin(t, f.els);
    var u :- T.ShrinkTo(NewCharge(t), f.height);
    var u := T.PushTypes(u, Params(f.bt));
    if s.metered && f.fuel.None? then T.Result.Err(Panic)
    else
      var g := f.(thenReachable := O.Some(s.reachable), fuel := if s.metered then NewSlot(t) else f.fuel);
      T.Result.Ok(PushFrame(u, g).(reachable := true))
  }

  lemma ElseInParts(s: Translation)
    requires s.frames != []
    ensures var n := |s.frames| - 1;
            var f := s.frames[n];
            f.IfFrame? && f.thenReachable.None? ==> T.VisitElse(s) == ElseSteps(s.(frames := s.frames[..n]), f)
  {
    hide WordsOf;
    hide PopTypes;
  }

  lemma Paired(code: seq<SymOp>, op: O.Opcode)
    ensures code + [Op(op)] + [Op(op)] == code + [Op(op), Op(op)]
  {
  }

  lemma FlatWidth(t: ValType)
    ensures WordsOf([t]) == Width(t)
  {
    assert [t][..0] == [];
  }
}
