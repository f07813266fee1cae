/** The shape of translated code that makes metering sound: every label is a charge, every backward jump
    has paid at least the basic cost since the last charge, and the live charge is the latest one. */
module Metering {
  import opened Words
  import O = Opcodes
  import opened Source
  import opened Layout
  import opened Translator
  import opened Invariants
  import DK = DropKeeps
  import Sequences
  import opened Branches
  import opened BranchRuns

  /** No charge at the positions from `a` up to `b`. */
  ghost predicate Quiet(code: seq<SymOp>, a: int, b: int) {
    forall i :: 0 <= i < |code| && a <= i < b ==> !IsCharge(code, i)
  }

  /** The last charge before `i` is at least `base`. */
  ghost predicate PaidBefore(code: seq<SymOp>, base: nat, i: nat) {
    exists j: nat :: j < i && PaidAt(code, base, j) && Quiet(code, j + 1, i)
  }

  ghost predicate PaidAt(code: seq<SymOp>, base: nat, j: nat) {
    IsCharge(code, j) && code[j].op.fuel >= base
  }

  predicate NamesFunction(o: O.Opcode) { o.CallInternal? || o.ReturnCallInternal? || o.RefFunc? }

  /** Relative jumps go forward and skip no charge. */
  ghost predicate OpFine(code: seq<SymOp>, i: nat)
    requires i < |code|
  {
    match code[i]
    case Op(o) =>
      && !NamesFunction(o)
      && (o.Branch? ==> o.offset >= 1 && i + o.offset <= |code| && Quiet(code, i + 1, i + o.offset))
      && (o.BrTable? ==> o.targets >= 1 && i + 2 * o.targets < |code| && Quiet(code, i + 1, i + 2 * o.targets + 1))
    case _ => true
  }

  ghost predicate OpsFine(from: nat, s: Translation) { forall i :: from <= i < |s.code| ==> OpFine(s.code, i) }

  /** Every label except that of the function itself is the position of a charge. */
  ghost predicate LabelsCharge(s: Translation) {
    forall l :: 1 <= l < |s.labels| && s.labels[l].Some? ==> IsCharge(s.code, s.labels[l].value)
  }

  ghost predicate FrameFine(f: Frame) {
    match f
    case BlockFrame(_, end, _, _) => end >= 1
    case LoopFrame(_, head, _, _) => head >= 1
    case IfFrame(_, end, els, _, _, _) => end >= 1 && els >= 1
    case DeadFrame(_, _) => true
  }

  ghost predicate FramesFine(s: Translation) {
    && s.labels != []
    && (s.frames != [] ==> s.frames[0].BlockFrame? && s.frames[0].end == 0)
    && (forall j :: 1 <= j < |s.frames| ==> FrameFine(s.frames[j]))
  }

  ghost predicate JumpFine(s: Translation, i: nat)
    requires i < |s.code| && s.code[i].Jump?
  {
    var l := s.code[i].target;
    && 1 <= l < |s.labels|
    && (s.labels[l].Some? && s.labels[l].value <= i ==> PaidBefore(s.code, s.base, i))
  }

  ghost predicate JumpsFine(s: Translation) {
    forall i :: 0 <= i < |s.code| && s.code[i].Jump? ==> JumpFine(s, i)
  }

  /** Whenever code is reachable, the charge of the innermost frame is the latest one emitted. */
  ghost predicate LatestCharge(s: Translation) {
    s.reachable && s.frames != [] ==>
      LiveCharge(s).Some? && IsCharge(s.code, LiveCharge(s).value) && Quiet(s.code, LiveCharge(s).value + 1, |s.code|)
  }

  predicate Terminal(op: SymOp) {
    match op
    case Op(o) => o.Unreachable? || o.Return?
    case Jump(kind, _) => kind.Always?
    case _ => false
  }

  /** Nothing runs past position `q`, and only charges follow it. */
  ghost predicate SealedAt(from: nat, s: Translation, q: nat) {
    && from <= q < |s.code| && Terminal(s.code[q])
    && (forall i :: q < i < |s.code| ==> IsCharge(s.code, i))
    && (forall l :: 1 <= l < |s.labels| && s.labels[l].Some? ==> s.labels[l].value <= q)
    && (forall i :: from <= i <= q && Reach(s.code[i]) > 0 ==> i + Reach(s.code[i]) <= q)
  }

  /** How far ahead a relative jump goes at most. */
  function Reach(op: SymOp): int {
    if op.Op? && op.op.Branch? then op.op.offset
    else if op.Op? && op.op.BrTable? then 2 * op.op.targets
    else 0
  }

  ghost predicate Sealed(from: nat, s: Translation) {
    !s.reachable ==> exists q: nat :: SealedAt(from, s, q)
  }

  ghost predicate Metered(from: nat, s: Translation) {
    s.metered && from <= |s.code| && OpsFine(from, s) && LabelsCharge(s) && FramesFine(s) && JumpsFine(s)
        && LatestCharge(s) && Sealed(from, s)
  }

  // ----- appending -----

  /** Code that adds no charge; its jumps are covered by the live charge if they may go back. */
  ghost predicate ExtFine(s: Translation, ext: seq<SymOp>) {
    && (forall i :: 0 <= i < |ext| ==> !IsCharge(ext, i) && OpFine(ext, i))
    && (forall i :: 0 <= i < |ext| && ext[i].Jump? ==>
          && 1 <= ext[i].target < |s.labels|
          && (s.labels[ext[i].target].Some? ==> LiveCharge(s).Some? && PaidAt(s.code, s.base, LiveCharge(s).value)))
  }

  lemma QuietAppend(a: seq<SymOp>, b: seq<SymOp>, from: int, to: int)
    requires forall i :: 0 <= i < |b| ==> !IsCharge(b, i)
    requires Quiet(a, from, |a|)
    ensures Quiet(a + b, from, to)
  {
    forall i | 0 <= i < |a + b| && from <= i < to ensures !IsCharge(a + b, i) {
      if i < |a| {
        assert !IsCharge(a, i);
      } else {
        assert !IsCharge(b, i - |a|);
      }
    }
  }

  lemma OpFineLeft(a: seq<SymOp>, b: seq<SymOp>, i: nat)
    requires i < |a| && OpFine(a, i)
    ensures OpFine(a + b, i)
  {
    forall j | 0 <= j < |a| ensures IsCharge(a + b, j) == IsCharge(a, j) {
    }
  }

  lemma OpFineRight(a: seq<SymOp>, b: seq<SymOp>, i: nat)
    requires i < |b| && OpFine(b, i) && forall j :: 0 <= j < |b| ==> !IsCharge(b, j)
    ensures OpFine(a + b, |a| + i)
  {
    forall j | |a| <= j < |a + b| ensures !IsCharge(a + b, j) {
      assert !IsCharge(b, j - |a|);
    }
  }

  lemma PaidLeft(a: seq<SymOp>, b: seq<SymOp>, base: nat, i: nat)
    requires i <= |a| && PaidBefore(a, base, i)
    ensures PaidBefore(a + b, base, i)
  {
    var j: nat :| j < i && PaidAt(a, base, j) && Quiet(a, j + 1, i);
    assert PaidAt(a + b, base, j);
    forall p | 0 <= p < |a + b| && j + 1 <= p < i ensures !IsCharge(a + b, p) {
      assert !IsCharge(a, p);
    }
  }

  lemma AppendOps(from: nat, s: Translation, ext: seq<SymOp>)
    requires from <= |s.code| && OpsFine(from, s) && ExtFine(s, ext)
    ensures OpsFine(from, Emit(s, ext))
  {
    var t := Emit(s, ext);
    forall i | from <= i < |t.code| ensures OpFine(t.code, i) {
      if i < |s.code| {
        OpFineLeft(s.code, ext, i);
      } else {
        OpFineRight(s.code, ext, i - |s.code|);
      }
    }
  }

  lemma AppendJumps(s: Translation, ext: seq<SymOp>)
    requires JumpsFine(s) && LatestCharge(s) && ExtFine(s, ext)
    ensures JumpsFine(Emit(s, ext))
  {
    var t := Emit(s, ext);
    forall i | 0 <= i < |t.code| && t.code[i].Jump? ensures JumpFine(t, i) {
      if i < |s.code| {
        assert JumpFine(s, i);
        if PaidBefore(s.code, s.base, i) {
          PaidLeft(s.code, ext, s.base, i);
        }
      } else {
        var l := ext[i - |s.code|].target;
        if s.labels[l].Some? {
          var slot := LiveCharge(s).value;
          QuietAppend(s.code, ext, slot + 1, i);
          assert PaidAt(t.code, s.base, slot);
        }
      }
    }
  }

  /** Appending such code keeps everything; if the code ends there, it must end in a terminal operator. */
  lemma AppendMetered(from: nat, s: Translation, ext: seq<SymOp>, t: Translation)
    requires Metered(from, s) && s.reachable && ExtFine(s, ext)
    requires t.code == s.code + ext && t.labels == s.labels && t.frames == s.frames && t.metered == s.metered
    requires t.base == s.base
    requires !t.reachable ==> ext != [] && Terminal(ext[|ext| - 1]) && forall i :: 0 <= i < |ext| ==>
             i + Reach(ext[i]) < |ext|
    ensures Metered(from, t)
  {
    AppendOps(from, s, ext);
    AppendJumps(s, ext);
    assert t.code == Emit(s, ext).code;
    forall i | 0 <= i < |t.code| && t.code[i].Jump? ensures JumpFine(t, i) {
      assert JumpFine(Emit(s, ext), i);
    }
    AppendRest(from, s, ext, t);
  }

  lemma AppendRest(from: nat, s: Translation, ext: seq<SymOp>, t: Translation)
    requires Metered(from, s) && s.reachable && ExtFine(s, ext)
    requires t.code == s.code + ext && t.labels == s.labels && t.frames == s.frames
    requires !t.reachable ==> ext != [] && Terminal(ext[|ext| - 1]) && forall i :: 0 <= i < |ext| ==>
             i + Reach(ext[i]) < |ext|
    ensures LabelsCharge(t) && LatestCharge(t) && Sealed(from, t)
  {
    forall l | 1 <= l < |t.labels| && t.labels[l].Some? ensures IsCharge(t.code, t.labels[l].value) {
      assert IsCharge(s.code, s.labels[l].value);
    }
    if t.reachable {
      if t.frames != [] {
        QuietAppend(s.code, ext, LiveCharge(s).value + 1, |t.code|);
      }
    } else {
      var q := |t.code| - 1;
      forall i | from <= i <= q && Reach(t.code[i]) > 0 ensures i + Reach(t.code[i]) <= q {
        if i < |s.code| {
          assert OpFine(s.code, i);
        } else {
          assert t.code[i] == ext[i - |s.code|];
        }
      }
      assert t.code[q] == ext[|ext| - 1];
      assert SealedAt(from, t, q);
    }
  }

  // ----- raising a charge -----

  lemma RaisePaid(code: seq<SymOp>, at: nat, x: Word, base: nat, i: nat)
    requires IsCharge(code, at) && code[at].op.fuel <= x
    requires PaidBefore(code, base, i)
    ensures PaidBefore(code[at := Op(O.ConsumeFuel(x))], base, i)
  {
    var code' := code[at := Op(O.ConsumeFuel(x))];
    var j: nat :| j < i && PaidAt(code, base, j) && Quiet(code, j + 1, i);
    forall p | 0 <= p < |code'| && j + 1 <= p < i ensures !IsCharge(code', p) {
      assert !IsCharge(code, p);
    }
    assert PaidAt(code', base, j);
  }

  lemma RaiseQuiet(code: seq<SymOp>, at: nat, x: Word, a: int, b: int)
    requires IsCharge(code, at)
    ensures Quiet(code[at := Op(O.ConsumeFuel(x))], a, b) == Quiet(code, a, b)
  {
    var code' := code[at := Op(O.ConsumeFuel(x))];
    forall p | 0 <= p < |code| ensures IsCharge(code', p) == IsCharge(code, p) {
    }
  }

  lemma BumpMetered(from: nat, s: Translation, delta: nat, u: Translation)
    requires Metered(from, s) && s.reachable && s.frames != [] && Bump(s, delta) == Ok(u)
    ensures Metered(from, u) && u == s.(code := u.code) && |u.code| == |s.code|
    ensures LiveCharge(u) == LiveCharge(s) && LiveCharge(u).Some? && PaidAt(u.code, delta, LiveCharge(u).value)
  {
    var at := LiveCharge(s).value;
    var x := s.code[at].op.fuel + delta;
    assert u.code == s.code[at := Op(O.ConsumeFuel(x))];
    forall i | from <= i < |u.code| ensures OpFine(u.code, i) {
      assert OpFine(s.code, i);
      RaiseOpFine(s.code, at, x, i);
    }
    forall i | 0 <= i < |u.code| && u.code[i].Jump? ensures JumpFine(u, i) {
      assert JumpFine(s, i);
      if PaidBefore(s.code, s.base, i) {
        RaisePaid(s.code, at, x, s.base, i);
      }
    }
    forall l | 1 <= l < |u.labels| && u.labels[l].Some? ensures IsCharge(u.code, u.labels[l].value) {
      assert IsCharge(s.code, s.labels[l].value);
    }
    RaiseQuiet(s.code, at, x, at + 1, |s.code|);
  }

  lemma RaiseOpFine(code: seq<SymOp>, at: nat, x: Word, i: nat)
    requires IsCharge(code, at) && i < |code| && OpFine(code, i)
    ensures OpFine(code[at := Op(O.ConsumeFuel(x))], i)
  {
    var code' := code[at := Op(O.ConsumeFuel(x))];
    forall p | 0 <= p < |code| ensures IsCharge(code', p) == IsCharge(code, p) {
    }
  }

  // ----- a fresh charge -----

  /** Labels that are still open may be pinned in front of the fresh charge. */
  ghost predicate PinsHere(s: Translation, t: Translation) {
    && 0 < |s.labels| <= |t.labels|
    && (forall l :: 0 <= l < |s.labels| ==>
        t.labels[l] == s.labels[l] || (s.labels[l].None? && t.labels[l] == O.Some(|s.code|)))
    && (forall l :: |s.labels| <= l < |t.labels| ==> t.labels[l].None? || t.labels[l] == O.Some(|s.code|))
  }

  lemma ChargeMetered(from: nat, s: Translation, t: Translation)
    requires s.metered && from <= |s.code| && OpsFine(from, s) && LabelsCharge(s) && JumpsFine(s) && PinsHere(s, t)
    requires FramesFine(t)
    requires t.code == s.code + [Op(O.ConsumeFuel(0))] && t.metered && t.base == s.base
    requires t.reachable && t.frames != [] ==> LiveCharge(t) == O.Some(|s.code|)
    requires !t.reachable ==> !s.reachable && Sealed(from, s) && t.labels == s.labels
    ensures Metered(from, t)
  {
    var ext := [Op(O.ConsumeFuel(0))];
    forall i | from <= i < |t.code| ensures OpFine(t.code, i) {
      if i < |s.code| {
        assert OpFine(s.code, i);
        OpFineLeft(s.code, ext, i);
      }
    }
    forall i | 0 <= i < |t.code| && t.code[i].Jump? ensures JumpFine(t, i) {
      assert JumpFine(s, i);
      if PaidBefore(s.code, s.base, i) {
        PaidLeft(s.code, ext, s.base, i);
      }
    }
    forall l | 1 <= l < |t.labels| && t.labels[l].Some? ensures IsCharge(t.code, t.labels[l].value) {
      if l < |s.labels| && s.labels[l].Some? {
        assert IsCharge(s.code, s.labels[l].value);
      }
    }
    if !t.reachable {
      var q: nat :| SealedAt(from, s, q);
      forall i | q < i < |t.code| ensures IsCharge(t.code, i) {
        if i < |s.code| {
          assert IsCharge(s.code, i);
        }
      }
      assert SealedAt(from, t, q);
    }
  }

  /** Only frames and unused labels are added. */
  lemma FramesMetered(from: nat, s: Translation, t: Translation)
    requires Metered(from, s) && FramesFine(t) && t.code == s.code && t.metered && t.base == s.base
    requires t.reachable == s.reachable
    requires |s.labels| <= |t.labels| && forall l :: 0 <= l < |t.labels| ==>
             t.labels[l] == if l < |s.labels| then s.labels[l] else O.None
    requires t.reachable && t.frames != [] ==> s.frames != [] && LiveCharge(t) == LiveCharge(s)
    ensures Metered(from, t)
  {
    forall i | 0 <= i < |t.code| && t.code[i].Jump? ensures JumpFine(t, i) {
      assert JumpFine(s, i);
    }
    if !t.reachable {
      var q: nat :| SealedAt(from, s, q);
      forall l | 1 <= l < |t.labels| && t.labels[l].Some? ensures t.labels[l].value <= q {
        assert l < |s.labels| && s.labels[l].Some?;
      }
      assert SealedAt(from, t, q);
    }
  }

  // ----- what the operators emit -----

  ghost predicate CodeFine(ops: seq<O.Opcode>) {
    forall i :: 0 <= i < |ops| ==>
      && !ops[i].ConsumeFuel? && !NamesFunction(ops[i]) && !ops[i].BrTable?
      && (ops[i].Branch? ==> ops[i].offset >= 1 && i + ops[i].offset <= |ops|)
  }

  lemma OpsExt(s: Translation, ops: seq<O.Opcode>)
    requires CodeFine(ops)
    ensures ExtFine(s, Ops(ops))
  {
    forall i | 0 <= i < |ops| ensures !IsCharge(Ops(ops), i) {
      assert Ops(ops)[i] == Op(ops[i]);
    }
  }

  lemma NumCodeFine(op: NumOp)
    requires !op.I64Snippet?
    ensures CodeFine(Sequences.NumCode(op))
  {
    if op.I64Count? {
      CountCodeFine(op.count);
    }
  }

  lemma CountCodeFine(c: O.CountOp)
    ensures CodeFine(Sequences.CountCode(c))
  {
  }

  lemma {:induction false} LowerFine(dk: DK.DropKeep)
    ensures forall i :: 0 <= i < |DK.Lower(dk)| ==> var o := DK.Lower(dk)[i]; o.LocalGet? || o.LocalSet? || o.BulkDrop?
  {
    if 0 < dk.drop < dk.keep {
      MovesFine(dk.drop, dk.keep, 0);
    }
  }

  lemma {:induction false} MovesFine(drop: O.U16, keep: O.U16, i: nat)
    requires i <= keep
    ensures forall j :: 0 <= j < |DK.Moves(drop, keep, i)| ==> var o := DK.Moves(drop, keep, i)[j];
            o.LocalGet? || o.LocalSet?
    decreases keep - i
  {
    if i < keep {
      MovesFine(drop, keep, i + 1);
    }
  }

  /** Opcodes that are neither charges nor jumps. */
  ghost predicate Tame(s: Translation, code: seq<SymOp>) {
    ExtFine(s, code) && forall j :: 0 <= j < |code| ==> !code[j].Jump?
  }

  lemma GetExt(s: Translation, k: nat)
    requires PlanGet(s, k).Ok?
    ensures Tame(s, PlanGet(s, k).value.code)
  {
    hide WordsOf;
  }

  lemma SetExt(s: Translation, k: nat)
    requires PlanSet(s, k).Ok?
    ensures Tame(s, PlanSet(s, k).value.code)
  {
    hide WordsOf;
  }

  lemma TeeExt(s: Translation, k: nat)
    requires PlanTee(s, k).Ok?
    ensures Tame(s, PlanTee(s, k).value.code)
  {
    hide WordsOf;
  }

  lemma PlanExt(s: Translation, i: Instr)
    requires Simple(i) && PlanFor(s, i).Ok?
    ensures ExtFine(s, PlanFor(s, i).value.code) && forall j :: 0 <= j < |PlanFor(s, i).value.code| ==>
            !PlanFor(s, i).value.code[j].Jump?
  {
    hide WordsOf;
    hide PlanNum;
    hide PlanWrap;
    hide PlanSelect;
    hide PlanGet;
    hide PlanSet;
    hide PlanTee;
    match i
    case Num(op) => NumExt(s, op);
    case Select => SelectExt(s);
    case LocalGet(k) => GetExt(s, k);
    case LocalSet(k) => SetExt(s, k);
    case LocalTee(k) => TeeExt(s, k);
    case _ =>
  }

  lemma SelectExt(s: Translation)
    requires PlanSelect(s).Ok?
    ensures ExtFine(s, PlanSelect(s).value.code) && forall j :: 0 <= j < |PlanSelect(s).value.code| ==>
            !PlanSelect(s).value.code[j].Jump?
  {
    var ops := [O.Branch(O.IfEqz, 4), O.Drop, O.Drop, O.Branch(O.Always, 3), O.LocalSet(2), O.LocalSet(2)];
    OpsExt(s, ops);
  }

  lemma NumExt(s: Translation, op: NumOp)
    requires PlanFor(s, Num(op)).Ok?
    ensures var code := PlanFor(s, Num(op)).value.code;
            ExtFine(s, code) && forall j :: 0 <= j < |code| ==> !code[j].Jump?
  {
    hide WordsOf;
    hide Sequences.NumCode;
    hide Sequences.Headroom;
    hide Popped;
    hide Pushed;
    if !op.I64Snippet? && !op.WrapI64? {
      NumCodeFine(op);
      OpsExt(s, Sequences.NumCode(op));
    }
  }

  /** Moves and exit: the exit's jump is covered by the bumped charge. */
  lemma TailExt(s: Translation, target: Target)
    requires target.lab.Some? ==>
             1 <= target.lab.value < |s.labels| && LiveCharge(s).Some?
             && PaidAt(s.code, s.base, LiveCharge(s).value)
    ensures ExtFine(s, Tail(target)) && Tail(target) != [] && Terminal(Tail(target)[|Tail(target)| - 1])
    ensures forall i :: 0 <= i < |Tail(target)| ==> Reach(Tail(target)[i]) == 0
  {
    LowerFine(target.dropKeep);
    hide DK.Lower;
    var moves := Ops(DK.Lower(target.dropKeep));
    forall i | 0 <= i < |Tail(target)| ensures !IsCharge(Tail(target), i) && OpFine(Tail(target), i)
        && Reach(Tail(target)[i]) == 0 {
      if i < |moves| {
        assert Tail(target)[i] == Op(DK.Lower(target.dropKeep)[i]);
      }
    }
  }

  // ----- the operators -----

  ghost predicate MeteredResult(from: nat, r: Translator.Result<Translation>) { r.Ok? ==> Metered(from, r.value) }

  lemma SimpleMetered(from: nat, s: Translation, i: Instr)
    requires Metered(from, s) && s.frames != [] && Simple(i)
    ensures MeteredResult(from, VisitSimple(s, i))
  {
    hide Metered;
    hide PlanFor;
    hide Cost;
    hide ExtFine;
    if s.reachable && VisitSimple(s, i).Ok? {
      var u := Bump(s, Cost(s.base, i)).value;
      BumpMetered(from, s, Cost(s.base, i), u);
      hide Bump;
      var plan := PlanFor(u, i).value;
      PlanExt(u, i);
      AppendMetered(from, u, plan.code, Follow(u, plan));
    }
  }

  lemma UnreachableMetered(from: nat, s: Translation)
    requires Metered(from, s)
    ensures Metered(from, VisitUnreachable(s))
  {
    if s.reachable {
      AppendMetered(from, s, [Op(O.Unreachable)], VisitUnreachable(s));
    }
  }

  lemma TakeMetered(from: nat, u: Translation, target: Target)
    requires Metered(from, u) && u.reachable
    requires target.lab.Some? ==>
             1 <= target.lab.value < |u.labels| && LiveCharge(u).Some?
             && PaidAt(u.code, u.base, LiveCharge(u).value)
    ensures Metered(from, Take(u, target))
  {
    TailExt(u, target);
    TakeShape(u, target);
    SameParts(u, target);
    hide Metered;
    hide Tail;
    hide ExtFine;
    hide Take;
    AppendMetered(from, u, Tail(target), Take(u, target));
  }

  lemma SameParts(u: Translation, target: Target)
    ensures var t := Take(u, target); t.labels == u.labels && t.metered == u.metered && t.base == u.base
  {
    hide DK.Lower;
    hide DK.Headroom;
  }

  lemma ReturnMetered(from: nat, s: Translation)
    requires Metered(from, s)
    ensures MeteredResult(from, VisitReturn(s))
  {
    hide DropKeepReturn;
    if s.reachable && VisitReturn(s).Ok? {
      TakeMetered(from, s, Target(O.None, DropKeepReturn(s).value));
      hide DK.Lower;
    }
  }

  /** Labels of branch targets are not that of the function. */
  lemma AcquireFine(s: Translation, depth: nat)
    requires FramesFine(s) && Acquire(s, depth).Ok?
    ensures Acquire(s, depth).value.lab.Some? ==> Acquire(s, depth).value.lab.value >= 1
  {
    hide ComputeDropKeep;
    hide DropKeepReturn;
    if depth < |s.frames| - 1 {
      assert FrameFine(s.frames[|s.frames| - 1 - depth]);
    }
  }

  lemma BrMetered(from: nat, s: Translation, depth: nat)
    requires Metered(from, s) && s.frames != []
    ensures MeteredResult(from, VisitBr(s, depth))
  {
    if s.reachable && VisitBr(s, depth).Ok? {
      BrSucceeds(s, depth);
      var target, u := Acquire(s, depth).value, Bump(s, s.base).value;
      AcquireFine(s, depth);
      BumpMetered(from, s, s.base, u);
      BrLabel(s, depth, target, u);
      BrIs(s, depth, target, u);
      hide Acquire;
      hide Bump;
      hide VisitBr;
      hide Metered;
      hide Take;
      TakeMetered(from, u, target);
    }
  }

  lemma BrLabel(s: Translation, depth: nat, target: Target, u: Translation)
    requires s.reachable && Acquire(s, depth) == Ok(target) && Bump(s, s.base) == Ok(u) && VisitBr(s, depth).Ok?
    requires u == s.(code := u.code)
    ensures target.lab.Some? ==> target.lab.value < |u.labels|
  {
    hide Acquire;
    hide Bump;
    hide VisitReturn;
    hide DK.Lower;
  }

  /** A fresh charge for the innermost frame. */
  lemma RechargeMetered(from: nat, s: Translation, t: Translation)
    requires Metered(from, s) && s.reachable && s.frames != [] && !s.frames[|s.frames| - 1].DeadFrame?
    requires Recharge(s) == Ok(t)
    ensures Metered(from, t)
  {
    var f, n := s.frames[|s.frames| - 1], |s.frames|;
    var g := f.(fuel := O.Some(|s.code|));
    assert t == NewCharge(s).(frames := s.frames[n - 1 := g]);
    forall j | 1 <= j < n ensures FrameFine(t.frames[j]) {
      assert FrameFine(s.frames[j]);
    }
    ChargeMetered(from, s, t);
  }

  lemma BrIfExt(from: nat, u: Translation, target: Target)
    requires Metered(from, u) && u.reachable && |DK.Lower(target.dropKeep)| + 2 < B31
    requires target.lab.Some? ==> 1 <= target.lab.value < |u.labels|
    requires LiveCharge(u).Some? && PaidAt(u.code, u.base, LiveCharge(u).value)
    ensures Metered(from, BrIfEmitted(u, target))
  {
    var v := BrIfEmitted(u, target);
    if target.lab.Some? && target.dropKeep.drop == 0 {
      AppendMetered(from, u, [Jump(O.IfNez, target.lab.value)], v);
    } else {
      var skip := |DK.Lower(target.dropKeep)| + 2;
      TailExt(u, target);
      hide DK.Lower;
      var ext := [Op(O.Branch(O.IfEqz, skip))] + Tail(target);
      assert v.code == u.code + ext;
      SkipExt(u, skip, Tail(target));
      hide Metered;
      AppendMetered(from, u, ext, v);
    }
  }

  lemma SkipExt(u: Translation, skip: O.I32, tail: seq<SymOp>)
    requires ExtFine(u, tail) && skip == |tail| + 1
    ensures ExtFine(u, [Op(O.Branch(O.IfEqz, skip))] + tail)
  {
    var first := [Op(O.Branch(O.IfEqz, skip))];
    var ext := first + tail;
    forall i | 0 <= i < |ext| ensures !IsCharge(ext, i) {
      if i > 0 {
        assert !IsCharge(tail, i - 1);
      }
    }
    forall i | 0 <= i < |ext| ensures OpFine(ext, i) {
      if i > 0 {
        OpFineRight(first, tail, i - 1);
      }
    }
    forall i | 0 <= i < |ext| && ext[i].Jump? ensures ext[i] == tail[i - 1] {
    }
  }

  lemma BrIfMetered(from: nat, s: Translation, depth: nat)
    requires Metered(from, s) && s.frames != []
    ensures MeteredResult(from, VisitBrIf(s, depth))
  {
    if s.reachable && VisitBrIf(s, depth).Ok? {
      BrIfSucceeds(s, depth);
      var p := PopCondition(s).value;
      FramesMetered(from, s, p);
      var target, u := Acquire(p, depth).value, Bump(p, p.base).value;
      AcquireFine(p, depth);
      BumpMetered(from, p, p.base, u);
      LiveFrame(from, p);
      BrIfLabel(s, depth, p, target, u);
      hide Acquire;
      hide Bump;
      hide Metered;
      BrIfIs(u, target);
      BrIfExt(from, u, target);
      BrIfFrames(u, target);
      hide EmitBrIf;
      hide BrIfEmitted;
      RechargeMetered(from, BrIfEmitted(u, target), VisitBrIf(s, depth).value);
    }
  }

  lemma BrIfFrames(u: Translation, target: Target)
    requires |DK.Lower(target.dropKeep)| + 2 < B31
    ensures var v := BrIfEmitted(u, target); v.frames == u.frames && v.reachable == u.reachable
  {
    hide DK.Lower;
  }

  lemma LiveFrame(from: nat, s: Translation)
    requires Metered(from, s) && s.reachable && s.frames != []
    ensures !s.frames[|s.frames| - 1].DeadFrame?
  {
  }

  lemma BrIfLabel(s: Translation, depth: nat, p: Translation, target: Target, u: Translation)
    requires s.reachable && PopCondition(s) == Ok(p) && Acquire(p, depth) == Ok(target) && Bump(p, p.base) == Ok(u)
    requires VisitBrIf(s, depth).Ok?
    requires u == p.(code := u.code)
    ensures target.lab.Some? ==> target.lab.value < |u.labels|
    ensures EmitBrIf(u, target).Ok? && VisitBrIf(s, depth) == Recharge(EmitBrIf(u, target).value)
  {
    hide Acquire;
    hide Bump;
    hide DK.Lower;
    hide Recharge;
  }
}
