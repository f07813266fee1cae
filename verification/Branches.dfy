/** Translating branches of validated code. */
module Branches {
  import opened Words
  import O = Opcodes
  import opened Source
  import opened Validation
  import opened Layout
  import opened Translator
  import opened Invariants
  import opened Frames
  import opened Progress
  import DK = DropKeeps

  /** The validator's view of the state: operand types `ts` over `below`, under the labels of `c`. */
  ghost predicate At(s: Translation, c: Ctx, below: seq<ValType>, ts: seq<ValType>) {
    WF(s) && s.reachable && Placed(s, c, below) && s.types == below + ts
  }

  function FrameAt(s: Translation, depth: nat): Frame
    requires depth < |s.frames|
  {
    s.frames[|s.frames| - 1 - depth]
  }

  /** Where a branch to `depth` goes, and how it reshapes the operands on the way. */
  ghost predicate TargetOK(s: Translation, c: Ctx, depth: nat, t: Target) {
    && depth < |s.frames| == |c.labels|
    && var f := FrameAt(s, depth);
       var root := depth == |s.frames| - 1;
       && !f.DeadFrame?
       && t.lab == (if root then O.None else O.Some(LabelOf(f)))
       && (t.lab.Some? ==> Known(s, t.lab.value))
       && t.dropKeep.keep == WordsOf(Label(c, depth))
       && t.dropKeep.drop + t.dropKeep.keep == s.height - f.height + (if root then s.paramWords else 0)
  }

  lemma SuffixWords(ts: seq<ValType>, us: seq<ValType>)
    requires EndsWith(ts, us)
    ensures WordsOf(us) <= WordsOf(ts)
  {
    hide WordsOf;
    assert ts == ts[..|ts| - |us|] + us;
    WordsAppend(ts[..|ts| - |us|], us);
  }

  lemma HeightsFit(s: Translation, c: Ctx, below: seq<ValType>, ts: seq<ValType>, depth: nat)
    requires At(s, c, below, ts) && Targets(c, depth, ts)
    ensures !FrameAt(s, depth).DeadFrame? && LabelTypes(FrameAt(s, depth)) == Label(c, depth)
    ensures FrameAt(s, depth).height + WordsOf(Label(c, depth)) <= s.height
  {
    hide WordsOf;
    hide FramesOK;
    hide JumpsOK;
    HeightOfOperands(s, c, below, ts);
    SuffixWords(ts, Label(c, depth));
  }

  lemma FrameKnown(s: Translation, j: nat)
    requires WF(s) && j < |s.frames| && !s.frames[j].DeadFrame?
    ensures Known(s, LabelOf(s.frames[j]))
  {
    assert FrameOK(s, s.frames[j]);
    if !s.frames[j].LoopFrame? {
      assert s.frames[j].end in Opens(s.frames[j]);
    }
  }

  lemma AcquireGood(s: Translation, c: Ctx, below: seq<ValType>, ts: seq<ValType>, depth: nat)
    requires At(s, c, below, ts) && Targets(c, depth, ts)
    ensures match Acquire(s, depth)
            case Err(e) => e == DropKeepOutOfBounds
            case Ok(t) => TargetOK(s, c, depth, t)
  {
    hide WordsOf;
    HeightsFit(s, c, below, ts, depth);
    FrameKnown(s, |s.frames| - 1 - depth);
    hide WF;
  }

  lemma ReturnAcquired(s: Translation, c: Ctx, below: seq<ValType>, ts: seq<ValType>)
    requires At(s, c, below, ts) && EndsWith(ts, c.results)
    ensures match DropKeepReturn(s)
            case Err(e) => e == DropKeepOutOfBounds
            case Ok(dk) => TargetOK(s, c, |s.frames| - 1, Target(O.None, dk))
  {
    AcquireGood(s, c, below, ts, |s.frames| - 1);
  }

  // ----- emitting -----

  /** Moves, then code with known jump targets, in one piece. */
  lemma EmitMovesThen(s: Translation, dk: DK.DropKeep, pre: seq<SymOp>, post: seq<SymOp>, reachable: bool)
    requires WF(s) && (reachable ==> s.reachable)
    requires forall i :: 0 <= i < |pre| ==> !pre[i].Jump?
    requires forall i :: 0 <= i < |post| && post[i].Jump? ==> Known(s, post[i].target)
    ensures var t := Emit(EmitDropKeep(Emit(s, pre), dk), post).(reachable := reachable);
            WF(t) && Extends(s, t) && t.frames == s.frames && t.types == s.types
  {
    hide WordsOf;
    hide DK.Headroom;
    hide FramesOK;
    hide JumpsOK;
    hide LabelsOK;
    hide Known;
    hide Extends;
    hide DK.Lower;
    var moves := Ops(DK.Lower(dk));
    JumpsAround(s, pre, DK.Lower(dk), post);
    hide Ops;
    AppendKeeps(s, pre + moves + post, s.types, s.height, s.height + DK.Headroom(dk), reachable);
    hide WF;
    AppendsThrice(s.code, pre, moves, post);
  }

  lemma JumpsAround(s: Translation, pre: seq<SymOp>, ops: seq<O.Opcode>, post: seq<SymOp>)
    requires forall i :: 0 <= i < |pre| ==> !pre[i].Jump?
    requires forall i :: 0 <= i < |post| && post[i].Jump? ==> Known(s, post[i].target)
    ensures var code := pre + Ops(ops) + post;
            forall i :: 0 <= i < |code| && code[i].Jump? ==> Known(s, code[i].target)
  {
    hide Known;
    var code, n := pre + Ops(ops) + post, |pre| + |ops|;
    forall i | 0 <= i < |code| && code[i].Jump? ensures Known(s, code[i].target) {
      assert i >= n;
      assert code[i] == post[i - n];
    }
  }

  lemma AppendsThrice(a: seq<SymOp>, b: seq<SymOp>, c: seq<SymOp>, d: seq<SymOp>)
    ensures a + b + c + d == a + (b + c + d)
  {
  }

  /** The flow of code after which nothing follows. */
  lemma DeadGood(s: Translation, u: Translation, t: Translation, below: seq<ValType>)
    requires Extends(s, u) && Extends(u, t) && WF(t) && s.frames == u.frames == t.frames != []
    requires !t.reachable && below <= t.types
    ensures Good(s, t, below, Dead)
  {
    hide WF;
    ExtendsTransitive(s, u, t);
    hide Extends;
    KeptSame(s, t);
  }

  lemma UnreachableGood(s: Translation, c: Ctx, below: seq<ValType>, ts: seq<ValType>)
    requires At(s, c, below, ts)
    ensures Good(s, VisitUnreachable(s), below, Dead)
  {
    hide WordsOf;
    AppendKeeps(s, [Op(O.Unreachable)], s.types, s.height, 0, false);
    var t := VisitUnreachable(s);
    hide WF;
    ExtendsReflexive(s);
    DeadGood(s, s, t, below);
  }

  /** What leaving the function emits, given the moves. */
  function Leave(s: Translation, dk: DK.DropKeep): Translation {
    Emit(EmitDropKeep(s, dk), [Op(O.Return)]).(reachable := false)
  }

  lemma LeaveGood(s: Translation, u: Translation, dk: DK.DropKeep, below: seq<ValType>)
    requires WF(u) && Extends(s, u) && s.frames == u.frames != [] && below <= u.types
    ensures Good(s, Leave(u, dk), below, Dead)
  {
    EmitMovesThen(u, dk, [], [Op(O.Return)], false);
    assert Emit(u, []).code == u.code;
    assert Emit(u, []) == u;
    hide WF;
    hide Extends;
    DeadGood(s, u, Leave(u, dk), below);
  }

  lemma ReturnGood(s: Translation, c: Ctx, below: seq<ValType>, ts: seq<ValType>)
    requires At(s, c, below, ts) && EndsWith(ts, c.results)
    ensures GoodResult(s, VisitReturn(s), below, Dead)
  {
    ReturnAcquired(s, c, below, ts);
    var r := DropKeepReturn(s);
    hide DropKeepReturn;
    if r.Ok? {
      ExtendsReflexive(s);
      hide WF;
      hide Extends;
      LeaveGood(s, s, r.value, below);
    }
  }

  /** What a branch to a label emits, given the moves. */
  function Branch(s: Translation, dk: DK.DropKeep, l: nat): Translation {
    Emit(EmitDropKeep(s, dk), [Jump(O.Always, l)]).(reachable := false)
  }

  lemma BranchGood(s: Translation, u: Translation, dk: DK.DropKeep, l: nat, below: seq<ValType>)
    requires WF(u) && Extends(s, u) && s.frames == u.frames != [] && below <= u.types && Known(u, l)
    ensures Good(s, Branch(u, dk, l), below, Dead)
  {
    EmitMovesThen(u, dk, [], [Jump(O.Always, l)], false);
    assert Emit(u, []).code == u.code;
    assert Emit(u, []) == u;
    hide WF;
    hide Extends;
    DeadGood(s, u, Branch(u, dk, l), below);
  }

  /** Bumping the charge does not disturb what a branch sees. */
  lemma BumpStays(s: Translation, c: Ctx, below: seq<ValType>, ts: seq<ValType>, delta: nat)
    requires At(s, c, below, ts)
    ensures match Bump(s, delta)
            case Err(e) => e == BlockFuelOutOfBounds
            case Ok(u) => At(u, c, below, ts) && Extends(s, u) && u == s.(code := u.code) && |u.code| == |s.code|
  {
    BumpKeeps(s, delta);
    hide WF;
    hide Extends;
  }

  /** What a branch does once its target is known and the charge has been bumped. */
  function Take(u: Translation, target: Target): Translation {
    if target.lab.None? then Leave(u, target.dropKeep) else Branch(u, target.dropKeep, target.lab.value)
  }

  lemma TakeGood(s: Translation, u: Translation, target: Target, below: seq<ValType>)
    requires WF(u) && Extends(s, u) && s.frames == u.frames != [] && below <= u.types
    requires target.lab.Some? ==> Known(u, target.lab.value)
    ensures Good(s, Take(u, target), below, Dead)
  {
    hide WF;
    hide Extends;
    hide Good;
    if target.lab.None? {
      LeaveGood(s, u, target.dropKeep, below);
    } else {
      BranchGood(s, u, target.dropKeep, target.lab.value, below);
    }
  }

  /** `br` is: acquire the target, charge, take the branch. */
  lemma BrIs(s: Translation, depth: nat, target: Target, u: Translation)
    requires s.reachable && Acquire(s, depth) == Ok(target) && Bump(s, s.base) == Ok(u) && u == s.(code := u.code)
    requires target.lab.Some? ==> target.lab.value < |u.labels|
    ensures match VisitBr(s, depth)
            case Ok(t) => t == Take(u, target)
            case Err(e) => e == BranchOffsetOutOfBounds
  {
    SameReturn(s, u, depth);
    hide Acquire;
    hide Bump;
    hide DropKeepReturn;
  }

  lemma BrGood(s: Translation, c: Ctx, below: seq<ValType>, ts: seq<ValType>, depth: nat)
    requires At(s, c, below, ts) && Targets(c, depth, ts)
    ensures GoodResult(s, VisitBr(s, depth), below, Dead)
  {
    AcquireGood(s, c, below, ts, depth);
    BumpStays(s, c, below, ts, s.base);
    var a, b := Acquire(s, depth), Bump(s, s.base);
    if a.Ok? && b.Ok? {
      assert a.value.lab.Some? ==> Known(b.value, a.value.lab.value);
      BrIs(s, depth, a.value, b.value);
      hide Acquire;
      hide Bump;
      hide VisitBr;
      hide Good;
      TakeGood(s, b.value, a.value, below);
    } else {
      hide Acquire;
      hide Bump;
    }
  }

  lemma SameReturn(s: Translation, u: Translation, depth: nat)
    requires Acquire(s, depth).Ok? && u == s.(code := u.code)
    ensures Acquire(s, depth).value.lab.None? ==> DropKeepReturn(u) == Ok(Acquire(s, depth).value.dropKeep)
  {
  }

  // ----- conditional branches -----

  lemma ConditionPopped(s: Translation, c: Ctx, below: seq<ValType>, ts: seq<ValType>)
    requires At(s, c, below, ts) && |ts| >= 1 && ts[|ts| - 1] == I32
    ensures match PopCondition(s)
            case Err(_) => false
            case Ok(t) =>
              && At(t, c, below, ts[..|ts| - 1]) && Extends(s, t)
              && t == s.(height := s.height - 1, types := below + ts[..|ts| - 1]) && s.height >= 1
  {
    hide WordsOf;
    hide FramesOK;
    hide JumpsOK;
    hide LabelsOK;
    FloorFits(s, c, below);
    Popping(s, below, ts);
    var t := s.(height := s.height - 1, types := below + ts[..|ts| - 1]);
    RestackKeeps(s, t.types, t.height);
    hide WF;
    hide Extends;
  }

  /** Only the emulated stack changes. */
  lemma RestackKeeps(s: Translation, types: seq<ValType>, height: nat)
    requires WF(s) && WordsOf(types) == s.paramWords + height && height <= s.maxHeight
    ensures var t := s.(types := types, height := height);
            WF(t) && Extends(s, t)
  {
    hide WordsOf;
    AppendKeeps(s, [], types, height, 0, s.reachable);
    assert Emit(s, []).code == s.code;
  }

  lemma FloorFits(s: Translation, c: Ctx, below: seq<ValType>)
    requires Placed(s, c, below)
    ensures s.paramWords <= WordsOf(below)
  {
    hide WordsOf;
  }

  /** The code of a conditional branch: one jump, or a skip over the moves. */
  function BrIfEmitted(u: Translation, target: Target): Translation
    requires |DK.Lower(target.dropKeep)| + 2 < B31
  {
    if target.lab.Some? && target.dropKeep.drop == 0 then Emit(u, [Jump(O.IfNez, target.lab.value)])
    else
      var t := Emit(u, [Op(O.Branch(O.IfEqz, |DK.Lower(target.dropKeep)| + 2))]);
      Emit(EmitDropKeep(t, target.dropKeep),
           [if target.lab.None? then Op(O.Return) else Jump(O.Always, target.lab.value)])
  }

  lemma LowerFits(dk: DK.DropKeep)
    ensures |DK.Lower(dk)| + 2 < B31
  {
    DK.LowerLength(dk);
  }

  lemma BrIfIs(u: Translation, target: Target)
    requires target.lab.Some? ==> target.lab.value < |u.labels|
    ensures |DK.Lower(target.dropKeep)| + 2 < B31
    ensures match EmitBrIf(u, target)
            case Ok(v) => v == BrIfEmitted(u, target)
            case Err(e) => e == BranchOffsetOutOfBounds
  {
    LowerFits(target.dropKeep);
    hide DK.Lower;
  }

  lemma BrIfEmittedKeeps(u: Translation, target: Target)
    requires WF(u) && u.reachable && |DK.Lower(target.dropKeep)| + 2 < B31
    requires target.lab.Some? ==> Known(u, target.lab.value)
    ensures var v := BrIfEmitted(u, target);
            WF(v) && Extends(u, v) && v.frames == u.frames && v.types == u.types && v.reachable
  {
    if target.lab.Some? && target.dropKeep.drop == 0 {
      AppendKeeps(u, [Jump(O.IfNez, target.lab.value)], u.types, u.height, 0, true);
    } else {
      var pre := [Op(O.Branch(O.IfEqz, |DK.Lower(target.dropKeep)| + 2))];
      var post := [if target.lab.None? then Op(O.Return) else Jump(O.Always, target.lab.value)];
      EmitMovesThen(u, target.dropKeep, pre, post, true);
    }
    hide WF;
    hide Extends;
  }

  lemma BrIfGood(s: Translation, c: Ctx, below: seq<ValType>, ts: seq<ValType>, depth: nat)
    requires At(s, c, below, ts) && |ts| >= 1 && ts[|ts| - 1] == I32 && Targets(c, depth, ts[..|ts| - 1])
    ensures GoodResult(s, VisitBrIf(s, depth), below, Live(ts[..|ts| - 1]))
  {
    hide WordsOf;
    hide WF;
    hide Extends;
    ConditionPopped(s, c, below, ts);
    var t := PopCondition(s).value;
    AcquireGood(t, c, below, ts[..|ts| - 1], depth);
    BumpStays(t, c, below, ts[..|ts| - 1], t.base);
    var a, b := Acquire(t, depth), Bump(t, t.base);
    hide Acquire;
    hide Bump;
    hide PopCondition;
    if a.Ok? && b.Ok? {
      assert a.value.lab.Some? ==> Known(b.value, a.value.lab.value);
      hide Known;
      hide Placed;
      ExtendsTransitive(s, t, b.value);
      BrIfCharged(s, b.value, a.value);
      BrIfIs(b.value, a.value);
      hide EmitBrIf;
      hide BrIfEmitted;
      hide Recharge;
    }
  }

  /** The conditional branch, with the fresh charge behind it. */
  lemma BrIfCharged(s: Translation, u: Translation, target: Target)
    requires WF(u) && u.reachable && Extends(s, u) && u.frames == s.frames != []
    requires target.lab.Some? ==> Known(u, target.lab.value)
    ensures |DK.Lower(target.dropKeep)| + 2 < B31 && Recharge(BrIfEmitted(u, target)).Ok?
    ensures var w := Recharge(BrIfEmitted(u, target)).value;
            WF(w) && Extends(s, w) && Kept(s, w) && w.types == u.types && w.reachable
  {
    hide WF;
    hide Extends;
    hide Known;
    LowerFits(target.dropKeep);
    BrIfEmittedKeeps(u, target);
    var v := BrIfEmitted(u, target);
    hide BrIfEmitted;
    RechargeKeeps(v);
    hide Recharge;
    ExtendsTransitive(s, u, v);
    ExtendsTransitive(s, v, Recharge(v).value);
  }

  // ----- branch tables -----

  ghost predicate TablesOK(s: Translation, acc: Tables) {
    && (forall i :: 0 <= i < |acc.slots| && acc.slots[i].Jump? ==> Known(s, acc.slots[i].target))
    && (forall i :: 0 <= i < |acc.trampolines| && acc.trampolines[i].Jump? ==> Known(s, acc.trampolines[i].target))
  }

  lemma EncodeTargetGood(s: Translation, at: nat, size: nat, target: Target, acc: Tables)
    requires TablesOK(s, acc) && (target.lab.Some? ==> Known(s, target.lab.value))
    ensures match EncodeTarget(s, at, size, target, acc)
            case Err(e) => e != Panic
            case Ok(t) => TablesOK(s, t)
  {
    hide DK.Lower;
    hide FitsOffset;
  }

  lemma {:induction false} EncodeTargetsGood(s: Translation, c: Ctx, below: seq<ValType>, ts: seq<ValType>,
                                             at: nat, size: nat, depths: seq<nat>, acc: Tables)
    requires At(s, c, below, ts) && TablesOK(s, acc) && forall k :: k in depths ==> Targets(c, k, ts)
    ensures match EncodeTargets(s, at, size, depths, acc)
            case Err(e) => e != Panic
            case Ok(t) => TablesOK(s, t)
    decreases |depths|
  {
    hide WF;
    hide TablesOK;
    if depths != [] {
      AcquireGood(s, c, below, ts, depths[0]);
      var a := Acquire(s, depths[0]);
      hide Acquire;
      if a.Ok? {
        EncodeTargetGood(s, at, size, a.value, acc);
        var e := EncodeTarget(s, at, size, a.value, acc);
        hide EncodeTarget;
        if e.Ok? {
          EncodeTargetsGood(s, c, below, ts, at, size, depths[1..], e.value);
        }
      }
    }
  }

  function BrTableEmitted(t: Translation, n: Word, tables: Tables): Translation {
    Emit(t, [Op(O.BrTable(n))] + tables.slots + tables.trampolines).(maxHeight := Max(t.maxHeight, tables.peak),
                                                                     reachable := false)
  }

  lemma BrTableIs(s: Translation, depths: seq<nat>, default: nat, u: Translation, t: Translation)
    requires s.reachable && Bump(s, s.base) == Ok(u) && PopCondition(u) == Ok(t)
    ensures var r := EncodeTargets(t, |t.code| + 1, 2 * |depths| + 2, depths + [default], Tables([], [], 0));
            match VisitBrTable(s, depths, default)
            case Ok(v) => r.Ok? && |depths| + 1 < B32 && v == BrTableEmitted(t, |depths| + 1, r.value)
            case Err(e) => e == BranchTableTargetsOutOfBounds || r == Err(e)
  {
    hide Bump;
    hide PopCondition;
    hide EncodeTargets;
  }

  lemma BrTableGood(s: Translation, c: Ctx, below: seq<ValType>, ts: seq<ValType>, depths: seq<nat>, default: nat)
    requires At(s, c, below, ts) && |ts| >= 1 && ts[|ts| - 1] == I32
    requires forall k :: k in depths + [default] ==> Targets(c, k, ts[..|ts| - 1])
    ensures GoodResult(s, VisitBrTable(s, depths, default), below, Dead)
  {
    hide WordsOf;
    hide WF;
    hide Extends;
    hide Good;
    hide BrTableEmitted;
    BumpStays(s, c, below, ts, s.base);
    var b := Bump(s, s.base);
    if b.Ok? {
      ConditionPopped(b.value, c, below, ts);
      var t := PopCondition(b.value).value;
      BrTableIs(s, depths, default, b.value, t);
      hide VisitBrTable;
      var at, size := |t.code| + 1, 2 * |depths| + 2;
      EncodeTargetsGood(t, c, below, ts[..|ts| - 1], at, size, depths + [default], Tables([], [], 0));
      var r := EncodeTargets(t, at, size, depths + [default], Tables([], [], 0));
      hide EncodeTargets;
      ExtendsTransitive(s, b.value, t);
      if r.Ok? && |depths| + 1 < B32 {
        BrTableEmittedGood(s, t, |depths| + 1, r.value, below);
      }
    } else {
      hide Bump;
    }
  }

  lemma BrTableEmittedGood(s: Translation, t: Translation, n: Word, tables: Tables, below: seq<ValType>)
    requires WF(t) && Extends(s, t) && s.frames == t.frames != [] && below <= t.types && TablesOK(t, tables)
    ensures Good(s, BrTableEmitted(t, n, tables), below, Dead)
  {
    var code := [Op(O.BrTable(n))] + tables.slots + tables.trampolines;
    forall i | 0 <= i < |code| && code[i].Jump? ensures Known(t, code[i].target) {
      if 1 <= i < 1 + |tables.slots| {
        assert code[i] == tables.slots[i - 1];
      } else {
        assert code[i] == tables.trampolines[i - 1 - |tables.slots|];
      }
    }
    AppendKeeps(t, code, t.types, t.height, tables.peak, false);
    hide WF;
    hide Extends;
    DeadGood(s, t, BrTableEmitted(t, n, tables), below);
  }
}
