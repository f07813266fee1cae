/** Validated bodies are translated without a panic, block by block. */
module Structure {
  import opened Words
  import O = Opcodes
  import opened Source
  import opened Validation
  import opened Layout
  import opened Translator
  import opened Invariants
  import opened Frames
  import opened Progress
  import opened Control
  import opened Branches

  /** What lies under the operands of a block that takes `params` off the top of `ts`. */
  function Under(below: seq<ValType>, ts: seq<ValType>, params: seq<ValType>): seq<ValType>
    requires |params| <= |ts|
  {
    below + ts[..|ts| - |params|]
  }

  /** `t` has entered frame `f` from `s`, with the block's parameters as operands. */
  ghost predicate Entered(s: Translation, t: Translation, f: Frame, c: Ctx, lab: seq<ValType>, below: seq<ValType>) {
    && !f.DeadFrame?
    && t.frames == s.frames + [f]
    && Extends(s, t) && t.paramWords == s.paramWords
    && WordsOf(below) == s.paramWords + f.height
    && At(t, Enter(c, lab), below, Params(f.bt))
  }

  lemma UnderWords(s: Translation, c: Ctx, below: seq<ValType>, ts: seq<ValType>, params: seq<ValType>)
    requires StackOK(s) && Placed(s, c, below) && s.types == below + ts && EndsWith(ts, params)
    ensures var under := Under(below, ts, params);
            && WordsOf(params) <= s.height
            && WordsOf(under) == s.paramWords + (s.height - WordsOf(params))
            && s.types == under + params
            && below <= under && c.locals <= under
            && WordsOf(c.locals) <= WordsOf(under)
            && s.frames[|s.frames| - 1].height <= s.height - WordsOf(params)
  {
    hide WordsOf;
    var under := Under(below, ts, params);
    HeightOfOperands(s, c, below, ts);
    SuffixWords(ts, params);
    assert s.types == under + params;
    WordsAppend(under, params);
    WordsAppend(below, ts[..|ts| - |params|]);
  }

  /** Pushing a frame whose height is that of the words under the block's parameters. */
  lemma PlacedPush(s: Translation, t: Translation, f: Frame, c: Ctx, below: seq<ValType>, ts: seq<ValType>)
    requires StackOK(s) && Placed(s, c, below) && s.types == below + ts && EndsWith(ts, Params(f.bt))
    requires !f.DeadFrame? && f.height == s.height - WordsOf(Params(f.bt))
    requires t.frames == s.frames + [f] && t.paramWords == s.paramWords
    ensures Placed(t, Enter(c, LabelTypes(f)), Under(below, ts, Params(f.bt)))
  {
    hide WordsOf;
    UnderWords(s, c, below, ts, Params(f.bt));
  }

  lemma BlockEntered(s: Translation, c: Ctx, below: seq<ValType>, ts: seq<ValType>, bt: BlockType)
    requires At(s, c, below, ts) && EndsWith(ts, Params(bt))
    ensures match VisitBlock(s, bt)
            case Err(_) => false
            case Ok(t) =>
              && |t.frames| == |s.frames| + 1 && t.frames[|s.frames|].BlockFrame? && t.frames[|s.frames|].bt == bt
              && t.code == s.code && LiveCharge(t) == LiveCharge(s)
              && Entered(s, t, t.frames[|s.frames|], c, Results(bt), Under(below, ts, Params(bt)))
  {
    hide WordsOf;
    hide WF;
    hide Extends;
    assert s.frames != [];
    hide Placed;
    UnderWordsAt(s, c, below, ts, Params(bt));
    var h := s.height - WordsOf(Params(bt));
    BlockPushed(s, bt, h);
    var t := BlockPush(s, bt, h);
    PlacedPushAt(s, t, t.frames[|s.frames|], c, below, ts);
  }

  function BlockPush(s: Translation, bt: BlockType, h: nat): Translation
    requires s.frames != []
  {
    PushFrame(NewLabel(s), BlockFrame(bt, |s.labels|, h, FuelSlot(s.frames[|s.frames| - 1])))
  }

  lemma BlockPushed(s: Translation, bt: BlockType, h: nat)
    requires WF(s) && s.reachable && s.frames != []
    ensures WF(BlockPush(s, bt, h)) && Extends(s, BlockPush(s, bt, h))
  {
    var t := BlockPush(s, bt, h);
    assert FrameOK(s, s.frames[|s.frames| - 1]);
    PushKeeps(s, NewLabel(s), t.frames[|s.frames|]);
  }

  lemma LoopEntered(s: Translation, c: Ctx, below: seq<ValType>, ts: seq<ValType>, bt: BlockType)
    requires At(s, c, below, ts) && EndsWith(ts, Params(bt))
    ensures match VisitLoop(s, bt)
            case Err(_) => false
            case Ok(t) =>
              && |t.frames| == |s.frames| + 1 && t.frames[|s.frames|].LoopFrame? && t.frames[|s.frames|].bt == bt
              && t.code == NewCharge(s).code
              && LiveCharge(t) == (if s.metered then O.Some(|s.code|) else O.None)
              && t.frames[|s.frames|].head < |t.labels| && t.labels[t.frames[|s.frames|].head] == O.Some(|s.code|)
              && Entered(s, t, t.frames[|s.frames|], c, Params(bt), Under(below, ts, Params(bt)))
  {
    hide WordsOf;
    hide WF;
    hide Extends;
    hide Placed;
    UnderWordsAt(s, c, below, ts, Params(bt));
    var h := s.height - WordsOf(Params(bt));
    var u := s.(labels := s.labels + [O.Some(|s.code|)]);
    assert (s.labels + [O.None])[|s.labels| := O.Some(|s.code|)] == u.labels;
    LoopPushed(s, u, bt, h);
    var f := LoopFrame(bt, |s.labels|, h, NewSlot(u));
    var t := PushFrame(NewCharge(u), f);
    PlacedPushAt(s, t, f, c, below, ts);
  }

  lemma LoopPushed(s: Translation, u: Translation, bt: BlockType, h: nat)
    requires WF(s) && s.reachable && u == s.(labels := s.labels + [O.Some(|s.code|)])
    ensures var t := PushFrame(NewCharge(u), LoopFrame(bt, |s.labels|, h, NewSlot(u)));
            WF(t) && Extends(s, t)
  {
    var v := NewCharge(s);
    NewChargeKeeps(s);
    var f := LoopFrame(bt, |s.labels|, h, NewSlot(u));
    var w := NewCharge(u);
    assert w == v.(labels := w.labels);
    PushKeeps(v, w, f);
  }

  /** The condition is popped, and the first branch starts behind a conditional jump to the second. */
  lemma IfEntered(s: Translation, c: Ctx, below: seq<ValType>, ts: seq<ValType>, bt: BlockType)
    requires At(s, c, below, ts) && |ts| >= 1 && ts[|ts| - 1] == I32 && EndsWith(ts[..|ts| - 1], Params(bt))
    ensures match VisitIf(s, bt)
            case Err(e) => e == BlockFuelOutOfBounds
            case Ok(t) =>
              && |t.frames| == |s.frames| + 1 && t.frames[|s.frames|].IfFrame? && t.frames[|s.frames|].bt == bt
              && t.frames[|s.frames|].thenReachable.None? && t.frames[|s.frames|].els == |s.labels|
              && Bump(s, s.base).Ok?
              && t.code == NewCharge(Emit(Bump(s, s.base).value, [Jump(O.IfEqz, |s.labels|)])).code
              && LiveCharge(t) == (if s.metered then O.Some(|s.code| + 1) else O.None)
              && Entered(s, t, t.frames[|s.frames|], c, Results(bt), Under(below, ts[..|ts| - 1], Params(bt)))
  {
    hide VisitIf;
    hide Bump;
    hide WordsOf;
    hide WF;
    hide Extends;
    hide Placed;
    ConditionPopped(s, c, below, ts);
    var p := PopCondition(s).value;
    hide PopCondition;
    assert s.types[..|s.types| - 1] == p.types;
    BumpStays(p, c, below, ts[..|ts| - 1], s.base);
    SameBump(s, p, s.base);
    BumpOnlyCode(s, s.base);
    UnderWordsAt(p, c, below, ts[..|ts| - 1], Params(bt));
    var h := p.height - WordsOf(Params(bt));
    IfIs(s, p, bt, h);
    if Bump(s, s.base).Ok? {
      var b := Bump(p, s.base).value;
      var t := IfPushed(b, bt, h);
      IfPushedKeeps(b, bt, h);
      PlacedPushAt(b, t, t.frames[|s.frames|], c, below, ts[..|ts| - 1]);
      ExtendsTransitive(s, p, b);
      ExtendsTransitive(s, b, t);
    }
  }

  lemma UnderWordsAt(s: Translation, c: Ctx, below: seq<ValType>, ts: seq<ValType>, params: seq<ValType>)
    requires At(s, c, below, ts) && EndsWith(ts, params)
    ensures var under := Under(below, ts, params);
            && WordsOf(params) <= s.height
            && WordsOf(under) == s.paramWords + (s.height - WordsOf(params))
            && s.types == under + params
  {
    hide WordsOf;
    UnderWords(s, c, below, ts, params);
  }

  lemma PlacedPushAt(s: Translation, t: Translation, f: Frame, c: Ctx, below: seq<ValType>, ts: seq<ValType>)
    requires At(s, c, below, ts) && EndsWith(ts, Params(f.bt))
    requires !f.DeadFrame? && f.height == s.height - WordsOf(Params(f.bt))
    requires t.frames == s.frames + [f] && t.paramWords == s.paramWords
    ensures Placed(t, Enter(c, LabelTypes(f)), Under(below, ts, Params(f.bt)))
  {
    hide WordsOf;
    hide Placed;
    PlacedPush(s, t, f, c, below, ts);
  }

  /** `if` is: pop the condition, charge, jump, and enter. */
  lemma IfIs(s: Translation, p: Translation, bt: BlockType, h: nat)
    requires s.reachable && s.height >= 1 && s.types != []
    requires p == s.(height := s.height - 1, types := s.types[..|s.types| - 1])
    requires WordsOf(Params(bt)) <= p.height && h == p.height - WordsOf(Params(bt))
    ensures match Bump(p, s.base)
            case Ok(b) => VisitIf(s, bt) == Ok(IfPushed(b, bt, h))
            case Err(e) => VisitIf(s, bt) == Err(e)
  {
    hide WordsOf;
    hide NewCharge;
    hide NewSlot;
    SameBump(p, NewLabel(NewLabel(p)), s.base);
    BumpOnlyCode(p, s.base);
    hide Bump;
  }

  lemma BumpOnlyCode(p: Translation, delta: nat)
    ensures Bump(p, delta).Ok? ==> Bump(p, delta).value == p.(code := Bump(p, delta).value.code)
  {
  }

  lemma SameBump(s: Translation, p: Translation, delta: nat)
    requires p.frames == s.frames && p.code == s.code && p.metered == s.metered
    ensures Bump(s, delta).Ok? <==> Bump(p, delta).Ok?
    ensures Bump(s, delta).Ok? ==> Bump(p, delta).value == p.(code := Bump(s, delta).value.code)
    ensures Bump(s, delta).Err? ==> Bump(p, delta) == Err(Bump(s, delta).failure)
  {
  }

  /** The state after an `if`, from the one whose charge has been bumped. */
  function IfPushed(b: Translation, bt: BlockType, h: nat): Translation {
    IfPushedWith(b, bt, h, Jump(O.IfEqz, |b.labels|))
  }

  lemma StandIn(b: Translation)
    requires WF(b) && b.reachable
    ensures WF(NewCharge(Emit(b, [Op(O.Drop)])))
  {
    var u := Emit(b, [Op(O.Drop)]);
    AppendKeeps(b, [Op(O.Drop)], b.types, b.height, 0, true);
    hide WF;
    hide Extends;
    assert u.(maxHeight := Max(b.maxHeight, 0)) == u;
    NewChargeKeeps(u);
  }

  lemma IfPushedKeeps(b: Translation, bt: BlockType, h: nat)
    requires WF(b) && b.reachable
    ensures WF(IfPushed(b, bt, h)) && Extends(b, IfPushed(b, bt, h))
  {
    // The jump is known only once the frame is there, so another opcode stands in for it first.
    hide Extends;
    hide WF;
    var t, n := IfPushed(b, bt, h), |b.labels|;
    var v, w := NewCharge(Emit(b, [Op(O.Drop)])), IfPushedWith(b, bt, h, Op(O.Drop));
    StandIn(b);
    IfFramePushed(v, w);
    assert Opens(w.frames[|b.frames|]) == {n, n + 1};
    assert Known(w, n) by { assert n in Opens(w.frames[|b.frames|]); }
    SwapIn(w, |b.code|, Jump(O.IfEqz, n));
    assert t.code == w.code[|b.code| := Jump(O.IfEqz, n)];
    assert t == w.(code := t.code);
    IfPushedExtends(b, bt, h);
  }

  function IfPushedWith(b: Translation, bt: BlockType, h: nat, op: SymOp): Translation {
    var u := Emit(NewLabel(NewLabel(b)), [op]);
    PushFrame(NewCharge(u), IfFrame(bt, |b.labels| + 1, |b.labels|, h, NewSlot(u), O.None))
  }

  lemma IfFramePushed(v: Translation, w: Translation)
    requires WF(v) && v.reachable && |w.frames| == |v.frames| + 1
    requires w == v.(labels := v.labels + [O.None] + [O.None], frames := w.frames)
    requires w.frames[..|v.frames|] == v.frames
    requires var f := w.frames[|v.frames|];
             && f.IfFrame? && f.end == |v.labels| + 1 && f.els == |v.labels| && f.thenReachable.None?
             && (f.fuel.Some? <==> v.metered) && (v.metered ==> IsCharge(v.code, f.fuel.value))
    ensures WF(w)
  {
    var f := w.frames[|v.frames|];
    var u := v.(labels := w.labels);
    PushKeeps(v, u, f);
    assert w == PushFrame(u, f);
  }

  lemma IfPushedExtends(b: Translation, bt: BlockType, h: nat)
    ensures Extends(b, IfPushed(b, bt, h))
  {
  }

  /** Replacing an opcode that is not a charge by a jump to a known label. */
  lemma SwapIn(w: Translation, at: nat, j: SymOp)
    requires WF(w) && at < |w.code| && !IsCharge(w.code, at)
    requires j.Jump? && Known(w, j.target)
    ensures WF(w.(code := w.code[at := j]))
  {
    var t := w.(code := w.code[at := j]);
    forall i | 0 <= i < |t.frames| ensures FrameOK(t, t.frames[i]) {
      assert FrameOK(w, w.frames[i]);
    }
    forall i | 0 <= i < |t.code| && t.code[i].Jump? ensures Known(t, t.code[i].target) {
      if i != at {
        assert Known(w, w.code[i].target);
      } else {
        assert Known(w, j.target);
      }
    }
  }
}
