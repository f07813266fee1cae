/** What every translation state satisfies, and how a later state relates to an earlier one. */
module Invariants {
  import opened Words
  import O = Opcodes
  import opened Source
  import opened Layout
  import opened Translator

  // ----- one state -----

  /** Labels that are still to be pinned when the frame ends. */
  function Opens(f: Frame): set<nat> {
    match f
    case BlockFrame(_, end, _, _) => {end}
    case LoopFrame(_, _, _, _) => {}
    case IfFrame(_, end, els, _, _, r) => if r.None? then {end, els} else {end}
    case DeadFrame(_, _) => {}
  }

  ghost predicate Open(frames: seq<Frame>, l: nat) {
    exists j :: 0 <= j < |frames| && l in Opens(frames[j])
  }

  ghost predicate IsCharge(code: seq<SymOp>, at: nat) {
    at < |code| && code[at].Op? && code[at].op.ConsumeFuel?
  }

  ghost predicate FrameOK(s: Translation, f: Frame) {
    && (forall l :: l in Opens(f) ==> l < |s.labels| && s.labels[l].None?)
    && (f.LoopFrame? ==> f.head < |s.labels| && s.labels[f.head].Some?)
    && (f.IfFrame? ==> f.els != f.end && f.els < |s.labels| && (f.thenReachable.Some? ==> s.labels[f.els].Some?))
    && (!f.DeadFrame? ==> (f.fuel.Some? <==> s.metered) && (s.metered ==> IsCharge(s.code, f.fuel.value)))
  }

  ghost predicate FramesOK(s: Translation) {
    && (forall j :: 0 <= j < |s.frames| ==> FrameOK(s, s.frames[j]))
    && (forall j, k :: 0 <= j < k < |s.frames| ==> Opens(s.frames[j]) !! Opens(s.frames[k]))
    && (forall j, k :: 0 <= j < k < |s.frames| && s.frames[j].DeadFrame? ==> s.frames[k].DeadFrame?)
    && (s.reachable && s.frames != [] ==> !s.frames[|s.frames| - 1].DeadFrame?)
  }

  ghost predicate LabelsOK(s: Translation) {
    forall l :: 0 <= l < |s.labels| && s.labels[l].Some? ==> s.labels[l].value <= |s.code|
  }

  ghost predicate Known(s: Translation, l: nat) {
    l < |s.labels| && (s.labels[l].Some? || Open(s.frames, l))
  }

  ghost predicate JumpsOK(s: Translation) {
    forall i :: 0 <= i < |s.code| && s.code[i].Jump? ==> Known(s, s.code[i].target)
  }

  ghost predicate StackOK(s: Translation) {
    WordsOf(s.types) == s.paramWords + s.height && s.height <= s.maxHeight
  }

  ghost predicate WF(s: Translation) {
    FramesOK(s) && LabelsOK(s) && JumpsOK(s) && StackOK(s)
  }

  // ----- two states -----

  /** The charge that can still grow. */
  function LiveCharge(s: Translation): O.Option<nat> {
    if s.reachable && s.frames != [] then FuelSlot(s.frames[|s.frames| - 1]) else O.None
  }

  /** An opcode of an earlier state: only the live charge may have grown. */
  ghost predicate Grown(live: bool, a: SymOp, b: SymOp) {
    if live && a.Op? && a.op.ConsumeFuel?
    then b.Op? && b.op.ConsumeFuel? && a.op.fuel <= b.op.fuel
    else a == b
  }

  ghost predicate CodeExtends(s: Translation, t: Translation) {
    && |s.code| <= |t.code|
    && (forall i :: 0 <= i < |s.code| ==> Grown(LiveCharge(s) == O.Some(i), s.code[i], t.code[i]))
    && (LiveCharge(t).Some? ==> LiveCharge(t) == LiveCharge(s) || LiveCharge(t).value >= |s.code|)
  }

  /** Pinned labels stay, and labels pinned since then lie in the code emitted since then. */
  ghost predicate LabelsExtend(s: Translation, t: Translation) {
    && |s.labels| <= |t.labels|
    && (forall l :: 0 <= l < |s.labels| && s.labels[l].Some? ==> t.labels[l] == s.labels[l])
    && (forall l :: 0 <= l < |t.labels| && t.labels[l].Some? && (l < |s.labels| ==> s.labels[l].None?)
          ==> |s.code| <= t.labels[l].value)
  }

  ghost predicate Extends(s: Translation, t: Translation) {
    && CodeExtends(s, t)
    && LabelsExtend(s, t)
    && s.maxHeight <= t.maxHeight
    && s.metered == t.metered && s.base == t.base && s.paramWords == t.paramWords
  }

  lemma ExtendsReflexive(s: Translation)
    ensures Extends(s, s)
  {
  }

  lemma ExtendsTransitive(s: Translation, t: Translation, u: Translation)
    requires Extends(s, t) && Extends(t, u)
    ensures Extends(s, u)
  {
    CodeTransitive(s, t, u);
    LabelsTransitive(s, t, u);
  }

  lemma CodeTransitive(s: Translation, t: Translation, u: Translation)
    requires CodeExtends(s, t) && CodeExtends(t, u)
    ensures CodeExtends(s, u)
  {
    forall i | 0 <= i < |s.code|
      ensures Grown(LiveCharge(s) == O.Some(i), s.code[i], u.code[i])
    {
      assert Grown(LiveCharge(s) == O.Some(i), s.code[i], t.code[i]);
      assert Grown(LiveCharge(t) == O.Some(i), t.code[i], u.code[i]);
    }
  }

  lemma LabelsTransitive(s: Translation, t: Translation, u: Translation)
    requires LabelsExtend(s, t) && LabelsExtend(t, u) && |s.code| <= |t.code|
    ensures LabelsExtend(s, u)
  {
    forall l | 0 <= l < |u.labels| && u.labels[l].Some? && (l < |s.labels| ==> s.labels[l].None?)
      ensures |s.code| <= u.labels[l].value
    {
      if l < |t.labels| && t.labels[l].Some? {
        assert u.labels[l] == t.labels[l];
      }
    }
  }

  /** The same frame, up to the charge it uses. */
  predicate SameFrame(f: Frame, g: Frame) {
    if f.DeadFrame? then f == g else !g.DeadFrame? && f.(fuel := O.None) == g.(fuel := O.None)
  }

  ghost predicate Kept(s: Translation, t: Translation) {
    && |s.frames| == |t.frames| > 0
    && t.frames[..|t.frames| - 1] == s.frames[..|s.frames| - 1]
    && SameFrame(s.frames[|s.frames| - 1], t.frames[|t.frames| - 1])
  }

  lemma KeptSame(s: Translation, t: Translation)
    requires s.frames == t.frames != []
    ensures Kept(s, t)
  {
  }

  lemma KeptTransitive(s: Translation, t: Translation, u: Translation)
    requires Kept(s, t) && Kept(t, u)
    ensures Kept(s, u)
  {
  }

  // ----- small steps -----

  /** Appending code whose jumps go to known labels, and changing the emulated stack. */
  lemma AppendKeeps(s: Translation, code: seq<SymOp>, types: seq<ValType>, height: nat, peak: nat, reachable: bool)
    requires WF(s) && (reachable ==> s.reachable)
    requires forall i :: 0 <= i < |code| && code[i].Jump? ==> Known(s, code[i].target)
    requires WordsOf(types) == s.paramWords + height && height <= Max(s.maxHeight, peak)
    ensures var t := Emit(s, code).(types := types, height := height, maxHeight := Max(s.maxHeight, peak),
                                    reachable := reachable);
            WF(t) && Extends(s, t)
  {
    var t := Emit(s, code).(types := types, height := height, maxHeight := Max(s.maxHeight, peak),
                            reachable := reachable);
    forall j | 0 <= j < |t.frames| ensures FrameOK(t, t.frames[j]) {
      assert FrameOK(s, s.frames[j]);
    }
    forall i | 0 <= i < |t.code| && t.code[i].Jump? ensures Known(t, t.code[i].target) {
      if i < |s.code| {
        assert Known(s, s.code[i].target);
      } else {
        assert Known(s, code[i - |s.code|].target);
      }
    }
  }

  lemma BumpKeeps(s: Translation, delta: nat)
    requires WF(s) && s.reachable && s.frames != []
    ensures match Bump(s, delta)
            case Err(e) => e == BlockFuelOutOfBounds
            case Ok(t) => WF(t) && Extends(s, t) && t == s.(code := t.code) && |t.code| == |s.code|
  {
    var f := s.frames[|s.frames| - 1];
    assert FrameOK(s, f);
    var r := Bump(s, delta);
    if r.Ok? && s.metered {
      var t, at := r.value, f.fuel.value;
      assert t.code == s.code[at := Op(O.ConsumeFuel(s.code[at].op.fuel + delta))];
      forall j | 0 <= j < |t.frames| ensures FrameOK(t, t.frames[j]) {
        assert FrameOK(s, s.frames[j]);
      }
      forall i | 0 <= i < |t.code| && t.code[i].Jump? ensures Known(t, t.code[i].target) {
        assert Known(s, s.code[i].target);
      }
    }
  }
}
