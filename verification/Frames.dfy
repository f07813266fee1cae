/** Entering and leaving control frames keeps the translation invariants. */
module Frames {
  import opened Words
  import O = Opcodes
  import opened Source
  import opened Layout
  import opened Translator
  import opened Invariants

  // ----- charges -----

  lemma NewChargeKeeps(s: Translation)
    requires WF(s)
    ensures WF(NewCharge(s)) && Extends(s, NewCharge(s))
  {
    if s.metered {
      AppendKeeps(s, [Op(O.ConsumeFuel(0))], s.types, s.height, 0, s.reachable);
    }
  }

  /** The frames with the innermost one on a charge behind the code. */
  function ChargedFrames(s: Translation): seq<Frame>
    requires s.frames != [] && !s.frames[|s.frames| - 1].DeadFrame?
  {
    s.frames[|s.frames| - 1 := s.frames[|s.frames| - 1].(fuel := O.Some(|s.code|))]
  }

  lemma FrameMoves(s: Translation, u: Translation, f: Frame, at: nat)
    requires FrameOK(s, f) && !f.DeadFrame? && s.metered && u.metered && u.labels == s.labels && IsCharge(u.code, at)
    ensures FrameOK(u, f.(fuel := O.Some(at))) && SameFrame(f, f.(fuel := O.Some(at)))
  {
    var g := f.(fuel := O.Some(at));
    assert Opens(g) == Opens(f);
    forall l | l in Opens(g) ensures l < |u.labels| && u.labels[l].None? {
      assert l in Opens(f);
    }
  }

  lemma Recharged(s: Translation)
    requires WF(s) && s.frames != [] && s.metered && !s.frames[|s.frames| - 1].DeadFrame?
    ensures Recharge(s) == Ok(NewCharge(s).(frames := ChargedFrames(s))) && WF(Recharge(s).value)
  {
    NewChargeKeeps(s);
    var f := s.frames[|s.frames| - 1];
    assert FrameOK(s, f);
    FrameMoves(s, NewCharge(s), f, |s.code|);
    ReplaceLastKeeps(NewCharge(s), f.(fuel := O.Some(|s.code|)));
    hide WF;
  }

  /** The innermost frame moves on to a fresh charge. */
  lemma RechargeKeeps(s: Translation)
    requires WF(s) && s.frames != []
    ensures match Recharge(s)
            case Err(_) => false
            case Ok(t) =>
              && WF(t) && Extends(s, t) && Kept(s, t)
              && t == s.(code := NewCharge(s).code, frames := t.frames)
              && LiveCharge(t) == if s.metered && s.reachable then O.Some(|s.code|) else O.None
  {
    NewChargeKeeps(s);
    var f := s.frames[|s.frames| - 1];
    assert FrameOK(s, f);
    if s.metered && !f.DeadFrame? {
      Recharged(s);
    }
  }

  /** Replacing the charge of the innermost frame by another one. */
  lemma ReplaceLastKeeps(s: Translation, g: Frame)
    requires WF(s) && s.frames != [] && !g.DeadFrame?
    requires SameFrame(s.frames[|s.frames| - 1], g) && FrameOK(s, g)
    ensures WF(s.(frames := s.frames[|s.frames| - 1 := g]))
  {
    var n := |s.frames|;
    var t := s.(frames := s.frames[n - 1 := g]);
    assert Opens(g) == Opens(s.frames[n - 1]);
    forall j | 0 <= j < n ensures FrameOK(t, t.frames[j]) && Opens(t.frames[j]) == Opens(s.frames[j]) {
      assert FrameOK(s, s.frames[j]);
    }
    forall i | 0 <= i < |t.code| && t.code[i].Jump? ensures Known(t, t.code[i].target) {
      assert Known(s, s.code[i].target);
      OpenSame(s.frames, t.frames, s.code[i].target);
    }
  }

  lemma OpenSame(fs: seq<Frame>, gs: seq<Frame>, l: nat)
    requires |fs| == |gs| && forall j :: 0 <= j < |fs| ==> Opens(fs[j]) <= Opens(gs[j])
    ensures Open(fs, l) ==> Open(gs, l)
  {
  }

  // ----- entering -----

  /** Pushing a frame over fresh labels. */
  lemma PushKeeps(s: Translation, u: Translation, f: Frame)
    requires WF(s) && |s.labels| <= |u.labels| && s.labels == u.labels[..|s.labels|]
    requires u == s.(labels := u.labels)
    requires forall l :: |s.labels| <= l < |u.labels| && u.labels[l].Some? ==> u.labels[l].value <= |s.code|
    requires FrameOK(u, f) && forall l :: l in Opens(f) ==> l >= |s.labels|
    requires if f.DeadFrame? then !s.reachable else s.reachable
    ensures WF(PushFrame(u, f))
  {
    var t := PushFrame(u, f);
    forall j | 0 <= j < |t.frames| ensures FrameOK(t, t.frames[j]) {
      if j < |s.frames| {
        assert FrameOK(s, s.frames[j]);
        assert forall l :: l in Opens(s.frames[j]) ==> u.labels[l] == s.labels[l];
      }
    }
    forall j, k | 0 <= j < k < |t.frames| ensures Opens(t.frames[j]) !! Opens(t.frames[k]) {
      assert FrameOK(s, s.frames[j]);
    }
    forall i | 0 <= i < |t.code| && t.code[i].Jump? ensures Known(t, t.code[i].target) {
      var l := s.code[i].target;
      assert Known(s, l);
      if s.labels[l].None? {
        var j :| 0 <= j < |s.frames| && l in Opens(s.frames[j]);
        assert l in Opens(t.frames[j]);
      }
    }
  }

  lemma DeadPushKeeps(s: Translation, kind: Kind, bt: BlockType)
    requires WF(s) && !s.reachable
    ensures WF(PushFrame(s, DeadFrame(kind, bt))) && Extends(s, PushFrame(s, DeadFrame(kind, bt)))
  {
    assert s == s.(labels := s.labels);
    PushKeeps(s, s, DeadFrame(kind, bt));
  }

  // ----- leaving -----

  /** Ending a frame pins exactly its open labels, here and now. */
  ghost predicate Pinned(s: Translation, f: Frame, u: Translation) {
    && u == s.(labels := u.labels) && |u.labels| == |s.labels|
    && (forall l :: l in Opens(f) ==> l < |s.labels|)
    && forall l :: 0 <= l < |s.labels| ==> u.labels[l] == if l in Opens(f) then O.Some(|s.code|) else s.labels[l]
  }

  lemma PinEndPins(s: Translation)
    requires WF(s) && s.frames != []
    ensures match PinEnd(s, s.frames[|s.frames| - 1])
            case Err(_) => false
            case Ok(u) => Pinned(s, s.frames[|s.frames| - 1], u)
  {
    var f := s.frames[|s.frames| - 1];
    assert FrameOK(s, f);
    if f.BlockFrame? || f.IfFrame? {
      assert f.end in Opens(f);
    }
    if f.IfFrame? && f.thenReachable.None? {
      assert f.els in Opens(f);
    }
  }

  /** Dropping the innermost frame after its labels were pinned. */
  lemma PopKeeps(s: Translation, u: Translation, reachable: bool)
    requires WF(s) && s.frames != [] && Pinned(s, s.frames[|s.frames| - 1], u)
    requires reachable ==> !s.frames[|s.frames| - 1].DeadFrame?
    ensures var t := u.(frames := s.frames[..|s.frames| - 1], reachable := reachable);
            FramesOK(t) && LabelsOK(t) && JumpsOK(t) && LabelsExtend(s, t)
  {
    var t := u.(frames := s.frames[..|s.frames| - 1], reachable := reachable);
    OthersStay(s, u, t);
    hide FramesOK;
    forall i | 0 <= i < |t.code| && t.code[i].Jump? ensures Known(t, t.code[i].target) {
      StillKnown(s, u, t, s.code[i].target);
    }
  }

  lemma OthersStay(s: Translation, u: Translation, t: Translation)
    requires FramesOK(s) && s.frames != [] && Pinned(s, s.frames[|s.frames| - 1], u)
    requires t == u.(frames := s.frames[..|s.frames| - 1], reachable := t.reachable)
    requires t.reachable ==> !s.frames[|s.frames| - 1].DeadFrame?
    ensures FramesOK(t)
  {
    var n := |s.frames|;
    forall j | 0 <= j < n - 1 ensures FrameOK(t, t.frames[j]) {
      assert FrameOK(s, s.frames[j]);
      assert Opens(s.frames[j]) !! Opens(s.frames[n - 1]);
    }
    assert forall j :: 0 <= j < n - 1 ==> t.frames[j] == s.frames[j];
  }

  lemma StillKnown(s: Translation, u: Translation, t: Translation, l: nat)
    requires s.frames != [] && Pinned(s, s.frames[|s.frames| - 1], u) && Known(s, l)
    requires t.labels == u.labels && t.frames == s.frames[..|s.frames| - 1]
    ensures Known(t, l)
  {
    if s.labels[l].None? && l !in Opens(s.frames[|s.frames| - 1]) {
      var j :| 0 <= j < |s.frames| && l in Opens(s.frames[j]);
      assert l in Opens(t.frames[j]);
    }
  }

  // ----- the type stack -----

  /** Popping types down to a height that lies on a type boundary stops exactly there. */
  lemma {:induction false} PopTypesExact(below: seq<ValType>, rest: seq<ValType>, to: nat)
    ensures PopTypes(below + rest, to + WordsOf(rest), to) == Ok(below)
    decreases |rest|
  {
    if rest == [] {
      assert below + rest == below;
    } else {
      var n := |rest| - 1;
      assert rest == rest[..n] + [rest[n]];
      assert (below + rest)[..|below + rest| - 1] == below + rest[..n];
      PopTypesExact(below, rest[..n], to);
    }
  }

  lemma ShrinkToExact(s: Translation, below: seq<ValType>, height: nat)
    requires StackOK(s) && below <= s.types && WordsOf(below) == s.paramWords + height
    ensures ShrinkTo(s, height) == Ok(s.(height := height, types := below))
  {
    hide WordsOf;
    var rest := s.types[|below|..];
    assert s.types == below + rest;
    WordsAppend(below, rest);
    PopTypesExact(below, rest, height);
  }
}
