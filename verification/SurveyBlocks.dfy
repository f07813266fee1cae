/** Entering and leaving blocks does to a state what it does to its outline. */
module SurveyBlocks {
  import opened Words
  import O = Opcodes
  import opened Source
  import opened Validation
  import opened Layout
  import opened Translator
  import opened Invariants
  import opened Frames
  import opened Progress
  import opened Control
  import opened Branches
  import opened Structure
  import opened Bodies
  import opened Surveys
  import opened SurveySteps
  import opened SurveyBranches
  import U = Outlines

  // ----- entering -----

  /** New labels that no jump names. */
  lemma LabelsAdded(s: Translation, marks: seq<U.Mark>, t: Translation, from: nat)
    requires JumpsOK(s) && from <= |s.code| && Marked(JumpsFrom(s.code, from), s, marks, from)
    requires s.labels <= t.labels && t.frames == s.frames && t.paramWords == s.paramWords
    ensures Marked(JumpsFrom(s.code, from), t, marks, from)
    ensures SpansOf(JumpsFrom(s.code, from), t.labels, from) == SpansOf(JumpsFrom(s.code, from), s.labels, from)
    ensures forall l :: l >= |s.labels| ==> ExitsOf(JumpsFrom(s.code, from), l) == {}
  {
    JumpsKnown(s, from);
    var jumps := JumpsFrom(s.code, from);
    hide JumpsFrom;
    SpansMore(jumps, s.labels, t.labels, from);
    forall j | 0 <= j < |marks| ensures MarkFits(jumps, t, t.frames[j], marks[j], j == 0, from) {
      assert MarkFits(jumps, s, s.frames[j], marks[j], j == 0, from);
    }
  }

  /** One more frame with its mark. */
  lemma FramePushed(jumps: set<(int, nat)>, s: Translation, marks: seq<U.Mark>, f: Frame, m: U.Mark, from: nat)
    requires Marked(jumps, s, marks, from) && s.frames != [] && MarkFits(jumps, s, f, m, false, from)
    ensures Marked(jumps, PushFrame(s, f), marks + [m], from)
  {
    var t, more := PushFrame(s, f), marks + [m];
    forall j | 0 <= j < |more| ensures MarkFits(jumps, t, t.frames[j], more[j], j == 0, from) {
      if j < |marks| { assert MarkFits(jumps, s, s.frames[j], marks[j], j == 0, from); }
    }
  }

  lemma BlockTracks(s: Translation, o: U.Outline, from: nat, bt: BlockType, h: nat)
    requires WF(s) && s.reachable && s.frames != [] && Tracks(s, o, from)
    requires WordsOf(Params(bt)) <= s.height && h == s.height - WordsOf(Params(bt))
    ensures Tracks(BlockPush(s, bt, h), U.Inside(o, U.Mark(U.Under(bt, o), O.None, {}, {})), from)
  {
    hide WordsOf, SpansOf, Kinds;
    var t := BlockPush(s, bt, h);
    var u := NewLabel(s);
    LabelsAdded(s, o.marks, u, from);
    FramePushed(JumpsFrom(s.code, from), u, o.marks, t.frames[|s.frames|],
                U.Mark(U.Under(bt, o), O.None, {}, {}), from);
    hide Marked, JumpsFrom;
    assert LiveCharge(t) == LiveCharge(s) by { LastLive(s); }
  }

  lemma LastLive(s: Translation)
    requires WF(s) && s.reachable && s.frames != []
    ensures !s.frames[|s.frames| - 1].DeadFrame?
  {
  }

  /** The state after `loop`. */
  function LoopPush(s: Translation, bt: BlockType, h: nat): Translation {
    var u := s.(labels := s.labels + [O.Some(|s.code|)]);
    PushFrame(NewCharge(u), LoopFrame(bt, |s.labels|, h, NewSlot(u)))
  }

  lemma LoopTracks(k: Costs, s: Translation, o: U.Outline, from: nat, bt: BlockType, h: nat)
    requires WF(s) && s.reachable && s.frames != [] && Tracks(s, o, from) && k.metered == s.metered
    requires WordsOf(Params(bt)) <= s.height && h == s.height - WordsOf(Params(bt))
    ensures Tracks(LoopPush(s, bt, h), U.Inside(U.Fresh(k, o), U.Mark(U.Under(bt, o), O.Some(o.size), {}, {})), from)
  {
    hide WordsOf, SpansOf, Kinds;
    var u := s.(labels := s.labels + [O.Some(|s.code|)]);
    LabelsAdded(s, o.marks, u, from);
    assert Shaped(u, o, from);
    var v := NewCharge(u);
    ChargeShape(k, u, o, from);
    var m := U.Mark(U.Under(bt, o), O.Some(o.size), {}, {});
    assert JumpsFrom(v.code, from) == JumpsFrom(s.code, from) by { ChargeNoJump(s, from); }
    FramePushed(JumpsFrom(v.code, from), v, o.marks, LoopFrame(bt, |s.labels|, h, NewSlot(u)), m, from);
    hide Marked, JumpsFrom;
  }

  lemma ChargeNoJump(s: Translation, from: nat)
    requires from <= |s.code|
    ensures JumpsFrom(NewCharge(s).code, from) == JumpsFrom(s.code, from)
  {
    if s.metered {
      JumpsAppend(s.code, [Op(O.ConsumeFuel(0))], from);
      NoPlaces([Op(O.ConsumeFuel(0))], |s.code| - from);
    }
  }

  /** An empty charge behind the code. */
  lemma ChargeShape(k: Costs, s: Translation, o: U.Outline, from: nat)
    requires Shaped(s, o, from) && k.metered == s.metered
    ensures Shaped(NewCharge(s), U.Fresh(k, o), from)
  {
    hide Kinds, MarkFits, SpansOf;
    if s.metered {
      var ext := [Op(O.ConsumeFuel(0))];
      OneCharge();
      assert Tidy(ext, 0, s.reachable);
      EmittedShape(s, o, from, NewCharge(s), U.Place(o, 1), ext);
    }
  }

  /** The jump to the second branch of an `if`, whose label is new. */
  lemma IfJumps(b: Translation, o: U.Outline, from: nat, u: Translation)
    requires WF(b) && Shaped(b, o, from) && b.reachable
    requires u == Emit(NewLabel(NewLabel(b)), [SymOp.Jump(O.IfEqz, |b.labels|)])
    ensures Shaped(u, U.Place(o, 1), from)
    ensures ExitsOf(JumpsFrom(u.code, from), |b.labels|) == {o.size as int}
    ensures ExitsOf(JumpsFrom(u.code, from), |b.labels| + 1) == {}
  {
    hide Kinds, SpansOf, Places;
    var l, w := |b.labels|, NewLabel(NewLabel(b));
    LabelsAdded(b, o.marks, w, from);
    JumpAppended(b.code, from, [], O.IfEqz, l);
    assert [] + [SymOp.Jump(O.IfEqz, l)] == [SymOp.Jump(O.IfEqz, l)];
    var jumps := JumpsFrom(b.code, from);
    SpansAdd(jumps, o.size, l, w.labels, from);
    ExitsAdd(jumps, o.size, l, l);
    ExitsAdd(jumps, o.size, l, l + 1);
    assert Tidy([SymOp.Jump(O.IfEqz, l)], 0, true);
    TidyAppend(b.code, [SymOp.Jump(O.IfEqz, l)], from, true, true);
    IfMarks(b, w, o.marks, from, l, o.size);
    hide JumpsFrom, ExitsOf;
  }

  lemma IfMarks(b: Translation, w: Translation, marks: seq<U.Mark>, from: nat, l: nat, at: int)
    requires FramesOK(b) && from <= |b.code| && Marked(JumpsFrom(b.code, from), w, marks, from)
    requires w.frames == b.frames && b.labels <= w.labels && l == |b.labels|
    ensures Marked(JumpsFrom(b.code, from) + {(at, l)}, w, marks, from)
  {
    var jumps := JumpsFrom(b.code, from);
    forall j | 0 <= j < |marks| ensures MarkFits(jumps + {(at, l)}, w, w.frames[j], marks[j], j == 0, from) {
      var f := b.frames[j];
      assert MarkFits(jumps, w, f, marks[j], j == 0, from);
      assert FrameOK(b, f);
      if !f.LoopFrame? {
        assert f.end in Opens(f);
        ExitsAdd(jumps, at, l, f.end);
      }
      if f.IfFrame? { ExitsAdd(jumps, at, l, f.els); }
    }
  }

  lemma IfTracks(k: Costs, b: Translation, o: U.Outline, from: nat, bt: BlockType, h: nat)
    requires WF(b) && b.reachable && b.frames != [] && Tracks(b, o, from) && k.metered == b.metered
    requires WordsOf(Params(bt)) <= b.height && h == b.height - WordsOf(Params(bt))
    ensures Tracks(IfPushed(b, bt, h),
                   U.Inside(U.Fresh(k, U.Place(o, 1)), U.Mark(U.Under(bt, o), O.None, {}, {o.size as int})), from)
  {
    hide WordsOf, SpansOf, Kinds, Places;
    var u := Emit(NewLabel(NewLabel(b)), [SymOp.Jump(O.IfEqz, |b.labels|)]);
    IfJumps(b, o, from, u);
    ChargeShape(k, u, U.Place(o, 1), from);
    ChargeNoJump(u, from);
    var v := NewCharge(u);
    var f := IfFrame(bt, |b.labels| + 1, |b.labels|, h, NewSlot(u), O.None);
    FramePushed(JumpsFrom(v.code, from), v, o.marks, f, U.Mark(U.Under(bt, o), O.None, {}, {o.size as int}), from);
    hide Marked, JumpsFrom;
    IfPaid(b, bt, h, k, o);
  }

  lemma IfPaid(b: Translation, bt: BlockType, h: nat, k: Costs, o: U.Outline)
    requires b.reachable && k.metered == b.metered
    ensures Paid(IfPushed(b, bt, h), U.Fresh(k, U.Place(o, 1)).charge)
  {
  }

  // ----- leaving -----

  /** The outline of a closed block before its fresh charge. */
  function Shut(bt: BlockType, o: U.Outline): U.Outline
    requires o.marks != []
  {
    var m := o.marks[|o.marks| - 1];
    var words := m.base + U.Entries(Results(bt));
    U.Raise(o, words).(marks := o.marks[..|o.marks| - 1], words := words,
                       offsets := o.offsets + U.Ends(m.exits, o.size) + U.Ends(m.skips, o.size))
  }

  lemma ShutThenFresh(k: Costs, bt: BlockType, o: U.Outline)
    requires o.marks != []
    ensures U.Close(k, bt, o) == U.Fresh(k, Shut(bt, o))
  {
  }

  /** Pinning the labels of the frame settles its branches. */
  lemma EndSpans(jumps: set<(int, nat)>, s: Translation, u: Translation, f: Frame, m: U.Mark, from: nat)
    requires FrameOK(s, f) && MarkFits(jumps, s, f, m, false, from) && Pinned(s, f, u)
    ensures SpansOf(jumps, u.labels, from)
         == SpansOf(jumps, s.labels, from) + U.Ends(m.exits, |s.code| - from) + U.Ends(m.skips, |s.code| - from)
  {
    hide SpansOf, ExitsOf;
    var here := O.Some(|s.code|);
    NoEnds(|s.code| - from);
    match f
    case BlockFrame(_, end, _, _) =>
      assert end in Opens(f);
      assert u.labels == s.labels[end := here];
      SpansPin(jumps, s.labels, from, end, |s.code|);
    case LoopFrame(_, _, _, _) =>
      assert u.labels == s.labels;
    case IfFrame(_, end, els, _, _, r) =>
      assert end in Opens(f);
      SpansPin(jumps, s.labels, from, end, |s.code|);
      if r.None? {
        assert els in Opens(f);
        assert u.labels == s.labels[end := here][els := here];
        SpansPin(jumps, s.labels[end := here], from, els, |s.code|);
      } else {
        assert u.labels == s.labels[end := here];
      }
  }

  /** The frames outside do not see the labels of the one that ends. */
  lemma OuterMarks(jumps: set<(int, nat)>, s: Translation, u: Translation, w: Translation, marks: seq<U.Mark>,
                   from: nat)
    requires FramesOK(s) && s.frames != [] && Marked(jumps, s, marks, from)
    requires Pinned(s, s.frames[|s.frames| - 1], u)
    requires w.labels == u.labels && w.frames == s.frames[..|s.frames| - 1] && w.paramWords == s.paramWords
    ensures Marked(jumps, w, marks[..|marks| - 1], from)
  {
    var n := |s.frames| - 1;
    forall j | 0 <= j < n ensures MarkFits(jumps, w, w.frames[j], marks[..n][j], j == 0, from) {
      assert MarkFits(jumps, s, s.frames[j], marks[j], j == 0, from);
      assert FrameOK(s, s.frames[j]);
    }
  }

  lemma EndTidy(code: seq<SymOp>, from: nat, open: bool)
    requires Tidy(code, from, open)
    ensures Tidy(code, from, true)
  {
    forall i | from <= i < |code| ensures TidyOp(code[i], |code| - i + Slack(true)) {
      assert TidyOp(code[i], |code| - i + Slack(open));
    }
  }

  lemma EndLands(s: Translation, u: Translation, w: Translation, f: Frame, from: nat)
    requires Landed(s, from) && Pinned(s, f, u) && from <= |s.code|
    requires w.labels == u.labels && w.code == s.code && w.reachable
    ensures Landed(w, from)
  {
  }

  lemma ShutTracks(s: Translation, u: Translation, below: seq<ValType>, o: U.Outline, from: nat, bt: BlockType)
    requires Endable(s, below) && Shaped(s, o, from) && s.frames[|s.frames| - 1].bt == bt
    requires !s.frames[|s.frames| - 1].DeadFrame? && Pinned(s, s.frames[|s.frames| - 1], u)
    ensures o.marks != [] && Shaped(BeforeCharge(s, u, below), Shut(bt, o), from)
  {
    hide WordsOf, SpansOf, ExitsOf, Kinds, JumpsFrom;
    var n := |s.frames| - 1;
    var f, m, w, jumps := s.frames[n], o.marks[n], BeforeCharge(s, u, below), JumpsFrom(s.code, from);
    assert MarkFits(jumps, s, f, m, false, from);
    assert FrameOK(s, f);
    EndSpans(jumps, s, u, f, m, from);
    BeforeChargeIs(s, u, below);
    OuterMarks(jumps, s, u, w, o.marks, from);
    EndTidy(s.code, from, s.reachable);
    EndLands(s, u, w, f, from);
    ShutSized(s, u, below, o, from, bt);
    hide BeforeCharge, Pinned, Tidy, Landed, WF, Marked, MarkFits;
  }

  lemma ShutSized(s: Translation, u: Translation, below: seq<ValType>, o: U.Outline, from: nat, bt: BlockType)
    requires s.frames != [] && o.marks != [] && Sized(s, o, from) && s.frames[|s.frames| - 1].bt == bt
    requires !s.frames[|s.frames| - 1].DeadFrame? && Pinned(s, s.frames[|s.frames| - 1], u)
    requires o.marks[|o.marks| - 1].base == s.paramWords + s.frames[|s.frames| - 1].height
    ensures Sized(BeforeCharge(s, u, below), Shut(bt, o), from)
  {
    hide WordsOf;
  }

  /** An inner `end` closes the outline. */
  lemma EndSurveyed(k: Costs, s: Translation, below: seq<ValType>, o: U.Outline, from: nat, bt: BlockType)
    requires Endable(s, below) && Tracks(s, o, from) && s.frames[|s.frames| - 1].bt == bt
    requires !s.frames[|s.frames| - 1].DeadFrame? && k.metered == s.metered
    ensures VisitEnd(s).Ok? && Tracks(VisitEnd(s).value, U.Close(k, bt, o), from)
  {
    hide WordsOf, PinEnd, Recharge, BeforeCharge, Shaped, VisitEnd;
    PinEndPins(s);
    var u := PinEnd(s, s.frames[|s.frames| - 1]).value;
    BeforeChargeKeeps(s, u, below);
    BeforeChargeIs(s, u, below);
    EndUnfolds(s, u, below);
    ShutTracks(s, u, below, o, from, bt);
    ShutThenFresh(k, bt, o);
    var w := BeforeCharge(s, u, below);
    hide WF, Paid, Shut, U.Close, Pinned;
    assert w.metered || Paid(w, Shut(bt, o).charge) by { Unmetered(w, Shut(bt, o).charge); }
    RechargeTracks(k, w, Shut(bt, o), from);
  }

  lemma Unmetered(w: Translation, charge: nat)
    ensures w.metered || Paid(w, charge)
  {
  }

  // ----- between the branches of an if -----

  /** The outline when the second branch begins, before its fresh charge. */
  function Turned(bt: BlockType, live: bool, o: U.Outline): U.Outline
    requires o.marks != []
  {
    var p := if live then U.Place(U.Jump(o, 0, o.size), 1) else o;
    var m := U.MarkAt(p, 0);
    var words := m.base + U.Entries(Params(bt));
    U.Raise(p, words).(marks := p.marks[|p.marks| - 1 := m.(skips := {})], words := words,
                       offsets := p.offsets + U.Ends(m.skips, p.size))
  }

  lemma TurnedThenFresh(k: Costs, bt: BlockType, live: bool, o: U.Outline)
    requires o.marks != []
    ensures U.Switch(k, bt, live, o) == U.Fresh(k, Turned(bt, live, o))
  {
  }

  lemma JumpOverTracks(t: Translation, f: Frame, below: seq<ValType>, o: U.Outline, from: nat)
    requires FirstDone(t, f, below) && |t.frames| >= 2 && Shaped(t, o, from)
    ensures o.marks != []
    ensures var p := if t.reachable then U.Place(U.Jump(o, 0, o.size), 1) else o;
            && Shaped(JumpOver(t, f), p, from) && p.marks != [] && p.demands == o.demands && p.charge == o.charge
  {
    hide WordsOf, SpansOf, ExitsOf, Kinds;
    var n := |t.frames| - 1;
    assert MarkFits(JumpsFrom(t.code, from), t, f, o.marks[n], false, from);
    if t.reachable { JumpOverShape(t, f, o, from); }
  }

  lemma JumpOverShape(t: Translation, f: Frame, o: U.Outline, from: nat)
    requires FramesOK(t) && |t.frames| >= 2 && t.frames[|t.frames| - 1] == f && f.IfFrame? && t.reachable
    requires Shaped(t, o, from)
    ensures Shaped(Emit(t, [SymOp.Jump(O.Always, f.end)]), U.Place(U.Jump(o, 0, o.size), 1), from)
  {
    hide SpansOf, ExitsOf, Kinds, MarkFits;
    var last := [SymOp.Jump(O.Always, f.end)];
    var v, p := Emit(t, last), U.Place(U.Jump(o, 0, o.size), 1);
    assert FrameAt(t, 0) == f;
    assert [] + last == last;
    JumpAppended(t.code, from, [], O.Always, f.end);
    JumpMarked(JumpsFrom(t.code, from), t, o, from, 0, o.size);
    JumpKeepsRest(o, 0, o.size);
    assert Tidy(last, 0, true);
    TidyAppend(t.code, last, from, true, true);
    hide FramesOK, U.Jump, JumpsFrom;
    MarksStay(JumpsFrom(v.code, from), t, v, p.marks, from);
  }

  /** Pinning the label of the second branch. */
  lemma ElseMarks(jumps: set<(int, nat)>, a: Translation, b: Translation, f: Frame, marks: seq<U.Mark>, r: bool,
                  from: nat)
    requires FramesOK(a) && |a.frames| >= 2 && a.frames[|a.frames| - 1] == f && f.IfFrame? && f.thenReachable.None?
    requires Marked(jumps, a, marks, from) && f.els < |a.labels|
    requires b.labels == a.labels[f.els := O.Some(|a.code|)] && b.paramWords == a.paramWords
    requires b.frames == a.frames[|a.frames| - 1 := Second(f, r)]
    ensures Marked(jumps, b, marks[|marks| - 1 := marks[|marks| - 1].(skips := {})], from)
    ensures a.labels[f.els].None? && marks[|marks| - 1].skips == ExitsOf(jumps, f.els)
  {
    var n := |a.frames| - 1;
    var more := marks[n := marks[n].(skips := {})];
    assert f.els in Opens(f) && FrameOK(a, f);
    assert MarkFits(jumps, a, f, marks[n], false, from);
    forall j | 0 <= j < |more| ensures MarkFits(jumps, b, b.frames[j], more[j], j == 0, from) {
      assert MarkFits(jumps, a, a.frames[j], marks[j], j == 0, from);
      assert FrameOK(a, a.frames[j]);
    }
  }

  lemma TurnTracks(t: Translation, f: Frame, below: seq<ValType>, o: U.Outline, from: nat, bt: BlockType)
    requires FirstDone(t, f, below) && |t.frames| >= 2 && Shaped(t, o, from) && f.bt == bt && f.els < |t.labels|
    ensures o.marks != [] && Shaped(ElseRetyped(t, f, below), Turned(bt, t.reachable, o), from)
  {
    hide WordsOf, SpansOf, ExitsOf, Kinds, U.Jump, JumpsFrom, MarkFits, Tidy, WF;
    JumpOverTracks(t, f, below, o, from);
    JumpOverKeeps(t, f, below);
    var p := if t.reachable then U.Place(U.Jump(o, 0, o.size), 1) else o;
    var a := JumpOver(t, f);
    JumpOverSame(t, f);
    assert FramesOK(a) by { FramesOf(a); }
    hide FirstDone, JumpOver;
    TurnShape(t, a, f, below, p, from, bt);
    assert Turned(bt, t.reachable, o) == TurnedFrom(bt, p);
  }

  lemma FramesOf(a: Translation)
    requires WF(a)
    ensures FramesOK(a)
  {
  }

  lemma JumpOverSame(t: Translation, f: Frame)
    requires f.IfFrame?
    ensures var a := JumpOver(t, f);
            a.frames == t.frames && a.labels == t.labels && a.paramWords == t.paramWords && a.metered == t.metered
  {
  }

  /** The same change, from the outline behind the jump. */
  function TurnedFrom(bt: BlockType, p: U.Outline): U.Outline
    requires p.marks != []
  {
    var m := U.MarkAt(p, 0);
    var words := m.base + U.Entries(Params(bt));
    U.Raise(p, words).(marks := p.marks[|p.marks| - 1 := m.(skips := {})], words := words,
                       offsets := p.offsets + U.Ends(m.skips, p.size))
  }

  lemma TurnShape(t: Translation, a: Translation, f: Frame, below: seq<ValType>, p: U.Outline, from: nat,
                  bt: BlockType)
    requires f.IfFrame? && f.thenReachable.None? && |t.frames| >= 2 && f.els < |t.labels| && f.bt == bt
    requires t.frames[|t.frames| - 1] == f && a == JumpOver(t, f) && a.frames == t.frames && a.labels == t.labels
    requires FramesOK(a) && Shaped(a, p, from)
    ensures p.marks != [] && Shaped(ElseRetyped(t, f, below), TurnedFrom(bt, p), from)
  {
    hide WordsOf, ExitsOf, Kinds, JumpsFrom, MarkFits, Tidy, SpansOf, JumpOver;
    var w, n, jumps := ElseRetyped(t, f, below), |a.frames| - 1, JumpsFrom(a.code, from);
    ElseMarks(jumps, a, w, f, p.marks, t.reachable, from);
    SpansPin(jumps, a.labels, from, f.els, |a.code|);
    EndTidy(a.code, from, a.reachable);
    assert MarkFits(jumps, a, f, p.marks[n], false, from);
    assert p.marks[n].base == a.paramWords + f.height by { BaseOf(jumps, a, f, p.marks[n], from); }
  }

  lemma BaseOf(jumps: set<(int, nat)>, a: Translation, f: Frame, m: U.Mark, from: nat)
    requires MarkFits(jumps, a, f, m, false, from)
    ensures m.base == a.paramWords + f.height
  {
  }

  lemma ElseSurveyed(k: Costs, t: Translation, f: Frame, below: seq<ValType>, o: U.Outline, from: nat, bt: BlockType)
    requires FirstDone(t, f, below) && |t.frames| >= 2 && Tracks(t, o, from) && f.bt == bt && k.metered == t.metered
    ensures VisitElse(t).Ok? && Tracks(VisitElse(t).value, U.Switch(k, bt, t.reachable, o), from)
  {
    hide WordsOf, WF, VisitElse, Recharge, Shaped, ElseRetyped;
    ElseIs(t, f, below);
    ElsePinnedKeeps(t, f, below);
    ElseRetypedKeeps(t, f, below);
    TrackedShape(t, o, from);
    TurnTracks(t, f, below, o, from, bt);
    TurnedThenFresh(k, bt, t.reachable, o);
    var w := ElseRetyped(t, f, below);
    RetypedSame(t, f, below);
    hide FirstDone, Turned, U.Switch, Tracks, Paid;
    assert w.metered || Paid(w, Turned(bt, t.reachable, o).charge) by {
      Unmetered(w, Turned(bt, t.reachable, o).charge);
    }
    RechargeTracks(k, w, Turned(bt, t.reachable, o), from);
  }

  lemma RetypedSame(t: Translation, f: Frame, below: seq<ValType>)
    requires f.IfFrame? && t.frames != [] && f.els < |t.labels|
    ensures var w := ElseRetyped(t, f, below); w.metered == t.metered && w.frames != []
  {
  }
}
