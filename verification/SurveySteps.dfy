/** Charging, emitting and branching do to a state what they do to its outline. */
module SurveySteps {
  import opened Words
  import O = Opcodes
  import opened Source
  import opened Validation
  import opened Layout
  import opened Translator
  import opened Invariants
  import opened Frames
  import opened Branches
  import opened Surveys
  import DK = DropKeeps
  import U = Outlines

  lemma TrackedShape(s: Translation, o: U.Outline, from: nat)
    requires Tracks(s, o, from)
    ensures Shaped(s, o, from) && Paid(s, o.charge)
  {
  }

  // ----- charging -----

  /** Raising the charge costs what the outline says, and fails where the sum leaves 32 bits. */
  lemma Spent(k: Costs, s: Translation, o: U.Outline, from: nat, n: nat)
    requires WF(s) && s.reachable && s.frames != [] && k.metered == s.metered
    requires Tracks(s, o, from) && U.Verdict(o.demands).None?
    ensures Keeps(Bump(s, n), U.Spend(k, o, n), from)
  {
    if k.metered {
      Asked(o, U.Charge(o.charge + n));
      var f := s.frames[|s.frames| - 1];
      assert FrameOK(s, f);
      var at := f.fuel.value;
      assert LiveCharge(s) == O.Some(at) && s.code[at].op.fuel == o.charge;
      if o.charge + n < B32 {
        ChargeGrows(s.code, from, at, o.charge + n);
        var u := s.(code := s.code[at := Op(O.ConsumeFuel(o.charge + n))]);
        assert Bump(s, n) == Ok(u);
        hide Places, Kinds, Tidy, U.Verdict;
        MarksStay(JumpsFrom(s.code, from), s, u, o.marks, from);
      }
    }
  }

  lemma MarksStay(jumps: set<(int, nat)>, s: Translation, t: Translation, marks: seq<U.Mark>, from: nat)
    requires Marked(jumps, s, marks, from)
    requires t.labels == s.labels && t.frames == s.frames && t.paramWords == s.paramWords
    ensures Marked(jumps, t, marks, from)
  {
    forall j | 0 <= j < |marks| ensures MarkFits(jumps, t, t.frames[j], marks[j], j == 0, from) {
      assert MarkFits(jumps, s, s.frames[j], marks[j], j == 0, from);
    }
  }

  // ----- emitting -----

  /** `v` continues `u` with some more code. */
  ghost predicate Continues(u: Translation, v: Translation, ext: seq<SymOp>) {
    && v.code == u.code + ext && v.labels == u.labels && v.frames == u.frames
    && v.paramWords == u.paramWords && v.metered == u.metered
    && (v.reachable ==> u.reachable) && (v.reachable || ext != [] || !u.reachable)
    && Tidy(ext, 0, v.reachable)
  }

  lemma PaidStays(u: Translation, v: Translation, ext: seq<SymOp>, charge: nat)
    requires Paid(u, charge) && Continues(u, v, ext)
    ensures Paid(v, charge)
  {
  }

  lemma LandedStays(u: Translation, v: Translation, ext: seq<SymOp>, from: nat)
    requires Landed(u, from) && Continues(u, v, ext)
    ensures Landed(v, from)
  {
  }

  /** Code without jumps. */
  lemma EmittedShape(u: Translation, o: U.Outline, from: nat, v: Translation, p: U.Outline, ext: seq<SymOp>)
    requires Shaped(u, o, from) && Continues(u, v, ext)
    requires forall i :: 0 <= i < |ext| ==> !ext[i].Jump?
    requires Sized(v, p, from) && p.marks == o.marks && p.offsets == o.offsets && p.kinds == o.kinds + Kinds(ext)
    ensures Shaped(v, p, from)
  {
    hide Kinds, SpansOf, MarkFits;
    JumpsAppend(u.code, ext, from);
    NoPlaces(ext, |u.code| - from);
    KindsAppend(u.code[from..], ext);
    assert v.code[from..] == u.code[from..] + ext;
    TidyAppend(u.code, ext, from, u.reachable, v.reachable);
    LandedStays(u, v, ext, from);
    assert JumpsFrom(v.code, from) == JumpsFrom(u.code, from);
    MarksStay(JumpsFrom(u.code, from), u, v, o.marks, from);
  }

  lemma Emitted(u: Translation, o: U.Outline, from: nat, v: Translation, p: U.Outline, ext: seq<SymOp>)
    requires Tracks(u, o, from) && Continues(u, v, ext)
    requires forall i :: 0 <= i < |ext| ==> !ext[i].Jump?
    requires Sized(v, p, from) && p.charge == o.charge && p.marks == o.marks && p.offsets == o.offsets
    requires p.kinds == o.kinds + Kinds(ext)
    ensures Tracks(v, p, from)
  {
    PaidStays(u, v, ext, o.charge);
    hide Kinds, Paid, Tidy;
    EmittedShape(u, o, from, v, p, ext);
    hide Shaped;
  }

  /** A jump to the label of an inner frame. */
  lemma JumpMarked(jumps: set<(int, nat)>, s: Translation, o: U.Outline, from: nat, depth: nat, at: int)
    requires FramesOK(s) && Marked(jumps, s, o.marks, from) && depth + 1 < |s.frames| && at >= 0
    requires o.offsets == SpansOf(jumps, s.labels, from)
    ensures var l, more := LabelOf(FrameAt(s, depth)), jumps + {(at, LabelOf(FrameAt(s, depth)))};
            && Marked(more, s, U.Jump(o, depth, at).marks, from)
            && U.Jump(o, depth, at).offsets == SpansOf(more, s.labels, from)
            && l < |s.labels|
            && match U.MarkAt(o, depth).head
               case Some(head) => s.labels[l] == O.Some(from + head)
               case None => s.labels[l].None?
  {
    var n := |s.frames| - 1 - depth;
    var f := s.frames[n];
    assert MarkFits(jumps, s, f, o.marks[n], n == 0, from);
    var l := LabelOf(f);
    assert FrameOK(s, f);
    assert !f.LoopFrame? ==> f.end in Opens(f);
    SpansAdd(jumps, at, l, s.labels, from);
    var more, p := jumps + {(at, l)}, U.Jump(o, depth, at);
    hide SpansOf;
    forall j | 0 <= j < |p.marks| ensures MarkFits(more, s, s.frames[j], p.marks[j], j == 0, from) {
      MarkAfterJump(jumps, s, o.marks, from, n, j, at);
    }
  }

  lemma MarkAfterJump(jumps: set<(int, nat)>, s: Translation, marks: seq<U.Mark>, from: nat, n: nat, j: nat, at: int)
    requires FramesOK(s) && Marked(jumps, s, marks, from) && j < |s.frames| && 1 <= n < |s.frames|
    requires !s.frames[n].DeadFrame?
    ensures var l, m := LabelOf(s.frames[n]), marks[j];
            MarkFits(jumps + {(at, l)}, s, s.frames[j],
                     if j == n && m.head.None? then m.(exits := m.exits + {at}) else m, j == 0, from)
  {
    var f, g := s.frames[n], s.frames[j];
    var l := LabelOf(f);
    assert MarkFits(jumps, s, g, marks[j], j == 0, from);
    assert MarkFits(jumps, s, f, marks[n], n == 0, from);
    assert FrameOK(s, f) && FrameOK(s, g);
    assert !f.LoopFrame? ==> f.end in Opens(f);
    assert !g.LoopFrame? ==> g.end in Opens(g);
    assert g.IfFrame? && g.thenReachable.None? ==> g.els in Opens(g);
    assert j < n ==> Opens(g) !! Opens(f);
    assert n < j ==> Opens(f) !! Opens(g);
    if !g.LoopFrame? { ExitsAdd(jumps, at, l, g.end); }
    if g.IfFrame? { ExitsAdd(jumps, at, l, g.els); }
    hide ExitsOf;
  }

  lemma JumpAppended(code: seq<SymOp>, from: nat, pre: seq<SymOp>, kind: O.JumpKind, l: nat)
    requires from <= |code| && forall i :: 0 <= i < |pre| ==> !pre[i].Jump? && !pre[i].CallSnippet?
    ensures var more := code + (pre + [SymOp.Jump(kind, l)]);
            && JumpsFrom(more, from) == JumpsFrom(code, from) + {(|code| - from + |pre|, l)}
            && Kinds(more[from..]) == Kinds(code[from..])
  {
    var last := [SymOp.Jump(kind, l)];
    var ext := pre + last;
    JumpsAppend(code, ext, from);
    PlacesAppend(pre, last, |code| - from);
    NoPlaces(pre, |code| - from);
    OnePlace(kind, l, |code| - from + |pre|);
    assert (code + ext)[from..] == code[from..] + ext;
    KindsAppend(code[from..], ext);
    NoKinds(ext);
    hide Places, Kinds;
  }

  lemma NoKinds(code: seq<SymOp>)
    requires forall i :: 0 <= i < |code| ==> !code[i].CallSnippet?
    ensures Kinds(code) == {}
  {
  }

  /** Code that ends with a jump. */
  lemma EmittedJump(u: Translation, o: U.Outline, from: nat, v: Translation, p: U.Outline, pre: seq<SymOp>,
                    kind: O.JumpKind, depth: nat)
    requires FramesOK(u) && Tracks(u, o, from) && depth + 1 < |u.frames| && !FrameAt(u, depth).DeadFrame?
    requires Continues(u, v, pre + [SymOp.Jump(kind, LabelOf(FrameAt(u, depth)))])
    requires forall i :: 0 <= i < |pre| ==> !pre[i].Jump? && !pre[i].CallSnippet?
    requires Sized(v, p, from) && p.charge == o.charge && p.kinds == o.kinds
    requires var q := U.Jump(o, depth, o.size + |pre|); p.marks == q.marks && p.offsets == q.offsets
    ensures Tracks(v, p, from)
  {
    hide Places, Kinds, SpansOf, MarkFits, U.MarkAt, U.Jump, LabelOf, TidyOp;
    var l := LabelOf(FrameAt(u, depth));
    var ext := pre + [SymOp.Jump(kind, l)];
    JumpAppended(u.code, from, pre, kind, l);
    TidyAppend(u.code, ext, from, u.reachable, v.reachable);
    PaidStays(u, v, ext, o.charge);
    LandedStays(u, v, ext, from);
    JumpMarked(JumpsFrom(u.code, from), u, o, from, depth, o.size + |pre|);
    hide FramesOK, Paid, Landed, Tidy, JumpsFrom;
    MarksStay(JumpsFrom(v.code, from), u, v, p.marks, from);
  }

  /** A fresh charge; the one before no longer counts. */
  lemma RechargeTracks(k: Costs, s: Translation, o: U.Outline, from: nat)
    requires WF(s) && s.frames != [] && Shaped(s, o, from) && k.metered == s.metered
    requires s.metered || Paid(s, o.charge)
    ensures Recharge(s).Ok? && Tracks(Recharge(s).value, U.Fresh(k, o), from)
  {
    hide Kinds, MarkFits, SpansOf, WF;
    RechargeKeeps(s);
    var t := Recharge(s).value;
    if s.metered {
      var ext := [Op(O.ConsumeFuel(0))];
      var w := s.(code := s.code + ext);
      assert Tidy(ext, 0, s.reachable);
      OneCharge();
      EmittedShape(s, o, from, w, U.Place(o, 1), ext);
      MarksMove(JumpsFrom(t.code, from), w, t, o.marks, from);
      assert Paid(t, 0);
    } else {
      assert t.code == s.code;
      MarksMove(JumpsFrom(t.code, from), s, t, o.marks, from);
    }
    hide Recharge;
  }

  lemma OneCharge()
    ensures Kinds([Op(O.ConsumeFuel(0))]) == {}
  {
  }

  lemma MarksMove(jumps: set<(int, nat)>, s: Translation, t: Translation, marks: seq<U.Mark>, from: nat)
    requires Marked(jumps, s, marks, from) && Kept(s, t)
    requires t.labels == s.labels && t.paramWords == s.paramWords
    ensures Marked(jumps, t, marks, from)
  {
    forall j | 0 <= j < |marks| ensures MarkFits(jumps, t, t.frames[j], marks[j], j == 0, from) {
      assert MarkFits(jumps, s, s.frames[j], marks[j], j == 0, from);
      assert j < |marks| - 1 ==> t.frames[..|t.frames| - 1][j] == s.frames[..|s.frames| - 1][j];
    }
  }
}
