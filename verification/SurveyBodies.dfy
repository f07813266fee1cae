/** Whole bodies come to what their outlines say, reachable or not. */
module SurveyBodies {
  import opened Words
  import O = Opcodes
  import opened Source
  import opened Validation
  import opened Layout
  import opened Translator
  import opened Invariants
  import opened Frames
  import opened Progress
  import opened Control
  import opened Branches
  import opened Structure
  import opened Bodies
  import opened Surveys
  import opened SurveySteps
  import opened SurveyBranches
  import opened SurveyTables
  import opened SurveySimple
  import opened SurveyBlocks
  import U = Outlines

  // ----- the first unmet demand stays the first -----

  ghost predicate SameVerdict(o: U.Outline, p: U.Outline) {
    U.Verdict(o.demands).Some? ==> U.Verdict(p.demands) == U.Verdict(o.demands)
  }

  lemma SpendLater(k: Costs, o: U.Outline, n: nat)
    ensures SameVerdict(o, U.Spend(k, o, n))
  {
    hide U.Verdict;
    if k.metered { Asked(o, U.Charge(o.charge + n)); }
  }

  lemma ReturnLater(c: Ctx, o: U.Outline)
    ensures SameVerdict(o, U.OutlineReturn(c, o))
  {
    hide U.Verdict, U.Moves, U.Spill, U.Minus;
    Asked(o, U.Drops(U.Minus(o.words, U.Entries(c.results)), U.Entries(c.results)));
  }

  lemma BrLater(k: Costs, c: Ctx, o: U.Outline, depth: nat)
    ensures SameVerdict(o, U.OutlineBr(k, c, o, depth))
    ensures SameVerdict(o, U.OutlineBrIf(k, c, o, depth))
  {
    hide U.Verdict, U.Dropping, U.Keeping, U.OutlineBr, U.OutlineBrIf;
    LaterDemands(k, c, o, depth);
    Asked(o, U.Drops(U.Dropping(c, o, depth), U.Keeping(c, depth)));
    var p := U.Popped(o);
    BrIfDemands(k, c, o, depth);
    Asked(p, U.Drops(U.Dropping(c, p, depth), U.Keeping(c, depth)));
  }

  lemma SimpleLater(k: Costs, i: Instr, c: Ctx, ts: seq<ValType>, o: U.Outline)
    ensures SameVerdict(o, U.OutlineSimple(k, i, c, ts, o))
  {
    hide U.Verdict, U.Locate, U.Spend, U.LengthOf, U.RoomOf, CheckPlain;
    var n := if i.Drop? then 0 else k.base;
    SpendLater(k, o, n);
    LocatedLater(U.Spend(k, o, n), i, c);
  }

  lemma TableLater(k: Costs, c: Ctx, o: U.Outline, depths: seq<nat>)
    ensures SameVerdict(o, U.OutlineTable(k, c, o, depths))
  {
    hide U.Verdict, U.OutlineTable;
    TableAsks(k, c, o, depths);
    SpendLater(k, o, k.base);
  }

  lemma BlocksLater(k: Costs, bt: BlockType, live: bool, o: U.Outline)
    ensures SameVerdict(o, U.Close(k, bt, o)) && SameVerdict(o, U.Switch(k, bt, live, o))
    ensures SameVerdict(o, U.SkipEnd(k, bt, o))
    ensures SameVerdict(o, U.EnterIf(k, bt, o))
  {
    hide U.Verdict, U.Minus;
    if live { JumpAsks(o, 0, o.size); }
    SpendLater(k, U.Popped(o), k.base);
    hide U.Jump;
  }

  lemma {:induction false} SurveyLater(k: Costs, code: seq<Instr>, c: Ctx, ts: seq<ValType>, o: U.Outline)
    ensures SameVerdict(o, U.Survey(k, code, c, ts, o))
    decreases code, 0
  {
    hide U.SurveyInstr, CheckInstr, U.Verdict;
    if code != [] {
      InstrLater(k, code[0], c, ts, o);
      var p, f := U.SurveyInstr(k, code[0], c, ts, o), CheckInstr(code[0], c, ts);
      if f.Live? { SurveyLater(k, code[1..], c, f.types, p); } else { SkipLater(k, code[1..], p); }
    }
  }

  lemma {:induction false} InstrLater(k: Costs, i: Instr, c: Ctx, ts: seq<ValType>, o: U.Outline)
    ensures SameVerdict(o, U.SurveyInstr(k, i, c, ts, o))
    decreases i, 1
  {
    hide U.Verdict, U.Survey, U.Close, U.Switch, U.EnterIf, U.OutlineBr, U.OutlineBrIf, U.OutlineTable,
      U.OutlineReturn, U.OutlineSimple;
    match i
    case Nop =>
    case Unreachable =>
    case Return => ReturnLater(c, o);
    case Br(depth) => BrLater(k, c, o, depth);
    case BrIf(depth) => BrLater(k, c, o, depth);
    case BrTable(depths, default) => TableLater(k, c, o, depths + [default]);
    case Block(bt, body) =>
      var e := U.Inside(o, U.Mark(U.Under(bt, o), O.None, {}, {}));
      SurveyLater(k, body, Enter(c, Results(bt)), Params(bt), e);
      BlocksLater(k, bt, true, U.Survey(k, body, Enter(c, Results(bt)), Params(bt), e));
    case Loop(bt, body) =>
      var e := U.Inside(U.Fresh(k, o), U.Mark(U.Under(bt, o), O.Some(o.size), {}, {}));
      SurveyLater(k, body, Enter(c, Params(bt)), Params(bt), e);
      BlocksLater(k, bt, true, U.Survey(k, body, Enter(c, Params(bt)), Params(bt), e));
    case If(bt, thn) =>
      BlocksLater(k, bt, true, o);
      SurveyLater(k, thn, Enter(c, Results(bt)), Params(bt), U.EnterIf(k, bt, o));
      BlocksLater(k, bt, true, U.Survey(k, thn, Enter(c, Results(bt)), Params(bt), U.EnterIf(k, bt, o)));
    case IfElse(bt, thn, els) =>
      var d := Enter(c, Results(bt));
      var live := Check(thn, d, Params(bt)).Live?;
      BlocksLater(k, bt, live, o);
      SurveyLater(k, thn, d, Params(bt), U.EnterIf(k, bt, o));
      var t := U.Survey(k, thn, d, Params(bt), U.EnterIf(k, bt, o));
      BlocksLater(k, bt, live, t);
      SurveyLater(k, els, d, Params(bt), U.Switch(k, bt, live, t));
      BlocksLater(k, bt, live, U.Survey(k, els, d, Params(bt), U.Switch(k, bt, live, t)));
    case _ => SimpleLater(k, i, c, ts, o);
  }

  lemma {:induction false} SkipLater(k: Costs, code: seq<Instr>, o: U.Outline)
    ensures SameVerdict(o, U.Skip(k, code, o))
    ensures U.Skip(k, code, o).demands == o.demands
    decreases code, 0
  {
    hide U.Verdict, U.SkipInstr;
    if code != [] {
      SkipInstrLater(k, code[0], o);
      SkipLater(k, code[1..], U.SkipInstr(k, code[0], o));
    }
  }

  lemma {:induction false} SkipInstrLater(k: Costs, i: Instr, o: U.Outline)
    ensures U.SkipInstr(k, i, o).demands == o.demands
    decreases i, 1
  {
    hide U.Skip;
    match i
    case Block(_, body) => SkipLater(k, body, o);
    case Loop(_, body) => SkipLater(k, body, o);
    case If(_, thn) => SkipLater(k, thn, o);
    case IfElse(_, thn, els) => SkipLater(k, thn, o); SkipLater(k, els, U.Skip(k, thn, o));
    case _ =>
  }

  // ----- code that is never reached -----

  /** The state without the frames of unreachable blocks. */
  function Base(s: Translation, n: nat): Translation
    requires n <= |s.frames|
  {
    s.(frames := s.frames[..n])
  }

  ghost predicate Skims(s: Translation, n: nat, o: U.Outline, from: nat) {
    && WF(s) && !s.reachable && 1 <= n <= |s.frames| && Shaped(Base(s, n), o, from)
  }

  /** The end of an unreachable block. */
  lemma SkipEnds(k: Costs, t: Translation, n: nat, o: U.Outline, from: nat, bt: BlockType)
    requires Skims(t, n, o, from) && n < |t.frames| && k.metered == t.metered
    requires t.frames[|t.frames| - 1].DeadFrame? && t.frames[|t.frames| - 1].bt == bt
    ensures VisitEnd(t).Ok? && Skims(VisitEnd(t).value, n, U.SkipEnd(k, bt, o), from)
  {
    hide WordsOf, VisitEnd, Shaped, Recharge, PinEnd;
    EndKeeps(t, []);
    PinEndPins(t);
    var f := t.frames[|t.frames| - 1];
    var u := PinEnd(t, f).value;
    BeforeChargeKeeps(t, u, []);
    EndUnfolds(t, u, []);
    var w := BeforeCharge(t, u, []);
    assert u == t by { assert u.labels == t.labels; }
    assert w.frames == t.frames[..|t.frames| - 1];
    RechargeKeeps(w);
    SkipShape(k, t, w, Recharge(w).value, n, o, from, bt);
  }

  lemma SkipShape(k: Costs, t: Translation, w: Translation, v: Translation, n: nat, o: U.Outline, from: nat,
                  bt: BlockType)
    requires 1 <= n < |t.frames| && Shaped(Base(t, n), o, from) && k.metered == t.metered && !t.reachable
    requires w == Retyped(t.(frames := t.frames[..|t.frames| - 1]), t.types, t.height, Results(bt))
    requires v == w.(code := NewCharge(w).code, frames := v.frames) && Kept(w, v)
    ensures n <= |v.frames| && Shaped(Base(v, n), U.SkipEnd(k, bt, o), from)
  {
    hide WordsOf, Kinds, SpansOf, MarkFits;
    var words := o.words + U.Entries(Results(bt));
    var p := U.Raise(o, words).(words := words);
    var a, b := Base(t, n), Base(w, n);
    assert a.frames == b.frames;
    MarksStay(JumpsFrom(a.code, from), a, b, o.marks, from);
    assert Shaped(b, p, from);
    ChargeShape(k, b, p, from);
    var c := NewCharge(b);
    KeptBase(w, v, n);
    MarksMove(JumpsFrom(c.code, from), c, Base(v, n), o.marks, from);
  }

  lemma KeptBase(w: Translation, v: Translation, n: nat)
    requires Kept(w, v) && 1 <= n <= |w.frames|
    ensures Kept(Base(w, n), Base(v, n))
  {
    if n < |w.frames| {
      assert w.frames[..n] == w.frames[..|w.frames| - 1][..n];
      assert v.frames[..n] == v.frames[..|v.frames| - 1][..n];
    } else {
      assert w.frames[..n] == w.frames && v.frames[..n] == v.frames;
    }
  }

  lemma {:induction false} SkipSurveyed(k: Costs, s: Translation, n: nat, code: seq<Instr>, o: U.Outline, from: nat)
    requires Skims(s, n, o, from) && k.metered == s.metered
    ensures Translate(s, code).Ok?
    ensures Skims(Translate(s, code).value, n, U.Skip(k, code, o), from)
    ensures Translate(s, code).value.metered == s.metered
    decreases code, 0
  {
    hide Skims, TranslateInstr, U.SkipInstr;
    if code != [] {
      SkipInstrSurveyed(k, s, n, code[0], o, from);
      SkipSurveyed(k, TranslateInstr(s, code[0]).value, n, code[1..], U.SkipInstr(k, code[0], o), from);
    }
  }

  lemma {:induction false} SkipInstrSurveyed(k: Costs, s: Translation, n: nat, i: Instr, o: U.Outline, from: nat)
    requires Skims(s, n, o, from) && k.metered == s.metered
    ensures TranslateInstr(s, i).Ok?
    ensures Skims(TranslateInstr(s, i).value, n, U.SkipInstr(k, i, o), from)
    ensures TranslateInstr(s, i).value.metered == s.metered
    decreases i, 1
  {
    hide Skims, Translate, VisitEnd, VisitElse, U.Skip, U.SkipEnd, TranslateInstr;
    SkimsParts(s, n, o, from);
    match i
    case Block(bt, body) => SkipBody(k, s, n, BlockKind, bt, body, o, from); WrappedIs(s, bt, body);
    case Loop(bt, body) => SkipBody(k, s, n, LoopKind, bt, body, o, from); WrappedIs(s, bt, body);
    case If(bt, thn) => SkipBody(k, s, n, IfKind, bt, thn, o, from); WrappedIs(s, bt, thn);
    case IfElse(bt, thn, els) => SkipIf(k, s, n, bt, thn, els, o, from);
    case _ => SkippedIs(s, i);
  }

  /** An unreachable block with one body. */
  function Wrapped(s: Translation, kind: Kind, bt: BlockType, body: seq<Instr>): Translator.Result<Translation> {
    var t :- Translate(PushFrame(s, DeadFrame(kind, bt)), body);
    VisitEnd(t)
  }

  lemma WrappedIs(s: Translation, bt: BlockType, body: seq<Instr>)
    requires !s.reachable
    ensures TranslateInstr(s, Block(bt, body)) == Wrapped(s, BlockKind, bt, body)
    ensures TranslateInstr(s, Loop(bt, body)) == Wrapped(s, LoopKind, bt, body)
    ensures TranslateInstr(s, If(bt, body)) == Wrapped(s, IfKind, bt, body)
  {
    hide Translate, VisitEnd;
  }

  lemma SkippedIs(s: Translation, i: Instr)
    requires !s.reachable && !i.Block? && !i.Loop? && !i.If? && !i.IfElse?
    ensures TranslateInstr(s, i) == Ok(s)
  {
  }

  /** Entering an unreachable block. */
  lemma SkipEntered(s: Translation, n: nat, kind: Kind, bt: BlockType, o: U.Outline, from: nat)
    requires Skims(s, n, o, from)
    ensures Skims(PushFrame(s, DeadFrame(kind, bt)), n, o, from)
  {
    hide Shaped, WF;
    DeadPushKeeps(s, kind, bt);
    var u := PushFrame(s, DeadFrame(kind, bt));
    assert u.frames[..n] == s.frames[..n];
    assert Base(u, n) == Base(s, n);
  }

  /** The body leaves the frame of its block on top. */
  lemma SkipTop(u: Translation, code: seq<Instr>)
    requires WF(u) && !u.reachable && u.frames != [] && u.frames[|u.frames| - 1].DeadFrame?
    ensures Translate(u, code).Ok?
    ensures var t := Translate(u, code).value;
            |t.frames| == |u.frames| && t.frames[|t.frames| - 1] == u.frames[|u.frames| - 1] && t.metered == u.metered
            && WF(t) && !t.reachable
  {
    hide WF, Translate;
    DeadTranslate(u, code);
  }

  lemma SkimsParts(s: Translation, n: nat, o: U.Outline, from: nat)
    requires Skims(s, n, o, from)
    ensures WF(s) && !s.reachable && 1 <= n <= |s.frames|
  {
  }

  lemma {:induction false} SkipBody(k: Costs, s: Translation, n: nat, kind: Kind, bt: BlockType, body: seq<Instr>,
                                    o: U.Outline, from: nat)
    requires Skims(s, n, o, from) && k.metered == s.metered
    ensures var r := Translate(PushFrame(s, DeadFrame(kind, bt)), body);
            && r.Ok? && VisitEnd(r.value).Ok?
            && Skims(VisitEnd(r.value).value, n, U.SkipEnd(k, bt, U.Skip(k, body, o)), from)
            && VisitEnd(r.value).value.metered == s.metered
    decreases body, 1
  {
    hide Skims, Translate, VisitEnd, U.Skip, U.SkipEnd, WF;
    var u := PushFrame(s, DeadFrame(kind, bt));
    SkimsParts(s, n, o, from);
    SkipEntered(s, n, kind, bt, o, from);
    SkimsParts(u, n, o, from);
    SkipSurveyed(k, u, n, body, o, from);
    SkipTop(u, body);
    var t := Translate(u, body).value;
    SkipEnds(k, t, n, U.Skip(k, body, o), from, bt);
    EndMetering(t);
  }

  lemma EndMetering(t: Translation)
    requires Endable(t, [])
    ensures VisitEnd(t).Ok? && VisitEnd(t).value.metered == t.metered
  {
    hide WordsOf, VisitEnd;
    EndKeeps(t, []);
  }

  lemma {:induction false} SkipIf(k: Costs, s: Translation, n: nat, bt: BlockType, thn: seq<Instr>, els: seq<Instr>,
                                  o: U.Outline, from: nat)
    requires Skims(s, n, o, from) && k.metered == s.metered
    ensures var r := TranslateInstr(s, IfElse(bt, thn, els));
            && r.Ok? && r.value.metered == s.metered
            && Skims(r.value, n, U.SkipEnd(k, bt, U.Skip(k, els, U.Skip(k, thn, o))), from)
    decreases IfElse(bt, thn, els), 0
  {
    hide Skims, Translate, VisitEnd, U.Skip, U.SkipEnd, TranslateInstr, WF;
    var u := PushFrame(s, DeadFrame(IfKind, bt));
    SkimsParts(s, n, o, from);
    DeadIfUnfolds(s, bt, thn, els);
    SkipEntered(s, n, IfKind, bt, o, from);
    SkimsParts(u, n, o, from);
    SkipSurveyed(k, u, n, thn, o, from);
    SkipTop(u, thn);
    var t := Translate(u, thn).value;
    assert VisitElse(t) == Ok(t);
    SkipSurveyed(k, t, n, els, U.Skip(k, thn, o), from);
    SkipTop(t, els);
    var v := Translate(t, els).value;
    SkipEnds(k, v, n, U.Skip(k, els, U.Skip(k, thn, o)), from, bt);
    EndMetering(v);
  }

  // ----- code that is reached -----

  /** A block's body, and its end. */
  function Inner(e: Translation, body: seq<Instr>): Translator.Result<Translation> {
    var t :- Translate(e, body);
    VisitEnd(t)
  }

  lemma ClosePlain(k: Costs, bt: BlockType, live: bool, o: U.Outline)
    ensures U.Close(k, bt, o).demands == o.demands
  {
  }

  lemma EnteredAt(s: Translation, e: Translation, f: Frame, c: Ctx, lab: seq<ValType>, below: seq<ValType>)
    requires Entered(s, e, f, c, lab, below)
    ensures At(e, Enter(c, lab), below, Params(f.bt)) && e.metered == s.metered && e.base == s.base
    ensures e.frames == s.frames + [f] && !f.DeadFrame? && WordsOf(below) == e.paramWords + f.height
  {
    hide WordsOf, WF;
  }

  lemma GoodSame(s: Translation, t: Translation, below: seq<ValType>, f: Flow)
    requires Good(s, t, below, f)
    ensures t.metered == s.metered && t.base == s.base && |t.frames| == |s.frames| > 0 && WF(t)
    ensures t.reachable == f.Live?
    ensures SameFrame(s.frames[|s.frames| - 1], t.frames[|t.frames| - 1])
  {
    hide WF;
  }

  lemma {:induction false} BodySurveyed(k: Costs, s: Translation, c: Ctx, below: seq<ValType>, ts: seq<ValType>,
                                        code: seq<Instr>, o: U.Outline, from: nat)
    requires At(s, c, below, ts) && Check(code, c, ts) != Bad
    requires Tracks(s, o, from) && U.Verdict(o.demands).None? && k.metered == s.metered && k.base == s.base
    ensures Keeps(Translate(s, code), U.Survey(k, code, c, ts, o), from)
    decreases code, 0
  {
    hide At, Good, Tracks, U.Verdict, TranslateInstr, U.SurveyInstr, CheckInstr;
    if code != [] {
      var r, f := TranslateInstr(s, code[0]), CheckInstr(code[0], c, ts);
      LiveInstr(s, c, below, ts, code[0]);
      InstrSurveyed(k, s, c, below, ts, code[0], o, from);
      if r.Ok? {
        GoodSame(s, r.value, below, f);
        if f.Live? {
          RestSurveyed(k, s, r.value, c, below, ts, code[1..], U.SurveyInstr(k, code[0], c, ts, o), from, f.types);
        } else {
          DeadRest(k, r.value, code[1..], U.SurveyInstr(k, code[0], c, ts, o), from);
        }
      } else if f.Live? {
        SurveyLater(k, code[1..], c, f.types, U.SurveyInstr(k, code[0], c, ts, o));
      } else {
        SkipLater(k, code[1..], U.SurveyInstr(k, code[0], c, ts, o));
      }
    }
  }

  lemma {:induction false} RestSurveyed(k: Costs, s: Translation, t: Translation, c: Ctx, below: seq<ValType>,
                                        ts: seq<ValType>, rest: seq<Instr>, p: U.Outline, from: nat, us: seq<ValType>)
    requires At(s, c, below, ts) && Good(s, t, below, Live(us)) && Check(rest, c, us) != Bad
    requires Tracks(t, p, from) && U.Verdict(p.demands).None? && k.metered == t.metered && k.base == t.base
    ensures Keeps(Translate(t, rest), U.Survey(k, rest, c, us, p), from)
    decreases rest, 1
  {
    hide WordsOf, WF, Tracks, U.Verdict;
    GoodAt(s, t, c, below, us);
    hide At, Good, Placed;
    BodySurveyed(k, t, c, below, us, rest, p, from);
  }

  lemma DeadRest(k: Costs, t: Translation, rest: seq<Instr>, p: U.Outline, from: nat)
    requires WF(t) && !t.reachable && t.frames != [] && Tracks(t, p, from) && k.metered == t.metered
    requires U.Verdict(p.demands).None?
    ensures Keeps(Translate(t, rest), U.Skip(k, rest, p), from)
  {
    hide WF, Shaped, Translate, U.Verdict, U.Skip;
    var n := |t.frames|;
    assert Base(t, n) == t;
    SkipSurveyed(k, t, n, rest, p, from);
    DeadTranslate(t, rest);
    SkipLater(k, rest, p);
    var v := Translate(t, rest).value;
    assert Base(v, n) == v;
  }

  lemma {:induction false} InstrSurveyed(k: Costs, s: Translation, c: Ctx, below: seq<ValType>, ts: seq<ValType>,
                                         i: Instr, o: U.Outline, from: nat)
    requires At(s, c, below, ts) && CheckInstr(i, c, ts) != Bad
    requires Tracks(s, o, from) && U.Verdict(o.demands).None? && k.metered == s.metered && k.base == s.base
    ensures Keeps(TranslateInstr(s, i), U.SurveyInstr(k, i, c, ts, o), from)
    decreases i, 1
  {
    hide At, Keeps, VisitSimple, U.OutlineSimple, U.OutlineBr, U.OutlineBrIf, U.OutlineTable, U.OutlineReturn,
      VisitReturn, VisitBr, VisitBrIf, VisitBrTable, VisitUnreachable, Tracks, U.Survey, U.Verdict, Translate;
    match i
    case Nop => KeptAsIs(s, o, from);
    case Unreachable => UnreachableKept(s, c, below, ts, o, from);
    case Return => ReturnSurveyed(s, c, below, ts, o, from);
    case Br(depth) => BrSurveyed(k, s, c, below, ts, depth, o, from);
    case BrIf(depth) => BrIfSurveyed(k, s, c, below, ts, depth, o, from);
    case BrTable(depths, default) => TableSurveyed(k, s, c, below, ts, depths, default, o, from);
    case Block(bt, body) => BlockSurveyed(k, s, c, below, ts, bt, body, o, from);
    case Loop(bt, body) => LoopSurveyed(k, s, c, below, ts, bt, body, o, from);
    case If(bt, thn) => IfSurveyed(k, s, c, below, ts, bt, thn, o, from);
    case IfElse(bt, thn, els) => IfElseSurveyed(k, s, c, below, ts, bt, thn, els, o, from);
    case _ => PlainSurveyed(k, s, i, c, below, ts, o, from);
  }

  lemma KeptAsIs(s: Translation, o: U.Outline, from: nat)
    requires Tracks(s, o, from) && U.Verdict(o.demands).None?
    ensures Keeps(Ok(s), o, from)
  {
  }

  lemma UnreachableKept(s: Translation, c: Ctx, below: seq<ValType>, ts: seq<ValType>, o: U.Outline, from: nat)
    requires At(s, c, below, ts) && Tracks(s, o, from) && U.Verdict(o.demands).None?
    ensures Keeps(Ok(VisitUnreachable(s)), U.Place(o, 1), from)
  {
    hide Tracks, WF, VisitUnreachable;
    UnreachableSurveyed(s, o, from);
  }

  lemma PlainSurveyed(k: Costs, s: Translation, i: Instr, c: Ctx, below: seq<ValType>, ts: seq<ValType>, o: U.Outline,
                      from: nat)
    requires At(s, c, below, ts) && Simple(i) && CheckPlain(i, c, ts) != Bad
    requires Tracks(s, o, from) && U.Verdict(o.demands).None? && k.metered == s.metered && k.base == s.base
    ensures Keeps(VisitSimple(s, i), U.OutlineSimple(k, i, c, ts, o), from)
  {
    hide At, Keeps, VisitSimple, U.OutlineSimple, Tracks, U.Verdict;
    assert CheckPlain(i, c, ts).Live?;
    SimpleSurveyed(k, s, i, c, below, ts, o, from);
  }

  /** The body of a block and its end. */
  lemma {:induction false} InnerSurveyed(k: Costs, s: Translation, e: Translation, c: Ctx, below: seq<ValType>,
                                         ts: seq<ValType>, bt: BlockType, lab: seq<ValType>, body: seq<Instr>,
                                         q: U.Outline, from: nat)
    requires s.frames != [] && |e.frames| == |s.frames| + 1 && e.frames[|s.frames|].bt == bt
    requires EndsWith(ts, Params(bt))
    requires Entered(s, e, e.frames[|s.frames|], c, lab, Under(below, ts, Params(bt)))
    requires CheckBody(bt, body, lab, c, ts) != Bad
    requires Tracks(e, q, from) && U.Verdict(q.demands).None? && k.metered == e.metered && k.base == e.base
    ensures Keeps(Inner(e, body), U.Close(k, bt, U.Survey(k, body, Enter(c, lab), Params(bt), q)), from)
    decreases body, 1
  {
    hide WordsOf, At, Good, VisitEnd, Ended, Entered, Tracks, U.Verdict, Translate, U.Survey, U.Close, GoodResult;
    var under := Under(below, ts, Params(bt));
    EnteredAt(s, e, e.frames[|s.frames|], c, lab, under);
    BodySurveyed(k, e, Enter(c, lab), under, Params(bt), body, q, from);
    LiveBody(s, e, c, below, ts, bt, lab, body);
    ClosePlain(k, bt, true, U.Survey(k, body, Enter(c, lab), Params(bt), q));
    if Translate(e, body).Ok? {
      var t := Translate(e, body).value;
      var flow := Check(body, Enter(c, lab), Params(bt));
      hide Check, CheckBody;
      GoodSame(e, t, under, flow);
      EndableHere(e, t, under, flow);
      EndSurveyed(k, t, under, U.Survey(k, body, Enter(c, lab), Params(bt), q), from, bt);
    }
  }

  /** Entering a block. */
  lemma BlockStarts(s: Translation, c: Ctx, below: seq<ValType>, ts: seq<ValType>, bt: BlockType, o: U.Outline,
                    from: nat)
    requires At(s, c, below, ts) && EndsWith(ts, Params(bt)) && Tracks(s, o, from)
    ensures match VisitBlock(s, bt)
            case Err(_) => false
            case Ok(e) =>
              && |e.frames| == |s.frames| + 1 && e.frames[|s.frames|].bt == bt
              && Entered(s, e, e.frames[|s.frames|], c, Results(bt), Under(below, ts, Params(bt)))
              && Tracks(e, U.Inside(o, U.Mark(U.Under(bt, o), O.None, {}, {})), from)
  {
    hide WordsOf, Entered, Tracks, BlockPush, WF, Placed, VisitBlock;
    AtParts(s, c, below, ts);
    BlockEntered(s, c, below, ts, bt);
    UnderWordsAt(s, c, below, ts, Params(bt));
    hide At;
    var h := s.height - WordsOf(Params(bt));
    BlockTracks(s, o, from, bt, h);
    BlockVisited(s, bt, h);
  }

  lemma {:induction false} BlockSurveyed(k: Costs, s: Translation, c: Ctx, below: seq<ValType>, ts: seq<ValType>,
                                         bt: BlockType, body: seq<Instr>, o: U.Outline, from: nat)
    requires At(s, c, below, ts) && CheckBody(bt, body, Results(bt), c, ts) != Bad
    requires Tracks(s, o, from) && U.Verdict(o.demands).None? && k.metered == s.metered && k.base == s.base
    ensures Keeps(TranslateInstr(s, Block(bt, body)), U.SurveyInstr(k, Block(bt, body), c, ts, o), from)
    decreases body, 2
  {
    hide WordsOf, VisitBlock, Entered, Tracks, U.Verdict, U.Survey, U.Close, Inner, TranslateInstr, U.SurveyInstr,
      U.Fresh, Keeps;
    BlockOutlines(k, bt, body, c, ts, o);
    NonEmpty(s, c, below, ts);
    hide At;
    BodyFits(bt, body, Results(bt), c, ts);
    hide CheckBody;
    BlockStarts(s, c, below, ts, bt, o, from);
    var e := VisitBlock(s, bt).value;
    EnteredAt(s, e, e.frames[|s.frames|], c, Results(bt), Under(below, ts, Params(bt)));
    BlockInner(s, bt, body);
    InnerSurveyed(k, s, e, c, below, ts, bt, Results(bt), body,
                  U.Inside(o, U.Mark(U.Under(bt, o), O.None, {}, {})), from);
  }

  lemma BlockVisited(s: Translation, bt: BlockType, h: nat)
    requires s.reachable && s.frames != [] && WordsOf(Params(bt)) <= s.height && h == s.height - WordsOf(Params(bt))
    ensures VisitBlock(s, bt) == Ok(BlockPush(s, bt, h))
  {
    hide WordsOf;
  }

  lemma BlockInner(s: Translation, bt: BlockType, body: seq<Instr>)
    ensures VisitBlock(s, bt).Ok? ==>
            TranslateInstr(s, Block(bt, body)) == Inner(VisitBlock(s, bt).value, body)
    ensures VisitLoop(s, bt).Ok? ==> TranslateInstr(s, Loop(bt, body)) == Inner(VisitLoop(s, bt).value, body)
    ensures VisitIf(s, bt).Ok? ==> TranslateInstr(s, If(bt, body)) == Inner(VisitIf(s, bt).value, body)
    ensures VisitIf(s, bt).Err? ==> TranslateInstr(s, If(bt, body)) == Err(VisitIf(s, bt).failure)
  {
    hide Translate, VisitEnd, VisitBlock, VisitLoop, VisitIf;
  }

  lemma BlockOutlines(k: Costs, bt: BlockType, body: seq<Instr>, c: Ctx, ts: seq<ValType>, o: U.Outline)
    ensures U.SurveyInstr(k, Block(bt, body), c, ts, o)
         == U.Close(k, bt, U.Survey(k, body, Enter(c, Results(bt)), Params(bt),
                                    U.Inside(o, U.Mark(U.Under(bt, o), O.None, {}, {}))))
    ensures U.SurveyInstr(k, Loop(bt, body), c, ts, o)
         == U.Close(k, bt, U.Survey(k, body, Enter(c, Params(bt)), Params(bt),
                                    U.Inside(U.Fresh(k, o), U.Mark(U.Under(bt, o), O.Some(o.size), {}, {}))))
    ensures U.Fresh(k, o).demands == o.demands
  {
    hide U.Survey, U.Close;
  }

  /** Entering a loop. */
  lemma LoopStarts(k: Costs, s: Translation, c: Ctx, below: seq<ValType>, ts: seq<ValType>, bt: BlockType,
                   o: U.Outline, from: nat)
    requires At(s, c, below, ts) && EndsWith(ts, Params(bt)) && Tracks(s, o, from) && k.metered == s.metered
    ensures match VisitLoop(s, bt)
            case Err(_) => false
            case Ok(e) =>
              && |e.frames| == |s.frames| + 1 && e.frames[|s.frames|].bt == bt
              && Entered(s, e, e.frames[|s.frames|], c, Params(bt), Under(below, ts, Params(bt)))
              && Tracks(e, U.Inside(U.Fresh(k, o), U.Mark(U.Under(bt, o), O.Some(o.size), {}, {})), from)
  {
    hide WordsOf, Entered, Tracks, LoopPush, WF, Placed, VisitLoop;
    AtParts(s, c, below, ts);
    LoopEntered(s, c, below, ts, bt);
    UnderWordsAt(s, c, below, ts, Params(bt));
    hide At;
    var h := s.height - WordsOf(Params(bt));
    LoopTracks(k, s, o, from, bt, h);
    LoopVisited(s, bt, h);
  }

  lemma {:induction false} LoopSurveyed(k: Costs, s: Translation, c: Ctx, below: seq<ValType>, ts: seq<ValType>,
                                        bt: BlockType, body: seq<Instr>, o: U.Outline, from: nat)
    requires At(s, c, below, ts) && CheckBody(bt, body, Params(bt), c, ts) != Bad
    requires Tracks(s, o, from) && U.Verdict(o.demands).None? && k.metered == s.metered && k.base == s.base
    ensures Keeps(TranslateInstr(s, Loop(bt, body)), U.SurveyInstr(k, Loop(bt, body), c, ts, o), from)
    decreases body, 2
  {
    hide WordsOf, VisitLoop, Entered, Tracks, U.Verdict, U.Survey, U.Close, Inner, TranslateInstr, U.SurveyInstr,
      U.Fresh, Keeps;
    BlockOutlines(k, bt, body, c, ts, o);
    NonEmpty(s, c, below, ts);
    hide At;
    BodyFits(bt, body, Params(bt), c, ts);
    hide CheckBody;
    LoopStarts(k, s, c, below, ts, bt, o, from);
    var e := VisitLoop(s, bt).value;
    EnteredAt(s, e, e.frames[|s.frames|], c, Params(bt), Under(below, ts, Params(bt)));
    BlockInner(s, bt, body);
    InnerSurveyed(k, s, e, c, below, ts, bt, Params(bt), body,
                  U.Inside(U.Fresh(k, o), U.Mark(U.Under(bt, o), O.Some(o.size), {}, {})), from);
  }

  lemma LoopVisited(s: Translation, bt: BlockType, h: nat)
    requires s.reachable && WordsOf(Params(bt)) <= s.height && h == s.height - WordsOf(Params(bt))
    ensures VisitLoop(s, bt) == Ok(LoopPush(s, bt, h))
  {
    hide WordsOf, NewCharge;
    assert (s.labels + [O.None])[|s.labels| := O.Some(|s.code|)] == s.labels + [O.Some(|s.code|)];
  }

  lemma IfSurveys(k: Costs, s: Translation, c: Ctx, below: seq<ValType>, ts: seq<ValType>, bt: BlockType, o: U.Outline,
                  from: nat)
    requires At(s, c, below, ts) && |ts| >= 1 && ts[|ts| - 1] == I32 && EndsWith(ts[..|ts| - 1], Params(bt))
    requires Tracks(s, o, from) && U.Verdict(o.demands).None? && k.metered == s.metered && k.base == s.base
    ensures Keeps(VisitIf(s, bt), U.EnterIf(k, bt, o), from)
  {
    hide WordsOf, VisitIf, Bump, Tracks, U.Verdict, WF, Placed, IfPushed;
    ConditionTracks(s, c, below, ts, o, from);
    ConditionPopped(s, c, below, ts);
    var p, us := PopCondition(s).value, ts[..|ts| - 1];
    AtParts(s, c, below, ts);
    assert s.types[..|s.types| - 1] == p.types;
    hide PopCondition;
    BumpSurveyed(k, p, c, below, us, U.Popped(o), from);
    UnderWordsAt(p, c, below, us, Params(bt));
    var h := p.height - WordsOf(Params(bt));
    IfIs(s, p, bt, h);
    if Bump(p, s.base).Ok? {
      var b := Bump(p, s.base).value;
      AtParts(b, c, below, us);
      hide At;
      IfTracks(k, b, U.Spend(k, U.Popped(o), k.base), from, bt, h);
    }
  }

  lemma {:induction false} IfSurveyed(k: Costs, s: Translation, c: Ctx, below: seq<ValType>, ts: seq<ValType>,
                                      bt: BlockType, thn: seq<Instr>, o: U.Outline, from: nat)
    requires At(s, c, below, ts) && CheckInstr(If(bt, thn), c, ts) != Bad
    requires Tracks(s, o, from) && U.Verdict(o.demands).None? && k.metered == s.metered && k.base == s.base
    ensures Keeps(TranslateInstr(s, If(bt, thn)), U.SurveyInstr(k, If(bt, thn), c, ts, o), from)
    decreases If(bt, thn), 0
  {
    hide WordsOf, VisitEnd, Entered, Tracks, U.Verdict, Translate, U.Survey, U.Close, Inner, WF, Placed, VisitIf,
      U.EnterIf, TranslateInstr;
    var us := ts[..|ts| - 1];
    AtParts(s, c, below, ts);
    BodyFits(bt, thn, Results(bt), c, us);
    IfEntered(s, c, below, ts, bt);
    IfSurveys(k, s, c, below, ts, bt, o, from);
    hide At, CheckBody;
    BlockInner(s, bt, thn);
    var d := Enter(c, Results(bt));
    if VisitIf(s, bt).Ok? {
      var e := VisitIf(s, bt).value;
      EnteredAt(s, e, e.frames[|s.frames|], c, Results(bt), Under(below, us, Params(bt)));
      InnerSurveyed(k, s, e, c, below, us, bt, Results(bt), thn, U.EnterIf(k, bt, o), from);
    } else {
      SurveyLater(k, thn, d, Params(bt), U.EnterIf(k, bt, o));
      ClosePlain(k, bt, true, U.Survey(k, thn, d, Params(bt), U.EnterIf(k, bt, o)));
    }
  }

  /** The first branch, and the start of the second. */
  lemma {:induction false} ThenSurveyed(k: Costs, s: Translation, e: Translation, c: Ctx, below: seq<ValType>,
                                        us: seq<ValType>, bt: BlockType, thn: seq<Instr>, q: U.Outline, from: nat)
    requires s.frames != [] && |e.frames| == |s.frames| + 1
    requires e.frames[|s.frames|].IfFrame? && e.frames[|s.frames|].bt == bt && e.frames[|s.frames|].thenReachable.None?
    requires EndsWith(us, Params(bt))
    requires Entered(s, e, e.frames[|s.frames|], c, Results(bt), Under(below, us, Params(bt)))
    requires CheckBody(bt, thn, Results(bt), c, us) != Bad
    requires Tracks(e, q, from) && U.Verdict(q.demands).None? && k.metered == e.metered && k.base == e.base
    ensures var d := Enter(c, Results(bt));
            var r := (var t :- Translate(e, thn);
                      VisitElse(t));
            Keeps(r, U.Switch(k, bt, Check(thn, d, Params(bt)).Live?, U.Survey(k, thn, d, Params(bt), q)), from)
    decreases thn, 1
  {
    hide WordsOf, At, Good, VisitElse, Entered, Tracks, U.Verdict, Translate, U.Survey, U.Switch, SecondStarts;
    var under, d := Under(below, us, Params(bt)), Enter(c, Results(bt));
    EnteredAt(s, e, e.frames[|s.frames|], c, Results(bt), under);
    BodySurveyed(k, e, d, under, Params(bt), thn, q, from);
    LiveThen(s, e, c, below, us, bt, thn);
    var flow, p := Check(thn, d, Params(bt)), U.Survey(k, thn, d, Params(bt), q);
    hide Check, CheckBody;
    SwitchPlain(k, bt, flow.Live?, p);
    if Translate(e, thn).Ok? {
      var t := Translate(e, thn).value;
      GoodSame(e, t, under, flow);
      FirstDoneHere(e, t, under, flow);
      IfHead(t, p, from);
      ElseSurveyed(k, t, t.frames[|t.frames| - 1], under, p, from, bt);
    }
  }

  lemma SwitchPlain(k: Costs, bt: BlockType, live: bool, o: U.Outline)
    ensures SameVerdict(o, U.Switch(k, bt, live, o))
    ensures live ==> o.marks != [] ==> U.MarkAt(o, 0).head.None? ==> U.Switch(k, bt, live, o).demands == o.demands
    ensures !live ==> U.Switch(k, bt, live, o).demands == o.demands
  {
    BlocksLater(k, bt, live, o);
  }

  lemma IfHead(t: Translation, o: U.Outline, from: nat)
    requires Tracks(t, o, from) && t.frames != [] && t.frames[|t.frames| - 1].IfFrame?
    ensures o.marks != [] && U.MarkAt(o, 0).head.None?
  {
    var n := |t.frames| - 1;
    assert MarkFits(JumpsFrom(t.code, from), t, t.frames[n], o.marks[n], n == 0, from);
  }

  /** An `if` with two branches, in parts. */
  lemma IfElseParts(s: Translation, bt: BlockType, thn: seq<Instr>, els: seq<Instr>)
    ensures TranslateInstr(s, IfElse(bt, thn, els)) == (var e :- VisitIf(s, bt);
                                                        var t :- Translate(e, thn);
                                                        var u :- VisitElse(t);
                                                        Inner(u, els))
  {
    hide Translate, VisitEnd, VisitElse, VisitIf;
  }

  lemma {:induction false} IfElseSurveyed(k: Costs, s: Translation, c: Ctx, below: seq<ValType>, ts: seq<ValType>,
                                          bt: BlockType, thn: seq<Instr>, els: seq<Instr>, o: U.Outline, from: nat)
    requires At(s, c, below, ts) && CheckInstr(IfElse(bt, thn, els), c, ts) != Bad
    requires Tracks(s, o, from) && U.Verdict(o.demands).None? && k.metered == s.metered && k.base == s.base
    ensures Keeps(TranslateInstr(s, IfElse(bt, thn, els)), U.SurveyInstr(k, IfElse(bt, thn, els), c, ts, o), from)
    decreases IfElse(bt, thn, els), 0
  {
    hide WordsOf, VisitEnd, VisitElse, Entered, Tracks, U.Verdict, Translate, U.Survey, U.Close, U.Switch, Inner, WF,
      Placed, VisitIf, U.EnterIf, TranslateInstr, SecondStarts, Good, Kept;
    var us := ts[..|ts| - 1];
    AtParts(s, c, below, ts);
    BodyFits(bt, thn, Results(bt), c, us);
    IfEntered(s, c, below, ts, bt);
    IfSurveys(k, s, c, below, ts, bt, o, from);
    hide At, CheckBody, Check;
    IfElseParts(s, bt, thn, els);
    if VisitIf(s, bt).Ok? {
      var e := VisitIf(s, bt).value;
      EnteredAt(s, e, e.frames[|s.frames|], c, Results(bt), Under(below, us, Params(bt)));
      ThenSurveyed(k, s, e, c, below, us, bt, thn, U.EnterIf(k, bt, o), from);
      LiveThen(s, e, c, below, us, bt, thn);
      SecondSurveyed(k, s, e, c, below, us, bt, thn, els, U.EnterIf(k, bt, o), from);
    } else {
      BranchesLater(k, bt, thn, els, c, U.EnterIf(k, bt, o));
    }
  }

  /** The outline of the two branches, from their start. */
  function BothBranches(k: Costs, bt: BlockType, thn: seq<Instr>, els: seq<Instr>, c: Ctx, q: U.Outline): U.Outline {
    var d := Enter(c, Results(bt));
    var t := U.Survey(k, thn, d, Params(bt), q);
    U.Close(k, bt, U.Survey(k, els, d, Params(bt), U.Switch(k, bt, Check(thn, d, Params(bt)).Live?, t)))
  }

  lemma BranchesLater(k: Costs, bt: BlockType, thn: seq<Instr>, els: seq<Instr>, c: Ctx, q: U.Outline)
    ensures SameVerdict(q, BothBranches(k, bt, thn, els, c, q))
    ensures var d := Enter(c, Results(bt));
            var u := U.Switch(k, bt, Check(thn, d, Params(bt)).Live?, U.Survey(k, thn, d, Params(bt), q));
            SameVerdict(u, BothBranches(k, bt, thn, els, c, q))
  {
    hide U.Verdict, U.Survey, U.Close, U.Switch, Check;
    var d := Enter(c, Results(bt));
    var live := Check(thn, d, Params(bt)).Live?;
    var t := U.Survey(k, thn, d, Params(bt), q);
    SurveyLater(k, thn, d, Params(bt), q);
    SwitchPlain(k, bt, live, t);
    var u := U.Switch(k, bt, live, t);
    SurveyLater(k, els, d, Params(bt), u);
    ClosePlain(k, bt, true, U.Survey(k, els, d, Params(bt), u));
  }

  /** The second branch, given the state in which it starts. */
  lemma {:induction false} SecondSurveyed(k: Costs, s: Translation, e: Translation, c: Ctx, below: seq<ValType>,
                                          us: seq<ValType>, bt: BlockType, thn: seq<Instr>, els: seq<Instr>,
                                          q: U.Outline, from: nat)
    requires s.frames != [] && EndsWith(us, Params(bt)) && CheckBody(bt, els, Results(bt), c, us) != Bad
    requires var d := Enter(c, Results(bt));
             var r := (var t :- Translate(e, thn);
                       VisitElse(t));
             && Keeps(r, U.Switch(k, bt, Check(thn, d, Params(bt)).Live?, U.Survey(k, thn, d, Params(bt), q)), from)
             && match r
                case Err(_) => true
                case Ok(u) =>
                  && |u.frames| == |s.frames| + 1 && u.frames[|s.frames|].bt == bt
                  && Entered(s, u, u.frames[|s.frames|], c, Results(bt), Under(below, us, Params(bt)))
    requires k.metered == s.metered && k.base == s.base
    ensures var r := (var t :- Translate(e, thn);
                      var u :- VisitElse(t);
                      Inner(u, els));
            Keeps(r, BothBranches(k, bt, thn, els, c, q), from)
    decreases els, 2
  {
    hide WordsOf, VisitElse, Entered, Tracks, U.Verdict, Translate, U.Survey, U.Close, U.Switch, Inner, CheckBody,
      Check;
    var d := Enter(c, Results(bt));
    var v := U.Switch(k, bt, Check(thn, d, Params(bt)).Live?, U.Survey(k, thn, d, Params(bt), q));
    BranchesLater(k, bt, thn, els, c, q);
    var r := (var t :- Translate(e, thn);
              VisitElse(t));
    if r.Ok? {
      EnteredAt(s, r.value, r.value.frames[|s.frames|], c, Results(bt), Under(below, us, Params(bt)));
      InnerSurveyed(k, s, r.value, c, below, us, bt, Results(bt), els, v, from);
    }
  }
}
