/** Translating validated code keeps the shape that makes metering sound. */
module MeteredBodies {
  import opened Words
  import O = Opcodes
  import opened Source
  import opened Validation
  import opened Layout
  import opened Translator
  import opened Invariants
  import opened Frames
  import opened Progress
  import opened Control
  import opened Branches
  import opened Structure
  import opened Bodies
  import opened BranchRuns
  import opened BlockRuns
  import opened BodyRuns
  import opened Metering
  import JumpTables
  import DK = DropKeeps

  // ----- branch tables -----

  /** The slots hop forward into the trampolines, and both end in terminal operators. */
  ghost predicate TablesFine(s: Translation, acc: Tables, size: nat) {
    && |acc.slots| <= size
    && (forall p :: 0 <= p < |acc.slots| ==> SlotFine(acc.slots[p], p, size + |acc.trampolines|))
    && (forall p :: 0 <= p < |acc.trampolines| ==> LandingFine(acc.trampolines[p]))
    && (forall p :: 0 <= p < |acc.slots| && acc.slots[p].Jump? ==> 1 <= acc.slots[p].target < |s.labels|)
    && (forall p :: 0 <= p < |acc.trampolines| && acc.trampolines[p].Jump? ==>
        1 <= acc.trampolines[p].target < |s.labels|)
    && (acc.slots != [] ==> Terminal(acc.slots[|acc.slots| - 1]))
    && (acc.trampolines != [] ==> Terminal(acc.trampolines[|acc.trampolines| - 1]))
  }

  predicate SlotFine(op: SymOp, p: nat, end: nat) {
    match op
    case Jump(_, _) => true
    case Op(o) => o.Return? || (o.Branch? && o.offset >= 1 && p + o.offset < end)
    case _ => false
  }

  predicate LandingFine(op: SymOp) {
    match op
    case Jump(_, _) => true
    case Op(o) => o.Return? || o.LocalGet? || o.LocalSet? || o.BulkDrop?
    case _ => false
  }

  lemma TargetFine(s: Translation, at: nat, size: nat, target: Target, acc: Tables)
    requires TablesFine(s, acc, size) && |acc.slots| + 2 <= size && EncodeTarget(s, at, size, target, acc).Ok?
    requires target.lab.Some? ==> target.lab.value >= 1
    ensures TablesFine(s, EncodeTarget(s, at, size, target, acc).value, size)
    ensures |EncodeTarget(s, at, size, target, acc).value.slots| == |acc.slots| + 2
  {
    LowerFine(target.dropKeep);
    hide DK.Lower;
    hide DK.Headroom;
    var t := EncodeTarget(s, at, size, target, acc).value;
    var n, m := |acc.slots|, |acc.trampolines|;
    var moves := Ops(DK.Lower(target.dropKeep));
    forall p | 0 <= p < |t.slots| ensures SlotFine(t.slots[p], p, size + |t.trampolines|) {
      if p < n {
        assert SlotFine(acc.slots[p], p, size + m);
      }
    }
    forall p | 0 <= p < |t.trampolines| ensures LandingFine(t.trampolines[p]) {
      if p < m {
        assert t.trampolines[p] == acc.trampolines[p];
      } else if p < m + |moves| {
        assert t.trampolines[p] == moves[p - m];
      }
    }
  }

  lemma {:induction false} TargetsFine(s: Translation, at: nat, size: nat, depths: seq<nat>, acc: Tables)
    requires TablesFine(s, acc, size) && |acc.slots| + 2 * |depths| <= size
    requires EncodeTargets(s, at, size, depths, acc).Ok?
    requires FramesFine(s)
    ensures TablesFine(s, EncodeTargets(s, at, size, depths, acc).value, size)
    ensures |EncodeTargets(s, at, size, depths, acc).value.slots| == |acc.slots| + 2 * |depths|
    decreases |depths|
  {
    hide TablesFine;
    hide EncodeTarget;
    if depths != [] {
      var target := Acquire(s, depths[0]).value;
      AcquireFine(s, depths[0]);
      hide Acquire;
      TargetFine(s, at, size, target, acc);
      TargetsFine(s, at, size, depths[1..], EncodeTarget(s, at, size, target, acc).value);
    }
  }

  lemma TableExt(s: Translation, n: Word, tables: Tables)
    requires n >= 1 && TablesFine(s, tables, 2 * n) && |tables.slots| == 2 * n
    requires LiveCharge(s).Some? && PaidAt(s.code, s.base, LiveCharge(s).value)
    ensures var ext := [Op(O.BrTable(n))] + tables.slots + tables.trampolines;
            && ExtFine(s, ext) && Terminal(ext[|ext| - 1])
            && forall i :: 0 <= i < |ext| ==> i + Reach(ext[i]) < |ext|
  {
    var ext := [Op(O.BrTable(n))] + tables.slots + tables.trampolines;
    var m := 2 * n;
    forall i | 0 <= i < |ext| ensures !IsCharge(ext, i) && i + Reach(ext[i]) < |ext| {
      TableOp(n, tables, i);
    }
    forall i | 0 <= i < |ext| ensures OpFine(ext, i) {
      TableOp(n, tables, i);
    }
    forall i | 0 <= i < |ext| && ext[i].Jump? ensures 1 <= ext[i].target < |s.labels| {
      TableOp(n, tables, i);
    }
    if tables.trampolines != [] {
      assert ext[|ext| - 1] == tables.trampolines[|tables.trampolines| - 1];
    } else {
      assert ext[|ext| - 1] == tables.slots[m - 1];
    }
  }

  lemma TableOp(n: Word, tables: Tables, i: nat)
    requires |tables.slots| == 2 * n && i < 1 + 2 * n + |tables.trampolines|
    ensures var ext := [Op(O.BrTable(n))] + tables.slots + tables.trampolines;
            ext[i] == if i == 0 then Op(O.BrTable(n))
                      else if i <= 2 * n then tables.slots[i - 1]
                      else tables.trampolines[i - 1 - 2 * n]
  {
  }

  lemma BrTableMetered(from: nat, s: Translation, depths: seq<nat>, default: nat)
    requires Metered(from, s) && s.frames != []
    ensures MeteredResult(from, VisitBrTable(s, depths, default))
  {
    hide Metered;
    if s.reachable && VisitBrTable(s, depths, default).Ok? {
      JumpTables.BrTableSucceeds(s, depths, default);
      var u := Bump(s, s.base).value;
      BumpMetered(from, s, s.base, u);
      assert PopCondition(u).Ok? by { TableSucceeds(s, depths, default, u); }
      var p := PopCondition(u).value;
      ConditionMetered(from, u);
      BrTableIs(s, depths, default, u, p);
      var all, at, size := depths + [default], |p.code| + 1, 2 * |depths| + 2;
      var tables := EncodeTargets(p, at, size, all, Tables([], [], 0)).value;
      MeteredFrames(from, p);
      assert p.reachable;
      TargetsFine(p, at, size, all, Tables([], [], 0));
      hide VisitBrTable;
      hide Bump;
      hide PopCondition;
      hide EncodeTargets;
      TableExt(p, |depths| + 1, tables);
      hide TablesFine;
      hide ExtFine;
      AppendMetered(from, p, [Op(O.BrTable(|depths| + 1))] + tables.slots + tables.trampolines,
                    BrTableEmitted(p, |depths| + 1, tables));
    }
  }

  lemma ConditionMetered(from: nat, u: Translation)
    requires Metered(from, u) && PopCondition(u).Ok?
    ensures Metered(from, PopCondition(u).value) && PopCondition(u).value.reachable == u.reachable
  {
    FramesMetered(from, u, PopCondition(u).value);
  }

  lemma MeteredFrames(from: nat, s: Translation)
    requires Metered(from, s)
    ensures FramesFine(s)
  {
  }

  lemma TableSucceeds(s: Translation, depths: seq<nat>, default: nat, u: Translation)
    requires s.reachable && VisitBrTable(s, depths, default).Ok? && Bump(s, s.base) == Ok(u)
    ensures PopCondition(u).Ok?
  {
    hide Bump;
    hide EncodeTargets;
  }

  // ----- entering blocks -----

  lemma PushFine(s: Translation, t: Translation, f: Frame)
    requires FramesFine(s) && s.frames != [] && FrameFine(f) && t.frames == s.frames + [f] && |s.labels| <= |t.labels|
    ensures FramesFine(t)
  {
    forall j | 1 <= j < |t.frames| ensures FrameFine(t.frames[j]) {
      if j < |s.frames| {
        assert FrameFine(s.frames[j]);
      }
    }
  }

  lemma DeadPushed(from: nat, s: Translation, kind: Kind, bt: BlockType)
    requires Metered(from, s) && !s.reachable && s.frames != []
    ensures Metered(from, PushFrame(s, DeadFrame(kind, bt)))
  {
    var t := PushFrame(s, DeadFrame(kind, bt));
    PushFine(s, t, DeadFrame(kind, bt));
    FramesMetered(from, s, t);
  }

  lemma BlockMetered(from: nat, s: Translation, bt: BlockType)
    requires Metered(from, s) && s.reachable && s.frames != []
    ensures MeteredResult(from, VisitBlock(s, bt))
  {
    hide WordsOf;
    if VisitBlock(s, bt).Ok? {
      var t := VisitBlock(s, bt).value;
      PushFine(s, t, t.frames[|s.frames|]);
      FramesMetered(from, s, t);
    }
  }

  lemma LoopMetered(from: nat, s: Translation, bt: BlockType)
    requires Metered(from, s) && s.reachable && s.frames != []
    ensures MeteredResult(from, VisitLoop(s, bt))
  {
    hide WordsOf;
    if VisitLoop(s, bt).Ok? {
      var t := VisitLoop(s, bt).value;
      PushFine(s, t, t.frames[|s.frames|]);
      ChargeMetered(from, s, t);
    }
  }

  lemma IfMetered(from: nat, s: Translation, c: Ctx, below: seq<ValType>, ts: seq<ValType>, bt: BlockType)
    requires Metered(from, s) && At(s, c, below, ts) && |ts| >= 1 && ts[|ts| - 1] == I32
    requires EndsWith(ts[..|ts| - 1], Params(bt))
    ensures MeteredResult(from, VisitIf(s, bt))
  {
    hide WordsOf;
    hide WF;
    if VisitIf(s, bt).Ok? {
      NonEmpty(s, c, below, ts);
      ConditionPopped(s, c, below, ts);
      var p := PopCondition(s).value;
      UnderWordsAt(p, c, below, ts[..|ts| - 1], Params(bt));
      hide At;
      var h := p.height - WordsOf(Params(bt));
      assert p.types == s.types[..|s.types| - 1];
      IfIs(s, p, bt, h);
      FramesMetered(from, s, p);
      var b := Bump(p, s.base).value;
      BumpMetered(from, p, s.base, b);
      hide Bump;
      hide VisitIf;
      hide PopCondition;
      IfPushedMetered(from, b, bt, h);
    }
  }

  lemma IfPushedMetered(from: nat, b: Translation, bt: BlockType, h: nat)
    requires Metered(from, b) && b.reachable && b.frames != []
    ensures Metered(from, IfPushed(b, bt, h))
  {
    var l := |b.labels|;
    var u := NewLabel(NewLabel(b));
    FramesMetered(from, b, u);
    var v := Emit(u, [Jump(O.IfEqz, l)]);
    AppendMetered(from, u, [Jump(O.IfEqz, l)], v);
    var t := IfPushed(b, bt, h);
    PushFine(v, t, t.frames[|b.frames|]);
    ChargeMetered(from, v, t);
  }

  // ----- leaving blocks -----

  lemma PopFine(s: Translation, t: Translation)
    requires FramesFine(s) && |s.frames| == |t.frames| + 1 && t.frames != [] && |s.labels| <= |t.labels|
    requires forall j :: 0 <= j < |t.frames| ==> SameFrame(s.frames[j], t.frames[j])
    ensures FramesFine(t)
  {
    forall j | 1 <= j < |t.frames| ensures FrameFine(t.frames[j]) {
      assert FrameFine(s.frames[j]) && SameFrame(s.frames[j], t.frames[j]);
    }
  }

  lemma EndMetered(from: nat, s: Translation, below: seq<ValType>, t: Translation)
    requires Metered(from, s) && Endable(s, below) && VisitEnd(s) == Ok(t)
    ensures Metered(from, t)
  {
    EndKeeps(s, below);
    EndLabels(s, below, t);
    DeadTop(s);
    hide WF;
    hide Endable;
    hide VisitEnd;
    ClosedFine(s, t);
    hide Extends;
    hide Closed;
    hide FrameFine;
    ChargeMetered(from, s, t);
  }

  lemma ClosedFine(s: Translation, t: Translation)
    requires FramesFine(s) && Closed(s, t) && |s.labels| <= |t.labels|
    ensures FramesFine(t)
  {
    var n := |t.frames|;
    forall j | 0 <= j < n ensures SameFrame(s.frames[j], t.frames[j]) {
      if j < n - 1 {
        assert t.frames[..n - 1][j] == s.frames[..n - 1][j];
      }
    }
    PopFine(s, t);
  }

  lemma DeadTop(s: Translation)
    requires WF(s) && s.frames != []
    ensures s.frames[|s.frames| - 1].DeadFrame? ==> !s.reachable
  {
  }

  lemma EndLabels(s: Translation, below: seq<ValType>, t: Translation)
    requires Endable(s, below) && VisitEnd(s) == Ok(t) && s.labels != []
    ensures PinsHere(s, t) && (s.frames[|s.frames| - 1].DeadFrame? ==> t.labels == s.labels)
    ensures t.metered == s.metered && t.base == s.base
  {
    hide WordsOf;
    PinEndPins(s);
    var f := s.frames[|s.frames| - 1];
    var u := PinEnd(s, f).value;
    EndUnfolds(s, u, below);
    BeforeChargeIs(s, u, below);
    BeforeChargeKeeps(s, u, below);
    RechargeKeeps(BeforeCharge(s, u, below));
    hide Recharge;
    hide BeforeCharge;
    hide VisitEnd;
    assert t.labels == u.labels;
    assert FrameOK(s, f);
    if f.DeadFrame? {
      assert Opens(f) == {};
      assert u.labels == s.labels;
    }
  }

  lemma ElseMetered(from: nat, t: Translation, f: Frame, below: seq<ValType>, u: Translation)
    requires Metered(from, t) && FirstDone(t, f, below) && VisitElse(t) == Ok(u) && |t.frames| >= 2
    ensures Metered(from, u)
  {
    hide WordsOf;
    hide WF;
    hide Extends;
    hide FrameFine;
    ElseStarts(t, f, below);
    JumpOverKeeps(t, f, below);
    hide VisitElse;
    var a := JumpOver(t, f);
    ElseFrames(t, f, below, u);
    OnlyLabels(t, f);
    SameCosts(t, u);
    hide ElseRetyped;
    hide Kept;
    hide OpsFine;
    hide LabelsCharge;
    hide JumpsFine;
    hide LatestCharge;
    hide Sealed;
    JumpOverMetered(from, t, f);
    hide FramesFine;
    ElsePins(t, f, u);
    hide PinsHere;
    ChargeMetered(from, a, u);
  }

  lemma ElsePins(t: Translation, f: Frame, u: Translation)
    requires f.IfFrame? && f.els < |t.labels| && t.labels[f.els].None?
    requires u.labels == t.labels[f.els := O.Some(|JumpOver(t, f).code|)]
    ensures PinsHere(JumpOver(t, f), u)
  {
  }

  lemma JumpOverMetered(from: nat, t: Translation, f: Frame)
    requires Metered(from, t) && |t.frames| >= 2 && t.frames[|t.frames| - 1] == f && f.IfFrame?
    requires f.end < |t.labels| && t.labels[f.end].None?
    ensures Metered(from, JumpOver(t, f))
  {
    if t.reachable {
      assert FrameFine(f);
      AppendMetered(from, t, [Jump(O.Always, f.end)], JumpOver(t, f));
    }
  }

  lemma ElseFrames(t: Translation, f: Frame, below: seq<ValType>, u: Translation)
    requires FramesFine(t) && |t.frames| >= 2 && t.frames[|t.frames| - 1] == f && f.IfFrame? && f.els < |t.labels|
    requires Kept(ElseRetyped(t, f, below), u) && |u.labels| >= |t.labels|
    ensures FramesFine(u)
  {
    hide WordsOf;
    var w, n := ElseRetyped(t, f, below), |t.frames|;
    assert w.frames == t.frames[n - 1 := Second(f, t.reachable)];
    hide ElseRetyped;
    assert SameFrame(w.frames[n - 1], u.frames[n - 1]);
    forall j | 1 <= j < n ensures FrameFine(u.frames[j]) {
      if j < n - 1 {
        assert u.frames[..n - 1][j] == w.frames[..n - 1][j] == t.frames[j];
      }
      assert FrameFine(t.frames[j]);
    }
    assert u.frames[..n - 1][0] == w.frames[..n - 1][0] == t.frames[0];
  }

  lemma SameCosts(t: Translation, u: Translation)
    requires Extends(t, u)
    ensures u.metered == t.metered && u.base == t.base
  {
  }

  lemma OnlyLabels(t: Translation, f: Frame)
    requires f.IfFrame?
    ensures var a := JumpOver(t, f);
            a.labels == t.labels && a.frames == t.frames && a.metered == t.metered
            && a.base == t.base
  {
  }

  // ----- whole bodies -----

  lemma {:induction false} DeadMetered(from: nat, s: Translation, code: seq<Instr>, t: Translation)
    requires WF(s) && !s.reachable && s.frames != [] && Metered(from, s) && Translate(s, code) == Ok(t)
    ensures Metered(from, t)
    decreases code, 0
  {
    hide WF;
    hide Metered;
    if code != [] {
      var t1 := TranslateInstr(s, code[0]).value;
      DeadInstr(s, code[0]);
      DeadInstrMetered(from, s, code[0], t1);
      hide TranslateInstr;
      hide Extends;
      DeadMetered(from, t1, code[1..], t);
    }
  }

  lemma {:induction false} DeadInstrMetered(from: nat, s: Translation, i: Instr, t: Translation)
    requires WF(s) && !s.reachable && s.frames != [] && Metered(from, s) && TranslateInstr(s, i) == Ok(t)
    ensures Metered(from, t)
    decreases i, 1
  {
    hide WF;
    hide Metered;
    match i
    case Block(bt, body) => DeadBodyMetered(from, s, BlockKind, bt, body);
    case Loop(bt, body) => DeadBodyMetered(from, s, LoopKind, bt, body);
    case If(bt, thn) => DeadBodyMetered(from, s, IfKind, bt, thn);
    case IfElse(bt, thn, els) => DeadIfMetered(from, s, bt, thn, els, t);
    case _ =>
  }

  lemma {:induction false} DeadBodyMetered(from: nat, s: Translation, kind: Kind, bt: BlockType, body: seq<Instr>)
    requires WF(s) && !s.reachable && s.frames != [] && Metered(from, s)
    ensures var r := Translate(PushFrame(s, DeadFrame(kind, bt)), body); r.Ok? && MeteredResult(from, VisitEnd(r.value))
    decreases body, 1
  {
    hide Metered;
    var e := PushFrame(s, DeadFrame(kind, bt));
    DeadPushed(from, s, kind, bt);
    DeadPushKeeps(s, kind, bt);
    DeadTranslate(e, body);
    var t1 := Translate(e, body).value;
    DeadMetered(from, e, body, t1);
    DeadEnd(from, s, e, t1);
  }

  lemma DeadEnd(from: nat, s: Translation, e: Translation, t1: Translation)
    requires s.frames != [] && |e.frames| == |s.frames| + 1 && e.frames[|s.frames|].DeadFrame? && WF(t1) && Kept(e, t1)
    requires Metered(from, t1)
    ensures MeteredResult(from, VisitEnd(t1))
  {
    hide Metered;
    EndKeeps(t1, []);
    EndMetered(from, t1, [], VisitEnd(t1).value);
  }

  lemma {:induction false} DeadIfMetered(from: nat, s: Translation, bt: BlockType, thn: seq<Instr>, els: seq<Instr>,
                                         t: Translation)
    requires WF(s) && !s.reachable && s.frames != [] && Metered(from, s)
    requires TranslateInstr(s, IfElse(bt, thn, els)) == Ok(t)
    ensures Metered(from, t)
    decreases IfElse(bt, thn, els), 0
  {
    hide Metered;
    hide Extends;
    var e := PushFrame(s, DeadFrame(IfKind, bt));
    DeadPushed(from, s, IfKind, bt);
    DeadPushKeeps(s, IfKind, bt);
    hide WF;
    DeadTranslate(e, thn);
    var t1 := Translate(e, thn).value;
    DeadMetered(from, e, thn, t1);
    assert VisitElse(t1) == Ok(t1);
    DeadTranslate(t1, els);
    var t3 := Translate(t1, els).value;
    DeadMetered(from, t1, els, t3);
    KeptTransitive(e, t1, t3);
    DeadEnd(from, s, e, t3);
    DeadIfUnfolds(s, bt, thn, els);
    hide TranslateInstr;
  }

  /** The metering theorem: translating validated code keeps the shape. */
  lemma {:induction false} LiveMetered(from: nat, s: Translation, c: Ctx, below: seq<ValType>, ts: seq<ValType>,
                                       code: seq<Instr>, t: Translation)
    requires At(s, c, below, ts) && Check(code, c, ts) != Bad && Metered(from, s) && Translate(s, code) == Ok(t)
    ensures Metered(from, t)
    decreases code, 0, 1
  {
    hide Metered;
    hide At;
    hide Good;
    if code != [] {
      var t1, f := TranslateInstr(s, code[0]).value, CheckInstr(code[0], c, ts);
      LiveInstr(s, c, below, ts, code[0]);
      LiveInstrMetered(from, s, c, below, ts, code[0], t1);
      hide TranslateInstr;
      hide CheckInstr;
      NextAt(s, t1, c, below, ts, f);
      if f.Live? {
        LiveMetered(from, t1, c, below, f.types, code[1..], t);
      } else {
        DeadMetered(from, t1, code[1..], t);
      }
    }
  }

  lemma NextAt(s: Translation, t1: Translation, c: Ctx, below: seq<ValType>, ts: seq<ValType>, f: Flow)
    requires At(s, c, below, ts) && Good(s, t1, below, f)
    ensures f.Live? ==> At(t1, c, below, f.types)
    ensures f.Dead? ==> WF(t1) && !t1.reachable && t1.frames != []
  {
    hide WF;
    hide WordsOf;
    hide Extends;
    if f.Live? {
      GoodAt(s, t1, c, below, f.types);
    }
  }

  lemma {:induction false} LiveInstrMetered(from: nat, s: Translation, c: Ctx, below: seq<ValType>, ts: seq<ValType>,
                                            i: Instr, t: Translation)
    requires At(s, c, below, ts) && CheckInstr(i, c, ts) != Bad && Metered(from, s) && TranslateInstr(s, i) == Ok(t)
    ensures Metered(from, t)
    decreases i, 1
  {
    NonEmpty(s, c, below, ts);
    AtReachable(s, c, below, ts);
    hide Metered;
    hide At;
    hide WF;
    hide Translate;
    hide VisitEnd;
    hide VisitSimple;
    hide VisitBr;
    hide VisitBrIf;
    hide VisitBrTable;
    hide VisitReturn;
    hide VisitUnreachable;
    hide CheckBody;
    hide CheckPlain;
    match i
    case Nop =>
    case Unreachable => UnreachableMetered(from, s);
    case Return => ReturnMetered(from, s);
    case Br(d) => BrMetered(from, s, d);
    case BrIf(d) => BrIfMetered(from, s, d);
    case BrTable(ds, d) => BrTableMetered(from, s, ds, d);
    case Block(bt, body) => BlockLive(from, s, c, below, ts, bt, body, t);
    case Loop(bt, body) => LoopLive(from, s, c, below, ts, bt, body, t);
    case If(bt, thn) => IfLive(from, s, c, below, ts, bt, thn, t);
    case IfElse(bt, thn, els) => IfElseMetered(from, s, c, below, ts, bt, thn, els, t);
    case _ => SimpleMetered(from, s, i);
  }

  lemma {:induction false} BlockLive(from: nat, s: Translation, c: Ctx, below: seq<ValType>, ts: seq<ValType>,
                                     bt: BlockType, body: seq<Instr>, t: Translation)
    requires At(s, c, below, ts) && s.reachable && s.frames != [] && Metered(from, s)
    requires CheckBody(bt, body, Results(bt), c, ts) != Bad && TranslateInstr(s, Block(bt, body)) == Ok(t)
    ensures Metered(from, t)
    decreases body, 2
  {
    hide Metered;
    hide At;
    hide WordsOf;
    hide Entered;
    BlockMetered(from, s, bt);
    BodyFits(bt, body, Results(bt), c, ts);
    BlockEntered(s, c, below, ts, bt);
    BlockUnfolds(s, bt, body);
    hide TranslateInstr;
    hide VisitBlock;
    hide CheckBody;
    BodyMetered(from, s, VisitBlock(s, bt).value, c, below, ts, bt, Results(bt), body, t);
  }

  lemma {:induction false} LoopLive(from: nat, s: Translation, c: Ctx, below: seq<ValType>, ts: seq<ValType>,
                                    bt: BlockType, body: seq<Instr>, t: Translation)
    requires At(s, c, below, ts) && s.reachable && s.frames != [] && Metered(from, s)
    requires CheckBody(bt, body, Params(bt), c, ts) != Bad && TranslateInstr(s, Loop(bt, body)) == Ok(t)
    ensures Metered(from, t)
    decreases body, 2
  {
    hide Metered;
    hide At;
    hide WordsOf;
    hide Entered;
    LoopMetered(from, s, bt);
    BodyFits(bt, body, Params(bt), c, ts);
    LoopEntered(s, c, below, ts, bt);
    LoopUnfolds(s, bt, body);
    hide TranslateInstr;
    hide VisitLoop;
    hide CheckBody;
    BodyMetered(from, s, VisitLoop(s, bt).value, c, below, ts, bt, Params(bt), body, t);
  }

  lemma {:induction false} IfLive(from: nat, s: Translation, c: Ctx, below: seq<ValType>, ts: seq<ValType>,
                                  bt: BlockType, thn: seq<Instr>, t: Translation)
    requires At(s, c, below, ts) && s.reachable && s.frames != [] && Metered(from, s)
    requires CheckInstr(If(bt, thn), c, ts) != Bad && TranslateInstr(s, If(bt, thn)) == Ok(t)
    ensures Metered(from, t)
    decreases thn, 2
  {
    hide Metered;
    hide At;
    hide WordsOf;
    hide Entered;
    BodyFits(bt, thn, Results(bt), c, ts[..|ts| - 1]);
    IfMetered(from, s, c, below, ts, bt);
    IfEntered(s, c, below, ts, bt);
    IfUnfolds(s, bt, thn);
    hide TranslateInstr;
    hide VisitIf;
    hide CheckBody;
    BodyMetered(from, s, VisitIf(s, bt).value, c, below, ts[..|ts| - 1], bt, Results(bt), thn, t);
  }

  lemma AtReachable(s: Translation, c: Ctx, below: seq<ValType>, ts: seq<ValType>)
    requires At(s, c, below, ts)
    ensures s.reachable
  {
  }

  lemma {:induction false} BodyMetered(from: nat, s: Translation, e: Translation, c: Ctx, below: seq<ValType>,
                                       ts: seq<ValType>, bt: BlockType, lab: seq<ValType>, body: seq<Instr>,
                                       t: Translation)
    requires s.frames != [] && |e.frames| == |s.frames| + 1 && e.frames[|s.frames|].bt == bt && EndsWith(ts, Params(bt))
    requires Entered(s, e, e.frames[|s.frames|], c, lab, Under(below, ts, Params(bt)))
    requires CheckBody(bt, body, lab, c, ts) != Bad && Metered(from, e)
    requires Enclosed(Ok(e), body) == Ok(t)
    ensures Metered(from, t)
    decreases body, 1
  {
    hide Metered;
    hide At;
    hide Good;
    hide WordsOf;
    var under := Under(below, ts, Params(bt));
    var t1 := Translate(e, body).value;
    LiveBody(s, e, c, below, ts, bt, lab, body);
    LiveMetered(from, e, Enter(c, lab), under, Params(bt), body, t1);
    hide Translate;
    hide VisitEnd;
    hide Ended;
    var flow := Check(body, Enter(c, lab), Params(bt));
    hide Check;
    EndsHere(from, s, e, t1, c, lab, under, flow, t);
  }

  lemma EndsHere(from: nat, s: Translation, e: Translation, t1: Translation, c: Ctx, lab: seq<ValType>,
                 under: seq<ValType>, flow: Flow, t: Translation)
    requires s.frames != [] && |e.frames| == |s.frames| + 1 && Entered(s, e, e.frames[|s.frames|], c, lab, under)
    requires Good(e, t1, under, flow) && Metered(from, t1) && VisitEnd(t1) == Ok(t)
    ensures Metered(from, t)
  {
    hide Metered;
    hide At;
    hide WF;
    hide WordsOf;
    hide VisitEnd;
    hide Extends;
    EndableHere(e, t1, under, flow);
    hide Endable;
    EndMetered(from, t1, under, t);
  }

  lemma {:induction false} IfElseMetered(from: nat, s: Translation, c: Ctx, below: seq<ValType>, ts: seq<ValType>,
                                         bt: BlockType, thn: seq<Instr>, els: seq<Instr>, t: Translation)
    requires At(s, c, below, ts) && CheckInstr(IfElse(bt, thn, els), c, ts) != Bad && Metered(from, s) && s.frames != []
    requires TranslateInstr(s, IfElse(bt, thn, els)) == Ok(t)
    ensures Metered(from, t)
    decreases IfElse(bt, thn, els), 0
  {
    hide Metered;
    hide At;
    hide WordsOf;
    hide Good;
    var us := ts[..|ts| - 1];
    var e, t1, u, t3 := IfElseParts(s, bt, thn, els, t);
    hide TranslateInstr;
    BodiesFit(bt, thn, els, c, ts);
    hide CheckInstr;
    IfMetered(from, s, c, below, ts, bt);
    var f, g := BothTranslated(s, e, t1, u, t3, t, bt, thn, els, c, below, ts);
    hide VisitIf;
    var inside, d := Under(below, us, Params(bt)), Enter(c, Results(bt));
    BodyFlow(bt, thn, Results(bt), c, us);
    BodyFlow(bt, els, Results(bt), c, us);
    hide CheckBody;
    EnteredAt(s, e, f, c, Results(bt), inside);
    EnteredAt(s, u, g, c, Results(bt), inside);
    hide SecondStarts;
    hide Ended;
    LiveMetered(from, e, d, inside, Params(bt), thn, t1);
    ElseHere(from, s, e, t1, u, f, c, Results(bt), inside, Check(thn, d, Params(bt)));
    hide Entered;
    LiveMetered(from, u, d, inside, Params(bt), els, t3);
    hide Translate;
    hide VisitElse;
    hide VisitEnd;
    EndsHere(from, s, u, t3, c, Results(bt), inside, Check(els, d, Params(bt)), t);
  }

  lemma EnteredAt(s: Translation, e: Translation, f: Frame, c: Ctx, lab: seq<ValType>, below: seq<ValType>)
    requires Entered(s, e, f, c, lab, below)
    ensures At(e, Enter(c, lab), below, Params(f.bt))
  {
  }

  lemma ElseHere(from: nat, s: Translation, e: Translation, t1: Translation, u: Translation, f: Frame, c: Ctx,
                 lab: seq<ValType>, below: seq<ValType>, flow: Flow)
    requires s.frames != [] && |e.frames| == |s.frames| + 1 && e.frames[|s.frames|] == f && f.IfFrame?
    requires f.thenReachable.None?
    requires Entered(s, e, f, c, lab, below) && Good(e, t1, below, flow) && Metered(from, t1) && VisitElse(t1) == Ok(u)
    ensures Metered(from, u)
  {
    hide Metered;
    hide At;
    hide WF;
    hide WordsOf;
    hide VisitElse;
    hide Extends;
    FirstDoneHere(e, t1, below, flow);
    hide FirstDone;
    ElseMetered(from, t1, t1.frames[|t1.frames| - 1], below, u);
  }
}
