/** The translator never panics on validated code, and its emulated stack follows the types. */
module Bodies {
  import opened Words
  import O = Opcodes
  import opened Source
  import opened Validation
  import opened Layout
  import opened Translator
  import opened Invariants
  import opened Frames
  import opened Progress
  import opened Control
  import opened Branches
  import opened Structure

  // ----- between the two branches of an if -----

  /** The frame as the second branch sees it, before its own charge. */
  function Second(f: Frame, reachable: bool): Frame
    requires f.IfFrame?
  {
    f.(thenReachable := O.Some(reachable))
  }

  /** The first branch jumps over the second one if its end is reached. */
  function JumpOver(t: Translation, f: Frame): Translation
    requires f.IfFrame?
  {
    if t.reachable then Emit(t, [Jump(O.Always, f.end)]) else t
  }

  function ElsePinned(t: Translation, f: Frame): Translation
    requires f.IfFrame? && t.frames != [] && f.els < |t.labels|
  {
    var a := JumpOver(t, f);
    a.(labels := a.labels[f.els := O.Some(|a.code|)], frames := a.frames[|a.frames| - 1 := Second(f, t.reachable)],
       reachable := true)
  }

  /** An `if` frame whose first branch has been translated. */
  ghost predicate FirstDone(t: Translation, f: Frame, below: seq<ValType>) {
    && WF(t) && t.frames != [] && t.frames[|t.frames| - 1] == f
    && f.IfFrame? && f.thenReachable.None?
    && below <= t.types && WordsOf(below) == t.paramWords + f.height
  }

  lemma JumpOverKeeps(t: Translation, f: Frame, below: seq<ValType>)
    requires FirstDone(t, f, below)
    ensures WF(JumpOver(t, f)) && Extends(t, JumpOver(t, f))
    ensures f.els < |t.labels| && f.end < |t.labels| && t.labels[f.end].None? && t.labels[f.els].None?
  {
    assert FrameOK(t, f);
    assert f.end in Opens(f) && f.els in Opens(f);
    FrameKnown(t, |t.frames| - 1);
    AppendKeeps(t, if t.reachable then [Jump(O.Always, f.end)] else [], t.types, t.height, 0, t.reachable);
    assert Emit(t, []).code == t.code;
    assert Emit(t, []).(maxHeight := Max(t.maxHeight, 0)) == t;
  }

  lemma ElsePinnedKeeps(t: Translation, f: Frame, below: seq<ValType>)
    requires FirstDone(t, f, below) && f.els < |t.labels|
    ensures WF(ElsePinned(t, f)) && LabelsExtend(t, ElsePinned(t, f))
  {
    JumpOverKeeps(t, f, below);
    hide JumpOver;
    hide WF;
    PinSecond(JumpOver(t, f), f, t.reachable);
    hide LabelsExtend;
  }

  lemma PinSecond(a: Translation, f: Frame, r: bool)
    requires WF(a) && a.frames != [] && a.frames[|a.frames| - 1] == f
    requires f.IfFrame? && f.thenReachable.None? && f.els < |a.labels|
    ensures var b := a.(labels := a.labels[f.els := O.Some(|a.code|)],
                        frames := a.frames[|a.frames| - 1 := Second(f, r)], reachable := true);
            WF(b) && LabelsExtend(a, b)
  {
    var n := |a.frames|;
    var b := a.(labels := a.labels[f.els := O.Some(|a.code|)], frames := a.frames[n - 1 := Second(f, r)],
                reachable := true);
    assert FrameOK(a, f) && f.els in Opens(f) && f.end in Opens(f);
    assert forall j :: 0 <= j < n - 1 ==> b.frames[j] == a.frames[j];
    forall j | 0 <= j < n ensures FrameOK(b, b.frames[j]) && Opens(b.frames[j]) <= Opens(a.frames[j]) {
      assert FrameOK(a, a.frames[j]);
      if j < n - 1 {
        assert Opens(a.frames[j]) !! Opens(f);
      }
    }
    forall i | 0 <= i < |b.code| && b.code[i].Jump? ensures Known(b, b.code[i].target) {
      StaysKnown(a, b, f, a.code[i].target);
    }
  }

  lemma StaysKnown(a: Translation, b: Translation, f: Frame, l: nat)
    requires a.frames != [] && a.frames[|a.frames| - 1] == f && f.IfFrame? && f.thenReachable.None?
    requires f.els < |a.labels|
    requires b.labels == a.labels[f.els := O.Some(|a.code|)] && |b.frames| == |a.frames|
    requires b.frames == a.frames[|a.frames| - 1 := b.frames[|a.frames| - 1]]
    requires Opens(b.frames[|a.frames| - 1]) == {f.end}
    requires Known(a, l)
    ensures Known(b, l)
  {
    if a.labels[l].None? && l != f.els {
      var j :| 0 <= j < |a.frames| && l in Opens(a.frames[j]);
      assert l in Opens(b.frames[j]);
    }
  }

  /** The state in which the second branch starts, before its own charge. */
  function ElseRetyped(t: Translation, f: Frame, below: seq<ValType>): Translation
    requires f.IfFrame? && t.frames != [] && f.els < |t.labels|
  {
    Retyped(ElsePinned(t, f), below, f.height, Params(f.bt))
  }

  lemma ElseIs(t: Translation, f: Frame, below: seq<ValType>)
    requires FirstDone(t, f, below)
    ensures f.els < |t.labels| && VisitElse(t) == Recharge(ElseRetyped(t, f, below))
  {
    hide WordsOf;
    JumpOverKeeps(t, f, below);
    var a := JumpOver(t, f);
    assert FrameOK(t, f);
    var p := a.(labels := a.labels[f.els := O.Some(|a.code|)]);
    assert Pin(a, f.els) == Ok(p);
    assert t.reachable ==> EmitJump(t, O.Always, f.end) == Ok(a);
    hide WF;
    ShrinkToExact(NewCharge(p), below, f.height);
    hide ShrinkTo;
    hide JumpOver;
    var w := ElseRetyped(t, f, below);
    assert w.frames[..|w.frames| - 1] == a.frames[..|a.frames| - 1];
    assert NewCharge(w).code == NewCharge(p).code;
    ElseAssembles(t, f, below, a, p, w);
  }

  lemma ElseAssembles(t: Translation, f: Frame, below: seq<ValType>, a: Translation, p: Translation, w: Translation)
    requires FirstDone(t, f, below) && f.els < |t.labels| && f.end < |t.labels|
    requires a == JumpOver(t, f) && Pin(a, f.els) == Ok(p) && w == ElseRetyped(t, f, below)
    requires t.reachable ==> EmitJump(t, O.Always, f.end) == Ok(a)
    requires ShrinkTo(NewCharge(p), f.height) == Ok(NewCharge(p).(height := f.height, types := below))
    ensures VisitElse(t) == Recharge(w)
  {
    hide WordsOf;
    hide ShrinkTo;
    hide EmitJump;
    assert FrameOK(t, f);
    hide WF;
    var n := |t.frames|;
    var g := Second(f, t.reachable);
    var h := IfFrame(f.bt, f.end, f.els, f.height, if t.metered then NewSlot(p) else f.fuel, O.Some(t.reachable));
    assert t.frames[..n - 1] + [h] == t.frames[n - 1 := h];
    assert t.frames[n - 1 := g][n - 1 := h] == t.frames[n - 1 := h];
  }

  /** What `else` turns a finished first branch into. */
  ghost predicate SecondStarts(t: Translation, f: Frame, below: seq<ValType>, u: Translation)
    requires f.IfFrame? && t.frames != [] && f.els < |t.labels|
  {
    && WF(u) && Extends(t, u) && Kept(ElseRetyped(t, f, below), u)
    && u.code == NewCharge(JumpOver(t, f)).code
    && LiveCharge(u) == (if t.metered then O.Some(|JumpOver(t, f).code|) else O.None)
    && u.labels == t.labels[f.els := O.Some(|JumpOver(t, f).code|)]
    && u.reachable && u.types == below + Params(f.bt) && u.paramWords == t.paramWords
  }

  lemma ElseStarts(t: Translation, f: Frame, below: seq<ValType>)
    requires FirstDone(t, f, below)
    ensures f.els < |t.labels| && VisitElse(t).Ok? && SecondStarts(t, f, below, VisitElse(t).value)
  {
    hide WordsOf;
    hide WF;
    hide VisitElse;
    hide Recharge;
    ElseIs(t, f, below);
    ElsePinnedKeeps(t, f, below);
    ElseRetypedKeeps(t, f, below);
    var w := ElseRetyped(t, f, below);
    RechargeKeeps(w);
    hide Kept;
    ElseExtends(t, f, below, Recharge(w).value);
    hide Extends;
  }

  /** After `else` the second branch starts like the first one did. */
  lemma ElseEntered(s: Translation, e: Translation, t: Translation, c: Ctx, lab: seq<ValType>, below: seq<ValType>,
                    flow: Flow)
    requires s.frames != [] && |e.frames| == |s.frames| + 1
    requires e.frames[|s.frames|].IfFrame? && e.frames[|s.frames|].thenReachable.None?
    requires Entered(s, e, e.frames[|s.frames|], c, lab, below) && Good(e, t, below, flow)
    ensures |t.frames| == |s.frames| + 1
    ensures var f, g := e.frames[|s.frames|], t.frames[|s.frames|];
            && g.IfFrame? && g.thenReachable.None? && g.els == f.els && g.end == f.end && g.bt == f.bt
            && g.els < |t.labels|
            && match VisitElse(t)
               case Err(_) => false
               case Ok(u) =>
                 && SecondStarts(t, g, below, u)
                 && |u.frames| == |s.frames| + 1
                 && u.frames[|s.frames|].IfFrame? && u.frames[|s.frames|].bt == f.bt
                 && u.frames[|s.frames|].end == f.end
                 && Entered(s, u, u.frames[|s.frames|], c, lab, below)
  {
    hide WordsOf;
    hide WF;
    hide Placed;
    var n := |s.frames|;
    var f := t.frames[n];
    FirstDoneHere(e, t, below, flow);
    hide Extends;
    assert SameFrame(e.frames[n], f);
    ElseStarts(t, f, below);
    var u := VisitElse(t).value;
    hide VisitElse;
    ElsePlaced(e, t, u, f, below, Enter(c, lab));
    ElseChained(s, e, t, u, below, flow);
    assert u.frames == s.frames + [u.frames[n]];
  }

  lemma ElseChained(s: Translation, e: Translation, t: Translation, u: Translation, below: seq<ValType>, flow: Flow)
    requires Extends(s, e) && Good(e, t, below, flow) && Extends(t, u)
    ensures Extends(s, u) && u.paramWords == s.paramWords == e.paramWords == t.paramWords
  {
    hide WF;
    ExtendsTransitive(s, e, t);
    ExtendsTransitive(s, t, u);
  }

  lemma FirstDoneHere(e: Translation, t: Translation, below: seq<ValType>, flow: Flow)
    requires Good(e, t, below, flow) && e.frames[|e.frames| - 1].IfFrame?
    requires e.frames[|e.frames| - 1].thenReachable.None?
    requires WordsOf(below) == e.paramWords + e.frames[|e.frames| - 1].height
    ensures FirstDone(t, t.frames[|t.frames| - 1], below)
  {
    hide WordsOf;
    hide WF;
  }

  lemma ElseRetypedKeeps(t: Translation, f: Frame, below: seq<ValType>)
    requires FirstDone(t, f, below) && f.els < |t.labels| && WF(ElsePinned(t, f))
    ensures WF(ElseRetyped(t, f, below))
  {
    hide WordsOf;
    WordsPrefix(below, t.types);
    RetypedKeeps(ElsePinned(t, f), below, f.height, Params(f.bt));
  }

  lemma ElseExtends(t: Translation, f: Frame, below: seq<ValType>, u: Translation)
    requires FirstDone(t, f, below) && f.els < |t.labels|
    requires LabelsExtend(t, ElsePinned(t, f))
    requires var w := ElseRetyped(t, f, below);
             && u == w.(code := NewCharge(w).code, frames := u.frames)
             && LiveCharge(u) == if w.metered && w.reachable then O.Some(|w.code|) else O.None
    ensures Extends(t, u)
    ensures u.labels == t.labels[f.els := O.Some(|JumpOver(t, f).code|)]
    ensures u.code == NewCharge(JumpOver(t, f)).code
    ensures LiveCharge(u) == if t.metered then O.Some(|JumpOver(t, f).code|) else O.None
    ensures u.reachable && u.types == below + Params(f.bt)
  {
    hide WordsOf;
    hide WF;
    var a := JumpOver(t, f);
    assert t.code <= a.code <= u.code;
    assert a.labels == t.labels;
  }

  lemma ElsePlaced(e: Translation, t: Translation, u: Translation, f: Frame, below: seq<ValType>, c: Ctx)
    requires Placed(e, c, below) && Kept(e, t) && f == t.frames[|t.frames| - 1] && f.IfFrame? && f.els < |t.labels|
    requires Kept(ElseRetyped(t, f, below), u) && u.paramWords == e.paramWords && |e.frames| > 1
    ensures Placed(u, c, below)
    ensures u.frames[..|u.frames| - 1] == e.frames[..|e.frames| - 1]
    ensures var g := u.frames[|u.frames| - 1];
            g.IfFrame? && g.bt == f.bt && g.end == f.end && g.height == f.height
  {
    hide WordsOf;
    var w, n := ElseRetyped(t, f, below), |e.frames|;
    assert w.frames == t.frames[n - 1 := Second(f, t.reachable)];
    assert SameFrame(Second(f, t.reachable), u.frames[n - 1]);
    assert forall j :: 0 <= j < n - 1 ==> u.frames[j] == w.frames[..n - 1][j] == t.frames[..n - 1][j] == e.frames[j];
  }

  // ----- leaving a block -----

  /** From the end of a body to the state after the block. */
  lemma CloseGood(s: Translation, e: Translation, t: Translation, c: Ctx, lab: seq<ValType>,
                  below: seq<ValType>, rest: seq<ValType>, flow: Flow)
    requires s.frames != [] && |e.frames| == |s.frames| + 1
    requires Entered(s, e, e.frames[|s.frames|], c, lab, below + rest) && Good(e, t, below + rest, flow)
    ensures match VisitEnd(t)
            case Err(_) => false
            case Ok(v) =>
              && Good(s, v, below, Live(rest + Results(e.frames[|s.frames|].bt)))
              && Ended(t, below + rest, v)
  {
    hide WordsOf;
    hide WF;
    hide Placed;
    EndableHere(e, t, below + rest, flow);
    EndKeeps(t, below + rest);
    var v := VisitEnd(t).value;
    hide VisitEnd;
    ExtendsTransitive(s, e, t);
    ExtendsTransitive(s, t, v);
    hide Extends;
    ClosedKept(s, e, t, v);
    Associate(below, rest, Results(e.frames[|s.frames|].bt));
  }

  lemma ClosedKept(s: Translation, e: Translation, t: Translation, v: Translation)
    requires s.frames != [] && |e.frames| == |s.frames| + 1 && e.frames[..|s.frames|] == s.frames
    requires Kept(e, t) && Closed(t, v)
    ensures Kept(s, v)
    ensures SameFrame(e.frames[|s.frames|], t.frames[|s.frames|])
  {
    assert t.frames[..|s.frames|] == s.frames;
  }

  lemma EndableHere(e: Translation, t: Translation, below: seq<ValType>, flow: Flow)
    requires Good(e, t, below, flow) && |e.frames| >= 2 && !e.frames[|e.frames| - 1].DeadFrame?
    requires WordsOf(below) == e.paramWords + e.frames[|e.frames| - 1].height
    ensures Endable(t, below)
  {
    hide WordsOf;
    hide WF;
  }

  // ----- whole bodies -----

  /** A good state is again one the validator can go on from. */
  lemma GoodAt(s: Translation, t: Translation, c: Ctx, below: seq<ValType>, ts: seq<ValType>)
    requires Placed(s, c, below) && Good(s, t, below, Live(ts))
    ensures At(t, c, below, ts)
  {
    hide WordsOf;
    hide WF;
    var n := |s.frames|;
    assert SameFrame(s.frames[n - 1], t.frames[n - 1]);
    assert forall j :: 0 <= j < n - 1 ==> t.frames[j] == s.frames[..n - 1][j] == s.frames[j];
  }

  lemma GoodChain(s: Translation, t: Translation, r: Translator.Result<Translation>, below: seq<ValType>, f: Flow,
                  g: Flow)
    requires Good(s, t, below, f) && GoodResult(t, r, below, g)
    ensures GoodResult(s, r, below, g)
  {
    hide WF;
    if r.Ok? {
      ExtendsTransitive(s, t, r.value);
      hide Extends;
      KeptTransitive(s, t, r.value);
    }
  }

  lemma DeadTail(t: Translation, code: seq<Instr>, below: seq<ValType>)
    requires WF(t) && !t.reachable && t.frames != [] && below <= t.types
    ensures GoodResult(t, Translate(t, code), below, Dead)
  {
    DeadTranslate(t, code);
    hide WF;
    hide Extends;
  }

  lemma NothingGood(s: Translation, c: Ctx, below: seq<ValType>, ts: seq<ValType>)
    requires At(s, c, below, ts)
    ensures Good(s, s, below, Live(ts))
  {
    hide WF;
    hide WordsOf;
    ExtendsReflexive(s);
    hide Extends;
    KeptSame(s, s);
  }

  /** The emulated-stack theorem: translating validated code never panics; afterwards the type stack holds
      the locals and outer operands unchanged, topped by the validated operand types, and the invariants hold. */
  lemma {:induction false} LiveTranslate(s: Translation, c: Ctx, below: seq<ValType>, ts: seq<ValType>,
                                         code: seq<Instr>)
    requires At(s, c, below, ts) && Check(code, c, ts) != Bad
    ensures GoodResult(s, Translate(s, code), below, Check(code, c, ts))
    decreases code, 0
  {
    hide At;
    hide Good;
    if code == [] {
      NothingGood(s, c, below, ts);
    } else {
      LiveInstr(s, c, below, ts, code[0]);
      var r, f := TranslateInstr(s, code[0]), CheckInstr(code[0], c, ts);
      if r.Ok? {
        LiveRest(s, r.value, c, below, ts, code, f);
      }
    }
  }

  lemma {:induction false} LiveRest(s: Translation, t: Translation, c: Ctx, below: seq<ValType>, ts: seq<ValType>,
                                    code: seq<Instr>, f: Flow)
    requires At(s, c, below, ts) && code != [] && Check(code, c, ts) != Bad
    requires f == CheckInstr(code[0], c, ts) && TranslateInstr(s, code[0]) == Ok(t) && Good(s, t, below, f)
    ensures GoodResult(s, Translate(s, code), below, Check(code, c, ts))
    decreases code, 0, 0
  {
    hide WordsOf;
    hide WF;
    hide Extends;
    if f.Live? {
      GoodAt(s, t, c, below, f.types);
      hide At;
      LiveTranslate(t, c, below, f.types, code[1..]);
      GoodChain(s, t, Translate(t, code[1..]), below, f, Check(code[1..], c, f.types));
    } else {
      DeadTail(t, code[1..], below);
      GoodChain(s, t, Translate(t, code[1..]), below, f, Dead);
    }
    hide TranslateInstr;
    hide CheckInstr;
    hide Good;
  }

  lemma {:induction false} LiveInstr(s: Translation, c: Ctx, below: seq<ValType>, ts: seq<ValType>, i: Instr)
    requires At(s, c, below, ts) && CheckInstr(i, c, ts) != Bad
    ensures GoodResult(s, TranslateInstr(s, i), below, CheckInstr(i, c, ts))
    decreases i, 1
  {
    hide At;
    hide GoodResult;
    hide VisitSimple;
    match i
    case Nop => NothingGood(s, c, below, ts); NopGood(s, below, ts);
    case Unreachable => UnreachableGood(s, c, below, ts); DeadIsGood(s, VisitUnreachable(s), below);
    case Return => ReturnGood(s, c, below, ts);
    case Br(k) => BrGood(s, c, below, ts, k);
    case BrIf(k) => BrIfGood(s, c, below, ts, k);
    case BrTable(ks, d) => BrTableGood(s, c, below, ts, ks, d);
    case Block(bt, body) => LiveBlock(s, c, below, ts, bt, body);
    case Loop(bt, body) => LiveLoop(s, c, below, ts, bt, body);
    case If(bt, thn) => LiveIf(s, c, below, ts, bt, thn);
    case IfElse(bt, thn, els) => LiveIfElse(s, c, below, ts, bt, thn, els);
    case _ => SimpleAt(s, i, c, below, ts);
  }

  lemma NopGood(s: Translation, below: seq<ValType>, ts: seq<ValType>)
    requires Good(s, s, below, Live(ts))
    ensures GoodResult(s, Ok(s), below, Live(ts))
  {
  }

  lemma DeadIsGood(s: Translation, t: Translation, below: seq<ValType>)
    requires Good(s, t, below, Dead)
    ensures GoodResult(s, Ok(t), below, Dead)
  {
  }

  lemma SimpleAt(s: Translation, i: Instr, c: Ctx, below: seq<ValType>, ts: seq<ValType>)
    requires At(s, c, below, ts) && Simple(i) && CheckPlain(i, c, ts) != Bad
    ensures GoodResult(s, VisitSimple(s, i), below, CheckPlain(i, c, ts))
  {
    hide WF;
    hide Placed;
    hide GoodResult;
    SimpleGood(s, i, c, below, ts);
  }

  /** The body of a block, and what follows it. */
  lemma {:induction false} LiveBody(s: Translation, e: Translation, c: Ctx, below: seq<ValType>, ts: seq<ValType>,
                                    bt: BlockType, lab: seq<ValType>, body: seq<Instr>)
    requires s.frames != [] && |e.frames| == |s.frames| + 1 && e.frames[|s.frames|].bt == bt
    requires EndsWith(ts, Params(bt))
    requires Entered(s, e, e.frames[|s.frames|], c, lab, Under(below, ts, Params(bt)))
    requires CheckBody(bt, body, lab, c, ts) != Bad
    ensures match Translate(e, body)
            case Err(f) => f != Panic
            case Ok(t) =>
              && GoodResult(s, VisitEnd(t), below, CheckBody(bt, body, lab, c, ts)) && VisitEnd(t).Ok?
              && Good(e, t, Under(below, ts, Params(bt)), Check(body, Enter(c, lab), Params(bt)))
              && Ended(t, Under(below, ts, Params(bt)), VisitEnd(t).value)
    decreases body, 1
  {
    hide WordsOf;
    hide At;
    hide Good;
    hide VisitEnd;
    hide Ended;
    var under := Under(below, ts, Params(bt));
    LiveTranslate(e, Enter(c, lab), under, Params(bt), body);
    var r := Translate(e, body);
    if r.Ok? {
      CloseGood(s, e, r.value, c, lab, below, ts[..|ts| - |Params(bt)|], Check(body, Enter(c, lab), Params(bt)));
    }
  }

  /** Translating a body and ending its frame. */
  function Enclosed(r: Translator.Result<Translation>, body: seq<Instr>): Translator.Result<Translation> {
    var e :- r;
    var t :- Translate(e, body);
    VisitEnd(t)
  }

  lemma BlockUnfolds(s: Translation, bt: BlockType, body: seq<Instr>)
    ensures TranslateInstr(s, Block(bt, body)) == Enclosed(VisitBlock(s, bt), body)
  {
    hide Translate;
    hide VisitEnd;
    hide VisitBlock;
  }

  lemma LoopUnfolds(s: Translation, bt: BlockType, body: seq<Instr>)
    ensures TranslateInstr(s, Loop(bt, body)) == Enclosed(VisitLoop(s, bt), body)
  {
    hide Translate;
    hide VisitEnd;
    hide VisitLoop;
  }

  lemma {:induction false} LiveBlock(s: Translation, c: Ctx, below: seq<ValType>, ts: seq<ValType>, bt: BlockType,
                                     body: seq<Instr>)
    requires At(s, c, below, ts) && CheckBody(bt, body, Results(bt), c, ts) != Bad
    ensures GoodResult(s, TranslateInstr(s, Block(bt, body)), below, CheckBody(bt, body, Results(bt), c, ts))
    decreases body, 2
  {
    NonEmpty(s, c, below, ts);
    hide At;
    hide Good;
    hide GoodResult;
    hide Ended;
    hide Translate;
    hide VisitEnd;
    hide VisitBlock;
    hide Entered;
    hide TranslateInstr;
    BodyFits(bt, body, Results(bt), c, ts);
    hide CheckBody;
    BlockEntered(s, c, below, ts, bt);
    var e := VisitBlock(s, bt).value;
    LiveBody(s, e, c, below, ts, bt, Results(bt), body);
    BlockUnfolds(s, bt, body);
    PanicFree(s, below, CheckBody(bt, body, Results(bt), c, ts));
  }

  lemma {:induction false} LiveLoop(s: Translation, c: Ctx, below: seq<ValType>, ts: seq<ValType>, bt: BlockType,
                                    body: seq<Instr>)
    requires At(s, c, below, ts) && CheckBody(bt, body, Params(bt), c, ts) != Bad
    ensures GoodResult(s, TranslateInstr(s, Loop(bt, body)), below, CheckBody(bt, body, Params(bt), c, ts))
    decreases body, 2
  {
    NonEmpty(s, c, below, ts);
    hide At;
    hide Good;
    hide GoodResult;
    hide Ended;
    hide Translate;
    hide VisitEnd;
    hide VisitLoop;
    hide Entered;
    hide TranslateInstr;
    BodyFits(bt, body, Params(bt), c, ts);
    hide CheckBody;
    LoopEntered(s, c, below, ts, bt);
    var e := VisitLoop(s, bt).value;
    LiveBody(s, e, c, below, ts, bt, Params(bt), body);
    LoopUnfolds(s, bt, body);
    PanicFree(s, below, CheckBody(bt, body, Params(bt), c, ts));
  }

  lemma BodyFits(bt: BlockType, body: seq<Instr>, lab: seq<ValType>, c: Ctx, ts: seq<ValType>)
    requires CheckBody(bt, body, lab, c, ts) != Bad
    ensures EndsWith(ts, Params(bt))
  {
  }

  lemma PanicFree(s: Translation, below: seq<ValType>, f: Flow)
    ensures forall e | e != Panic :: GoodResult(s, Err(e), below, f)
  {
  }

  lemma NonEmpty(s: Translation, c: Ctx, below: seq<ValType>, ts: seq<ValType>)
    requires At(s, c, below, ts)
    ensures s.frames != []
  {
    hide WordsOf;
    hide WF;
  }

  lemma {:induction false} LiveIf(s: Translation, c: Ctx, below: seq<ValType>, ts: seq<ValType>, bt: BlockType,
                                  thn: seq<Instr>)
    requires At(s, c, below, ts) && CheckInstr(If(bt, thn), c, ts) != Bad
    ensures GoodResult(s, TranslateInstr(s, If(bt, thn)), below, CheckInstr(If(bt, thn), c, ts))
    decreases If(bt, thn), 0
  {
    NonEmpty(s, c, below, ts);
    hide At;
    hide Good;
    var us := ts[..|ts| - 1];
    IfEntered(s, c, below, ts, bt);
    if VisitIf(s, bt).Ok? {
      LiveBody(s, VisitIf(s, bt).value, c, below, us, bt, Results(bt), thn);
    }
    hide Translate;
    hide VisitEnd;
    hide VisitIf;
    hide CheckBody;
    hide Entered;
  }

  lemma {:induction false} LiveIfElse(s: Translation, c: Ctx, below: seq<ValType>, ts: seq<ValType>, bt: BlockType,
                                      thn: seq<Instr>, els: seq<Instr>)
    requires At(s, c, below, ts) && CheckInstr(IfElse(bt, thn, els), c, ts) != Bad
    ensures GoodResult(s, TranslateInstr(s, IfElse(bt, thn, els)), below, CheckInstr(IfElse(bt, thn, els), c, ts))
    decreases IfElse(bt, thn, els), 0
  {
    NonEmpty(s, c, below, ts);
    hide At;
    hide Good;
    var us := ts[..|ts| - 1];
    IfEntered(s, c, below, ts, bt);
    var i := VisitIf(s, bt);
    hide VisitIf;
    if i.Ok? {
      LiveThen(s, i.value, c, below, us, bt, thn);
      var r := Translate(i.value, thn);
      if r.Ok? {
        LiveBody(s, VisitElse(r.value).value, c, below, us, bt, Results(bt), els);
      }
    }
    hide Translate;
    hide VisitElse;
    hide VisitEnd;
    hide Entered;
  }

  predicate SameIf(f: Frame, g: Frame) {
    f.IfFrame? && g.IfFrame? && g.thenReachable.None? && g.els == f.els && g.end == f.end && g.bt == f.bt
  }

  /** The first branch, up to where the second one starts. */
  lemma {:induction false} LiveThen(s: Translation, e: Translation, c: Ctx, below: seq<ValType>, us: seq<ValType>,
                                    bt: BlockType, thn: seq<Instr>)
    requires s.frames != [] && |e.frames| == |s.frames| + 1
    requires e.frames[|s.frames|].IfFrame? && e.frames[|s.frames|].bt == bt && e.frames[|s.frames|].thenReachable.None?
    requires EndsWith(us, Params(bt))
    requires Entered(s, e, e.frames[|s.frames|], c, Results(bt), Under(below, us, Params(bt)))
    requires CheckBody(bt, thn, Results(bt), c, us) != Bad
    ensures var under := Under(below, us, Params(bt));
            match Translate(e, thn)
            case Err(f) => f != Panic
            case Ok(t) =>
              && Good(e, t, under, Check(thn, Enter(c, Results(bt)), Params(bt)))
              && VisitElse(t).Ok? && |VisitElse(t).value.frames| == |s.frames| + 1
              && VisitElse(t).value.frames[|s.frames|].IfFrame? && VisitElse(t).value.frames[|s.frames|].bt == bt
              && |t.frames| == |s.frames| + 1 && SameIf(e.frames[|s.frames|], t.frames[|s.frames|])
              && VisitElse(t).value.frames[|s.frames|].end == e.frames[|s.frames|].end
              && t.frames[|s.frames|].els < |t.labels|
              && SecondStarts(t, t.frames[|s.frames|], under, VisitElse(t).value)
              && Entered(s, VisitElse(t).value, VisitElse(t).value.frames[|s.frames|], c, Results(bt), under)
    decreases thn, 1
  {
    hide WordsOf;
    hide At;
    hide Good;
    hide VisitElse;
    hide SecondStarts;
    var under := Under(below, us, Params(bt));
    LiveTranslate(e, Enter(c, Results(bt)), under, Params(bt), thn);
    var r := Translate(e, thn);
    hide Translate;
    if r.Ok? {
      ElseEntered(s, e, r.value, c, Results(bt), under, Check(thn, Enter(c, Results(bt)), Params(bt)));
    }
  }
}
