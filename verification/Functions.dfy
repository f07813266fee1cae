/** Whole functions: the prologue, the end of the body, and the correctness theorem. */
module Functions {
  import opened Words
  import O = Opcodes
  import M = Machine
  import B = Blocks
  import DK = DropKeeps
  import Store
  import opened Source
  import opened Validation
  import opened Layout
  import opened Translator
  import opened Invariants
  import opened Frames
  import opened Progress
  import opened Control
  import opened Branches
  import opened Bodies
  import opened Locals
  import opened Images
  import opened Simulation
  import opened BranchRuns
  import opened BodyRuns

  function LocalTypes(locals: seq<(nat, ValType)>): seq<ValType> {
    if locals == [] then [] else Repeat(locals[0].1, locals[0].0) + LocalTypes(locals[1..])
  }

  function AllLocals(f: Function): seq<ValType> { f.params + LocalTypes(f.locals) }

  function FunctionCtx(f: Function): Ctx { Ctx(AllLocals(f), [f.results], f.results) }

  /** The body has the declared results, or its end is never reached. */
  predicate ValidFunction(f: Function) {
    Check(f.body, FunctionCtx(f), []) in {Dead, Live(f.results)}
  }

  /** Code of earlier functions: its jumps and stack checks are final. */
  predicate Finished(code: seq<SymOp>) {
    forall i :: 0 <= i < |code| ==> !code[i].Jump? && !code[i].ReserveStack?
  }

  // ----- the prologue in closed form -----

  function EntryCost(c: Costs): nat { c.params + c.base + c.locals }

  predicate Affordable(c: Costs) { c.metered ==> EntryCost(c) < B32 }

  function Head(c: Costs, f: Function): seq<SymOp>
    requires Affordable(c)
  {
    [Op(O.SignatureCheck(f.signature))] + (if c.metered then [Op(O.ConsumeFuel(EntryCost(c)))] else []) + [ReserveStack]
  }

  function GroupWords(g: (nat, ValType)): nat { g.0 * Width(g.1) }

  predicate SmallGroups(locals: seq<(nat, ValType)>) { forall g :: g in locals ==> GroupWords(g) < B32 }

  function LocalsCode(locals: seq<(nat, ValType)>): seq<O.Opcode>
    requires SmallGroups(locals)
  {
    if locals == [] then [] else [O.BulkConst(GroupWords(locals[0]))] + LocalsCode(locals[1..])
  }

  function Slot(c: Costs, code: seq<SymOp>): O.Option<nat> { if c.metered then O.Some(|code| + 1) else O.None }

  /** The translation when the body starts. */
  function Opened(c: Costs, f: Function, code: seq<SymOp>): Translation
    requires Affordable(c) && SmallGroups(f.locals)
  {
    var words := WordsOf(LocalTypes(f.locals));
    Translation(c.metered, c.base, WordsOf(f.params), code + Head(c, f) + Ops(LocalsCode(f.locals)), [O.None],
                [BlockFrame(Func(f.params, f.results), 0, 0, Slot(c, code))], AllLocals(f), words, words, true)
  }

  /** Locals are reserved by bulk constants only. */
  lemma {:induction false} LocalsConst(locals: seq<(nat, ValType)>)
    requires SmallGroups(locals)
    ensures forall i :: 0 <= i < |LocalsCode(locals)| ==> LocalsCode(locals)[i].BulkConst?
    decreases |locals|
  {
    if locals != [] {
      LocalsConst(locals[1..]);
    }
  }

  lemma {:induction false} RepeatWords(t: ValType, n: nat)
    ensures WordsOf(Repeat(t, n)) == n * Width(t)
  {
    if n > 0 {
      assert Repeat(t, n)[..n - 1] == Repeat(t, n - 1);
      RepeatWords(t, n - 1);
    }
  }

  lemma {:induction false} LocalsTranslated(s: Translation, locals: seq<(nat, ValType)>)
    requires s.height == s.maxHeight
    ensures match TranslateLocals(s, locals)
            case Err(e) => e == TooLarge
            case Ok(t) =>
              SmallGroups(locals) &&
              var words := WordsOf(LocalTypes(locals));
              t == s.(code := s.code + Ops(LocalsCode(locals)), types := s.types + LocalTypes(locals),
                      height := s.height + words, maxHeight := s.height + words)
    decreases |locals|
  {
    hide WordsOf;
    if locals == [] {
      assert s.code + Ops([]) == s.code && s.types + [] == s.types;
      assert WordsOf([]) == 0 by { WordsNone(); }
    } else {
      var (n, t) := locals[0];
      var rest := locals[1..];
      if GroupWords(locals[0]) < B32 {
        var words := GroupWords(locals[0]);
        var u := Grow(Emit(s, [Op(O.BulkConst(words))]).(types := s.types + Repeat(t, n)), words);
        LocalsTranslated(u, rest);
        if TranslateLocals(u, rest).Ok? {
          assert locals == [locals[0]] + rest;
          RepeatWords(t, n);
          WordsAppend(Repeat(t, n), LocalTypes(rest));
          OpsAppend([O.BulkConst(words)], LocalsCode(rest));
          assert [Op(O.BulkConst(words))] == Ops([O.BulkConst(words)]);
          Associate(s.code, Ops([O.BulkConst(words)]), Ops(LocalsCode(rest)));
          Associate(s.types, Repeat(t, n), LocalTypes(rest));
        }
      }
    }
  }

  lemma WordsNone()
    ensures WordsOf([]) == 0
  {
  }

  lemma OpsAppend(a: seq<O.Opcode>, b: seq<O.Opcode>)
    ensures Ops(a + b) == Ops(a) + Ops(b)
  {
  }

  /** The state before the locals are reserved. */
  function Reserved(c: Costs, f: Function, code: seq<SymOp>): Translation
    requires Affordable(c)
  {
    Translation(c.metered, c.base, WordsOf(f.params), code + Head(c, f), [O.None],
                [BlockFrame(Func(f.params, f.results), 0, 0, Slot(c, code))], f.params, 0, 0, true)
  }

  lemma ReservedIs(c: Costs, f: Function, code: seq<SymOp>)
    ensures var r := (var s :- Bump(Start(c, f, code), c.params);
                      var s :- Bump(s, c.base);
                      Bump(Emit(s, [ReserveStack]), c.locals));
            r == if Affordable(c) then Ok(Reserved(c, f, code)) else Err(BlockFuelOutOfBounds)
  {
    hide WordsOf;
    var s := Start(c, f, code);
    assert s.frames == [BlockFrame(Func(f.params, f.results), 0, 0, Slot(c, code))];
    if c.metered {
      var at := |code| + 1;
      assert s.code == code + [Op(O.SignatureCheck(f.signature)), Op(O.ConsumeFuel(0))];
      if c.params + c.base < B32 {
        assert s.code[at := Op(O.ConsumeFuel(c.params))][at := Op(O.ConsumeFuel(c.params + c.base))]
            == code + [Op(O.SignatureCheck(f.signature)), Op(O.ConsumeFuel(c.params + c.base))];
        if EntryCost(c) < B32 {
          assert (code + [Op(O.SignatureCheck(f.signature)),
                          Op(O.ConsumeFuel(c.params + c.base))] + [ReserveStack])[at := Op(O.ConsumeFuel(EntryCost(c)))]
              == code + Head(c, f);
        }
      }
    } else {
      assert s.code + [ReserveStack] == code + Head(c, f);
      assert Bump(s, c.params) == Ok(s) && Bump(s, c.base) == Ok(s);
      var u := Emit(s, [ReserveStack]);
      assert Bump(u, c.locals) == Ok(u) && u == Reserved(c, f, code);
    }
  }

  /** The prologue charges the entry costs, reserves the stack and zeroes the locals; it never panics. */
  lemma PrologueIs(c: Costs, f: Function, code: seq<SymOp>)
    ensures match Prologue(c, f, code)
            case Err(e) => e != Panic
            case Ok(s) => Affordable(c) && SmallGroups(f.locals) && s == Opened(c, f, code)
  {
    hide WordsOf;
    ReservedIs(c, f, code);
    hide Start;
    hide Bump;
    if Affordable(c) {
      LocalsTranslated(Reserved(c, f, code), f.locals);
    }
  }

  /** The charge for parameters is the first one of its opcode, so it always fits. */
  lemma ParamsFit(c: Costs, f: Function, code: seq<SymOp>)
    ensures Bump(Start(c, f, code), c.params).Ok?
  {
    hide WordsOf;
  }

  lemma OpenedWF(c: Costs, f: Function, code: seq<SymOp>)
    requires Affordable(c) && SmallGroups(f.locals) && Finished(code)
    ensures WF(Opened(c, f, code))
  {
    hide WordsOf;
    var s := Opened(c, f, code);
    WordsAppend(f.params, LocalTypes(f.locals));
    forall i | 0 <= i < |s.code| ensures !s.code[i].Jump? {
      if i >= |code| + |Head(c, f)| {
        assert s.code[i] == Ops(LocalsCode(f.locals))[i - |code| - |Head(c, f)|];
      } else if i >= |code| {
        assert s.code[i] == Head(c, f)[i - |code|];
      }
    }
    var frame := s.frames[0];
    assert FrameOK(s, frame);
  }

  lemma OpenedAt(c: Costs, f: Function, code: seq<SymOp>)
    requires Affordable(c) && SmallGroups(f.locals) && Finished(code)
    ensures At(Opened(c, f, code), FunctionCtx(f), AllLocals(f), [])
  {
    hide WordsOf;
    hide WF;
    OpenedWF(c, f, code);
    WordsAppend(f.params, LocalTypes(f.locals));
    assert AllLocals(f) + [] == AllLocals(f);
  }

  // ----- the end of the function -----

  /** What the final `end` of a function does to a finished body. */
  ghost predicate Closes(t: Translation, dk: DK.DropKeep, v: Translation) {
    && v.code == t.code + (if t.reachable then Tail(Target(O.None, dk)) else [])
    && v.frames == [] && |t.frames| == 1 && t.frames[0].BlockFrame?
    && t.frames[0].end < |t.labels| && t.labels[t.frames[0].end].None?
    && v.labels == t.labels[t.frames[0].end := O.Some(|t.code|)]
    && t.maxHeight <= v.maxHeight && (t.reachable ==> t.height + DK.Headroom(dk) <= v.maxHeight)
    && v.metered == t.metered && v.base == t.base && v.paramWords == t.paramWords
  }

  /** A finished body, still inside the frame of the function. */
  ghost predicate BodyDone(f: Function, t: Translation) {
    && WF(t) && |t.frames| == 1 && t.frames[0].BlockFrame? && t.frames[0].height == 0
    && t.frames[0].bt == Func(f.params, f.results)
    && f.params <= t.types && t.paramWords == WordsOf(f.params)
    && (t.reachable ==> t.types == AllLocals(f) + f.results)
  }

  /** Pinning the end label changes nothing but labels. */
  function PinnedEnd(t: Translation): Translation
    requires |t.frames| == 1 && t.frames[0].BlockFrame? && t.frames[0].end < |t.labels|
  {
    t.(labels := t.labels[t.frames[0].end := O.Some(|t.code|)])
  }

  lemma EndOfBody(f: Function, t: Translation)
    requires BodyDone(f, t)
    ensures t.frames[0].end < |t.labels| && t.labels[t.frames[0].end].None?
    ensures PinEnd(t, t.frames[0]) == Ok(PinnedEnd(t))
    ensures DropKeepReturn(PinnedEnd(t)) == DropKeepReturn(t)
    ensures WordsOf(t.types) == t.paramWords + t.height
    ensures LiveCharge(t).Some? ==> LiveCharge(t).value < |t.code|
  {
    hide WordsOf;
    var g := t.frames[0];
    assert FrameOK(t, g) && g.end in Opens(g);
    ChargeInside(t);
  }

  lemma FunctionEnds(f: Function, t: Translation)
    requires BodyDone(f, t)
    ensures match VisitEnd(t)
            case Err(e) => t.reachable && DropKeepReturn(t) == Err(e)
            case Ok(v) =>
              && (t.reachable ==> DropKeepReturn(t).Ok?)
              && Closes(t, if t.reachable then DropKeepReturn(t).value else DK.DropKeep(0, 0), v)
  {
    hide WordsOf;
    EndOfBody(f, t);
    var p := PinnedEnd(t);
    var dk := DropKeepReturn(t);
    hide WF;
    hide DropKeepReturn;
    hide PinEnd;
    if !t.reachable || dk.Ok? {
      var v := if t.reachable then Leave(p, dk.value) else p;
      assert VisitReturn(p) == Ok(v);
      ShrinkToParams(f, v);
      hide ShrinkTo;
      if t.reachable {
        LeaveCode(p, dk.value);
      }
      hide Leave;
      hide VisitReturn;
    }
  }

  lemma LeaveCode(p: Translation, dk: DK.DropKeep)
    ensures var v := Leave(p, dk);
            && v.code == p.code + Tail(Target(O.None, dk)) && v.labels == p.labels && v.frames == p.frames
            && p.height + DK.Headroom(dk) <= v.maxHeight && p.maxHeight <= v.maxHeight
            && v.metered == p.metered && v.base == p.base && v.paramWords == p.paramWords
  {
    hide DK.Lower;
    hide DK.Headroom;
    assert Leave(p, dk).code == p.code + Tail(Target(O.None, dk));
  }

  lemma ShrinkToParams(f: Function, v: Translation)
    requires f.params <= v.types && WordsOf(v.types) == v.paramWords + v.height && v.paramWords == WordsOf(f.params)
    ensures ShrinkTo(v, 0) == Ok(v.(height := 0, types := f.params))
  {
    hide WordsOf;
    var rest := v.types[|f.params|..];
    assert v.types == f.params + rest;
    WordsAppend(f.params, rest);
    PopTypesExact(f.params, rest, 0);
  }

  /** The finished translation extends the body. */
  lemma ClosesExtends(t: Translation, dk: DK.DropKeep, v: Translation)
    requires Closes(t, dk, v)
    ensures Extends(t, v)
  {
  }

  lemma BodyIsDone(c: Costs, f: Function, code: seq<SymOp>, t: Translation)
    requires Affordable(c) && SmallGroups(f.locals) && Finished(code) && ValidFunction(f)
    requires Translate(Opened(c, f, code), f.body) == Ok(t)
    ensures Good(Opened(c, f, code), t, AllLocals(f), Check(f.body, FunctionCtx(f), []))
    ensures BodyDone(f, t)
  {
    hide WordsOf;
    hide Translate;
    hide Check;
    hide CodeExtends;
    hide LabelsExtend;
    OpenedAt(c, f, code);
    LiveTranslate(Opened(c, f, code), FunctionCtx(f), AllLocals(f), [], f.body);
    hide WF;
    hide Placed;
    var s := Opened(c, f, code);
    assert SameFrame(s.frames[0], t.frames[0]);
    assert f.params <= AllLocals(f);
  }

  /** A body that completes is where a return finds the results on top. */
  lemma ReturnFits(c: Costs, f: Function, code: seq<SymOp>, t: Translation)
    requires Affordable(c) && SmallGroups(f.locals) && Finished(code) && ValidFunction(f)
    requires Translate(Opened(c, f, code), f.body) == Ok(t) && t.reachable
    ensures At(t, FunctionCtx(f), AllLocals(f), f.results) && Targets(FunctionCtx(f), 0, f.results)
    ensures match DropKeepReturn(t)
            case Err(e) => e == DropKeepOutOfBounds
            case Ok(dk) => TargetOK(t, FunctionCtx(f), 0, Target(O.None, dk))
  {
    hide WordsOf;
    hide Translate;
    hide DropKeepReturn;
    OpenedAt(c, f, code);
    BodyIsDone(c, f, code, t);
    var flow := Check(f.body, FunctionCtx(f), []);
    hide Check;
    hide WF;
    hide Extends;
    hide Kept;
    assert flow == Live(f.results);
    GoodAt(Opened(c, f, code), t, FunctionCtx(f), AllLocals(f), f.results);
    hide Good;
    ReturnAcquired(t, FunctionCtx(f), AllLocals(f), f.results);
  }

  /** The translator never panics on a valid function. */
  lemma NeverPanics(c: Costs, f: Function, code: seq<SymOp>)
    requires ValidFunction(f) && Finished(code)
    ensures TranslateFunction(c, f, code) != Err(Panic)
  {
    hide WordsOf;
    hide Translate;
    hide VisitEnd;
    hide Check;
    PrologueIs(c, f, code);
    hide Prologue;
    if Affordable(c) && SmallGroups(f.locals) {
      var s := Opened(c, f, code);
      OpenedAt(c, f, code);
      LiveTranslate(s, FunctionCtx(f), AllLocals(f), [], f.body);
      var r := Translate(s, f.body);
      if r.Ok? {
        BodyIsDone(c, f, code, r.value);
        FunctionEnds(f, r.value);
        if r.value.reachable {
          ReturnFits(c, f, code, r.value);
        }
      }
      hide Opened;
      hide DropKeepReturn;
      hide Good;
      hide At;
    }
  }
}
