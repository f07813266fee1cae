/** Building one function behind the ones before it: prologue, body, end, and back-patching. */
module FunctionBuilders {
  import opened Words
  import O = Opcodes
  import opened Source
  import opened Validation
  import opened Layout
  import opened Translator
  import opened Invariants
  import opened Bodies
  import opened Functions
  import opened Pending
  import opened Metering
  import opened Emissions
  import L = Labels
  import B = Builders
  import DK = DropKeeps
  import I = InstructionTranslators

  /** After the function ends every label that a jump uses has been pinned. */
  lemma EndPinsAll(c: Costs, f: Function, code: seq<SymOp>)
    requires ValidFunction(f) && Finished(code) && TranslateFunction(c, f, code).Ok?
    ensures var t := TranslateFunction(c, f, code).value; AllPinned(t.code, t.labels)
  {
    hide WordsOf;
    hide Translate;
    hide VisitEnd;
    hide Check;
    PrologueIs(c, f, code);
    hide Prologue;
    var t := Translate(Opened(c, f, code), f.body).value;
    BodyIsDone(c, f, code, t);
    FunctionEnds(f, t);
    hide DropKeepReturn;
    var dk := if t.reachable then DropKeepReturn(t).value else DK.DropKeep(0, 0);
    ClosesPinned(f, t, dk, VisitEnd(t).value);
  }

  lemma ClosesPinned(f: Function, t: Translation, dk: DK.DropKeep, v: Translation)
    requires BodyDone(f, t) && Closes(t, dk, v)
    ensures AllPinned(v.code, v.labels)
  {
    hide WordsOf;
    hide DK.Lower;
    forall i | 0 <= i < |v.code| && v.code[i].Jump?
      ensures v.code[i].target < |v.labels| && v.labels[v.code[i].target].Some?
    {
      if i < |t.code| {
        assert Known(t, t.code[i].target);
      }
    }
  }

  /** The function starts with its head, and reserves the stack nowhere else. */
  lemma HeadStays(c: Costs, f: Function, code: seq<SymOp>)
    requires Finished(code) && TranslateFunction(c, f, code).Ok?
    ensures var t := TranslateFunction(c, f, code).value;
            && |code| <= |t.code| && I.HeadAt(t.code, |code|, c.metered)
            && (forall i :: 0 <= i < |t.code| && t.code[i].ReserveStack? ==> i == |code| + I.HeadSize(c.metered) - 1)
  {
    hide Translate;
    hide VisitEnd;
    PrologueIs(c, f, code);
    hide Prologue;
    var s := Opened(c, f, code);
    var t := Translate(s, f.body).value;
    AddsBody(s, f.body);
    AddsEnd(t);
    var v := VisitEnd(t).value;
    AddsTransitive(s.code, t.code, v.code);
    HeadInside(c, f, code);
    forall i | 0 <= i < |v.code| && v.code[i].ReserveStack? ensures i == |code| + I.HeadSize(c.metered) - 1 {
      assert i < |s.code| ==> v.code[i] == s.code[i];
    }
  }

  lemma HeadInside(c: Costs, f: Function, code: seq<SymOp>)
    requires Finished(code) && Affordable(c) && SmallGroups(f.locals)
    ensures var s := Opened(c, f, code);
            && |code| <= |s.code| && I.HeadAt(s.code, |code|, c.metered)
            && (forall i :: 0 <= i < |s.code| && s.code[i].ReserveStack? ==> i == |code| + I.HeadSize(c.metered) - 1)
  {
    var s, n := Opened(c, f, code), |code| + |Head(c, f)|;
    forall i | 0 <= i < |s.code| ensures s.code[i].ReserveStack? ==> i == |code| + I.HeadSize(c.metered) - 1 {
      if i >= n {
        assert s.code[i] == Ops(LocalsCode(f.locals))[i - n];
      } else if i < |code| {
        assert s.code[i] == code[i];
      } else {
        assert s.code[i] == Head(c, f)[i - |code|];
      }
    }
  }

  /** The functions before stay as they are. */
  lemma EarlierStays(c: Costs, f: Function, code: seq<SymOp>)
    requires ValidFunction(f) && Finished(code) && TranslateFunction(c, f, code).Ok?
    ensures code <= TranslateFunction(c, f, code).value.code
  {
    hide WordsOf;
    hide Translate;
    hide VisitEnd;
    hide Check;
    PrologueIs(c, f, code);
    hide Prologue;
    var s := Opened(c, f, code);
    var t := Translate(s, f.body).value;
    BodyIsDone(c, f, code, t);
    FunctionEnds(f, t);
    hide DropKeepReturn;
    hide WF;
    var v := VisitEnd(t).value;
    assert t.code <= v.code;
    forall i | 0 <= i < |code| ensures t.code[i] == code[i] {
      assert s.code[i] == code[i];
      assert LiveCharge(s) != O.Some(i);
      assert Grown(false, s.code[i], t.code[i]);
    }
  }

  // ----- the builder -----

  /** Every snippet call of the code has been recorded. */
  ghost predicate Recorded(code: seq<SymOp>, calls: seq<SnippetCall>) {
    forall i :: 0 <= i < |code| && code[i].CallSnippet? ==> SnippetCall(i, code[i].snippet) in calls
  }

  lemma RepresentsRecords(instr: seq<O.Opcode>, code: seq<SymOp>, labels: seq<O.Option<nat>>, users: seq<L.LabelUser>,
                          calls: seq<SnippetCall>)
    requires Represents(instr, code, labels, users, calls)
    ensures Recorded(code, calls) && CallsFine(code, calls)
  {
    forall i | 0 <= i < |code| && code[i].CallSnippet? ensures SnippetCall(i, code[i].snippet) in calls {
      assert StandsAt(instr, code, i, 0, labels, users, calls);
    }
  }

  /** The opcodes of a finished translation, except for its snippet calls. */
  ghost predicate SettledCode(instr: seq<O.Opcode>, t: Translation) {
    |instr| == |t.code| && forall i :: 0 <= i < |t.code| ==> Settled(instr[i], i, t.code[i], t.labels, t.maxHeight)
  }

  /** A finished function as the code that the next one starts from: only snippet calls are symbolic. */
  function Closed(instr: seq<O.Opcode>, code: seq<SymOp>): (r: seq<SymOp>)
    requires |instr| == |code|
    ensures Finished(r) && |r| == |code|
  {
    seq(|code|, i requires 0 <= i < |code| => if code[i].CallSnippet? then code[i] else Op(instr[i]))
  }

  lemma ClosedRepresents(instr: seq<O.Opcode>, t: Translation, calls: seq<SnippetCall>)
    requires SettledCode(instr, t) && Recorded(t.code, calls) && CallsFine(t.code, calls)
    ensures Represents(instr, Closed(instr, t.code), [], [], calls)
  {
    var code := Closed(instr, t.code);
    forall i | 0 <= i < |instr| ensures StandsAt(instr, code, i, 0, [], [], calls) {
      assert Settled(instr[i], i, t.code[i], t.labels, t.maxHeight);
    }
  }

  /** The opcodes of the functions before stay as they are. */
  lemma EarlierOpcodes(before: seq<O.Opcode>, earlier: seq<SymOp>, instr: seq<O.Opcode>, t: Translation,
                       calls: seq<SnippetCall>)
    requires Represents(before, earlier, [], [], calls) && Finished(earlier)
    requires SettledCode(instr, t) && earlier <= t.code
    ensures before <= instr
  {
    forall i | 0 <= i < |before| ensures before[i] == instr[i] {
      assert StandsAt(before, earlier, i, 0, [], [], calls);
      assert Settled(instr[i], i, t.code[i], t.labels, t.maxHeight);
    }
  }

  /** Prologue: entry charges, stack reservation, zeroed locals. */
  method TranslatePrologue(b: I.InstructionTranslator, c: Costs, f: Function) returns (r: O.Option<Failure>)
    requires b.Valid() && b.labels.labels == [] && b.controlFrames.frames == [] && b.stackTypes == []
    requires b.stackHeight.height == b.stackHeight.maxHeight == 0 && b.reachable && b.paramWords == WordsOf(f.params)
    requires c.metered == b.metered && c.base == b.base
    modifies b.Repr()
    ensures b.Outcome(r, Prologue(c, f, old(b.code)))
  {
    hide WordsOf;
    hide Represents;
    hide Bump;
    hide Start;
    hide TranslateLocals;
    b.InitFuncBodyBlock(f);
    hide b.Model;
    r := b.BumpFuelConsumption(c.params);
    if r.Some? {
      return;
    }
    r := b.BumpFuelConsumption(c.base);
    if r.Some? {
      return;
    }
    b.TranslateStackAlloc();
    r := b.BumpFuelConsumption(c.locals);
    if r.Some? {
      return;
    }
    r := b.TranslateLocals(f.locals);
  }

  /** Translates the whole function before its branches are filled in. */
  method TranslateParts(b: I.InstructionTranslator, c: Costs, f: Function) returns (r: O.Option<Failure>)
    requires b.Valid() && b.labels.labels == [] && b.controlFrames.frames == [] && b.stackTypes == []
    requires b.stackHeight.height == b.stackHeight.maxHeight == 0 && b.reachable && b.paramWords == WordsOf(f.params)
    requires c.metered == b.metered && c.base == b.base
    modifies b.Repr()
    ensures b.Outcome(r, Translator.TranslateFunction(c, f, old(b.code)))
  {
    hide WordsOf;
    hide Represents;
    hide Prologue;
    hide Translate;
    hide VisitEnd;
    r := TranslatePrologue(b, c, f);
    if r.Some? {
      return;
    }
    hide b.Model;
    r := b.TranslateBody(f.body);
    if r.Some? {
      return;
    }
    r := b.VisitEnd();
  }

  /** Why a function cannot be compiled, if it cannot. */
  ghost function BuildFailure(c: Costs, f: Function, code: seq<SymOp>): O.Option<Failure> {
    match TranslateFunction(c, f, code)
    case Err(e) => O.Some(e)
    case Ok(t) => FinishFailure(t.code, t.labels, t.maxHeight)
  }

  /** Compiles a function onto the end of the instruction set. It never panics on validated code, and fails exactly
      as the translation or the final patching does; when it succeeds every opcode is the settled one of the
      translation, and the earlier code is unchanged. */
  method BuildFunction(c: Costs, f: Function, alloc: B.InstructionSet, calls: seq<SnippetCall>,
                       ghost earlier: seq<SymOp>)
    returns (r: O.Option<Failure>, calls': seq<SnippetCall>)
    requires ValidFunction(f) && Finished(earlier) && Represents(alloc.instr, earlier, [], [], calls)
    modifies alloc
    ensures var spec := Translator.TranslateFunction(c, f, earlier);
            && r == BuildFailure(c, f, earlier) && r != O.Some(Panic)
            && (r.None? ==> SettledCode(alloc.instr, spec.value) && old(alloc.instr) <= alloc.instr)
            && (r.None? ==> Represents(alloc.instr, Closed(alloc.instr, spec.value.code), [], [], calls'))
  {
    hide WordsOf;
    hide Translator.TranslateFunction;
    hide ValidFunction;
    calls' := calls;
    var start := |alloc.instr|;
    ghost var before := alloc.instr;
    var b := new I.InstructionTranslator(c, WordsOf(f.params), alloc, calls, earlier);
    ghost var spec := Translator.TranslateFunction(c, f, earlier);
    r := TranslateParts(b, c, f);
    NeverPanics(c, f, earlier);
    if r.Some? {
      return;
    }
    EndPinsAll(c, f, earlier);
    HeadStays(c, f, earlier);
    EarlierStays(c, f, earlier);
    RepresentsRecords(alloc.instr, b.code, b.labels.labels, b.labels.users, b.snippetCalls);
    hide Represents;
    r := b.Finish(start);
    if r.Some? {
      return;
    }
    calls' := b.snippetCalls;
    EarlierOpcodes(before, earlier, alloc.instr, spec.value, calls);
    ClosedRepresents(alloc.instr, spec.value, calls');
  }
}
