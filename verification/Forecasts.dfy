/** Whether a function can be compiled, how large it gets and how high a stack it needs: exactly what its outline says.
    */
module Forecasts {
  import opened Words
  import O = Opcodes
  import opened Source
  import opened Validation
  import opened Layout
  import opened Translator
  import opened Invariants
  import opened Frames
  import opened Progress
  import opened Branches
  import opened Functions
  import opened FunctionBuilders
  import opened Pending
  import opened Surveys
  import opened SurveySteps
  import opened SurveyBranches
  import opened SurveyBodies
  import DK = DropKeeps
  import U = Outlines

  // ----- the prologue -----

  lemma {:induction false} GroupsFit(locals: seq<(nat, ValType)>)
    ensures U.Verdict(U.GroupDemands(locals)) == if SmallGroups(locals) then O.None else O.Some(TooLarge)
    decreases |locals|
  {
    if locals != [] {
      var d := U.Depth(locals[0].0 * U.Entry(locals[0].1));
      GroupsFit(locals[1..]);
      assert GroupWords(locals[0]) == d.words;
      VerdictAppend([d], U.GroupDemands(locals[1..]));
      assert locals == [locals[0]] + locals[1..];
    }
  }

  /** The entry charges fit together or not at all. */
  lemma EntryPaid(k: Costs, o: U.Outline)
    requires o.demands == [] && o.charge == 0
    ensures var p := U.Spend(k, U.Spend(k, U.Spend(k, o, k.params), k.base), k.locals);
            && U.Verdict(p.demands) == (if Affordable(k) then O.None else O.Some(BlockFuelOutOfBounds))
            && p == o.(demands := p.demands, charge := if k.metered then EntryCost(k) else 0)
  {
    hide U.Verdict;
    if k.metered {
      assert U.Verdict([]) == O.None by { NoDemands(); }
      Asked(o, U.Charge(k.params));
      Asked(U.Spend(k, o, k.params), U.Charge(k.params + k.base));
      Asked(U.Spend(k, U.Spend(k, o, k.params), k.base), U.Charge(EntryCost(k)));
    } else {
      NoDemands();
    }
  }

  lemma NoDemands()
    ensures U.Verdict([]) == O.None
  {
  }

  lemma OpeningVerdict(k: Costs, f: Function)
    ensures U.Verdict(U.Opening(k, f).demands)
         == if !Affordable(k) then O.Some(BlockFuelOutOfBounds)
            else if !SmallGroups(f.locals) then O.Some(TooLarge) else O.None
  {
    hide U.Verdict, U.GroupDemands, U.Spend, SmallGroups;
    var words := U.Entries(AllLocals(f));
    var o := U.Place(U.Outline(2 + |f.locals|, words, words, 0, [U.Mark(0, O.None, {}, {})], [], {}, {}),
                     if k.metered then 1 else 0);
    EntryPaid(k, o);
    GroupsFit(f.locals);
    var p := U.Spend(k, U.Spend(k, U.Spend(k, o, k.params), k.base), k.locals);
    VerdictAppend(p.demands, U.GroupDemands(f.locals));
  }

  lemma PrologueExact(k: Costs, f: Function, code: seq<SymOp>)
    ensures Prologue(k, f, code)
         == if !Affordable(k) then Err(BlockFuelOutOfBounds)
            else if !SmallGroups(f.locals) then Err(TooLarge) else Ok(Opened(k, f, code))
  {
    hide WordsOf;
    ReservedIs(k, f, code);
    PrologueIs(k, f, code);
    hide Start;
    hide Bump;
    if Affordable(k) {
      LocalsTranslated(Reserved(k, f, code), f.locals);
      if SmallGroups(f.locals) { LocalsFit(Reserved(k, f, code), f.locals); }
    }
  }

  lemma {:induction false} LocalsFit(s: Translation, locals: seq<(nat, ValType)>)
    requires SmallGroups(locals)
    ensures TranslateLocals(s, locals).Ok?
    decreases |locals|
  {
    if locals != [] {
      var (n, t) := locals[0];
      assert GroupWords(locals[0]) < B32;
      var words := n * Width(t);
      LocalsFit(Grow(Emit(s, [Op(O.BulkConst(words))]).(types := s.types + Repeat(t, n)), words), locals[1..]);
    }
  }

  lemma {:induction false} LocalsLength(locals: seq<(nat, ValType)>)
    requires SmallGroups(locals)
    ensures |LocalsCode(locals)| == |locals|
    decreases |locals|
  {
    if locals != [] { LocalsLength(locals[1..]); }
  }

  /** The code in front of the body: no jumps, no calls, nothing that could point anywhere. */
  lemma HeadPlain(k: Costs, f: Function)
    requires Affordable(k) && SmallGroups(f.locals)
    ensures var ext := Head(k, f) + Ops(LocalsCode(f.locals));
            && |ext| == 2 + (if k.metered then 1 else 0) + |f.locals| && Tidy(ext, 0, true)
            && (forall i :: 0 <= i < |ext| ==> !ext[i].Jump? && !ext[i].CallSnippet?)
  {
    LocalsLength(f.locals);
    LocalsConst(f.locals);
    var head, tail := Head(k, f), Ops(LocalsCode(f.locals));
    var ext := head + tail;
    hide LocalsCode;
    forall i | 0 <= i < |ext|
      ensures !ext[i].Jump? && !ext[i].CallSnippet? && TidyOp(ext[i], |ext| - i + Slack(true))
    {
      if i < |head| { assert ext[i] == head[i]; } else { assert ext[i] == tail[i - |head|]; }
    }
  }

  lemma OpeningTracks(k: Costs, f: Function, code: seq<SymOp>)
    requires Affordable(k) && SmallGroups(f.locals) && Finished(code)
    ensures Tracks(Opened(k, f, code), U.Opening(k, f), |code|)
  {
    hide WordsOf, SmallGroups, U.GroupDemands, U.Verdict;
    var s, from := Opened(k, f, code), |code|;
    var ext := Head(k, f) + Ops(LocalsCode(f.locals));
    HeadPlain(k, f);
    assert s.code == code + ext;
    assert s.code[from..] == ext;
    NoPlaces(ext, 0);
    NoKinds(ext);
    var words := U.Entries(AllLocals(f));
    var o := U.Place(U.Outline(2 + |f.locals|, words, words, 0, [U.Mark(0, O.None, {}, {})], [], {}, {}),
                     if k.metered then 1 else 0);
    EntryPaid(k, o);
    WordsAppend(f.params, LocalTypes(f.locals));
    TidyShift(code, ext);
    OpeningPaid(k, f, code);
    assert ExitsOf({}, 0) == {} && SpansOf({}, s.labels, from) == {};
    hide LocalsCode, Head, Kinds, JumpsFrom, Places;
  }

  lemma TidyShift(code: seq<SymOp>, ext: seq<SymOp>)
    requires Tidy(ext, 0, true)
    ensures Tidy(code + ext, |code|, true)
  {
    forall i | |code| <= i < |code + ext| ensures TidyOp((code + ext)[i], |code + ext| - i + Slack(true)) {
      assert TidyOp(ext[i - |code|], |ext| - (i - |code|) + Slack(true));
    }
  }

  lemma OpeningPaid(k: Costs, f: Function, code: seq<SymOp>)
    requires Affordable(k) && SmallGroups(f.locals)
    ensures Paid(Opened(k, f, code), if k.metered then EntryCost(k) else 0)
  {
    hide WordsOf, LocalsCode;
    if k.metered {
      assert Opened(k, f, code).code[|code| + 1] == Head(k, f)[1];
    }
  }

  // ----- the end -----

  /** What remains of a function once its end is reached. */
  function Ended(f: Function, v: Translation): Translation {
    PushTypes(v.(height := 0, types := f.params, frames := []), f.results)
  }

  lemma EndExact(f: Function, t: Translation)
    requires BodyDone(f, t)
    ensures t.frames[0].end < |t.labels|
    ensures VisitEnd(t)
         == if !t.reachable then Ok(Ended(f, PinnedEnd(t)))
            else if DropKeepReturn(t).Ok? then Ok(Ended(f, Leave(PinnedEnd(t), DropKeepReturn(t).value)))
            else Err(DropKeepReturn(t).failure)
  {
    hide WordsOf;
    EndOfBody(f, t);
    var p, dk := PinnedEnd(t), DropKeepReturn(t);
    hide WF, DropKeepReturn, PinEnd;
    if !t.reachable || dk.Ok? {
      var v := if t.reachable then Leave(p, dk.value) else p;
      assert VisitReturn(p) == Ok(v);
      ShrinkToParams(f, v);
      hide ShrinkTo, Leave, VisitReturn;
    }
  }

  /** The body of the function, measured by its outline. */
  ghost predicate BodyTracked(f: Function, t: Translation, o: U.Outline, from: nat) {
    && BodyDone(f, t) && Tracks(t, o, from) && U.Verdict(o.demands).None?
    && (t.reachable ==> At(t, FunctionCtx(f), AllLocals(f), f.results))
  }

  /** What the outline says of the finished function. */
  ghost predicate Measured(v: Translation, o: U.Outline, params: nat, from: nat) {
    && |v.code| == from + o.size && v.maxHeight + params == o.peak
    && o.offsets == SpansOf(JumpsFrom(v.code, from), v.labels, from) && o.kinds == Kinds(v.code[from..])
    && Tidy(v.code, from, false)
    && forall j :: j in JumpsFrom(v.code, from) ==> InsideAt(v, j.1, from)
  }

  /** A label of the function that lies inside its code. */
  predicate InsideAt(v: Translation, l: nat, from: nat) {
    l < |v.labels| && v.labels[l].Some? && from <= v.labels[l].value < |v.code|
  }

  /** No jump names the label of the function itself. */
  lemma RootFree(f: Function, t: Translation, o: U.Outline, from: nat)
    requires BodyTracked(f, t, o, from)
    ensures ExitsOf(JumpsFrom(t.code, from), t.frames[0].end) == {}
    ensures forall j :: j in JumpsFrom(t.code, from) ==> j.1 != t.frames[0].end
  {
    hide WordsOf;
    var jumps := JumpsFrom(t.code, from);
    assert MarkFits(jumps, t, t.frames[0], o.marks[0], true, from);
    forall j | j in jumps ensures j.1 != t.frames[0].end {
      ExitIn(jumps, j);
    }
  }

  lemma ExitIn(jumps: set<(int, nat)>, j: (int, nat))
    requires j in jumps
    ensures j.0 in ExitsOf(jumps, j.1)
  {
  }

  lemma KnownPinned(t: Translation, l: nat)
    requires |t.frames| == 1 && t.frames[0].BlockFrame? && Known(t, l) && l != t.frames[0].end
    ensures t.labels[l].Some?
  {
  }

  /** Every label that a jump of the body names is pinned, except that of the function. */
  lemma BodySettled(f: Function, t: Translation, o: U.Outline, from: nat)
    requires BodyTracked(f, t, o, from)
    ensures forall j :: j in JumpsFrom(t.code, from) ==>
              j.1 < |t.labels| && t.labels[j.1].Some? && from <= t.labels[j.1].value < |t.code| + Slack(t.reachable)
  {
    hide WordsOf;
    RootFree(f, t, o, from);
    forall j | j in JumpsFrom(t.code, from)
      ensures j.1 < |t.labels| && t.labels[j.1].Some? && from <= t.labels[j.1].value < |t.code| + Slack(t.reachable)
    {
      var code := t.code[from..];
      var i :| 0 <= i < |code| && code[i].Jump? && j == (0 + i, code[i].target);
      assert t.code[from + i] == code[i];
      assert Known(t, j.1);
      KnownPinned(t, j.1);
    }
  }

  lemma PinnedSpans(f: Function, t: Translation, o: U.Outline, from: nat)
    requires BodyTracked(f, t, o, from)
    ensures t.frames[0].end < |t.labels|
    ensures SpansOf(JumpsFrom(t.code, from), PinnedEnd(t).labels, from) == o.offsets
  {
    hide WordsOf, JumpsFrom, SpansOf, ExitsOf;
    EndOfBody(f, t);
    RootFree(f, t, o, from);
    SpansPin(JumpsFrom(t.code, from), t.labels, from, t.frames[0].end, |t.code|);
    NoEnds(|t.code| - from);
  }

  lemma FallOff(f: Function, t: Translation, o: U.Outline, from: nat)
    requires BodyTracked(f, t, o, from) && !t.reachable
    ensures t.frames[0].end < |t.labels|
    ensures Measured(Ended(f, PinnedEnd(t)), U.Finale(f, false, o), WordsOf(f.params), from)
  {
    hide WordsOf, SpansOf, Kinds, JumpsFrom, Tidy;
    PinnedSpans(f, t, o, from);
    RootFree(f, t, o, from);
    BodySettled(f, t, o, from);
    TrackedShape(t, o, from);
    hide Marked;
  }

  lemma Returned(f: Function, t: Translation, o: U.Outline, from: nat, dk: DK.DropKeep, p: U.Outline)
    requires BodyTracked(f, t, o, from) && t.reachable
    requires p == U.Raise(o, o.words + U.Spill(dk.drop, dk.keep)).(size := o.size + U.Moves(dk.drop, dk.keep) + 1,
                                                                  demands := p.demands)
    ensures t.frames[0].end < |t.labels|
    ensures var q := U.Raise(p, WordsOf(f.params) + WordsOf(f.results));
            Measured(Ended(f, Leave(PinnedEnd(t), dk)), q, WordsOf(f.params), from)
  {
    hide WordsOf, SpansOf, Kinds, JumpsFrom, Tidy;
    PinnedSpans(f, t, o, from);
    RootFree(f, t, o, from);
    BodySettled(f, t, o, from);
    LeaveTracks(t, o, from, dk, p);
    LeaveJumps(t, dk, from);
    TrackedShape(Leave(t, dk), p, from);
    LeavePinned(t, dk);
    TrackedShape(t, o, from);
    hide Marked, Leave, Tracks;
  }

  lemma LeavePinned(t: Translation, dk: DK.DropKeep)
    requires |t.frames| == 1 && t.frames[0].BlockFrame? && t.frames[0].end < |t.labels|
    ensures Leave(PinnedEnd(t), dk) == Leave(t, dk).(labels := PinnedEnd(t).labels)
    ensures |Leave(t, dk).code| > |t.code| && Leave(t, dk).labels == t.labels && !Leave(t, dk).reachable
  {
    hide DK.Lower, DK.Headroom;
  }

  lemma LeaveJumps(t: Translation, dk: DK.DropKeep, from: nat)
    requires from <= |t.code|
    ensures JumpsFrom(Leave(t, dk).code, from) == JumpsFrom(t.code, from)
  {
    var ops := Ops(DK.Lower(dk));
    var ext := ops + [Op(O.Return)];
    hide DK.Lower;
    assert Leave(t, dk).code == t.code + ext;
    JumpsAppend(t.code, ext, from);
    NoPlaces(ext, |t.code| - from);
  }

  lemma FinaleIs(f: Function, o: U.Outline, live: bool)
    ensures U.Finale(f, live, o)
         == U.Raise(if live then U.OutlineReturn(FunctionCtx(f), o) else o, WordsOf(f.params) + WordsOf(f.results))
  {
  }

  /** The end of the function, as its outline says. */
  lemma EndForecast(f: Function, t: Translation, o: U.Outline, from: nat)
    requires BodyTracked(f, t, o, from)
    ensures var q := U.Finale(f, t.reachable, o);
            match VisitEnd(t)
            case Ok(v) => U.Verdict(q.demands).None? && Measured(v, q, WordsOf(f.params), from)
            case Err(e) => U.Verdict(q.demands) == O.Some(e)
  {
    hide WordsOf, VisitEnd, Measured, Ended, Leave, U.Verdict, Tracks, DropKeepReturn;
    EndExact(f, t);
    FinaleIs(f, o, t.reachable);
    hide U.Finale;
    if t.reachable {
      var c := FunctionCtx(f);
      ReturnOutlined(t, c, AllLocals(f), f.results, o, from);
      var keep := U.Entries(c.results);
      var drop := U.Minus(o.words, keep);
      Asked(o, U.Drops(drop, keep));
      hide At;
      if DropKeepReturn(t).Ok? {
        Returned(f, t, o, from, DropKeepReturn(t).value, U.OutlineReturn(c, o));
      }
    } else {
      hide At;
      FallOff(f, t, o, from);
    }
  }

  // ----- the whole function -----

  lemma BodyForecast(k: Costs, f: Function, code: seq<SymOp>)
    requires Affordable(k) && SmallGroups(f.locals) && Finished(code) && ValidFunction(f)
    ensures var c := FunctionCtx(f);
            var o := U.Survey(k, f.body, c, [], U.Opening(k, f));
            match Translate(Opened(k, f, code), f.body)
            case Ok(t) => BodyTracked(f, t, o, |code|) && t.reachable == Check(f.body, c, []).Live?
            case Err(e) => U.Verdict(o.demands) == O.Some(e)
  {
    hide WordsOf, Translate, Tracks, U.Opening, U.Survey, U.Verdict, Check;
    var s, c := Opened(k, f, code), FunctionCtx(f);
    OpeningTracks(k, f, code);
    OpeningVerdict(k, f);
    OpenedAt(k, f, code);
    OpenedCosts(k, f, code);
    hide Opened, At;
    BodySurveyed(k, s, c, AllLocals(f), [], f.body, U.Opening(k, f), |code|);
    if Translate(s, f.body).Ok? {
      var t := Translate(s, f.body).value;
      BodyIsDone(k, f, code, t);
      GoodSame(s, t, AllLocals(f), Check(f.body, c, []));
      if t.reachable { ReturnFits(k, f, code, t); }
    }
    hide Good, DropKeepReturn, BodyDone;
  }

  lemma OpenedCosts(k: Costs, f: Function, code: seq<SymOp>)
    requires Affordable(k) && SmallGroups(f.locals)
    ensures Opened(k, f, code).metered == k.metered && Opened(k, f, code).base == k.base
  {
    hide WordsOf;
  }

  /** Translating a function fails where its outline has the first unmet demand, and nowhere else; otherwise size,
      height, offsets and routines are those of the outline, wherever the function is put. */
  lemma Forecast(k: Costs, f: Function, code: seq<SymOp>)
    requires ValidFunction(f) && Finished(code)
    ensures var o := U.OutlineOf(k, f);
            match TranslateFunction(k, f, code)
            case Ok(t) => U.Verdict(o.demands).None? && Measured(t, o, WordsOf(f.params), |code|)
            case Err(e) => U.Verdict(o.demands) == O.Some(e)
  {
    hide WordsOf, Translate, VisitEnd, Measured, U.Opening, U.Survey, U.Verdict, Check, Prologue, Opened, U.Finale,
      BodyTracked, SmallGroups, Affordable;
    PrologueExact(k, f, code);
    OpeningVerdict(k, f);
    var c := FunctionCtx(f);
    var o := U.Survey(k, f.body, c, [], U.Opening(k, f));
    var live := Check(f.body, c, []).Live?;
    SurveyLater(k, f.body, c, [], U.Opening(k, f));
    FinaleLater(f, live, o);
    if Affordable(k) && SmallGroups(f.locals) {
      BodyForecast(k, f, code);
      if Translate(Opened(k, f, code), f.body).Ok? {
        EndForecast(f, Translate(Opened(k, f, code), f.body).value, o, |code|);
      }
    }
    hide ValidFunction, SameVerdict;
  }

  lemma FinaleLater(f: Function, live: bool, o: U.Outline)
    ensures U.Verdict(o.demands).Some? ==> U.Verdict(U.Finale(f, live, o).demands) == U.Verdict(o.demands)
  {
    hide U.Verdict;
    ReturnLater(FunctionCtx(f), o);
    hide U.OutlineReturn;
  }

  /** The branches fit exactly if the offsets of the outline do. */
  lemma OffsetsFit(t: Translation, o: U.Outline, params: nat, code: seq<SymOp>)
    requires Measured(t, o, params, |code|) && code <= t.code && Finished(code)
    ensures AllFit(t.code, t.labels) <==> forall d :: d in o.offsets ==> -B31 <= d < B31
  {
    hide Tidy, Kinds;
    var from := |code|;
    var own := t.code[from..];
    if forall d :: d in o.offsets ==> -B31 <= d < B31 {
      forall i | 0 <= i < |t.code| ensures FitsAt(t.code, t.labels, i) {
        if i < from {
          assert t.code[i] == code[i];
        } else if t.code[i].Jump? && Settles(t.labels, t.code[i].target) {
          assert own[i - from] == t.code[i];
          var j := (i - from, own[i - from].target);
          assert j in JumpsFrom(t.code, from) by { assert j == (0 + (i - from), own[i - from].target); }
          SpanIn(JumpsFrom(t.code, from), t.labels, from, j);
          assert t.labels[j.1].value - i in o.offsets;
        }
      }
    }
    if AllFit(t.code, t.labels) {
      forall d | d in o.offsets ensures -B31 <= d < B31 {
        var j :| j in JumpsFrom(t.code, from) && Settles(t.labels, j.1) && d == t.labels[j.1].value - from - j.0;
        var i :| 0 <= i < |own| && own[i].Jump? && j == (0 + i, own[i].target);
        assert t.code[from + i] == own[i];
        assert FitsAt(t.code, t.labels, from + i);
      }
    }
  }

  lemma SpanIn(jumps: set<(int, nat)>, labels: seq<O.Option<nat>>, from: nat, j: (int, nat))
    requires j in jumps && Settles(labels, j.1)
    ensures labels[j.1].value - from - j.0 in SpansOf(jumps, labels, from)
  {
  }

  /** A function is built or refused exactly as diagnosed from its outline. When it is built, it takes as many opcodes
      as
      the outline counts and the stack check asks for exactly the peak of the outline beyond the parameters, neither
      less nor more. */
  lemma Diagnosed(k: Costs, f: Function, code: seq<SymOp>)
    requires ValidFunction(f) && Finished(code)
    ensures BuildFailure(k, f, code) == U.Diagnosis(k, f)
    ensures BuildFailure(k, f, code).None? ==>
              && TranslateFunction(k, f, code).Ok?
              && Measured(TranslateFunction(k, f, code).value, U.OutlineOf(k, f), WordsOf(f.params), |code|)
              && TranslateFunction(k, f, code).value.maxHeight == U.HeightOf(f, U.OutlineOf(k, f))
  {
    Forecast(k, f, code);
    var r, o := TranslateFunction(k, f, code), U.OutlineOf(k, f);
    if r.Ok? {
      EarlierStays(k, f, code);
      HeightIs(r.value, o, f, |code|);
      hide U.HeightOf, U.OutlineOf;
      OffsetsFit(r.value, o, WordsOf(f.params), code);
    }
    hide TranslateFunction, U.Verdict, ValidFunction, AllFit, WordsOf, Measured, U.OutlineOf;
  }

  lemma HeightIs(t: Translation, o: U.Outline, f: Function, from: nat)
    requires Measured(t, o, WordsOf(f.params), from)
    ensures t.maxHeight == U.HeightOf(f, o)
  {
    hide WordsOf;
  }
}
