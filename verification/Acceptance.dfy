/** Compiled modules pass the static verifier, with one exception: an unmetered loop that starts with a branch to itself
    becomes a jump by zero, which is refused. */
module Acceptance {
  import opened Words
  import O = Opcodes
  import M = Machine
  import B = Blocks
  import opened Source
  import opened Validation
  import opened Layout
  import opened Translator
  import opened Functions
  import opened FunctionBuilders
  import opened Surveys
  import opened SurveyBodies
  import opened Forecasts
  import opened ModuleForecasts
  import opened Modules
  import opened Invariants
  import Bounds
  import Metering
  import MeteredBodies
  import Termination
  import Images
  import Sequences
  import Codec
  import L = Linking
  import V = Verifier
  import U = Outlines

  // ----- single opcodes -----

  /** A tidy opcode is in order if the code goes on for as long as it assumes. */
  lemma TidyInOrder(code: seq<O.Opcode>, at: nat, ahead: nat)
    requires at < |code| && TidyOp(Op(code[at]), ahead) && at + ahead <= |code|
    ensures V.InOrder(code, at)
  {
  }

  /** The opcode at `i` is a jump to itself. */
  ghost predicate JumpsToItself(t: Translation, i: nat)
    requires i < |t.code|
  {
    t.code[i].Jump? && Settles(t.labels, t.code[i].target) && t.labels[t.code[i].target].value == i
  }

  /** An opcode of a function is in order unless it is a jump to itself. */
  lemma FunctionOp(c: M.Config, entry: nat, from: nat, t: Translation, snippets: map<Snippet, Word>, o: U.Outline,
                   params: nat, i: nat)
    requires Images.Linked(c, entry, from, t, snippets) && Measured(t, o, params, from) && from <= i < |t.code|
    ensures entry + i < |c.code| && (V.InOrder(c.code, entry + i) <==> !JumpsToItself(t, i))
  {
    hide SpansOf, Kinds, JumpsFrom;
    assert Images.ResolvedAt(c, entry, t, i, snippets);
    match t.code[i]
    case Op(op) =>
      assert TidyOp(t.code[i], |t.code| - i + Slack(false));
      TidyInOrder(c.code, entry + i, |t.code| - i);
    case Jump(_, l) =>
      JumpInside(t, from, i);
    case CallSnippet(sn) =>
      assert B.Holds(c, snippets[sn], Images.SnippetBody(sn));
      assert |Images.SnippetBody(sn)| > 0;
    case ReserveStack =>
  }

  lemma JumpInside(t: Translation, from: nat, i: nat)
    requires from <= i < |t.code| && t.code[i].Jump?
    requires forall j :: j in JumpsFrom(t.code, from) ==> InsideAt(t, j.1, from)
    ensures InsideAt(t, t.code[i].target, from)
  {
    var own := t.code[from..];
    assert own[i - from] == t.code[i];
    assert (0 + (i - from), own[i - from].target) in JumpsFrom(t.code, from);
  }

  /** A function has a jump to itself exactly if zero is among the offsets of its outline. */
  lemma SelfJumps(t: Translation, o: U.Outline, params: nat, from: nat)
    requires Measured(t, o, params, from)
    ensures 0 in o.offsets <==> exists i :: from <= i < |t.code| && JumpsToItself(t, i)
  {
    hide Kinds, Tidy;
    var own := t.code[from..];
    if i :| from <= i < |t.code| && JumpsToItself(t, i) {
      assert own[i - from] == t.code[i];
      var j := (0 + (i - from), own[i - from].target);
      assert j in JumpsFrom(t.code, from);
      SpanIn(JumpsFrom(t.code, from), t.labels, from, j);
    }
    if 0 in o.offsets {
      var j :| j in JumpsFrom(t.code, from) && Settles(t.labels, j.1) && 0 == t.labels[j.1].value - from - j.0;
      var i :| 0 <= i < |own| && own[i].Jump? && j == (0 + i, own[i].target);
      assert t.code[from + i] == own[i];
      assert JumpsToItself(t, from + i);
    }
  }

  lemma RoutineTidy(sn: Snippet)
    ensures Tidy(Ops(Sequences.SnippetCode(sn)), 0, true)
  {
    hide Tidy;
    match sn
    case Rel64(r) => ComparisonTidy(r);
    case AddWide => AddTidy();
    case SubWide => SubTidy();
    case MulWide => MulTidy();
  }

  lemma AddTidy()
    ensures Tidy(Ops(Sequences.SnippetCode(AddWide)), 0, true)
  {
  }

  lemma SubTidy()
    ensures Tidy(Ops(Sequences.SnippetCode(SubWide)), 0, true)
  {
  }

  lemma MulTidy()
    ensures Tidy(Ops(Sequences.SnippetCode(MulWide)), 0, true)
  {
  }

  lemma ComparisonTidy(r: O.RelOp)
    ensures Tidy(Ops(Sequences.SnippetCode(Rel64(r))), 0, true)
  {
  }

  /** Every opcode of a routine is in order. */
  lemma RoutineOp(c: M.Config, at: nat, sn: Snippet, p: nat)
    requires B.Holds(c, at, Images.SnippetBody(sn)) && at <= p < at + |Images.SnippetBody(sn)|
    ensures p < |c.code| && V.InOrder(c.code, p)
  {
    RoutineTidy(sn);
    hide Sequences.SnippetCode;
    var code, i := Sequences.SnippetCode(sn), p - at;
    assert c.code[at + i] == Images.SnippetBody(sn)[i];
    if 0 < i <= |code| {
      assert Images.SnippetBody(sn)[i] == code[i - 1];
      assert TidyOp(Ops(code)[i - 1], |code| - (i - 1) + Slack(true));
      TidyInOrder(c.code, p, |code| - (i - 1) + 1);
    }
  }

  // ----- whole modules -----

  /** Every opcode of the functions belongs to one of them. */
  lemma {:induction false} PieceAt(units: seq<Unit>, pieces: seq<Piece>, i: nat)
    requires Pieces(units) == Ok(pieces) && i < |EndOf(pieces)|
    ensures |pieces| == |units|
    ensures exists k :: 0 <= k < |pieces| && |pieces[k].earlier| <= i < |pieces[k].final.code|
    decreases |units|
  {
    hide BuildFailure, TranslateFunction;
    var n := |units| - 1;
    var before := Pieces(units[..n]).value;
    PieceCount(units[..n], before);
    if i < |EndOf(before)| {
      PieceAt(units[..n], before, i);
      var k :| 0 <= k < |before| && |before[k].earlier| <= i < |before[k].final.code|;
      assert pieces[k] == before[k];
    } else {
      assert |pieces[n].earlier| <= i < |pieces[n].final.code|;
    }
  }

  lemma {:induction false} PieceCount(units: seq<Unit>, pieces: seq<Piece>)
    requires Pieces(units) == Ok(pieces)
    ensures |pieces| == |units|
    decreases |units|
  {
    hide BuildFailure, TranslateFunction, EndOf;
    if units != [] { PieceCount(units[..|units| - 1], Pieces(units[..|units| - 1]).value); }
  }

  /** Functions start before the end of the functions. */
  lemma {:induction false} PieceStart(units: seq<Unit>, pieces: seq<Piece>, k: nat)
    requires Pieces(units) == Ok(pieces) && k < |pieces|
    requires forall j :: 0 <= j < |pieces| ==> |pieces[j].earlier| < |pieces[j].final.code|
    ensures |pieces[k].final.code| <= |EndOf(pieces)|
    decreases |units|
  {
    hide BuildFailure, TranslateFunction;
    var n := |units| - 1;
    var before := Pieces(units[..n]).value;
    PieceCount(units[..n], before);
    assert forall j :: 0 <= j < n ==> before[j] == pieces[j];
    if k < n {
      PieceStart(units[..n], before, k);
      assert |EndOf(before)| == |pieces[n].earlier|;
    }
  }

  /** What compiling guarantees of the module, as far as the verifier is concerned. */
  ghost predicate Built(units: seq<Unit>, pieces: seq<Piece>, entry: nat, code: seq<O.Opcode>,
                        snippets: map<Snippet, Word>) {
    && Pieces(units) == Ok(pieces) && AllLinked(code, entry, units, pieces, snippets)
    && entry + |EndOf(pieces)| <= |code| && Routined(code, entry + |EndOf(pieces)|, snippets)
  }

  lemma PieceMeasured(units: seq<Unit>, pieces: seq<Piece>, entry: nat, code: seq<O.Opcode>,
                      snippets: map<Snippet, Word>, k: nat)
    requires AllLinked(code, entry, units, pieces, snippets) && k < |units|
    ensures k < |pieces|
    ensures var p, f := pieces[k], units[k].definition;
            && Measured(p.final, OutlineIn(units[k]), WordsOf(f.params), |p.earlier|)
            && |p.earlier| < |p.final.code|
            && ValidFunction(f) && Finished(p.earlier)
            && TranslateFunction(units[k].costs, f, p.earlier) == Ok(p.final)
            && forall c: M.Config :: c.code == code ==> Images.Linked(c, entry, |p.earlier|, p.final, snippets)
  {
    hide TranslateFunction, Images.Linked, ValidFunction, Finished, WordsOf;
    assert LinkedPiece(code, entry, units[k], pieces[k], snippets);
    Forecast(units[k].costs, units[k].definition, pieces[k].earlier);
    HeadStays(units[k].costs, units[k].definition, pieces[k].earlier);
    hide U.OutlineOf, U.Verdict;
  }

  /** All opcodes of the functions are in order exactly if none of them jumps to itself. */
  lemma FunctionsInOrder(units: seq<Unit>, pieces: seq<Piece>, entry: nat, code: seq<O.Opcode>,
                         snippets: map<Snippet, Word>)
    requires Built(units, pieces, entry, code, snippets)
    ensures (forall i :: entry <= i < entry + |EndOf(pieces)| ==> V.InOrder(code, i))
            <==> forall u :: u in units ==> 0 !in OutlineIn(u).offsets
  {
    hide Pieces, EndOf, Routined, V.InOrder, OutlineIn, Measured, WordsOf, TranslateFunction, ValidFunction, Finished,
      JumpsToItself, Images.Linked, AllLinked;
    var n := |EndOf(pieces)|;
    if forall u :: u in units ==> 0 !in OutlineIn(u).offsets {
      forall i | entry <= i < entry + n ensures V.InOrder(code, i) {
        PieceAt(units, pieces, i - entry);
        var k :| 0 <= k < |pieces| && |pieces[k].earlier| <= i - entry < |pieces[k].final.code|;
        assert units[k] in units;
        PieceOps(units, pieces, entry, code, snippets, k);
      }
    }
    if forall i :: entry <= i < entry + n ==> V.InOrder(code, i) {
      forall u | u in units ensures 0 !in OutlineIn(u).offsets {
        var k :| 0 <= k < |units| && units[k] == u;
        PieceOps(units, pieces, entry, code, snippets, k);
        AllMeasured(units, pieces, entry, code, snippets);
        PieceStart(units, pieces, k);
      }
    }
  }

  lemma AllMeasured(units: seq<Unit>, pieces: seq<Piece>, entry: nat, code: seq<O.Opcode>,
                    snippets: map<Snippet, Word>)
    requires AllLinked(code, entry, units, pieces, snippets)
    ensures |pieces| == |units| && forall j :: 0 <= j < |pieces| ==> |pieces[j].earlier| < |pieces[j].final.code|
  {
    hide LinkedPiece, Measured, TranslateFunction, WordsOf, ValidFunction, Finished, Images.Linked;
    forall j | 0 <= j < |pieces| ensures |pieces[j].earlier| < |pieces[j].final.code| {
      PieceMeasured(units, pieces, entry, code, snippets, j);
    }
  }

  /** The opcodes of one function. */
  lemma PieceOps(units: seq<Unit>, pieces: seq<Piece>, entry: nat, code: seq<O.Opcode>, snippets: map<Snippet, Word>,
                 k: nat)
    requires AllLinked(code, entry, units, pieces, snippets) && k < |units|
    ensures k < |pieces|
    ensures var p := pieces[k];
            && entry + |p.final.code| <= |code|
            && (0 !in OutlineIn(units[k]).offsets ==>
                forall i :: entry + |p.earlier| <= i < entry + |p.final.code| ==> i < |code| && V.InOrder(code, i))
            && (0 in OutlineIn(units[k]).offsets ==>
                exists i :: entry + |p.earlier| <= i < entry + |p.final.code| && i < |code| && !V.InOrder(code, i))
  {
    hide AllLinked, V.InOrder, OutlineIn, Measured, WordsOf, TranslateFunction, ValidFunction, Finished, JumpsToItself,
      Images.Linked;
    PieceMeasured(units, pieces, entry, code, snippets, k);
    var p, o, params := pieces[k], OutlineIn(units[k]), WordsOf(units[k].definition.params);
    var c := M.Config(code, O.None, 0, 0, O.None);
    SelfJumps(p.final, o, params, |p.earlier|);
    LinkedSize(c, entry, |p.earlier|, p.final, snippets);
    forall i | entry + |p.earlier| <= i < entry + |p.final.code|
      ensures i < |code| && (V.InOrder(code, i) <==> !JumpsToItself(p.final, i - entry))
    {
      FunctionOp(c, entry, |p.earlier|, p.final, snippets, o, params, i - entry);
    }
    if 0 in o.offsets {
      var i :| |p.earlier| <= i < |p.final.code| && JumpsToItself(p.final, i);
      assert !V.InOrder(code, entry + i) by { assert entry + i - entry == i; }
    } else {
      forall i | entry + |p.earlier| <= i < entry + |p.final.code| ensures i < |code| && V.InOrder(code, i) {
        assert !JumpsToItself(p.final, i - entry);
      }
    }
  }

  lemma LinkedSize(c: M.Config, entry: nat, from: nat, t: Translation, snippets: map<Snippet, Word>)
    requires Images.Linked(c, entry, from, t, snippets)
    ensures entry + |t.code| <= |c.code|
  {
  }

  /** The opcodes of the routines are in order. */
  lemma RoutinesInOrder(units: seq<Unit>, pieces: seq<Piece>, entry: nat, code: seq<O.Opcode>,
                        snippets: map<Snippet, Word>)
    requires Built(units, pieces, entry, code, snippets) && units != []
    ensures forall i :: entry + |EndOf(pieces)| <= i < |code| ==> V.InOrder(code, i)
  {
    hide Pieces, EndOf, V.InOrder, Compiles;
    var c := M.Config(code, O.None, 0, 0, O.None);
    assert LinkedPiece(code, entry, units[0], pieces[0], snippets);
    assert Images.Linked(c, entry, |pieces[0].earlier|, pieces[0].final, snippets);
    hide Images.SnippetBody;
    forall i: nat | entry + |EndOf(pieces)| <= i < |code| ensures V.InOrder(code, i) {
      assert InRoutines(snippets, i);
      var sn :| sn in snippets && RoutineAt(snippets, sn, i);
      RoutineOp(c, snippets[sn], sn, i);
    }
  }

  /** Elements name functions, whose addresses lie inside the code. */
  lemma ElementsInside(units: seq<Unit>, pieces: seq<Piece>, entry: nat, code: seq<O.Opcode>,
                       snippets: map<Snippet, Word>, offsets: seq<nat>, elements: seq<Word>, elements': seq<Word>)
    requires Built(units, pieces, entry, code, snippets)
    requires |units| <= |offsets| && forall k :: 0 <= k < |units| ==> k < |pieces| && offsets[k] == |pieces[k].earlier|
    requires forall i :: 0 <= i < |elements| ==> elements[i] <= |units|
    requires L.ElementsRelocated(elements, elements', offsets, entry)
    ensures forall j :: 0 <= j < |elements'| ==> elements'[j] == 0 || elements'[j] < |code|
  {
    hide Pieces, EndOf, Routined, AllLinked;
    AllMeasured(units, pieces, entry, code, snippets);
    forall j | 0 <= j < |elements'| ensures elements'[j] == 0 || elements'[j] < |code| {
      if elements[j] > 0 {
        PieceStart(units, pieces, elements[j] - 1);
        assert offsets[elements[j] - 1] == |pieces[elements[j] - 1].earlier|;
      }
    }
  }

  /** A compiled module, with whatever data and hints, is accepted if and only if its source entry and the opcodes of
      its
      entrypoint are in order and no function contains a branch that becomes a jump by zero. */
  lemma CompiledAccepted(units: seq<Unit>, pieces: seq<Piece>, entry: nat, code: seq<O.Opcode>,
                         snippets: map<Snippet, Word>, offsets: seq<nat>, elements: seq<Word>, m: Codec.Module)
    requires Built(units, pieces, entry, code, snippets) && |code| == entry + Total(EndOf(pieces))
    requires |units| <= |offsets| && forall k :: 0 <= k < |units| ==> k < |pieces| && offsets[k] == |pieces[k].earlier|
    requires forall i :: 0 <= i < |elements| ==> elements[i] <= |units|
    requires m.sections.code == code && L.ElementsRelocated(elements, m.sections.elems, offsets, entry)
    ensures V.Verify(m).None? <==>
              && m.sourcePc < |code| && (forall i :: 0 <= i < entry ==> V.InOrder(code, i))
              && forall u :: u in units ==> 0 !in OutlineIn(u).offsets
  {
    V.Accepted(m);
    ElementsInside(units, pieces, entry, code, snippets, offsets, elements, m.sections.elems);
    FunctionsInOrder(units, pieces, entry, code, snippets);
    var n := entry + |EndOf(pieces)|;
    if units == [] {
      NothingElse(units, pieces);
    } else {
      RoutinesInOrder(units, pieces, entry, code, snippets);
    }
    hide V.Verify, V.InOrder, Built, Pieces, EndOf, Total, OutlineIn, L.ElementsRelocated;
    assert forall i :: n <= i < |code| ==> V.InOrder(code, i);
  }

  lemma NothingElse(units: seq<Unit>, pieces: seq<Piece>)
    requires units == [] && Pieces(units) == Ok(pieces)
    ensures Total(EndOf(pieces)) == |EndOf(pieces)| == 0
  {
  }

  // ----- metered functions -----

  /** In metered code every label is a charge, so no jump goes to itself. */
  lemma MeteredApart(k: Costs, f: Function, code: seq<SymOp>)
    requires k.metered && ValidFunction(f) && Finished(code) && TranslateFunction(k, f, code).Ok?
    ensures 0 !in U.OutlineOf(k, f).offsets
  {
    hide WordsOf, Translate, VisitEnd, U.Survey, U.Opening, Check, Opened, Metering.Metered, BodyTracked, SmallGroups,
      Affordable, Prologue;
    PrologueExact(k, f, code);
    var c, s := FunctionCtx(f), Opened(k, f, code);
    var t, o := Translate(s, f.body).value, U.Survey(k, f.body, c, [], U.Opening(k, f));
    Termination.OpenedMetered(k, f, code);
    OpenedAt(k, f, code);
    MeteredBodies.LiveMetered(|code|, s, c, AllLocals(f), [], f.body, t);
    BodyForecast(k, f, code);
    BodyApart(f, t, o, |code|);
    FinaleOffsets(f, Check(f.body, c, []).Live?, o);
  }

  lemma FinaleOffsets(f: Function, live: bool, o: U.Outline)
    ensures U.Finale(f, live, o).offsets == o.offsets
  {
  }

  lemma MeteredParts(f: Function, t: Translation, o: U.Outline, from: nat)
    requires BodyTracked(f, t, o, from) && Metering.Metered(from, t)
    ensures Metering.LabelsCharge(t) && Metering.JumpsFine(t) && from <= |t.code|
    ensures o.offsets == SpansOf(JumpsFrom(t.code, from), t.labels, from)
  {
    hide WordsOf, SpansOf, JumpsFrom, BodyDone;
  }

  lemma BodyApart(f: Function, t: Translation, o: U.Outline, from: nat)
    requires BodyTracked(f, t, o, from) && Metering.Metered(from, t)
    ensures 0 !in o.offsets
  {
    hide WordsOf, Metering.Metered, BodyTracked, Metering.PaidBefore;
    MeteredParts(f, t, o, from);
    forall d | d in o.offsets ensures d != 0 {
      var j :| j in JumpsFrom(t.code, from) && Settles(t.labels, j.1) && d == t.labels[j.1].value - from - j.0;
      var own := t.code[from..];
      var i :| 0 <= i < |own| && own[i].Jump? && j == (0 + i, own[i].target);
      assert t.code[from + i] == own[i];
      assert Metering.JumpFine(t, from + i);
      assert IsCharge(t.code, t.labels[j.1].value);
    }
  }

  /** The exception: without metering, a loop that starts with a branch to itself. */
  function Stuttering(signature: Word): Function {
    Function(signature, [], [], [], [Loop(Empty, [Br(0)])])
  }

  lemma StutteringOutline(k: Costs, signature: Word)
    ensures ValidFunction(Stuttering(signature))
    ensures U.OutlineOf(k, Stuttering(signature)).offsets == {if k.metered then -1 else 0}
  {
    hide U.OutlineBr, U.Close, U.Entries, WordsOf, U.GroupDemands;
    var f := Stuttering(signature);
    var c, o := FunctionCtx(f), U.Opening(k, f);
    assert o.offsets == {} && |o.marks| == 1;
    var d := Enter(c, []);
    StutteringTypes(c, d);
    Bounds.NoEntries();
    var e := U.Inside(U.Fresh(k, o), U.Mark(U.Under(Empty, o), O.Some(o.size), {}, {}));
    var head := if k.metered then -1 else 0;
    StutteringBranch(k, d, e, o.size);
    var b := U.OutlineBr(k, d, e, 0);
    assert U.Survey(k, [Br(0)], d, [], e) == U.Skip(k, [], b) == b;
    CloseOffsets(k, b);
    assert U.SurveyInstr(k, f.body[0], c, [], o) == U.Close(k, Empty, b);
    assert f.body[1..] == [];
    assert U.Survey(k, f.body, c, [], o) == U.Close(k, Empty, b);
    FinaleOffsets(f, Check(f.body, c, []).Live?, U.Close(k, Empty, b));
    hide U.Finale;
  }

  lemma StutteringTypes(c: Ctx, d: Ctx)
    requires c.labels == [[]] && d == Enter(c, []) && c.results == []
    ensures CheckInstr(Br(0), d, []) == Dead && Check([Br(0)], d, []) == Dead
    ensures CheckInstr(Loop(Empty, [Br(0)]), c, []) == Live([]) && Check([Loop(Empty, [Br(0)])], c, []) == Live([])
  {
    assert Label(d, 0) == [];
    assert EndsWith([], []);
    assert CheckPlain(Br(0), d, []) == Dead;
    assert Check([Br(0)], d, []) == Dead;
    assert CheckBody(Empty, [Br(0)], [], c, []) == Live([]);
  }

  lemma StutteringBranch(k: Costs, d: Ctx, e: U.Outline, head: nat)
    requires |e.marks| == 2 && e.marks[1].head == O.Some(head) && e.marks[1].exits == {} && e.marks[1].skips == {}
    requires e.words == e.marks[1].base && |d.labels| == 2 && d.labels[1] == [] && e.offsets == {}
    ensures var b := U.OutlineBr(k, d, e, 0);
            && b.offsets == {head - e.size} && |b.marks| == 2 && b.marks[1].exits == {} && b.marks[1].skips == {}
  {
    assert U.Keeping(d, 0) == 0 && U.Dropping(d, e, 0) == 0;
    hide U.Entries, WordsOf;
  }

  lemma CloseOffsets(k: Costs, b: U.Outline)
    requires |b.marks| == 2 && b.marks[1].exits == {} && b.marks[1].skips == {}
    ensures U.Close(k, Empty, b).offsets == b.offsets
  {
    hide U.Entries, WordsOf;
  }
}
