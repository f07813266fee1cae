/** Whether a module can be compiled and how large it gets, told from the outlines of its functions. */
module ModuleForecasts {
  import opened Words
  import O = Opcodes
  import opened Source
  import opened Layout
  import opened Translator
  import opened Functions
  import opened FunctionBuilders
  import opened Pending
  import opened Surveys
  import opened SurveySteps
  import opened Forecasts
  import Bounds
  import Images
  import L = Linking
  import opened Modules
  import U = Outlines

  // ----- what the outlines say of a module -----

  function OutlineIn(u: Unit): U.Outline { U.OutlineOf(u.costs, u.definition) }

  /** The opcodes of all functions together. */
  function Sizes(units: seq<Unit>): nat
    decreases |units|
  {
    if units == [] then 0 else Sizes(units[..|units| - 1]) + OutlineIn(units[|units| - 1]).size
  }

  /** The 64-bit routines that any function calls. */
  function Called(units: seq<Unit>): set<Snippet>
    decreases |units|
  {
    if units == [] then {} else Called(units[..|units| - 1]) + OutlineIn(units[|units| - 1]).kinds
  }

  const ROUTINES: seq<Snippet> := [
    AddWide, SubWide, MulWide, Rel64(O.Eq), Rel64(O.Ne), Rel64(O.LtS), Rel64(O.LtU), Rel64(O.GtS), Rel64(O.GtU),
    Rel64(O.LeS), Rel64(O.LeU), Rel64(O.GeS), Rel64(O.GeU)]

  /** The opcodes of a routine: its stack check, its sequence, its return. */
  function RoutineSize(sn: Snippet): nat {
    match sn
    case Rel64(r) => if r == O.Eq || r == O.Ne then 9 else 17
    case AddWide => 13
    case SubWide => 18
    case MulWide => 17
  }

  /** The opcodes of those routines of a list that are called. */
  function RoutineSizes(list: seq<Snippet>, called: set<Snippet>): nat
    decreases |list|
  {
    if list == [] then 0
    else (if list[0] in called then RoutineSize(list[0]) else 0) + RoutineSizes(list[1..], called)
  }

  /** The first function that cannot be compiled, in order, says why. */
  ghost function FirstDiagnosis(units: seq<Unit>): O.Option<Failure>
    decreases |units|
  {
    if units == [] then O.None
    else
      var n := |units| - 1;
      if FirstDiagnosis(units[..n]).Some? then FirstDiagnosis(units[..n])
      else U.Diagnosis(units[n].costs, units[n].definition)
  }

  /** A module is refused for the first of its functions that is, or for having 2^32 opcodes or more. */
  ghost function ModuleDiagnosis(units: seq<Unit>, entry: nat): O.Option<Failure> {
    if FirstDiagnosis(units).Some? then FirstDiagnosis(units)
    else if entry + Sizes(units) + RoutineSizes(ROUTINES, Called(units)) < 0x1_0000_0000 then O.None
    else O.Some(TooLarge)
  }

  predicate AllValid(units: seq<Unit>) { forall u :: u in units ==> ValidFunction(u.definition) }

  // ----- the functions -----

  lemma SettledKinds(t: Translation)
    ensures Kinds(SettledSym(t)) == Kinds(t.code)
  {
    var a, b := SettledSym(t), t.code;
    forall sn | sn in Kinds(b) ensures sn in Kinds(a) {
      var i :| 0 <= i < |b| && b[i].CallSnippet? && sn == b[i].snippet;
      assert a[i] == b[i];
    }
    forall sn | sn in Kinds(a) ensures sn in Kinds(b) {
      var i :| 0 <= i < |a| && a[i].CallSnippet? && sn == a[i].snippet;
      assert a[i] == b[i];
    }
  }

  /** A finished function leaves nothing open for the next one. */
  lemma SettledFinished(u: Unit, code: seq<SymOp>)
    requires ValidFunction(u.definition) && Finished(code) && BuildFailure(u.costs, u.definition, code).None?
    ensures TranslateFunction(u.costs, u.definition, code).Ok?
    ensures Finished(SettledSym(TranslateFunction(u.costs, u.definition, code).value))
  {
    EndPinsAll(u.costs, u.definition, code);
    var t := TranslateFunction(u.costs, u.definition, code).value;
    hide TranslateFunction;
    var sym := SettledSym(t);
    forall i | 0 <= i < |sym| ensures !sym[i].Jump? && !sym[i].ReserveStack? {
      assert FitsAt(t.code, t.labels, i);
    }
  }

  /** One function: what its piece adds to the module. */
  lemma PieceAdds(u: Unit, code: seq<SymOp>)
    requires ValidFunction(u.definition) && Finished(code)
    ensures BuildFailure(u.costs, u.definition, code) == U.Diagnosis(u.costs, u.definition)
    ensures BuildFailure(u.costs, u.definition, code).None? ==>
              && TranslateFunction(u.costs, u.definition, code).Ok?
              && var sym := SettledSym(TranslateFunction(u.costs, u.definition, code).value);
                 && |sym| == |code| + OutlineIn(u).size && Kinds(sym) == Kinds(code) + OutlineIn(u).kinds
                 && Finished(sym)
  {
    var k, f := u.costs, u.definition;
    Diagnosed(k, f, code);
    if BuildFailure(k, f, code).None? {
      EarlierStays(k, f, code);
      SettledFinished(u, code);
      var t := TranslateFunction(k, f, code).value;
      MeasuredKinds(t, OutlineIn(u), WordsOf(f.params), code);
      SettledKinds(t);
    }
    hide BuildFailure, TranslateFunction, ValidFunction, U.Diagnosis, OutlineIn, Finished, Kinds, Measured, WordsOf;
  }

  lemma MeasuredKinds(t: Translation, o: U.Outline, params: nat, code: seq<SymOp>)
    requires Measured(t, o, params, |code|) && code <= t.code
    ensures |t.code| == |code| + o.size && Kinds(t.code) == Kinds(code) + o.kinds
  {
    hide Kinds;
    assert t.code == code + t.code[|code|..];
    KindsAppend(code, t.code[|code|..]);
  }

  lemma {:induction false} PiecesForecast(units: seq<Unit>)
    requires AllValid(units)
    ensures match Pieces(units)
            case Err(e) => FirstDiagnosis(units) == O.Some(e)
            case Ok(pieces) =>
              && FirstDiagnosis(units) == O.None && Finished(EndOf(pieces))
              && |EndOf(pieces)| == Sizes(units) && Kinds(EndOf(pieces)) == Called(units)
    decreases |units|
  {
    hide BuildFailure, TranslateFunction, ValidFunction, U.Diagnosis, OutlineIn, Kinds;
    if units == [] {
      NoKinds([]);
    } else {
      var n := |units| - 1;
      PiecesForecast(units[..n]);
      if Pieces(units[..n]).Ok? {
        var before := Pieces(units[..n]).value;
        PieceAdds(units[n], EndOf(before));
        LastPiece(units, before);
      }
    }
  }

  lemma LastPiece(units: seq<Unit>, before: seq<Piece>)
    requires units != [] && Pieces(units[..|units| - 1]) == Ok(before)
    ensures var u, code := units[|units| - 1], EndOf(before);
            var failure := BuildFailure(u.costs, u.definition, code);
            && (failure.Some? ==> Pieces(units) == Err(failure.value))
            && (failure.None? ==> TranslateFunction(u.costs, u.definition, code).Ok?)
            && (failure.None? ==> Pieces(units).Ok? && EndOf(Pieces(units).value)
                                  == SettledSym(TranslateFunction(u.costs, u.definition, code).value))
  {
    hide BuildFailure, TranslateFunction;
    var n := |units| - 1;
    PiecesStep(units, n, before);
    assert units[..n + 1] == units;
    hide Pieces;
    var u, code := units[n], EndOf(before);
    if BuildFailure(u.costs, u.definition, code).None? {
      EndIs(before, Piece(code, TranslateFunction(u.costs, u.definition, code).value));
    }
  }

  // ----- the routines -----

  /** The words of stack a routine asks for. */
  function RoutineRoom(sn: Snippet): Word {
    match sn
    case Rel64(r) => if r == O.Eq || r == O.Ne then 1 else 2
    case AddWide => 4
    case SubWide => 8
    case MulWide => 5
  }

  lemma RoutineIs(sn: Snippet)
    ensures |Images.SnippetBody(sn)| == RoutineSize(sn)
    ensures Images.SnippetBody(sn)[0] == O.StackCheck(RoutineRoom(sn))
  {
  }

  lemma Listed(sn: Snippet)
    ensures sn in ROUTINES
  {
    var i := match sn case AddWide => 0 case SubWide => 1 case MulWide => 2
             case Rel64(r) => (match r case Eq => 3 case Ne => 4 case LtS => 5 case LtU => 6 case GtS => 7 case GtU => 8
                               case LeS => 9 case LeU => 10 case GeS => 11 case GeU => 12);
    assert ROUTINES[i] == sn;
  }

  predicate Distinct(list: seq<Snippet>) { forall i, j :: 0 <= i < j < |list| ==> list[i] != list[j] }

  lemma RoutinesDistinct()
    ensures Distinct(ROUTINES)
  {
  }

  lemma {:induction false} NewRoutine(list: seq<Snippet>, called: set<Snippet>, sn: Snippet)
    requires Distinct(list)
    ensures RoutineSizes(list, called + {sn})
         == RoutineSizes(list, called) + if sn in list && sn !in called then RoutineSize(sn) else 0
    decreases |list|
  {
    hide RoutineSize;
    if list != [] {
      var rest := list[1..];
      NewRoutine(rest, called, sn);
      assert forall i, j :: 0 <= i < j < |rest| ==> rest[i] == list[i + 1] && rest[j] == list[j + 1];
      if list[0] == sn {
        assert sn !in rest by { HeadOnce(list); }
      } else if sn in list {
        assert sn in rest by { InTail(list, sn); }
      }
    }
  }

  lemma HeadOnce(list: seq<Snippet>)
    requires list != [] && Distinct(list)
    ensures list[0] !in list[1..]
  {
  }

  lemma InTail(list: seq<Snippet>, sn: Snippet)
    requires list != [] && sn in list && sn != list[0]
    ensures sn in list[1..]
  {
    var i :| 0 <= i < |list| && list[i] == sn;
    assert list[1..][i - 1] == sn;
  }

  lemma {:induction false} RoomIs(calls: seq<SnippetCall>)
    ensures L.SnippetRoom(calls) == RoutineSizes(ROUTINES, L.KindsOf(calls))
    decreases |calls|
  {
    hide Images.SnippetBody, RoutineSize, L.KindsOf;
    if calls == [] {
      NoRoutines(ROUTINES);
      assert L.KindsOf([]) == {} by { NoneCalled(); }
    } else {
      var n := |calls| - 1;
      var sn := calls[n].snippet;
      RoomIs(calls[..n]);
      L.KindsStep(calls, n);
      assert calls[..n + 1] == calls;
      RoutinesDistinct();
      NewRoutine(ROUTINES, L.KindsOf(calls[..n]), sn);
      Listed(sn);
      RoutineIs(sn);
    }
    hide RoutineSizes;
  }

  lemma NoneCalled()
    ensures L.KindsOf([]) == {}
  {
  }

  lemma {:induction false} NoRoutines(list: seq<Snippet>)
    ensures RoutineSizes(list, {}) == 0
    decreases |list|
  {
    if list != [] { NoRoutines(list[1..]); }
  }

  lemma {:induction false} CallsKinds(code: seq<SymOp>)
    ensures L.KindsOf(CallsOf(code)) == Kinds(code)
    decreases |code|
  {
    hide Kinds, L.KindsOf;
    if code == [] {
      NoneCalled();
      NoKinds([]);
    } else {
      var n := |code| - 1;
      CallsKinds(code[..n]);
      assert code == code[..n] + [code[n]];
      KindsAppend(code[..n], [code[n]]);
      var calls := CallsOf(code);
      if code[n].CallSnippet? {
        assert calls[..|calls| - 1] == CallsOf(code[..n]) && calls[..|calls|] == calls;
        L.KindsStep(calls, |calls| - 1);
        OneKind(code[n]);
      } else {
        assert calls == CallsOf(code[..n]);
        NoKinds([code[n]]);
      }
    }
  }

  lemma OneKind(op: SymOp)
    requires op.CallSnippet?
    ensures Kinds([op]) == {op.snippet}
  {
    assert [op][0].CallSnippet?;
  }

  /** Compiling a module fails exactly as diagnosed from the outlines of its functions; otherwise its size is theirs,
      the
      routines and the entrypoint together. */
  lemma ModuleDiagnosed(units: seq<Unit>, entry: nat)
    requires AllValid(units)
    ensures CompileFailure(units, entry) == ModuleDiagnosis(units, entry)
    ensures Pieces(units).Ok? ==>
            Total(EndOf(Pieces(units).value)) == Sizes(units) + RoutineSizes(ROUTINES, Called(units))
  {
    hide AllValid, Pieces, FirstDiagnosis, Sizes, Called, RoutineSizes, L.SnippetRoom, CallsOf, EndOf, Finished, Kinds;
    PiecesForecast(units);
    if Pieces(units).Ok? {
      var sym := EndOf(Pieces(units).value);
      CallsKinds(sym);
      RoomIs(CallsOf(sym));
    }
  }

  // ----- when compiling succeeds -----

  /** Bounds on a function under which nothing can go wrong. */
  predicate Ample(u: Unit) {
    && OutlineIn(u).peak < 0x1_0000 && OutlineIn(u).size < 0x8000_0000
    && (u.costs.metered ==> EntryCost(u.costs) + Bounds.Prices(u.costs.base, u.definition.body) < 0x1_0000_0000)
  }

  lemma {:induction false} RoutinesBounded(list: seq<Snippet>, called: set<Snippet>)
    ensures RoutineSizes(list, called) <= 18 * |list|
    decreases |list|
  {
    if list != [] { RoutinesBounded(list[1..], called); }
  }

  lemma {:induction false} NoDiagnosis(units: seq<Unit>)
    requires AllValid(units) && forall u :: u in units ==> Ample(u)
    ensures FirstDiagnosis(units) == O.None
    decreases |units|
  {
    hide ValidFunction, U.Diagnosis, OutlineIn, Bounds.Prices;
    if units != [] {
      var n := |units| - 1;
      NoDiagnosis(units[..n]);
      assert units[n] in units;
      AmpleSuffices(units[n]);
      hide Ample;
    }
  }

  lemma AmpleSuffices(u: Unit)
    requires ValidFunction(u.definition) && Ample(u)
    ensures U.Diagnosis(u.costs, u.definition) == O.None
  {
    hide ValidFunction, U.Diagnosis, U.OutlineOf, Bounds.Prices;
    Bounds.Suffices(u.costs, u.definition);
  }

  /** A module compiles if its functions are valid and ample and it has room for the routines. */
  lemma Compilable(units: seq<Unit>, entry: nat)
    requires AllValid(units) && (forall u :: u in units ==> Ample(u)) && entry + Sizes(units) + 234 < 0x1_0000_0000
    ensures CompileFailure(units, entry) == O.None
  {
    hide AllValid, Ample, CompileFailure, FirstDiagnosis, Sizes, Called, RoutineSizes, Pieces, Total;
    ModuleDiagnosed(units, entry);
    NoDiagnosis(units);
    RoutinesBounded(ROUTINES, Called(units));
  }
}
