/** Whole modules: functions compiled one behind the other, snippets emitted, the entrypoint put in front.
    What comes out is what the correctness theorems about functions start from. */
module Modules {
  import opened Words
  import O = Opcodes
  import M = Machine
  import Bl = Blocks
  import opened Source
  import opened Layout
  import opened Translator
  import opened Functions
  import opened Pending
  import opened Metering
  import opened Emissions
  import opened FunctionBuilders
  import opened Linking
  import B = Builders
  import Images
  import opened Calls

  /** A function with the costs of entering it. */
  datatype Unit = Unit(costs: Costs, definition: Function)

  /** A compiled function: the code it was appended to and its translation. */
  datatype Piece = Piece(earlier: seq<SymOp>, final: Translation)

  ghost predicate Compiles(u: Unit, p: Piece) {
    && ValidFunction(u.definition) && Finished(p.earlier)
    && TranslateFunction(u.costs, u.definition, p.earlier) == Ok(p.final)
    && p.earlier <= p.final.code
  }

  /** The opcodes of the piece as they stand before snippets are emitted. */
  ghost predicate Standing(instr: seq<O.Opcode>, sym: seq<SymOp>, p: Piece) {
    && |p.final.code| <= |instr| && |sym| == |instr|
    && (forall i :: |p.earlier| <= i < |p.final.code| ==> StandingAt(instr, sym, p, i))
  }

  ghost predicate StandingAt(instr: seq<O.Opcode>, sym: seq<SymOp>, p: Piece, i: nat)
    requires i < |p.final.code| && i < |instr| && i < |sym|
  {
    && Settled(instr[i], i, p.final.code[i], p.final.labels, p.final.maxHeight)
    && (if p.final.code[i].CallSnippet? then sym[i] == p.final.code[i] else sym[i].Op?)
  }

  ghost predicate AllStanding(instr: seq<O.Opcode>, sym: seq<SymOp>, units: seq<Unit>, pieces: seq<Piece>,
                              offsets: seq<nat>) {
    && |pieces| == |offsets| <= |units|
    && (forall k :: 0 <= k < |pieces| ==> PieceStands(instr, sym, units, pieces, offsets, k))
  }

  ghost predicate PieceStands(instr: seq<O.Opcode>, sym: seq<SymOp>, units: seq<Unit>, pieces: seq<Piece>,
                              offsets: seq<nat>, k: nat)
    requires k < |pieces| && k < |units| && k < |offsets|
  {
    Compiles(units[k], pieces[k]) && Standing(instr, sym, pieces[k]) && offsets[k] == |pieces[k].earlier|
  }

  // ----- compiling the functions -----

  /** Later functions leave the earlier ones standing. */
  lemma StandsLater(instr: seq<O.Opcode>, sym: seq<SymOp>, p: Piece, instr': seq<O.Opcode>, sym': seq<SymOp>)
    requires Standing(instr, sym, p) && instr <= instr' && |sym'| == |instr'|
    requires forall i :: 0 <= i < |sym| ==> if sym[i].CallSnippet? then sym'[i] == sym[i] else sym'[i].Op?
    ensures Standing(instr', sym', p)
  {
    forall i | |p.earlier| <= i < |p.final.code| ensures StandingAt(instr', sym', p, i) {
      assert StandingAt(instr, sym, p, i);
    }
  }

  /** The function just compiled stands. */
  lemma NewStands(instr: seq<O.Opcode>, p: Piece)
    requires SettledCode(instr, p.final)
    ensures Standing(instr, Closed(instr, p.final.code), p)
  {
    forall i | |p.earlier| <= i < |p.final.code| ensures StandingAt(instr, Closed(instr, p.final.code), p, i) {
      assert Settled(instr[i], i, p.final.code[i], p.final.labels, p.final.maxHeight);
    }
  }

  /** One more function. */
  lemma NextPiece(instr: seq<O.Opcode>, sym: seq<SymOp>, units: seq<Unit>, pieces: seq<Piece>, offsets: seq<nat>,
                  instr': seq<O.Opcode>, p: Piece)
    requires AllStanding(instr, sym, units, pieces, offsets) && |pieces| < |units|
    requires Compiles(units[|pieces|], p) && p.earlier == sym && Finished(sym) && |sym| == |instr|
    requires SettledCode(instr', p.final) && instr <= instr'
    ensures AllStanding(instr', Closed(instr', p.final.code), units, pieces + [p], offsets + [|instr|])
  {
    var sym', pieces', offsets' := Closed(instr', p.final.code), pieces + [p], offsets + [|instr|];
    NewStands(instr', p);
    assert forall i :: 0 <= i < |sym| ==> p.final.code[i] == sym[i];
    forall k | 0 <= k < |pieces'| ensures PieceStands(instr', sym', units, pieces', offsets', k) {
      if k < |pieces| {
        assert PieceStands(instr, sym, units, pieces, offsets, k);
        StandsLater(instr, sym, pieces[k], instr', sym');
      }
    }
  }

  /** Only snippet calls name a function, and every concrete opcode is what stands there. */
  ghost predicate CallsOnlySnippets(instr: seq<O.Opcode>, sym: seq<SymOp>) {
    |instr| == |sym| && forall i :: 0 <= i < |sym| ==>
        sym[i].CallSnippet? || (sym[i] == Op(instr[i]) && !NamesFunction(instr[i]))
  }

  lemma OwnFunction(c: Costs, f: Function, code: seq<SymOp>)
    requires Finished(code) && TranslateFunction(c, f, code).Ok?
    ensures var t := TranslateFunction(c, f, code).value;
            forall i :: |code| <= i < |t.code| ==> t.code[i].ReserveStack? || Own(t.code[i])
  {
    hide Translate;
    hide VisitEnd;
    PrologueIs(c, f, code);
    hide Prologue;
    var s := Opened(c, f, code);
    var t := Translate(s, f.body).value;
    AddsBody(s, f.body);
    AddsEnd(t);
    var v := VisitEnd(t).value;
    AddsTransitive(s.code, t.code, v.code);
    OwnOpening(c, f, code);
    forall i | |code| <= i < |v.code| ensures v.code[i].ReserveStack? || Own(v.code[i]) {
      assert i < |s.code| ==> v.code[i] == s.code[i] || v.code[i].Op?;
    }
  }

  lemma OwnOpening(c: Costs, f: Function, code: seq<SymOp>)
    requires Affordable(c) && SmallGroups(f.locals)
    ensures var s := Opened(c, f, code);
            forall i :: |code| <= i < |s.code| ==> s.code[i].ReserveStack? || Own(s.code[i])
  {
    var s, n := Opened(c, f, code), |code| + |Head(c, f)|;
    forall i | |code| <= i < |s.code| ensures s.code[i].ReserveStack? || Own(s.code[i]) {
      if i >= n {
        assert s.code[i] == Ops(LocalsCode(f.locals))[i - n];
        LocalsConst(f.locals);
      } else {
        assert s.code[i] == Head(c, f)[i - |code|];
      }
    }
  }

  lemma NextCalls(instr: seq<O.Opcode>, sym: seq<SymOp>, u: Unit, p: Piece, instr': seq<O.Opcode>)
    requires CallsOnlySnippets(instr, sym) && Compiles(u, p) && p.earlier == sym
    requires SettledCode(instr', p.final) && instr <= instr'
    ensures CallsOnlySnippets(instr', Closed(instr', p.final.code))
  {
    OwnFunction(u.costs, u.definition, sym);
    hide TranslateFunction;
    var sym' := Closed(instr', p.final.code);
    forall i | 0 <= i < |sym'| ensures sym'[i].CallSnippet? || (sym'[i] == Op(instr'[i]) && !NamesFunction(instr'[i])) {
      if i < |sym| {
        assert p.final.code[i] == sym[i];
        assert instr'[i] == instr[i];
      } else {
        assert Settled(instr'[i], i, p.final.code[i], p.final.labels, p.final.maxHeight);
      }
    }
  }

  // ----- what compiling the functions comes to -----

  /** The opcode a symbolic one of a finished function becomes; only snippet calls stay symbolic. */
  function SettledOp(t: Translation, i: nat): SymOp
    requires i < |t.code|
  {
    match t.code[i]
    case Op(_) => t.code[i]
    case CallSnippet(_) => t.code[i]
    case ReserveStack => if t.maxHeight < B32 then Op(O.StackCheck(t.maxHeight)) else t.code[i]
    case Jump(kind, l) =>
      if l < |t.labels| && t.labels[l].Some? && FitsOffset(t.labels[l].value - i)
      then Op(O.Branch(kind, t.labels[l].value - i)) else t.code[i]
  }

  function SettledSym(t: Translation): seq<SymOp> { seq(|t.code|, i requires 0 <= i < |t.code| => SettledOp(t, i)) }

  lemma ClosedIsSettled(instr: seq<O.Opcode>, t: Translation)
    requires SettledCode(instr, t)
    ensures Closed(instr, t.code) == SettledSym(t)
  {
    var a, b := Closed(instr, t.code), SettledSym(t);
    forall i | 0 <= i < |t.code| ensures a[i] == b[i] {
      assert Settled(instr[i], i, t.code[i], t.labels, t.maxHeight);
      if t.code[i].Jump? {
        assert instr[i].offset == t.labels[t.code[i].target].value - i;
      }
    }
  }

  /** The code behind which the next function starts. */
  function EndOf(pieces: seq<Piece>): seq<SymOp> {
    if pieces == [] then [] else SettledSym(pieces[|pieces| - 1].final)
  }

  /** The functions compiled one behind the other, or the first failure. */
  ghost function Pieces(units: seq<Unit>): Translator.Result<seq<Piece>>
    decreases |units|
  {
    if units == [] then Ok([])
    else
      var n := |units| - 1;
      var before :- Pieces(units[..n]);
      var u, code := units[n], EndOf(before);
      var failure := BuildFailure(u.costs, u.definition, code);
      if failure.Some? then Err(failure.value)
      else Ok(before + [Piece(code, TranslateFunction(u.costs, u.definition, code).value)])
  }

  /** The first failure is the failure of the whole. */
  lemma {:induction false} FirstFailure(units: seq<Unit>, k: nat)
    requires k <= |units| && Pieces(units[..k]).Err?
    ensures Pieces(units) == Pieces(units[..k])
    decreases |units|
  {
    hide BuildFailure;
    hide TranslateFunction;
    if k == |units| {
      assert units[..k] == units;
    } else {
      var n := |units| - 1;
      assert units[..n][..k] == units[..k];
      FirstFailure(units[..n], k);
    }
  }

  lemma TranslatedIfBuilt(u: Unit, code: seq<SymOp>)
    requires BuildFailure(u.costs, u.definition, code).None?
    ensures TranslateFunction(u.costs, u.definition, code).Ok?
  {
    hide TranslateFunction;
  }

  lemma PiecesStep(units: seq<Unit>, k: nat, pieces: seq<Piece>)
    requires k < |units| && Pieces(units[..k]) == Ok(pieces)
    ensures var u, code := units[k], EndOf(pieces);
            var failure := BuildFailure(u.costs, u.definition, code);
            && (failure.Some? ==> Pieces(units) == Err(failure.value))
            && (failure.None? ==> TranslateFunction(u.costs, u.definition, code).Ok?)
            && (failure.None? ==> Pieces(units[..k + 1])
                                  == Ok(pieces + [Piece(code, TranslateFunction(u.costs, u.definition, code).value)]))
  {
    hide BuildFailure;
    hide TranslateFunction;
    hide EndOf;
    assert units[..k + 1][..k] == units[..k];
    if BuildFailure(units[k].costs, units[k].definition, EndOf(pieces)).None? {
      TranslatedIfBuilt(units[k], EndOf(pieces));
    }
    if Pieces(units[..k + 1]).Err? {
      FirstFailure(units, k + 1);
    }
  }

  /** The call that an opcode makes, if it is one. */
  function CallAt(code: seq<SymOp>, i: nat): seq<SnippetCall>
    requires i < |code|
  {
    if code[i].CallSnippet? then [SnippetCall(i, code[i].snippet)] else []
  }

  /** The snippet calls of some code, in order. */
  function CallsOf(code: seq<SymOp>): seq<SnippetCall> {
    if code == [] then [] else CallsOf(code[..|code| - 1]) + CallAt(code, |code| - 1)
  }

  /** Recorded in order, the calls are determined by the code. */
  lemma {:induction false} CallsDetermined(code: seq<SymOp>, calls: seq<SnippetCall>)
    requires CallsFine(code, calls) && Recorded(code, calls)
    ensures calls == CallsOf(code)
    decreases |code|
  {
    hide CallsFine;
    hide Recorded;
    hide CallsOf;
    if code == [] {
      NoCalls(calls);
    } else {
      var n := |code| - 1;
      var rest := LastCall(code, calls);
      CallsDetermined(code[..n], rest);
      CallsEnd(code);
    }
  }

  lemma NoCalls(calls: seq<SnippetCall>)
    requires CallsFine([], calls)
    ensures calls == CallsOf([])
  {
    assert calls != [] ==> calls[0].loc < 0;
  }

  lemma CallsEnd(code: seq<SymOp>)
    requires code != []
    ensures CallsOf(code) == CallsOf(code[..|code| - 1]) + CallAt(code, |code| - 1)
  {
  }

  /** A call at the end of the code is the last one recorded. */
  lemma LastCall(code: seq<SymOp>, calls: seq<SnippetCall>) returns (rest: seq<SnippetCall>)
    requires CallsFine(code, calls) && Recorded(code, calls) && code != []
    ensures CallsFine(code[..|code| - 1], rest) && Recorded(code[..|code| - 1], rest)
    ensures calls == rest + CallAt(code, |code| - 1)
  {
    var n := |code| - 1;
    if code[n].CallSnippet? {
      LastIs(code, calls);
      var k := |calls| - 1;
      RestCalls(code, calls, k);
      hide CallsFine;
      hide Recorded;
      rest := calls[..k];
      assert calls == rest + [calls[k]];
    } else {
      RestCalls(code, calls, |calls|);
      hide CallsFine;
      hide Recorded;
      rest := calls[..|calls|];
      assert rest == calls && calls + [] == calls;
    }
  }

  lemma LastIs(code: seq<SymOp>, calls: seq<SnippetCall>)
    requires CallsFine(code, calls) && Recorded(code, calls) && code != [] && code[|code| - 1].CallSnippet?
    ensures calls != [] && calls[|calls| - 1] == SnippetCall(|code| - 1, code[|code| - 1].snippet)
  {
    var n := |code| - 1;
    assert SnippetCall(n, code[n].snippet) in calls;
    var j :| 0 <= j < |calls| && calls[j] == SnippetCall(n, code[n].snippet);
    if j < |calls| - 1 {
      assert calls[j].loc < calls[|calls| - 1].loc < |code|;
    }
  }

  lemma RestCalls(code: seq<SymOp>, calls: seq<SnippetCall>, k: nat)
    requires CallsFine(code, calls) && Recorded(code, calls) && code != [] && k <= |calls|
    requires k < |calls| ==> k == |calls| - 1 && calls[k].loc == |code| - 1
    requires k == |calls| ==> !code[|code| - 1].CallSnippet?
    ensures CallsFine(code[..|code| - 1], calls[..k]) && Recorded(code[..|code| - 1], calls[..k])
  {
    var n, rest := |code| - 1, calls[..k];
    forall j | 0 <= j < k ensures rest[j].loc < n && code[..n][rest[j].loc] == CallSnippet(rest[j].snippet) {
      assert rest[j] == calls[j];
      assert k < |calls| ==> calls[j].loc < calls[k].loc;
    }
    forall i | 0 <= i < n && code[..n][i].CallSnippet? ensures SnippetCall(i, code[..n][i].snippet) in rest {
      assert code[..n][i] == code[i];
      assert SnippetCall(i, code[i].snippet) in calls;
      var j :| 0 <= j < |calls| && calls[j] == SnippetCall(i, code[i].snippet);
      assert rest[j] == calls[j];
    }
  }

  lemma CallsRecorded(instr: seq<O.Opcode>, sym: seq<SymOp>, calls: seq<SnippetCall>)
    requires Represents(instr, sym, [], [], calls)
    ensures calls == CallsOf(sym)
  {
    RepresentsRecords(instr, sym, [], [], calls);
    hide Represents;
    CallsDetermined(sym, calls);
  }

  /** Appended code adds at most one call for every opcode, and none for a concrete first one. */
  lemma {:induction false} CallsAdded(code: seq<SymOp>, more: seq<SymOp>)
    ensures |CallsOf(code + more)| + (if more != [] && more[0].Op? then 1 else 0) <= |CallsOf(code)| + |more|
    decreases |more|
  {
    if more == [] {
      assert code + more == code;
    } else {
      var n := |more| - 1;
      assert (code + more)[..|code| + n] == code + more[..n];
      CallsAdded(code, more[..n]);
    }
  }

  /** Every function starts with an opcode that calls nothing, so there are at least as many opcodes as functions and
      snippet calls together. */
  lemma {:induction false} Counted(units: seq<Unit>, pieces: seq<Piece>)
    requires Pieces(units) == Ok(pieces) && forall k :: 0 <= k < |units| ==> ValidFunction(units[k].definition)
    ensures |pieces| == |units| && |units| + |CallsOf(EndOf(pieces))| <= |EndOf(pieces)|
    ensures Finished(EndOf(pieces))
    decreases |units|
  {
    hide ValidFunction;
    hide TranslateFunction;
    if units != [] {
      var n := |units| - 1;
      var before := Pieces(units[..n]).value;
      Counted(units[..n], before);
      var u, code, sym := units[n], EndOf(before), EndOf(pieces);
      var t := TranslateFunction(u.costs, u.definition, code).value;
      StartsConcrete(u, code, t);
      assert sym == SettledSym(t);
      hide Pieces;
      hide EndOf;
      hide CallsOf;
      CallsAdded(code, sym[|code|..]);
      assert code + sym[|code|..] == sym;
    }
  }

  lemma StartsConcrete(u: Unit, code: seq<SymOp>, t: Translation)
    requires ValidFunction(u.definition) && Finished(code)
    requires TranslateFunction(u.costs, u.definition, code) == Ok(t) && BuildFailure(u.costs, u.definition, code).None?
    ensures |code| < |t.code| && code <= SettledSym(t) && SettledSym(t)[|code|].Op? && Finished(SettledSym(t))
  {
    EarlierStays(u.costs, u.definition, code);
    HeadStays(u.costs, u.definition, code);
    EndPinsAll(u.costs, u.definition, code);
    hide ValidFunction;
    hide TranslateFunction;
    var sym := SettledSym(t);
    forall i | 0 <= i < |code| ensures sym[i] == code[i] {
      assert t.code[i] == code[i];
    }
    forall i | 0 <= i < |sym| ensures !sym[i].Jump? && !sym[i].ReserveStack? {
      assert FitsAt(t.code, t.labels, i);
    }
  }

  // ----- compiling the functions -----

  /** The first `k` functions have been compiled. */
  ghost predicate Reached(units: seq<Unit>, k: nat, pieces: seq<Piece>, sym: seq<SymOp>, instr: seq<O.Opcode>,
                          offsets: seq<nat>, calls: seq<SnippetCall>) {
    && k <= |units| && |pieces| == k && Pieces(units[..k]) == Ok(pieces) && sym == EndOf(pieces)
    && AllStanding(instr, sym, units, pieces, offsets)
    && Represents(instr, sym, [], [], calls) && Finished(sym) && CallsOnlySnippets(instr, sym)
  }

  lemma NothingReached(units: seq<Unit>)
    ensures Reached(units, 0, [], [], [], [], [])
  {
    assert units[..0] == [];
  }

  /** One more function has been built. */
  lemma ReachedNext(units: seq<Unit>, pieces: seq<Piece>, sym: seq<SymOp>, instr: seq<O.Opcode>, offsets: seq<nat>,
                    calls: seq<SnippetCall>, instr': seq<O.Opcode>, calls': seq<SnippetCall>, p: Piece)
    requires |pieces| < |units| && Reached(units, |pieces|, pieces, sym, instr, offsets, calls)
    requires Built(units[|pieces|], sym, p) && SettledCode(instr', p.final) && instr <= instr'
    requires Represents(instr', Closed(instr', p.final.code), [], [], calls')
    ensures Reached(units, |pieces| + 1, pieces + [p], Closed(instr', p.final.code), instr', offsets + [|instr|],
                    calls')
  {
    hide AllStanding;
    hide CallsOnlySnippets;
    hide Represents;
    hide Pieces;
    hide EndOf;
    hide SettledCode;
    hide Closed;
    var u := units[|pieces|];
    PiecesStep(units, |pieces|, pieces);
    EarlierStays(u.costs, u.definition, sym);
    hide ValidFunction;
    hide TranslateFunction;
    hide BuildFailure;
    SymSize(instr, sym, calls);
    NextPiece(instr, sym, units, pieces, offsets, instr', p);
    NextCalls(instr, sym, u, p, instr');
    ClosedIsSettled(instr', p.final);
    EndIs(pieces, p);
  }

  /** The piece that building the function gives. */
  ghost predicate Built(u: Unit, sym: seq<SymOp>, p: Piece) {
    && ValidFunction(u.definition) && p.earlier == sym && BuildFailure(u.costs, u.definition, sym).None?
    && TranslateFunction(u.costs, u.definition, sym) == Ok(p.final)
  }

  lemma SymSize(instr: seq<O.Opcode>, sym: seq<SymOp>, calls: seq<SnippetCall>)
    requires Represents(instr, sym, [], [], calls)
    ensures |instr| == |sym|
  {
  }

  /** What building the next function asks for, and what its failure means. */
  lemma ReachedGives(units: seq<Unit>, k: nat, pieces: seq<Piece>, sym: seq<SymOp>, instr: seq<O.Opcode>,
                     offsets: seq<nat>, calls: seq<SnippetCall>)
    requires Reached(units, k, pieces, sym, instr, offsets, calls) && k < |units|
    ensures Represents(instr, sym, [], [], calls) && Finished(sym) && |pieces| == k
    ensures var failure := BuildFailure(units[k].costs, units[k].definition, sym);
            && (failure.Some? ==> Pieces(units) == Err(failure.value))
            && (failure.None? ==> TranslateFunction(units[k].costs, units[k].definition, sym).Ok?)
  {
    PiecesStep(units, k, pieces);
    hide Represents;
    hide AllStanding;
    hide Pieces;
    hide TranslateFunction;
    hide BuildFailure;
    hide EndOf;
  }

  /** Compiles every function behind the ones before it, up to the first that fails. */
  method CompileFunctions(l: ModuleLinker, units: seq<Unit>)
    returns (r: O.Option<Failure>, ghost pieces: seq<Piece>, ghost sym: seq<SymOp>)
    requires l.Valid() && l.instructionSet.instr == [] && l.funcOffsets == [] && l.snippetCalls == []
    requires forall k :: 0 <= k < |units| ==> ValidFunction(units[k].definition)
    modifies l, l.instructionSet
    ensures l.Valid() && l.elements == old(l.elements)
    ensures match Pieces(units)
            case Err(e) => r == O.Some(e) && e != Panic
            case Ok(ps) => r == O.None && pieces == ps && sym == EndOf(pieces) && l.snippetCalls == CallsOf(sym)
    ensures r.None? ==> |pieces| == |units| && AllStanding(l.instructionSet.instr, sym, units, pieces, l.funcOffsets)
    ensures r.None? ==> Represents(l.instructionSet.instr, sym, [], [], l.snippetCalls)
    ensures r.None? ==> CallsOnlySnippets(l.instructionSet.instr, sym)
  {
    hide Pieces;
    hide EndOf;
    hide CallsOf;
    hide ValidFunction;
    hide BuildFailure;
    hide Reached;
    hide Represents;
    hide TranslateFunction;
    hide Settled;
    pieces, sym := [], [];
    NothingReached(units);
    for k := 0 to |units|
      invariant l.Valid() && l.elements == old(l.elements) && |pieces| == k
      invariant Reached(units, k, pieces, sym, l.instructionSet.instr, l.funcOffsets, l.snippetCalls)
    {
      ghost var instr, offsets, before := l.instructionSet.instr, l.funcOffsets, l.snippetCalls;
      ReachedGives(units, k, pieces, sym, instr, offsets, before);
      var u := units[k];
      var _ := l.NextFunc();
      l.funcOffsets := l.funcOffsets + [|l.instructionSet.instr|];
      var calls;
      r, calls := BuildFunction(u.costs, u.definition, l.instructionSet, l.snippetCalls, sym);
      if r.Some? {
        return;
      }
      l.snippetCalls := calls;
      ghost var p := Piece(sym, TranslateFunction(u.costs, u.definition, sym).value);
      ReachedNext(units, pieces, sym, instr, offsets, before, l.instructionSet.instr, calls, p);
      pieces := pieces + [p];
      sym := Closed(l.instructionSet.instr, p.final.code);
    }
    AllReached(units, pieces, sym, l.instructionSet.instr, l.funcOffsets, l.snippetCalls);
    r := O.None;
  }

  lemma AllReached(units: seq<Unit>, pieces: seq<Piece>, sym: seq<SymOp>, instr: seq<O.Opcode>, offsets: seq<nat>,
                   calls: seq<SnippetCall>)
    requires Reached(units, |units|, pieces, sym, instr, offsets, calls)
    ensures |pieces| == |units| && Pieces(units) == Ok(pieces) && sym == EndOf(pieces) && calls == CallsOf(sym)
    ensures AllStanding(instr, sym, units, pieces, offsets)
    ensures Represents(instr, sym, [], [], calls) && CallsOnlySnippets(instr, sym)
  {
    assert units[..|units|] == units;
    CallsRecorded(instr, sym, calls);
    hide Pieces;
    hide CallsOf;
  }

  lemma EndIs(pieces: seq<Piece>, p: Piece)
    ensures EndOf(pieces + [p]) == SettledSym(p.final)
  {
  }

  // ----- linking -----

  lemma PendingCalls(instr: seq<O.Opcode>, sym: seq<SymOp>, calls: seq<SnippetCall>)
    requires Represents(instr, sym, [], [], calls)
    ensures CallsPending(instr, calls)
  {
    forall j | 0 <= j < |calls| ensures calls[j].loc < |instr| && instr[calls[j].loc] == O.CallInternal(UNRESOLVED) {
      assert StandsAt(instr, sym, calls[j].loc, 0, [], [], calls);
    }
  }

  /** Where the emitted snippets start in the finished module. */
  function Addresses(emitted: map<Snippet, nat>, offsets: seq<nat>, base: nat): (r: map<Snippet, Word>)
    requires forall sn :: sn in emitted ==> emitted[sn] < |offsets| && base + offsets[emitted[sn]] < B32
    ensures r.Keys == emitted.Keys
  {
    map sn | sn in emitted :: (base + offsets[emitted[sn]]) as Word
  }

  ghost predicate Sized(now: Image, base: nat) { base + |now.instr| < B32 }

  lemma AddressesFit(before: Image, now: Image, emitted: map<Snippet, nat>, base: nat)
    requires Emitted(before, now, emitted) && Sized(now, base)
    ensures forall sn :: sn in emitted ==> emitted[sn] < |now.offsets| && base + now.offsets[emitted[sn]] < B32
  {
    hide Images.SnippetBody;
    forall sn | sn in emitted ensures emitted[sn] < |now.offsets| && base + now.offsets[emitted[sn]] < B32 {
      assert EmittedAt(before, now, emitted, sn);
    }
  }

  /** Everything known about a module whose snippets are emitted and whose callees are resolved. */
  ghost predicate Finalized(sym: seq<SymOp>, calls: seq<SnippetCall>, before: Image, now: Image,
                            emitted: map<Snippet, nat>, entry: seq<O.Opcode>, code: seq<O.Opcode>) {
    && Represents(before.instr, sym, [], [], calls) && CallsOnlySnippets(before.instr, sym)
    && AfterCalls(before, now, calls, |calls|, emitted)
    && Sized(now, |entry|) && AllNamed(entry + now.instr, |now.offsets|)
    && Relocates(entry + now.instr, code, now.offsets, |entry|)
  }

  /** A concrete opcode of a function is in the module as it was. */
  lemma ConcreteStays(sym: seq<SymOp>, calls: seq<SnippetCall>, before: Image, now: Image, emitted: map<Snippet, nat>,
                      entry: seq<O.Opcode>, code: seq<O.Opcode>, i: nat)
    requires Finalized(sym, calls, before, now, emitted, entry, code) && i < |sym| && sym[i].Op?
    ensures |entry| + i < |code| && code[|entry| + i] == before.instr[i]
  {
    hide Emitted;
    hide KindsOf;
    assert now.instr[i] == before.instr[i];
    assert (entry + now.instr)[|entry| + i] == now.instr[i];
    assert IsRelocated((entry + now.instr)[|entry| + i], code[|entry| + i], now.offsets, |entry|);
  }

  /** A snippet call goes to its snippet. */
  lemma CallResolved(sym: seq<SymOp>, calls: seq<SnippetCall>, before: Image, now: Image, emitted: map<Snippet, nat>,
                     entry: seq<O.Opcode>, code: seq<O.Opcode>, i: nat)
    requires Finalized(sym, calls, before, now, emitted, entry, code) && i < |sym| && sym[i].CallSnippet?
    ensures sym[i].snippet in emitted && emitted[sym[i].snippet] < |now.offsets|
    ensures |entry| + i < |code| && code[|entry| + i].CallInternal?
    ensures code[|entry| + i].func == |entry| + now.offsets[emitted[sym[i].snippet]]
  {
    hide KindsOf;
    hide Images.SnippetBody;
    assert StandsAt(before.instr, sym, i, 0, [], [], calls);
    var j :| 0 <= j < |calls| && calls[j] == SnippetCall(i, sym[i].snippet);
    assert CallPatched(now.instr, calls[j], emitted);
    assert EmittedAt(before, now, emitted, sym[i].snippet);
    assert (entry + now.instr)[|entry| + i] == now.instr[i];
    assert IsRelocated((entry + now.instr)[|entry| + i], code[|entry| + i], now.offsets, |entry|);
  }

  /** The code of every called snippet stands at its address. */
  lemma SnippetPlaced(sym: seq<SymOp>, calls: seq<SnippetCall>, before: Image, now: Image, emitted: map<Snippet, nat>,
                      entry: seq<O.Opcode>, code: seq<O.Opcode>, sn: Snippet, c: M.Config)
    requires Finalized(sym, calls, before, now, emitted, entry, code) && sn in emitted && c.code == code
    ensures emitted[sn] < |now.offsets| && Bl.Holds(c, |entry| + now.offsets[emitted[sn]], Images.SnippetBody(sn))
  {
    hide KindsOf;
    hide CallsPatched;
    hide Images.SnippetBody;
    assert EmittedAt(before, now, emitted, sn);
    var at, body := now.offsets[emitted[sn]], Images.SnippetBody(sn);
    forall i | 0 <= i < |body| ensures c.code[|entry| + at + i] == body[i] {
      assert now.instr[at..at + |body|][i] == now.instr[at + i];
      assert !NamesFunction(now.instr[at + i]);
      assert (entry + now.instr)[|entry| + at + i] == now.instr[at + i];
      assert IsRelocated((entry + now.instr)[|entry| + at + i], code[|entry| + at + i], now.offsets, |entry|);
    }
  }

  /** Every opcode of a function has become the one its translation resolves to. */
  lemma PieceResolved(sym: seq<SymOp>, calls: seq<SnippetCall>, before: Image, now: Image, emitted: map<Snippet, nat>,
                      entry: seq<O.Opcode>, code: seq<O.Opcode>, p: Piece, i: nat, snippets: map<Snippet, Word>,
                      c: M.Config)
    requires Finalized(sym, calls, before, now, emitted, entry, code) && c.code == code
    requires Standing(before.instr, sym, p) && |p.earlier| <= i < |p.final.code|
    requires snippets.Keys == emitted.Keys
    requires forall sn :: sn in emitted ==>
             emitted[sn] < |now.offsets| && snippets[sn] == |entry| + now.offsets[emitted[sn]]
    ensures |entry| + |p.final.code| <= |code| && Images.ResolvedAt(c, |entry|, p.final, i, snippets)
  {
    hide Finalized;
    assert StandingAt(before.instr, sym, p, i);
    CodeSize(sym, calls, before, now, emitted, entry, code);
    if p.final.code[i].CallSnippet? {
      CallResolved(sym, calls, before, now, emitted, entry, code, i);
    } else {
      ConcreteStays(sym, calls, before, now, emitted, entry, code, i);
    }
  }

  lemma CodeSize(sym: seq<SymOp>, calls: seq<SnippetCall>, before: Image, now: Image, emitted: map<Snippet, nat>,
                 entry: seq<O.Opcode>, code: seq<O.Opcode>)
    requires Finalized(sym, calls, before, now, emitted, entry, code)
    ensures |entry| + |sym| <= |code| && |sym| == |before.instr|
  {
  }

  lemma PieceLinked(sym: seq<SymOp>, calls: seq<SnippetCall>, before: Image, now: Image, emitted: map<Snippet, nat>,
                    entry: seq<O.Opcode>, code: seq<O.Opcode>, p: Piece, snippets: map<Snippet, Word>, c: M.Config)
    requires Finalized(sym, calls, before, now, emitted, entry, code) && c.code == code
    requires Standing(before.instr, sym, p)
    requires snippets.Keys == emitted.Keys
    requires forall sn :: sn in emitted ==>
             emitted[sn] < |now.offsets| && snippets[sn] == |entry| + now.offsets[emitted[sn]]
    ensures Images.Linked(c, |entry|, |p.earlier|, p.final, snippets)
  {
    hide Images.SnippetBody;
    hide Finalized;
    CodeSize(sym, calls, before, now, emitted, entry, code);
    forall i | |p.earlier| <= i < |p.final.code| ensures Images.ResolvedAt(c, |entry|, p.final, i, snippets) {
      PieceResolved(sym, calls, before, now, emitted, entry, code, p, i, snippets, c);
    }
    forall sn | sn in snippets ensures Bl.Holds(c, snippets[sn], Images.SnippetBody(sn)) {
      SnippetPlaced(sym, calls, before, now, emitted, entry, code, sn, c);
    }
  }

  lemma NowNamed(sym: seq<SymOp>, calls: seq<SnippetCall>, before: Image, now: Image, emitted: map<Snippet, nat>,
                 entry: seq<O.Opcode>)
    requires Represents(before.instr, sym, [], [], calls) && CallsOnlySnippets(before.instr, sym)
    requires AfterCalls(before, now, calls, |calls|, emitted)
    requires AllNamed(entry, |before.offsets|)
    ensures AllNamed(entry + now.instr, |now.offsets|)
  {
    hide KindsOf;
    hide Images.SnippetBody;
    var all := entry + now.instr;
    forall i | 0 <= i < |all| ensures Callee(all[i]) <= |now.offsets| {
      if i < |entry| {
        assert all[i] == entry[i];
      } else {
        NamedAt(sym, calls, before, now, emitted, i - |entry|);
      }
    }
  }

  lemma NamedAt(sym: seq<SymOp>, calls: seq<SnippetCall>, before: Image, now: Image, emitted: map<Snippet, nat>, i: nat)
    requires Represents(before.instr, sym, [], [], calls) && CallsOnlySnippets(before.instr, sym)
    requires AfterCalls(before, now, calls, |calls|, emitted) && i < |now.instr|
    ensures Callee(now.instr[i]) <= |now.offsets|
  {
    hide KindsOf;
    hide Images.SnippetBody;
    if i < |before.instr| && sym[i].CallSnippet? {
      assert StandsAt(before.instr, sym, i, 0, [], [], calls);
      var j :| 0 <= j < |calls| && calls[j] == SnippetCall(i, sym[i].snippet);
      assert CallPatched(now.instr, calls[j], emitted);
      assert EmittedAt(before, now, emitted, sym[i].snippet);
    }
  }

  /** The functions of a compiled module, each linked as its correctness theorem asks for. */
  ghost predicate AllLinked(code: seq<O.Opcode>, entry: nat, units: seq<Unit>, pieces: seq<Piece>,
                            snippets: map<Snippet, Word>) {
    && |pieces| == |units|
    && forall k :: 0 <= k < |units| ==> LinkedPiece(code, entry, units[k], pieces[k], snippets)
  }

  ghost predicate LinkedPiece(code: seq<O.Opcode>, entry: nat, u: Unit, p: Piece, snippets: map<Snippet, Word>) {
    Compiles(u, p) && forall c: M.Config :: c.code == code ==> Images.Linked(c, entry, |p.earlier|, p.final, snippets)
  }

  lemma AllPiecesLinked(units: seq<Unit>, pieces: seq<Piece>, sym: seq<SymOp>, calls: seq<SnippetCall>, before: Image,
                        now: Image, emitted: map<Snippet, nat>, entry: seq<O.Opcode>, code: seq<O.Opcode>,
                        snippets: map<Snippet, Word>)
    requires AllStanding(before.instr, sym, units, pieces, before.offsets) && |pieces| == |units|
    requires Finalized(sym, calls, before, now, emitted, entry, code) && snippets.Keys == emitted.Keys
    requires forall sn :: sn in emitted ==>
             emitted[sn] < |now.offsets| && snippets[sn] == |entry| + now.offsets[emitted[sn]]
    ensures AllLinked(code, |entry|, units, pieces, snippets)
  {
    hide Finalized;
    hide Images.Linked;
    hide Standing;
    hide Compiles;
    forall k | 0 <= k < |units| ensures LinkedPiece(code, |entry|, units[k], pieces[k], snippets) {
      assert PieceStands(before.instr, sym, units, pieces, before.offsets, k);
      forall c: M.Config | c.code == code ensures Images.Linked(c, |entry|, |pieces[k].earlier|, pieces[k].final,
                                                                snippets) {
        PieceLinked(sym, calls, before, now, emitted, entry, code, pieces[k], snippets, c);
      }
    }
  }

  lemma OffsetsFit(units: seq<Unit>, pieces: seq<Piece>, sym: seq<SymOp>, before: Image, now: Image,
                   emitted: map<Snippet, nat>, calls: seq<SnippetCall>)
    requires AllStanding(before.instr, sym, units, pieces, before.offsets)
    requires AfterCalls(before, now, calls, |calls|, emitted)
    ensures OffsetsInside(now)
  {
    hide KindsOf;
    hide Images.SnippetBody;
    hide Compiles;
    forall k | 0 <= k < |now.offsets| ensures now.offsets[k] <= |now.instr| {
      if k < |before.offsets| {
        assert PieceStands(before.instr, sym, units, pieces, before.offsets, k);
        PieceInside(units[k], pieces[k], before.instr, sym);
      }
    }
  }

  /** From `from` on there is nothing but snippets. */
  ghost predicate Routined(code: seq<O.Opcode>, from: nat, snippets: map<Snippet, Word>) {
    forall p: nat :: from <= p < |code| ==> InRoutines(snippets, p)
  }

  ghost predicate InRoutines(snippets: map<Snippet, Word>, p: nat) {
    exists sn :: sn in snippets && RoutineAt(snippets, sn, p)
  }

  ghost predicate RoutineAt(snippets: map<Snippet, Word>, sn: Snippet, p: nat)
    requires sn in snippets
  {
    snippets[sn] <= p < snippets[sn] + |Images.SnippetBody(sn)|
  }

  lemma SnippetsCover(before: Image, now: Image, calls: seq<SnippetCall>, emitted: map<Snippet, nat>, base: nat,
                      code: seq<O.Opcode>, snippets: map<Snippet, Word>)
    requires AfterCalls(before, now, calls, |calls|, emitted) && snippets.Keys == emitted.Keys
    requires |code| == base + |now.instr|
    requires forall sn :: sn in emitted ==>
             emitted[sn] < |now.offsets| && snippets[sn] == base + now.offsets[emitted[sn]]
    ensures Routined(code, base + |before.instr|, snippets)
  {
    hide Images.SnippetBody;
    hide KindsOf;
    hide SnippetRoom;
    hide Emitted;
    hide CallsPatched;
    forall p: nat | base + |before.instr| <= p < |code| ensures InRoutines(snippets, p) {
      assert InSome(now, emitted, p - base);
      var sn :| sn in emitted && InRoutine(now, emitted, sn, p - base);
      assert RoutineAt(snippets, sn, p);
    }
  }

  /** The functions come first among the offsets. */
  lemma FunctionsCounted(units: seq<Unit>, pieces: seq<Piece>, sym: seq<SymOp>, before: Image, now: Image,
                         emitted: map<Snippet, nat>, calls: seq<SnippetCall>)
    requires AllStanding(before.instr, sym, units, pieces, before.offsets)
    requires AfterCalls(before, now, calls, |calls|, emitted)
    requires |pieces| == |units|
    ensures |before.offsets| == |units| <= |now.offsets|
    ensures forall k :: 0 <= k < |units| ==> now.offsets[k] == |pieces[k].earlier|
  {
    hide Images.SnippetBody;
    hide Standing;
    hide Compiles;
    forall k | 0 <= k < |units| ensures now.offsets[k] == |pieces[k].earlier| {
      assert PieceStands(before.instr, sym, units, pieces, before.offsets, k);
    }
  }

  lemma PieceInside(u: Unit, p: Piece, instr: seq<O.Opcode>, sym: seq<SymOp>)
    requires Compiles(u, p) && Standing(instr, sym, p)
    ensures |p.earlier| <= |instr|
  {
  }

  /** The entrypoint calls functions by their addresses. */
  ghost predicate EntryRelocated(entry: seq<O.Opcode>, code: seq<O.Opcode>, offsets: seq<nat>) {
    && |entry| <= |code|
    && forall i :: 0 <= i < |entry| ==>
       Callee(entry[i]) <= |offsets|
       && IsRelocated(entry[i], code[i], offsets, |entry|)
  }

  lemma EntryStays(entry: seq<O.Opcode>, instr: seq<O.Opcode>, code: seq<O.Opcode>, offsets: seq<nat>)
    requires AllNamed(entry + instr, |offsets|) && Relocates(entry + instr, code, offsets, |entry|)
    ensures EntryRelocated(entry, code, offsets)
  {
    var all := entry + instr;
    forall i | 0 <= i < |entry| ensures Callee(entry[i]) <= |offsets|
        && IsRelocated(entry[i], code[i], offsets, |entry|) {
      assert all[i] == entry[i];
      assert IsRelocated(all[i], code[i], offsets, |entry|);
    }
  }

  /** The size of the module without its entrypoint: the functions and the snippets they call. */
  function Total(sym: seq<SymOp>): nat { |sym| + SnippetRoom(CallsOf(sym)) }

  lemma TotalIs(before: Image, now: Image, sym: seq<SymOp>, calls: seq<SnippetCall>, emitted: map<Snippet, nat>)
    requires AfterCalls(before, now, calls, |calls|, emitted) && calls == CallsOf(sym) && |sym| == |before.instr|
    ensures |now.instr| == Total(sym)
  {
    hide Images.SnippetBody;
    hide SnippetRoom;
    hide CallsOf;
    hide KindsOf;
    assert calls[..|calls|] == calls;
  }

  /** Emits the snippets and resolves all callees of compiled functions; a module of 2^32 opcodes or more is
      refused, and nothing else. */
  method Link(l: ModuleLinker, ghost units: seq<Unit>, ghost pieces: seq<Piece>, ghost sym: seq<SymOp>)
    returns (r: O.Option<Failure>, ghost snippets: map<Snippet, Word>)
    requires l.Valid() && |pieces| == |units| && AllStanding(l.instructionSet.instr, sym, units, pieces, l.funcOffsets)
    requires Represents(l.instructionSet.instr, sym, [], [], l.snippetCalls)
    requires CallsOnlySnippets(l.instructionSet.instr, sym)
    requires l.snippetCalls == CallsOf(sym) && |units| + |CallsOf(sym)| <= |sym|
    requires AllNamed(l.entrypoint.instr, |l.funcOffsets|)
    requires forall i :: 0 <= i < |l.elements| ==> l.elements[i] <= |l.funcOffsets|
    modifies l, l.instructionSet, l.entrypoint
    ensures r == if |old(l.entrypoint.instr)| + Total(sym) < B32 then O.None else O.Some(TooLarge)
    ensures r.None? ==> |l.entrypoint.instr| == |old(l.entrypoint.instr)| + Total(sym)
    ensures r.None? ==> AllLinked(l.entrypoint.instr, |old(l.entrypoint.instr)|, units, pieces, snippets)
    ensures r.None? ==> Routined(l.entrypoint.instr, |old(l.entrypoint.instr)| + |sym|, snippets)
    ensures r.None? ==> |units| <= |l.funcOffsets| && forall k :: 0 <= k < |units| ==>
            l.funcOffsets[k] == |pieces[k].earlier|
    ensures r.None? ==> EntryRelocated(old(l.entrypoint.instr), l.entrypoint.instr, l.funcOffsets)
    ensures r.None? ==>
            |old(l.funcOffsets)| <= |l.funcOffsets|
            && ElementsRelocated(old(l.elements), l.elements, l.funcOffsets, |old(l.entrypoint.instr)|)
  {
    hide SnippetRoom;
    hide AfterCalls;
    hide OffsetsInside;
    hide AllNamed;
    hide Relocates;
    hide CallsPending;
    hide EntryRelocated;
    hide AllLinked;
    hide Routined;
    ghost var head, before := l.entrypoint.instr, l.View();
    assert |l.funcOffsets| == |units|;
    hide AllStanding;
    hide CallsOnlySnippets;
    snippets := map[];
    PendingCalls(l.instructionSet.instr, sym, l.snippetCalls);
    assert |sym| == |before.instr|;
    hide Represents;
    hide CallsOf;
    if |l.funcOffsets| + |l.snippetCalls| >= B32 {
      return O.Some(TooLarge), snippets;
    }
    var emitted := l.EmitSnippets();
    TotalIs(before, l.View(), sym, l.snippetCalls, emitted);
    hide Total;
    if |l.entrypoint.instr| + |l.instructionSet.instr| >= B32 {
      return O.Some(TooLarge), snippets;
    }
    ghost var now := l.View();
    FunctionsCounted(units, pieces, sym, before, now, emitted, l.snippetCalls);
    OffsetsFit(units, pieces, sym, before, now, emitted, l.snippetCalls);
    NowNamed(sym, l.snippetCalls, before, now, emitted, head);
    snippets := PiecesReady(units, pieces, sym, before, now, emitted, head, l.snippetCalls);
    l.Finalize();
    EntryStays(head, now.instr, l.entrypoint.instr, l.funcOffsets);
    AllPiecesLinked(units, pieces, sym, l.snippetCalls, before, now, emitted, head, l.entrypoint.instr, snippets);
    SnippetsCover(before, now, l.snippetCalls, emitted, |head|, l.entrypoint.instr, snippets);
    r := O.None;
  }

  lemma PiecesReady(units: seq<Unit>, pieces: seq<Piece>, sym: seq<SymOp>, before: Image, now: Image,
                    emitted: map<Snippet, nat>, head: seq<O.Opcode>, calls: seq<SnippetCall>)
    returns (snippets: map<Snippet, Word>)
    requires AfterCalls(before, now, calls, |calls|, emitted) && Sized(now, |head|)
    ensures snippets.Keys == emitted.Keys
    ensures forall sn :: sn in emitted ==>
            emitted[sn] < |now.offsets| && snippets[sn] == |head| + now.offsets[emitted[sn]]
  {
    hide KindsOf;
    hide CallsPatched;
    AddressesFit(before, now, emitted, |head|);
    snippets := Addresses(emitted, now.offsets, |head|);
  }

  /** What compiling a module comes to: the first failure of a function, or too large a module. */
  ghost function CompileFailure(units: seq<Unit>, entry: nat): O.Option<Failure> {
    match Pieces(units)
    case Err(e) => O.Some(e)
    case Ok(pieces) => if entry + Total(EndOf(pieces)) < B32 then O.None else O.Some(TooLarge)
  }

  /** Compiles a module: its functions, the snippets they call, and the entrypoint in front of them. It fails exactly
      as the first function that cannot be compiled does, or if the module has 2^32 opcodes or more, and never
      panics. The result is what the correctness theorem of every function asks for; the callees named by the
      entrypoint and the elements are the addresses of the functions. */
  method Compile(units: seq<Unit>, entry: B.InstructionSet, elements: seq<Word>)
    returns (r: O.Option<Failure>, elements': seq<Word>, ghost pieces: seq<Piece>, ghost snippets: map<Snippet, Word>,
             ghost offsets: seq<nat>)
    requires forall k :: 0 <= k < |units| ==> ValidFunction(units[k].definition)
    requires AllNamed(entry.instr, |units|) && forall i :: 0 <= i < |elements| ==> elements[i] <= |units|
    modifies entry
    ensures r == CompileFailure(units, |old(entry.instr)|) && r != O.Some(Panic)
    ensures r.None? ==> Pieces(units) == Ok(pieces) && |entry.instr| == |old(entry.instr)| + Total(EndOf(pieces)) < B32
    ensures r.None? ==> AllLinked(entry.instr, |old(entry.instr)|, units, pieces, snippets)
    ensures r.None? ==> Routined(entry.instr, |old(entry.instr)| + |EndOf(pieces)|, snippets)
    ensures r.None? ==> |units| <= |offsets| && forall k :: 0 <= k < |units| ==> offsets[k] == |pieces[k].earlier|
    ensures r.None? ==> EntryRelocated(old(entry.instr), entry.instr, offsets)
    ensures r.None? ==> ElementsRelocated(elements, elements', offsets, |old(entry.instr)|)
  {
    hide AllLinked;
    hide Routined;
    hide EntryRelocated;
    hide Pieces;
    hide EndOf;
    hide CallsOf;
    hide Total;
    hide ValidFunction;
    snippets, offsets, elements' := map[], [], elements;
    var l := new ModuleLinker(entry, elements);
    ghost var sym;
    r, pieces, sym := CompileFunctions(l, units);
    if r.Some? {
      return;
    }
    assert |l.funcOffsets| == |units|;
    hide AllStanding;
    hide Represents;
    hide CallsOnlySnippets;
    Counted(units, pieces);
    r, snippets := Link(l, units, pieces, sym);
    offsets, elements' := l.funcOffsets, l.elements;
  }
}
