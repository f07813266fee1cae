/** The correctness of compiled functions, from entry to return. */
module Calls {
  import opened Words
  import O = Opcodes
  import M = Machine
  import B = Blocks
  import DK = DropKeeps
  import Store
  import opened Source
  import opened Validation
  import opened Layout
  import opened Translator
  import opened Invariants
  import opened Progress
  import opened Branches
  import opened Locals
  import opened Images
  import opened Simulation
  import opened BranchRuns
  import opened BodyRuns
  import opened Functions

  function Zeros(ts: seq<ValType>): (vs: seq<Value>) {
    seq(|ts|, i requires 0 <= i < |ts| => Val(ts[i], 0))
  }

  /** Running a function on its arguments: leaving the body by its end, by a branch to the outermost
      label or by `return` all end the call. */
  function Invoke(base: nat, n: nat, f: Function, args: seq<Value>): Run {
    var r := Exec(base, n, f.body, args + Zeros(LocalTypes(f.locals)), []);
    match r.result
    case Normal(_, st) => Run(Returned(st), r.cost)
    case Branching(_, _, st) => Run(Returned(st), r.cost)
    case _ => r
  }

  // ----- zeroed locals -----

  function ZeroWords(n: nat): seq<Word> { seq(n, _ => 0) }

  lemma {:induction false} FlatZeros(ts: seq<ValType>)
    ensures Flat(Zeros(ts)) == ZeroWords(WordsOf(ts)) && TypesOf(Zeros(ts)) == ts
    decreases |ts|
  {
    if ts != [] {
      var n := |ts| - 1;
      FlatZeros(ts[..n]);
      assert Zeros(ts)[..n] == Zeros(ts[..n]);
      assert ZeroWords(WordsOf(ts)) == ZeroWords(WordsOf(ts[..n])) + ZeroWords(Width(ts[n]));
    }
  }

  lemma ZerosAppend(m: nat, n: nat)
    ensures ZeroWords(m + n) == ZeroWords(m) + ZeroWords(n)
  {
  }

  lemma MoveZeros(ops: seq<O.Opcode>, pc: nat, w: seq<Word>, room: nat, k: Word)
    requires pc < |ops| && ops[pc] == O.BulkConst(k) && |w| + k <= room
    ensures B.Move(ops, pc, w, room) == B.To(pc + 1, w + ZeroWords(k))
  {
    assert w[..|w|] == w;
    assert M.Straight(ops[pc], w) == M.Ok(w + ZeroWords(k));
  }

  lemma {:induction false} LocalsRun(ops: seq<O.Opcode>, pc: nat, locals: seq<(nat, ValType)>, w: seq<Word>, room: nat)
    requires SmallGroups(locals) && pc <= |ops| && ops[pc..] == LocalsCode(locals)
    requires |w| + WordsOf(LocalTypes(locals)) <= room
    ensures B.RunBlock(ops, pc, w, room, |locals|) == B.Leaves(w + ZeroWords(WordsOf(LocalTypes(locals))))
    decreases |locals|
  {
    hide B.Move;
    hide WordsOf;
    if locals == [] {
      WordsNone();
      assert w + ZeroWords(0) == w;
    } else {
      var k, rest := GroupWords(locals[0]), locals[1..];
      RepeatWords(locals[0].1, locals[0].0);
      WordsAppend(Repeat(locals[0].1, locals[0].0), LocalTypes(rest));
      assert ops[pc] == LocalsCode(locals)[0];
      assert ops[pc + 1..] == ops[pc..][1..] == LocalsCode(rest);
      MoveZeros(ops, pc, w, room, k);
      LocalsRun(ops, pc + 1, rest, w + ZeroWords(k), room);
      ZerosAppend(k, WordsOf(LocalTypes(rest)));
      Associate(w, ZeroWords(k), ZeroWords(WordsOf(LocalTypes(rest))));
    }
  }

  // ----- the prologue -----

  /** A call about to enter the function: its arguments are on top of the caller's words. */
  ghost predicate Entering(k: World, f: Function, args: seq<Value>, m: M.State) {
    && m.pc == k.off + k.from
    && m.stack == k.caller + Flat(args) && TypesOf(args) == f.params
    && (m.signature.None? || m.signature == O.Some(f.signature))
    && m.calls == k.calls && m.fuel <= Store.U64_MAX
  }

  /** The translation of the function is the finished one of this activation. */
  ghost predicate Compiled(k: World, c: Costs, f: Function, code: seq<SymOp>) {
    && ValidFunction(f) && Finished(code) && TranslateFunction(c, f, code) == Ok(k.final)
    && k.from == |code| && k.results == f.results
  }

  /** The parts of a translated function. */
  lemma Parts(k: World, c: Costs, f: Function, code: seq<SymOp>) returns (t: Translation, dk: DK.DropKeep)
    requires Compiled(k, c, f, code)
    ensures Affordable(c) && SmallGroups(f.locals)
    ensures Translate(Opened(c, f, code), f.body) == Ok(t) && BodyDone(f, t) && Closes(t, dk, k.final)
    ensures Good(Opened(c, f, code), t, AllLocals(f), Check(f.body, FunctionCtx(f), []))
    ensures t.reachable ==> TargetOK(t, FunctionCtx(f), 0, Target(O.None, dk))
    ensures Leads(k, t) && Leads(k, Opened(c, f, code))
  {
    hide WordsOf;
    hide Translate;
    hide VisitEnd;
    hide Check;
    PrologueIs(c, f, code);
    hide Prologue;
    var s := Opened(c, f, code);
    t := Translate(s, f.body).value;
    BodyIsDone(c, f, code, t);
    FunctionEnds(f, t);
    dk := if t.reachable then DropKeepReturn(t).value else DK.DropKeep(0, 0);
    if t.reachable {
      ReturnFits(c, f, code, t);
    }
    hide DropKeepReturn;
    hide BodyDone;
    hide Closes;
    ClosesExtends(t, dk, k.final);
    ExtendsTransitive(s, t, k.final);
    LeadsBoth(k, c, f, code, t);
  }

  lemma LeadsBoth(k: World, c: Costs, f: Function, code: seq<SymOp>, t: Translation)
    requires Affordable(c) && SmallGroups(f.locals) && k.from == |code|
    requires Extends(Opened(c, f, code), t) && Extends(t, k.final) && Extends(Opened(c, f, code), k.final)
    ensures Leads(k, t) && Leads(k, Opened(c, f, code))
  {
    hide WordsOf;
  }

  /** The opcodes of the prologue in the finished code. */
  lemma PrologueEmitted(k: World, c: Costs, f: Function, code: seq<SymOp>)
    requires Affordable(c) && SmallGroups(f.locals) && k.from == |code| && Leads(k, Opened(c, f, code))
    ensures var h := if c.metered then 2 else 1;
            && Emitted(k, |code|, [Op(O.SignatureCheck(f.signature))])
            && (c.metered ==> EntryCost(c) + Ahead(k.final, Opened(c, f, code)) < B32)
            && (c.metered ==> Emitted(k, |code| + 1,
                                      [Op(O.ConsumeFuel(EntryCost(c) + Ahead(k.final, Opened(c, f, code))))]))
            && (!c.metered ==> Ahead(k.final, Opened(c, f, code)) == 0)
            && Emitted(k, |code| + h, [ReserveStack])
            && Emitted(k, |code| + h + 1, Ops(LocalsCode(f.locals)))
            && |Opened(c, f, code).code| == |code| + h + 1 + |LocalsCode(f.locals)|
            && k.final.metered == c.metered
  {
    hide WordsOf;
    var s, h := Opened(c, f, code), if c.metered then 2 else 1;
    var locals := Ops(LocalsCode(f.locals));
    assert s.code == code + Head(c, f) + locals;
    assert s.code[|code|..|code| + 1] == [Op(O.SignatureCheck(f.signature))];
    EmittedBetween(k, |code|, [Op(O.SignatureCheck(f.signature))], s);
    assert s.code[|code| + h..|code| + h + 1] == [ReserveStack];
    EmittedBetween(k, |code| + h, [ReserveStack], s);
    assert s.code[|code| + h + 1..|code| + h + 1 + |locals|] == locals;
    EmittedBetween(k, |code| + h + 1, locals, s);
    if c.metered {
      assert Grown(true, s.code[|code| + 1], k.final.code[|code| + 1]);
    }
  }

  /** The machine behind the signature check and the charge. */
  function Admitted(k: World, c: Costs, paid: nat, m: M.State): M.State {
    m.(pc := m.pc + (if c.metered then 2 else 1), signature := O.None,
       fuel := Store.Saturate(m.fuel + Paid(k, paid)))
  }

  lemma AdmissionRuns(k: World, c: Costs, f: Function, code: seq<SymOp>, args: seq<Value>, m: M.State)
    requires Fine(k) && Entering(k, f, args, m) && Affordable(c) && SmallGroups(f.locals) && k.from == |code|
    requires Leads(k, Opened(c, f, code))
    ensures M.Reaches(k.c, m, M.Next(Admitted(k, c, EntryCost(c) + Ahead(k.final, Opened(c, f, code)), m)))
  {
    hide WordsOf;
    hide Flat;
    hide Opened;
    PrologueEmitted(k, c, f, code);
    hide Leads;
    var m1 := m.(pc := m.pc + 1, signature := O.None);
    OpRuns(k, m, |code|, O.SignatureCheck(f.signature));
    M.ReachesStep(k.c, m);
    assert M.Reaches(k.c, m, M.Next(m1));
    var paid := EntryCost(c) + Ahead(k.final, Opened(c, f, code));
    if c.metered {
      OpRuns(k, m1, |code| + 1, O.ConsumeFuel(paid));
      hide Fine;
      hide Emitted;
      hide Ahead;
      M.ReachesStep(k.c, m1);
      hide M.Reaches;
      var m2 := m1.(pc := m1.pc + 1, fuel := Store.Saturate(m.fuel + paid));
      assert M.Step(k.c, m1) == M.Next(m2) by { NoLimit(k); }
      M.ReachesThen(k.c, m, m1, M.Next(m2));
    }
  }

  lemma NoLimit(k: World)
    requires k.c.limit.None?
    ensures forall fuel: nat, x: nat :: Store.TryConsume(fuel, k.c.limit, x) == O.Some(Store.Saturate(fuel + x))
  {
  }

  /** Reserving the stack and zeroing the locals. */
  lemma ReservationRuns(k: World, c: Costs, f: Function, code: seq<SymOp>, args: seq<Value>, m: M.State)
    returns (n: M.State)
    requires Fine(k) && Affordable(c) && SmallGroups(f.locals) && k.from == |code| && Leads(k, Opened(c, f, code))
    requires TypesOf(args) == f.params
    requires m.pc == k.off + |code| + (if c.metered then 2 else 1) && m.stack == k.caller + Flat(args)
    requires m.calls == k.calls
    ensures M.Reaches(k.c, m, M.Next(n))
    ensures n.pc == k.off + |Opened(c, f, code).code| && Ready(k, n) && n.fuel == m.fuel
    ensures n.stack == k.caller + (Flat(args) + ZeroWords(WordsOf(LocalTypes(f.locals))))
  {
    hide WordsOf;
    hide Flat;
    hide Fine;
    hide Emitted;
    hide Ahead;
    hide ZeroWords;
    hide LocalTypes;
    hide M.Reaches;
    hide B.RunBlock;
    hide LocalsCode;
    PrologueEmitted(k, c, f, code);
    OpenedSizes(k, c, f, code);
    hide Opened;
    hide Leads;
    var at := |code| + (if c.metered then 2 else 1);
    var u := ReserveRuns(k, at, m);
    var words := WordsOf(LocalTypes(f.locals));
    LocalsRun(LocalsCode(f.locals), 0, f.locals, Flat(args), |Flat(args)| + words);
    OpsRun(k, u, at + 1, LocalsCode(f.locals), k.caller, Flat(args), |Flat(args)| + words, |f.locals|);
    n := u.(pc := k.off + (at + 1) + |LocalsCode(f.locals)|, stack := k.caller + (Flat(args) + ZeroWords(words)));
    M.ReachesThen(k.c, m, u, M.Next(n));
  }

  lemma OpenedSizes(k: World, c: Costs, f: Function, code: seq<SymOp>)
    requires Affordable(c) && SmallGroups(f.locals) && Leads(k, Opened(c, f, code))
    ensures WordsOf(LocalTypes(f.locals)) <= k.final.maxHeight && k.final.paramWords == WordsOf(f.params)
  {
    hide WordsOf;
  }

  lemma ReserveRuns(k: World, at: nat, m: M.State) returns (u: M.State)
    requires Fine(k) && Emitted(k, at, [ReserveStack]) && m.pc == k.off + at
    requires |m.stack| == |k.caller| + k.final.paramWords
    requires m.calls == k.calls
    ensures M.Reaches(k.c, m, M.Next(u)) && u == m.(pc := m.pc + 1, cap := u.cap) && M.Room(k.c, u) >= Ceiling(k)
  {
    assert k.final.code[at + 0] == [ReserveStack][0];
    assert ResolvedAt(k.c, k.off, k.final, at, k.snippets);
    M.ReachesStep(k.c, m);
    u := M.Step(k.c, m).state;
  }

  /** After the prologue the machine matches the translation in front of the body. */
  lemma PrologueRuns(k: World, c: Costs, f: Function, code: seq<SymOp>, args: seq<Value>, m: M.State)
    returns (n: M.State)
    requires Fine(k) && Entering(k, f, args, m) && Affordable(c) && SmallGroups(f.locals) && k.from == |code|
    requires Leads(k, Opened(c, f, code))
    ensures M.Reaches(k.c, m, M.Next(n))
    ensures Match(k, Opened(c, f, code), n, args + Zeros(LocalTypes(f.locals)), [], [], m.fuel + Paid(k, EntryCost(c)))
  {
    AdmissionRuns(k, c, f, code, args, m);
    PrologueEmitted(k, c, f, code);
    hide Fine;
    hide WordsOf;
    hide Opened;
    hide Leads;
    hide Emitted;
    hide M.Reaches;
    var s := Opened(c, f, code);
    var u := Admitted(k, c, EntryCost(c) + Ahead(k.final, s), m);
    n := ReservationRuns(k, c, f, code, args, u);
    M.ReachesThen(k.c, m, u, M.Next(n));
    InitialWindow(args, LocalTypes(f.locals));
    hide Flat;
    hide Ahead;
  }

  lemma InitialWindow(args: seq<Value>, ts: seq<ValType>)
    ensures Window(args + Zeros(ts), [], []) == Flat(args) + ZeroWords(WordsOf(ts))
  {
    hide WordsOf;
    FlatZeros(ts);
    FlatAppend(args, Zeros(ts));
    FlatNone();
    hide Flat;
    hide TypesOf;
    hide ZeroWords;
    hide Zeros;
    var w := Flat(args + Zeros(ts));
    assert w + [] == w;
  }

  lemma FlatNone()
    ensures Flat([]) == []
  {
  }

  // ----- the body and the end -----

  lemma OpenedView(c: Costs, f: Function, code: seq<SymOp>, args: seq<Value>)
    requires Affordable(c) && SmallGroups(f.locals) && Finished(code) && TypesOf(args) == f.params
    ensures View(Opened(c, f, code), FunctionCtx(f), AllLocals(f), args + Zeros(LocalTypes(f.locals)), [], [])
  {
    hide WordsOf;
    hide Opened;
    OpenedAt(c, f, code);
    hide At;
    FlatZeros(LocalTypes(f.locals));
    TypesOfAppend(args, Zeros(LocalTypes(f.locals)));
    assert TypesOf([]) == [];
  }

  /** A body that completes runs into the code of the final `end`, which returns the results. */
  lemma EndReturns(k: World, f: Function, t: Translation, dk: DK.DropKeep, ls: seq<Value>, st: seq<Value>, m: M.State,
                   fuel: nat)
    returns (n: M.State)
    requires Fine(k) && k.results == f.results && Closes(t, dk, k.final) && t.reachable && k.from <= |t.code|
    requires TargetOK(t, FunctionCtx(f), 0, Target(O.None, dk)) && View(t, FunctionCtx(f), AllLocals(f), ls, [], st)
    requires TypesOf(st) == f.results && |t.frames| == 1
    requires Match(k, t, m, ls, [], st, fuel)
    ensures M.Reaches(k.c, m, M.Next(n)) && AtReturn(k, n, st, fuel)
  {
    hide Fine;
    hide WordsOf;
    hide Window;
    hide DK.Headroom;
    ClosedPaid(k, t, dk);
    var target := Target(O.None, dk);
    assert Emitted(k, |t.code|, Tail(target)) by { TailEmitted(k, t, dk); }
    hide Tail;
    RootTarget(f, TypesOf(st));
    hide Ahead;
    hide TargetOK;
    hide View;
    hide Emitted;
    n := TailLands(k, t, FunctionCtx(f), AllLocals(f), ls, [], st, 0, target, |t.code|, m, fuel);
    hide M.Reaches;
  }

  lemma RootTarget(f: Function, ts: seq<ValType>)
    requires ts == f.results
    ensures Targets(FunctionCtx(f), 0, ts)
  {
  }

  lemma TailEmitted(k: World, t: Translation, dk: DK.DropKeep)
    requires Closes(t, dk, k.final) && t.reachable && k.from <= |t.code|
    ensures Emitted(k, |t.code|, Tail(Target(O.None, dk)))
  {
    hide Tail;
  }

  lemma ClosedPaid(k: World, t: Translation, dk: DK.DropKeep)
    requires Closes(t, dk, k.final)
    ensures Ahead(k.final, t) == 0
  {
  }

  /** What the machine has done when a call is over, or when the source has been given up. */
  ghost predicate Completes(k: World, m: M.State, n: M.State, r: Run, fuel: nat) {
    match r.result
    case Returned(st) => M.Reaches(k.c, m, M.Next(n)) && AtReturn(k, n, st, fuel)
    case Trapped(trap) =>
      M.Reaches(k.c, m, M.Next(n)) && M.Reaches(k.c, n, M.Trapped(trap)) && n.fuel >= Store.Saturate(fuel)
    case Timeout(rounds) => M.Takes(k.c, m, rounds, n) && n.fuel >= Store.Saturate(fuel)
    case _ => false
  }

  lemma BodyCompletes(k: World, c: Costs, f: Function, code: seq<SymOp>, t: Translation, dk: DK.DropKeep, n: nat,
                      args: seq<Value>, m: M.State, m1: M.State, fuel: nat)
    returns (m2: M.State)
    requires Fine(k) && Compiled(k, c, f, code) && Affordable(c) && SmallGroups(f.locals) && TypesOf(args) == f.params
    requires Translate(Opened(c, f, code), f.body) == Ok(t) && BodyDone(f, t) && Closes(t, dk, k.final)
    requires Good(Opened(c, f, code), t, AllLocals(f), Check(f.body, FunctionCtx(f), []))
    requires t.reachable ==> TargetOK(t, FunctionCtx(f), 0, Target(O.None, dk))
    requires Leads(k, t)
    requires var r := Exec(c.base, n, f.body, args + Zeros(LocalTypes(f.locals)), []).result;
             Follows(k, Opened(c, f, code).frames, t, m, m1, [], r, fuel)
    ensures Completes(k, m, m2, Invoke(c.base, n, f, args), fuel)
  {
    hide Fine;
    hide WordsOf;
    hide Leads;
    hide Match;
    hide Closes;
    hide AtReturn;
    hide M.Reaches;
    hide Translate;
    OpenedView(c, f, code, args);
    var ls := args + Zeros(LocalTypes(f.locals));
    FlatZeros(LocalTypes(f.locals));
    TypesOfAppend(args, Zeros(LocalTypes(f.locals)));
    assert TypesOf([]) == [];
    Sound(c.base, n, f.body, FunctionCtx(f), ls, []);
    var r := Exec(c.base, n, f.body, ls, []).result;
    hide Exec;
    m2 := m1;
    match r
    case Normal(ls', st) =>
      assert t.reachable && TypesOf(st) == f.results && |t.frames| == 1 by { NormalEnd(f, t, c, code, r); }
      FinalView(c, f, code, t, ls', st);
      hide View;
      hide Good;
      hide BodyDone;
      hide TargetOK;
      hide Check;
      assert k.from <= |t.code| by { FromBelow(k, t); }
      m2 := EndReturns(k, f, t, dk, ls', st, m1, fuel);
      M.ReachesThen(k.c, m, m1, M.Next(m2));
    case Branching(d, _, st) => assert d == 0;
    case _ =>
  }

  lemma FromBelow(k: World, t: Translation)
    requires Leads(k, t)
    ensures k.from <= |t.code|
  {
  }

  lemma NormalEnd(f: Function, t: Translation, c: Costs, code: seq<SymOp>, r: Source.Result)
    requires Affordable(c) && SmallGroups(f.locals) && ValidFunction(f) && BodyDone(f, t)
    requires Good(Opened(c, f, code), t, AllLocals(f), Check(f.body, FunctionCtx(f), []))
    requires r.Normal? && Fits(FunctionCtx(f), Check(f.body, FunctionCtx(f), []), r)
    ensures t.reachable && TypesOf(r.stack) == f.results && |t.frames| == 1
  {
    hide WF;
    hide WordsOf;
    hide Check;
    hide Extends;
    hide Kept;
  }

  lemma FinalView(c: Costs, f: Function, code: seq<SymOp>, t: Translation, ls: seq<Value>, st: seq<Value>)
    requires Affordable(c) && SmallGroups(f.locals) && Finished(code) && ValidFunction(f)
    requires Translate(Opened(c, f, code), f.body) == Ok(t) && t.reachable
    requires TypesOf(ls) == AllLocals(f) && TypesOf(st) == f.results
    ensures View(t, FunctionCtx(f), AllLocals(f), ls, [], st)
  {
    hide WordsOf;
    hide Translate;
    hide Opened;
    ReturnFits(c, f, code, t);
    hide At;
  }

  /** The correctness theorem of the translator. For every valid function and all arguments, a call in the
      finished code reaches `return` exactly with the caller's words followed by the results of the source
      semantics, charged the entry cost plus the cost of the executed operators; a source trap is a machine
      trap before which at least that much has been charged. */
  lemma FunctionRuns(k: World, c: Costs, f: Function, code: seq<SymOp>, n: nat, args: seq<Value>, m: M.State)
    returns (m2: M.State)
    requires Fine(k) && Compiled(k, c, f, code) && Entering(k, f, args, m)
    ensures var r := Invoke(c.base, n, f, args);
            Completes(k, m, m2, r, m.fuel + (if c.metered then EntryCost(c) + r.cost else 0))
  {
    hide Fine;
    hide WordsOf;
    hide Match;
    hide Follows;
    hide Completes;
    hide M.Reaches;
    hide View;
    hide Leads;
    hide BodyDone;
    hide Closes;
    hide Good;
    hide Check;
    hide Exec;
    hide Invoke;
    hide Zeros;
    hide LocalTypes;
    hide Flat;
    hide Opened;
    hide TranslateFunction;
    hide Entering;
    hide FunctionCtx;
    hide AllLocals;
    var t, dk := Parts(k, c, f, code);
    var s, ls := Opened(c, f, code), args + Zeros(LocalTypes(f.locals));
    BodyFacts(k, c, f, code, args, m);
    hide Compiled;
    var m0 := PrologueRuns(k, c, f, code, args, m);
    var fuel := m.fuel + Paid(k, EntryCost(c));
    var m1 := Runs(k, n, s, t, f.body, FunctionCtx(f), AllLocals(f), ls, [], [], m0, fuel);
    hide Translate;
    var r := Exec(c.base, n, f.body, ls, []);
    Prefixed(k, s, t, m, m0, m1, [], r.result, fuel + Paid(k, r.cost));
    m2 := BodyCompletes(k, c, f, code, t, dk, n, args, m, m1, fuel + Paid(k, r.cost));
    InvokeCost(c.base, n, f, args);
  }

  lemma InvokeCost(base: nat, n: nat, f: Function, args: seq<Value>)
    ensures Invoke(base, n, f, args).cost == Exec(base, n, f.body, args + Zeros(LocalTypes(f.locals)), []).cost
  {
    hide Exec;
  }

  lemma BodyFacts(k: World, c: Costs, f: Function, code: seq<SymOp>, args: seq<Value>, m: M.State)
    requires Compiled(k, c, f, code) && Entering(k, f, args, m)
    requires Affordable(c) && SmallGroups(f.locals) && Leads(k, Opened(c, f, code))
    ensures var s := Opened(c, f, code);
            && View(s, FunctionCtx(f), AllLocals(f), args + Zeros(LocalTypes(f.locals)), [], [])
            && s.frames != [] && s.base == c.base && k.final.metered == c.metered && k.from <= |s.code|
            && Check(f.body, FunctionCtx(f), TypesOf([])) != Bad && k.results == FunctionCtx(f).results
            && TypesOf(args) == f.params
  {
    hide WordsOf;
    hide Check;
    hide TranslateFunction;
    OpenedView(c, f, code, args);
    OpenedBasics(k, c, f, code);
    assert TypesOf([]) == [];
  }

  lemma OpenedBasics(k: World, c: Costs, f: Function, code: seq<SymOp>)
    requires Affordable(c) && SmallGroups(f.locals) && Leads(k, Opened(c, f, code)) && k.from == |code|
    ensures var s := Opened(c, f, code);
            s.frames != [] && s.base == c.base && k.final.metered == c.metered && k.from <= |s.code|
  {
    hide WordsOf;
  }
}
