/** Emitted branches land where the source branch goes, with the operands reshaped. */
module BranchRuns {
  import opened Words
  import O = Opcodes
  import M = Machine
  import B = Blocks
  import DK = DropKeeps
  import Store
  import opened Source
  import opened Validation
  import opened Layout
  import opened Translator
  import opened Invariants
  import opened Frames
  import opened Progress
  import opened Branches
  import opened Locals
  import opened Images
  import opened Simulation
  import SimpleRuns

  // ----- the operands a branch drops and keeps -----

  /** The words that stay under the kept ones. */
  ghost predicate Remains(k: World, s: Translation, d: nat, ls: seq<Value>, hidden: seq<Word>, under: seq<Word>)
    requires d < |s.frames|
  {
    if d == |s.frames| - 1 then under == []
    else exists b: nat :: Depth(k, FrameAt(s, d), ls, hidden, b) && under == Flat(ls) + hidden[..b]
  }

  /** Where the frame of a branch target begins, counted in hidden words. */
  lemma DepthExists(k: World, s: Translation, c: Ctx, below: seq<ValType>, ls: seq<Value>, hidden: seq<Word>,
                    st: seq<Value>, d: nat)
    returns (b: nat)
    requires View(s, c, below, ls, hidden, st) && d < |s.frames| - 1 && k.final.paramWords == s.paramWords
    ensures Depth(k, FrameAt(s, d), ls, hidden, b)
  {
    hide WordsOf;
    hide WF;
    var f := FrameAt(s, d);
    b := s.paramWords + f.height - WordsOf(c.locals);
  }

  lemma Regrouped(a: seq<Word>, h: seq<Word>, b: nat, c: seq<Word>, d: seq<Word>)
    requires b <= |h|
    ensures a + h + (c + d) == (a + h[..b]) + (h[b..] + c) + d
    ensures a + h + (c + d) == [] + (a + h + c) + d
  {
    assert h == h[..b] + h[b..];
  }

  /** The window splits into what remains, what is dropped and what is kept, as counted by the target. */
  lemma SplitWindow(k: World, s: Translation, c: Ctx, below: seq<ValType>, ls: seq<Value>, hidden: seq<Word>,
                    st: seq<Value>, d: nat, target: Target)
    returns (under: seq<Word>, dropped: seq<Word>, kept: seq<Word>)
    requires View(s, c, below, ls, hidden, st) && Targets(c, d, TypesOf(st)) && TargetOK(s, c, d, target)
    requires k.final.paramWords == s.paramWords
    ensures |Label(c, d)| <= |st| && kept == Flat(Top(st, |Label(c, d)|))
    ensures Window(ls, hidden, st) == under + dropped + kept && Remains(k, s, d, ls, hidden, under)
    ensures |dropped| == target.dropKeep.drop && |kept| == target.dropKeep.keep
  {
    hide WordsOf;
    hide Flat;
    WindowSize(s, c, below, ls, hidden, st);
    var n := |Label(c, d)|;
    assert |TypesOf(st)| == |st|;
    FlatSplit(st, n);
    kept := Flat(Top(st, n));
    if d == |s.frames| - 1 {
      hide View;
      Regrouped(Flat(ls), hidden, 0, Flat(Below(st, n)), kept);
      under, dropped := [], Flat(ls) + hidden + Flat(Below(st, n));
    } else {
      var b := DepthExists(k, s, c, below, ls, hidden, st, d);
      hide View;
      Regrouped(Flat(ls), hidden, b, Flat(Below(st, n)), kept);
      under, dropped := Flat(ls) + hidden[..b], hidden[b..] + Flat(Below(st, n));
    }
  }

  // ----- the code that takes a branch -----

  function Tail(target: Target): seq<SymOp> {
    Ops(DK.Lower(target.dropKeep)) + [if target.lab.None? then Op(O.Return) else Jump(O.Always, target.lab.value)]
  }

  /** The moves leave the machine right behind them with the operands reshaped. */
  lemma MovesRun(k: World, m: M.State, at: nat, dk: DK.DropKeep, under: seq<Word>, dropped: seq<Word>, kept: seq<Word>)
    returns (n: M.State)
    requires Fine(k) && Emitted(k, at, Ops(DK.Lower(dk))) && m.pc == k.off + at
    requires m.stack == k.caller + (under + dropped + kept) && |dropped| == dk.drop && |kept| == dk.keep
    requires |m.stack| + DK.Headroom(dk) <= M.Room(k.c, m)
    ensures M.Reaches(k.c, m, M.Next(n))
    ensures n == m.(pc := k.off + at + |DK.Lower(dk)|, stack := k.caller + under + kept)
  {
    hide DK.Lower;
    hide DK.Headroom;
    hide Fine;
    hide B.RunBlock;
    DK.LowerRuns(dk, dropped, kept);
    assert m.stack == k.caller + under + (dropped + kept);
    OpsRun(k, m, at, DK.Lower(dk), k.caller + under, dropped + kept, |dropped| + |kept| + DK.Headroom(dk),
           2 * |kept| + 1);
    n := m.(pc := k.off + at + |DK.Lower(dk)|, stack := k.caller + under + kept);
  }

  /** Once reshaped, the operands are those of the label, or the results. */
  ghost predicate Reshaped(k: World, s: Translation, c: Ctx, d: nat, m: M.State, ls: seq<Value>, hidden: seq<Word>,
                           st: seq<Value>) {
    && d < |s.frames| == |c.labels| && |Label(c, d)| <= |st|
    && exists under :: Remains(k, s, d, ls, hidden, under) && m.stack == k.caller + under + Flat(Top(st, |Label(c, d)|))
  }

  lemma ReshapedReturns(k: World, s: Translation, c: Ctx, d: nat, m: M.State, ls: seq<Value>, hidden: seq<Word>,
                        st: seq<Value>, fuel: nat)
    requires Reshaped(k, s, c, d, m, ls, hidden, st) && d == |s.frames| - 1 && Label(c, d) == k.results
    requires 0 <= m.pc < |k.c.code| && k.c.code[m.pc] == O.Return && m.calls == k.calls
    requires m.fuel == Store.Saturate(fuel)
    ensures Landed(k, s.frames, d, m, ls, hidden, st, fuel)
  {
    var under :| Remains(k, s, d, ls, hidden, under) && m.stack == k.caller + under + Flat(Top(st, |Label(c, d)|));
    assert k.caller + [] == k.caller;
  }

  lemma ReshapedLands(k: World, s: Translation, c: Ctx, d: nat, m: M.State, ls: seq<Value>, hidden: seq<Word>,
                      st: seq<Value>, fuel: nat)
    requires Reshaped(k, s, c, d, m, ls, hidden, st) && d < |s.frames| - 1
    requires !FrameAt(s, d).DeadFrame? && LabelTypes(FrameAt(s, d)) == Label(c, d)
    requires LabelOf(FrameAt(s, d)) < |k.final.labels| && k.final.labels[LabelOf(FrameAt(s, d))].Some?
    requires m.pc == k.off + k.final.labels[LabelOf(FrameAt(s, d))].value && Ready(k, m)
    requires m.fuel == Store.Saturate(fuel)
    ensures Landed(k, s.frames, d, m, ls, hidden, st, fuel)
  {
    hide Flat;
    var n := |Label(c, d)|;
    var under :| Remains(k, s, d, ls, hidden, under) && m.stack == k.caller + under + Flat(Top(st, n));
    var b: nat :| Depth(k, FrameAt(s, d), ls, hidden, b) && under == Flat(ls) + hidden[..b];
    Associate(k.caller, under, Flat(Top(st, n)));
    assert m.stack == k.caller + Window(ls, hidden[..b], Top(st, n));
  }

  /** Facts about the target of a branch. */
  lemma TargetFrame(s: Translation, c: Ctx, below: seq<ValType>, ls: seq<Value>, hidden: seq<Word>, st: seq<Value>,
                    d: nat)
    requires View(s, c, below, ls, hidden, st) && d < |s.frames|
    ensures |s.frames| == |c.labels|
    ensures !FrameAt(s, d).DeadFrame? && LabelTypes(FrameAt(s, d)) == Label(c, d)
    ensures d == |s.frames| - 1 ==> Label(c, d) == c.results
  {
    hide WordsOf;
    hide WF;
  }

  /** Operands that are already reshaped need only the jump or return. */
  lemma ExitLands(k: World, s: Translation, c: Ctx, below: seq<ValType>, ls: seq<Value>, hidden: seq<Word>,
                  st: seq<Value>, d: nat, target: Target, at: nat, m: M.State, fuel: nat)
    returns (n: M.State)
    requires Fine(k) && View(s, c, below, ls, hidden, st) && TargetOK(s, c, d, target) && k.results == c.results
    requires Emitted(k, at, [if target.lab.None? then Op(O.Return) else Jump(O.Always, target.lab.value)])
    requires m.pc == k.off + at && Reshaped(k, s, c, d, m, ls, hidden, st)
    requires Ready(k, m) && m.fuel == Store.Saturate(fuel)
    ensures Jumped(k, s.frames, d, m, n) && Landed(k, s.frames, d, n, ls, hidden, st, fuel)
  {
    M.ReachesStep(k.c, m);
    hide M.Reaches;
    hide Landed;
    hide Remains;
    hide View;
    hide WordsOf;
    TargetFrame(s, c, below, ls, hidden, st, d);
    hide Fine;
    if target.lab.None? {
      n := m;
      ReturnHere(k, at);
      ReshapedReturns(k, s, c, d, n, ls, hidden, st, fuel);
    } else {
      JumpRuns(k, m, at, O.Always, target.lab.value);
      hide Emitted;
      n := m.(pc := k.off + k.final.labels[target.lab.value].value);
      M.TakesStep(k.c, m, n);
      hide M.Takes;
      ReshapedLands(k, s, c, d, n, ls, hidden, st, fuel);
    }
  }

  lemma ReturnHere(k: World, at: nat)
    requires Fine(k) && Emitted(k, at, [Op(O.Return)])
    ensures k.off + at < |k.c.code| && k.c.code[k.off + at] == O.Return
  {
    assert k.final.code[at + 0] == [Op(O.Return)][0];
    assert ResolvedAt(k.c, k.off, k.final, at, k.snippets);
  }

  /** Moves and exit together. */
  lemma TailLands(k: World, s: Translation, c: Ctx, below: seq<ValType>, ls: seq<Value>, hidden: seq<Word>,
                  st: seq<Value>, d: nat, target: Target, at: nat, m: M.State, fuel: nat)
    returns (n: M.State)
    requires Fine(k) && View(s, c, below, ls, hidden, st) && TargetOK(s, c, d, target) && k.results == c.results
    requires Targets(c, d, TypesOf(st)) && k.final.paramWords == s.paramWords
    requires Emitted(k, at, Tail(target)) && m.pc == k.off + at && m.stack == k.caller + Window(ls, hidden, st)
    requires Ready(k, m) && m.fuel == Store.Saturate(fuel)
    requires s.height + DK.Headroom(target.dropKeep) <= k.final.maxHeight
    ensures Jumped(k, s.frames, d, m, n) && Landed(k, s.frames, d, n, ls, hidden, st, fuel)
  {
    hide Fine;
    hide View;
    hide Landed;
    hide DK.Headroom;
    hide WordsOf;
    WindowSize(s, c, below, ls, hidden, st);
    var under, dropped, kept := SplitWindow(k, s, c, below, ls, hidden, st, d, target);
    TailParts(k, at, target);
    hide Window;
    hide Remains;
    hide Emitted;
    hide M.Reaches;
    var u := MovesRun(k, m, at, target.dropKeep, under, dropped, kept);
    assert Reshaped(k, s, c, d, u, ls, hidden, st);
    hide Reshaped;
    n := ExitLands(k, s, c, below, ls, hidden, st, d, target, at + |DK.Lower(target.dropKeep)|, u, fuel);
    hide Jumped;
    JumpedAfter(k, s.frames, d, m, u, n);
  }

  lemma TailParts(k: World, at: nat, target: Target)
    requires Emitted(k, at, Tail(target))
    ensures Emitted(k, at, Ops(DK.Lower(target.dropKeep)))
    ensures Emitted(k, at + |DK.Lower(target.dropKeep)|,
                    [if target.lab.None? then Op(O.Return) else Jump(O.Always, target.lab.value)])
  {
    hide DK.Lower;
    var moves := Ops(DK.Lower(target.dropKeep));
    var exit := [if target.lab.None? then Op(O.Return) else Jump(O.Always, target.lab.value)];
    assert [] + moves + exit == Tail(target) && moves + exit + [] == Tail(target);
    EmittedPart(k, at, [], moves, exit);
    EmittedPart(k, at, moves, exit, []);
  }

  // ----- branches that are always taken -----

  lemma ResultLanded(k: World, frames: seq<Frame>, t: Translation, m: M.State, n: M.State, hidden: seq<Word>, d: nat,
                     ls: seq<Value>, st: seq<Value>, fuel: nat)
    requires Jumped(k, frames, d, m, n) && Landed(k, frames, d, n, ls, hidden, st, fuel)
    ensures Follows(k, frames, t, m, n, hidden, Branching(d, ls, st), fuel)
    ensures d == |frames| - 1 ==> Follows(k, frames, t, m, n, hidden, Returned(st), fuel)
  {
  }

  lemma TakeFollows(k: World, u: Translation, t: Translation, c: Ctx, below: seq<ValType>, ls: seq<Value>,
                    hidden: seq<Word>, st: seq<Value>, d: nat, target: Target, m: M.State, fuel: nat)
    returns (n: M.State)
    requires Fine(k) && View(u, c, below, ls, hidden, st) && TargetOK(u, c, d, target) && k.results == c.results
    requires Targets(c, d, TypesOf(st)) && k.from <= |u.code| && Leads(k, t) && t == Take(u, target)
    requires Match(k, u, m, ls, hidden, st, fuel)
    ensures Follows(k, u.frames, t, m, n, hidden, Branching(d, ls, st), fuel)
    ensures d == |u.frames| - 1 ==> Follows(k, u.frames, t, m, n, hidden, Returned(st), fuel)
  {
    hide Fine;
    hide View;
    hide Follows;
    hide Targets;
    hide WordsOf;
    TakeShape(u, target);
    AppendSplit(u.code, Tail(target), t.code);
    hide Take;
    hide Tail;
    OnTheWay(k, u, t, c, below, ls, hidden, st);
    hide WF;
    EmittedBetween(k, |u.code|, Tail(target), t);
    AheadSpent(k.final, u, t);
    hide Ahead;
    hide Emitted;
    assert t.maxHeight <= k.final.maxHeight;
    hide Leads;
    hide Extends;
    hide DK.Headroom;
    n := TailLands(k, u, c, below, ls, hidden, st, d, target, |u.code|, m, fuel);
    hide Jumped;
    hide TargetOK;
    hide Landed;
    hide M.Reaches;
    ResultLanded(k, u.frames, t, m, n, hidden, d, ls, st, fuel);
  }

  lemma AppendSplit(a: seq<SymOp>, b: seq<SymOp>, c: seq<SymOp>)
    requires c == a + b
    ensures a <= c && |c| == |a| + |b| && c[|a|..|a| + |b|] == b
  {
  }

  lemma TakeShape(u: Translation, target: Target)
    ensures var t := Take(u, target);
            && t.code == u.code + Tail(target) && LiveCharge(t).None? && t.frames == u.frames && !t.reachable
            && u.height + DK.Headroom(target.dropKeep) <= t.maxHeight
            && Extends(u, t)
  {
    hide DK.Lower;
    hide DK.Headroom;
    var t := Take(u, target);
    assert t.code == u.code + Tail(target);
    AppendExtends(u, t);
  }

  lemma BrParts(s: Translation, t: Translation, depth: nat, c: Ctx, below: seq<ValType>, ts: seq<ValType>)
    returns (u: Translation, target: Target)
    requires At(s, c, below, ts) && Targets(c, depth, ts) && VisitBr(s, depth) == Ok(t)
    ensures Bump(s, s.base) == Ok(u) && u == s.(code := u.code) && |u.code| == |s.code|
    ensures TargetOK(u, c, depth, target) && t == Take(u, target)
  {
    BrSucceeds(s, depth);
    u, target := Bump(s, s.base).value, Acquire(s, depth).value;
    AcquireGood(s, c, below, ts, depth);
    BumpStays(s, c, below, ts, s.base);
    hide At;
    BrIs(s, depth, target, u);
    hide Acquire;
    hide VisitBr;
    hide Bump;
    hide Take;
    TargetStays(s, u, c, depth, target);
  }

  lemma BrSucceeds(s: Translation, depth: nat)
    requires s.reachable && VisitBr(s, depth).Ok?
    ensures Acquire(s, depth).Ok? && Bump(s, s.base).Ok?
  {
    hide Acquire;
    hide Bump;
  }

  lemma BrFollows(k: World, s: Translation, t: Translation, depth: nat, c: Ctx, below: seq<ValType>,
                  ls: seq<Value>, hidden: seq<Word>, st: seq<Value>, m: M.State, fuel: nat) returns (n: M.State)
    requires Fine(k) && View(s, c, below, ls, hidden, st) && k.from <= |s.code| && Leads(k, t) && k.results == c.results
    requires Targets(c, depth, TypesOf(st)) && VisitBr(s, depth) == Ok(t)
    requires Match(k, s, m, ls, hidden, st, fuel)
    ensures Follows(k, s.frames, t, m, n, hidden, Branching(depth, ls, st), fuel + Paid(k, s.base))
  {
    hide Fine;
    hide Match;
    hide Follows;
    hide At;
    hide Targets;
    hide VisitBr;
    hide Take;
    hide TargetOK;
    hide Extends;
    hide Bump;
    var u, target := BrParts(s, t, depth, c, below, TypesOf(st));
    TakeShape(u, target);
    ExtendsTransitive(u, t, k.final);
    BumpMatch(k, s, u, s.base, c, below, ls, hidden, st, m, fuel);
    n := TakeFollows(k, u, t, c, below, ls, hidden, st, depth, target, m, fuel + Paid(k, s.base));
  }

  /** Charging does not change what a target means. */
  lemma TargetStays(s: Translation, u: Translation, c: Ctx, d: nat, target: Target)
    requires TargetOK(s, c, d, target) && u == s.(code := u.code)
    ensures TargetOK(u, c, d, target)
  {
    hide WordsOf;
  }

  lemma ReturnFollows(k: World, s: Translation, t: Translation, c: Ctx, below: seq<ValType>,
                      ls: seq<Value>, hidden: seq<Word>, st: seq<Value>, m: M.State, fuel: nat) returns (n: M.State)
    requires Fine(k) && View(s, c, below, ls, hidden, st) && k.from <= |s.code| && Leads(k, t) && k.results == c.results
    requires EndsWith(TypesOf(st), c.results) && VisitReturn(s) == Ok(t)
    requires Match(k, s, m, ls, hidden, st, fuel)
    ensures Follows(k, s.frames, t, m, n, hidden, Returned(st), fuel)
  {
    hide Fine;
    hide Match;
    hide Follows;
    hide WordsOf;
    ReturnAcquired(s, c, below, TypesOf(st));
    var dk := DropKeepReturn(s).value;
    hide DropKeepReturn;
    RootTargets(s, c, below, TypesOf(st));
    n := TakeFollows(k, s, t, c, below, ls, hidden, st, |s.frames| - 1, Target(O.None, dk), m, fuel);
  }

  lemma RootTargets(s: Translation, c: Ctx, below: seq<ValType>, ts: seq<ValType>)
    requires At(s, c, below, ts) && EndsWith(ts, c.results)
    ensures s.frames != [] && Targets(c, |s.frames| - 1, ts)
  {
    hide WF;
    hide WordsOf;
  }

  lemma UnreachableFollows(k: World, s: Translation, t: Translation, c: Ctx, below: seq<ValType>, ls: seq<Value>,
                           hidden: seq<Word>, st: seq<Value>, m: M.State, fuel: nat)
    returns (n: M.State)
    requires Fine(k) && s.reachable && k.from <= |s.code| && Leads(k, t) && t == VisitUnreachable(s)
    requires Match(k, s, m, ls, hidden, st, fuel)
    ensures Follows(k, s.frames, t, m, n, hidden, Trapped(O.UnreachableCodeReached), fuel)
  {
    hide Fine;
    hide Window;
    n := m;
    AppendSplit(s.code, [Op(O.Unreachable)], t.code);
    EmittedBetween(k, |s.code|, [Op(O.Unreachable)], t);
    hide Ahead;
    OpRuns(k, m, |s.code|, O.Unreachable);
    M.ReachesStep(k.c, m);
  }

  // ----- conditional branches -----

  /** The machine in front of the condition it is about to pop. */
  ghost predicate Tests(k: World, u: Translation, m: M.State, ls: seq<Value>, hidden: seq<Word>, st: seq<Value>,
                        x: Word, fuel: nat) {
    && m.pc == k.off + |u.code|
    && m.stack == k.caller + Window(ls, hidden, st) + [x]
    && Ready(k, m) && m.fuel == Store.Saturate(fuel)
  }

  /** The machine without the condition. */
  function Tested(k: World, m: M.State, pc: int): M.State
    requires m.stack != []
  {
    m.(pc := pc, stack := m.stack[..|m.stack| - 1])
  }

  /** The condition is popped off the source stack like off the word stack. */
  lemma ConditionOnTop(k: World, s: Translation, c: Ctx, below: seq<ValType>, ls: seq<Value>, hidden: seq<Word>,
                       st: seq<Value>, m: M.State, fuel: nat)
    requires View(s, c, below, ls, hidden, st) && Match(k, s, m, ls, hidden, st, fuel)
    requires st != [] && TypesOf(st)[|st| - 1] == I32
    ensures var p := PopCondition(s);
            && p.Ok? && View(p.value, c, below, ls, hidden, Below(st, 1))
            && m.stack == k.caller + Window(ls, hidden, Below(st, 1)) + [st[|st| - 1].bits]
            && p.value == s.(height := s.height - 1, types := p.value.types) && s.height >= 1 && Extends(s, p.value)
            && Ahead(k.final, p.value) == Ahead(k.final, s)
  {
    hide WordsOf;
    hide Extends;
    hide WF;
    hide Placed;
    hide Flat;
    TypeAt(st, |st| - 1);
    ConditionPopped(s, c, below, TypesOf(st));
    TypesOfSplit(st, 1);
    LastOperand(st);
    WindowPush(ls, hidden, Below(st, 1), st[|st| - 1]);
    Associate(k.caller, Window(ls, hidden, Below(st, 1)), [st[|st| - 1].bits]);
    hide Window;
  }

  lemma TypeAt(vs: seq<Value>, j: nat)
    requires j < |vs|
    ensures TypesOf(vs)[j] == vs[j].ty && (vs[j].ty == I32 ==> FlatValue(vs[j]) == [vs[j].bits])
  {
  }

  /** A conditional branch that is not taken: on to the fresh charge behind it. */
  lemma FallsThrough(k: World, v: Translation, t: Translation, m: M.State, m2: M.State, ls: seq<Value>,
                     hidden: seq<Word>, st: seq<Value>, fuel: nat)
    returns (n: M.State)
    requires Fine(k) && WF(v) && v.reachable && v.frames != [] && k.from <= |v.code| && Recharge(v) == Ok(t)
    requires Leads(k, t)
    requires M.Reaches(k.c, m, M.Next(m2)) && m2.pc == k.off + |v.code| && m2.stack == k.caller + Window(ls, hidden, st)
    requires Ready(k, m2) && m2.fuel == Store.Saturate(fuel)
    ensures M.Reaches(k.c, m, M.Next(n)) && Match(k, t, n, ls, hidden, st, fuel)
  {
    hide Window;
    hide Fine;
    hide M.Reaches;
    hide Leads;
    RechargeKeeps(v);
    hide WF;
    hide Recharge;
    hide Extends;
    ChargeRuns(k, v, t, m2, fuel);
    n := m2.(pc := k.off + |t.code|, fuel := Store.Saturate(fuel + Ahead(k.final, t)));
    hide Ahead;
    M.ReachesThen(k.c, m, m2, M.Next(n));
  }

  /** Without words to drop, the operands are already reshaped. */
  lemma AlreadyReshaped(k: World, s: Translation, c: Ctx, below: seq<ValType>, ls: seq<Value>, hidden: seq<Word>,
                        st: seq<Value>, d: nat, target: Target, m: M.State)
    requires View(s, c, below, ls, hidden, st) && Targets(c, d, TypesOf(st)) && TargetOK(s, c, d, target)
    requires k.final.paramWords == s.paramWords && target.dropKeep.drop == 0
    requires m.stack == k.caller + Window(ls, hidden, st)
    ensures Reshaped(k, s, c, d, m, ls, hidden, st)
  {
    hide WordsOf;
    TargetFrame(s, c, below, ls, hidden, st, d);
    var under, dropped, kept := SplitWindow(k, s, c, below, ls, hidden, st, d, target);
    hide View;
    hide Window;
    hide Flat;
    hide Remains;
    assert dropped == [];
    assert under + [] + kept == under + kept;
    Associate(k.caller, under, kept);
  }

  /** One conditional jump to a label. */
  lemma JumpIfFollows(k: World, u: Translation, c: Ctx, below: seq<ValType>, ls: seq<Value>, hidden: seq<Word>,
                      st: seq<Value>, d: nat, target: Target, x: Word, m: M.State, fuel: nat)
    returns (n: M.State)
    requires Fine(k) && View(u, c, below, ls, hidden, st) && TargetOK(u, c, d, target) && k.results == c.results
    requires Targets(c, d, TypesOf(st)) && k.final.paramWords == u.paramWords
    requires target.lab.Some? && target.dropKeep.drop == 0
    requires Emitted(k, |u.code|, [Jump(O.IfNez, target.lab.value)]) && Tests(k, u, m, ls, hidden, st, x, fuel)
    ensures M.Reaches(k.c, m, M.Next(n))
    ensures x != 0 ==> Jumped(k, u.frames, d, m, n) && Landed(k, u.frames, d, n, ls, hidden, st, fuel)
    ensures x == 0 ==> n == Tested(k, m, m.pc + 1) && n.stack == k.caller + Window(ls, hidden, st)
  {
    var l := target.lab.value;
    JumpRuns(k, m, |u.code|, O.IfNez, l);
    hide Fine;
    assert m.stack[..|m.stack| - 1] == k.caller + Window(ls, hidden, st);
    n := Tested(k, m, if x != 0 then k.off + k.final.labels[l].value else m.pc + 1);
    M.ReachesStep(k.c, m);
    M.TakesStep(k.c, m, n);
    hide M.Reaches;
    hide M.Takes;
    hide M.Step;
    hide Window;
    if x != 0 {
      TargetFrame(u, c, below, ls, hidden, st, d);
      AlreadyReshaped(k, u, c, below, ls, hidden, st, d, target, n);
      hide View;
      ReshapedLands(k, u, c, d, n, ls, hidden, st, fuel);
    }
  }

  lemma JumpedReaches(k: World, frames: seq<Frame>, d: nat, m: M.State, n: M.State)
    requires Jumped(k, frames, d, m, n)
    ensures M.Reaches(k.c, m, M.Next(n))
  {
  }

  /** A conditional jump over the moves. */
  lemma SkipFollows(k: World, u: Translation, c: Ctx, below: seq<ValType>, ls: seq<Value>, hidden: seq<Word>,
                    st: seq<Value>, d: nat, target: Target, x: Word, m: M.State, fuel: nat, skip: O.I32)
    returns (n: M.State)
    requires Fine(k) && View(u, c, below, ls, hidden, st) && TargetOK(u, c, d, target) && k.results == c.results
    requires Targets(c, d, TypesOf(st)) && k.final.paramWords == u.paramWords
    requires Emitted(k, |u.code|, [Op(O.Branch(O.IfEqz, skip))] + Tail(target))
    requires Tests(k, u, m, ls, hidden, st, x, fuel)
    requires u.height + DK.Headroom(target.dropKeep) <= k.final.maxHeight
    ensures M.Reaches(k.c, m, M.Next(n))
    ensures x != 0 ==> Jumped(k, u.frames, d, m, n) && Landed(k, u.frames, d, n, ls, hidden, st, fuel)
    ensures x == 0 ==> n == Tested(k, m, m.pc + skip) && n.stack == k.caller + Window(ls, hidden, st)
  {
    hide Tail;
    hide TargetOK;
    hide Targets;
    hide View;
    hide DK.Headroom;
    hide Emitted;
    hide Fine;
    hide M.Reaches;
    hide Window;
    hide Landed;
    hide Jumped;
    SkipParts(k, |u.code|, skip, target);
    OpRuns(k, m, |u.code|, O.Branch(O.IfEqz, skip));
    assert m.stack[..|m.stack| - 1] == k.caller + Window(ls, hidden, st);
    M.ReachesStep(k.c, m);
    hide M.Step;
    var v := Tested(k, m, if x != 0 then m.pc + 1 else m.pc + skip);
    n := v;
    if x != 0 {
      n := TailLands(k, u, c, below, ls, hidden, st, d, target, |u.code| + 1, v, fuel);
      JumpedAfter(k, u.frames, d, m, v, n);
      JumpedReaches(k, u.frames, d, m, n);
    }
  }

  lemma SkipParts(k: World, at: nat, skip: O.I32, target: Target)
    requires Emitted(k, at, [Op(O.Branch(O.IfEqz, skip))] + Tail(target))
    ensures Emitted(k, at, [Op(O.Branch(O.IfEqz, skip))])
    ensures Emitted(k, at + 1, Tail(target))
  {
    hide Tail;
    var first := [Op(O.Branch(O.IfEqz, skip))];
    assert [] + first + Tail(target) == first + Tail(target) && first + Tail(target) + [] == first + Tail(target);
    EmittedPart(k, at, [], first, Tail(target));
    EmittedPart(k, at, first, Tail(target), []);
  }

  lemma BrIfParts(s: Translation, t: Translation, depth: nat, c: Ctx, below: seq<ValType>, ts: seq<ValType>)
    returns (p: Translation, u: Translation, target: Target, v: Translation)
    requires At(s, c, below, ts) && |ts| >= 1 && ts[|ts| - 1] == I32 && Targets(c, depth, ts[..|ts| - 1])
    requires VisitBrIf(s, depth) == Ok(t)
    ensures PopCondition(s) == Ok(p) && Bump(p, s.base) == Ok(u) && TargetOK(u, c, depth, target)
    ensures At(u, c, below, ts[..|ts| - 1]) && u == p.(code := u.code) && |u.code| == |s.code|
    ensures |DK.Lower(target.dropKeep)| + 2 < B31 && v == BrIfEmitted(u, target) && Recharge(v) == Ok(t)
    ensures WF(v) && v.reachable && v.frames == u.frames != [] && Extends(u, v) && u.code <= v.code
  {
    hide WordsOf;
    BrIfSucceeds(s, depth);
    ConditionPopped(s, c, below, ts);
    p := PopCondition(s).value;
    AcquireGood(p, c, below, ts[..|ts| - 1], depth);
    BumpStays(p, c, below, ts[..|ts| - 1], s.base);
    target, u := Acquire(p, depth).value, Bump(p, s.base).value;
    TargetStays(p, u, c, depth, target);
    BrIfIs(u, target);
    BrIfEmittedKeeps(u, target);
    v := BrIfEmitted(u, target);
    BrIfAppends(u, target);
    hide BrIfEmitted;
    hide EmitBrIf;
    hide Recharge;
    hide Acquire;
    hide Bump;
    hide PopCondition;
    hide Extends;
    hide WF;
    hide Placed;
  }

  lemma BrIfAppends(u: Translation, target: Target)
    requires |DK.Lower(target.dropKeep)| + 2 < B31
    ensures u.code <= BrIfEmitted(u, target).code
  {
    hide DK.Lower;
  }

  lemma BrIfSucceeds(s: Translation, depth: nat)
    requires s.reachable && VisitBrIf(s, depth).Ok?
    ensures PopCondition(s).Ok? && Acquire(PopCondition(s).value, depth).Ok? && Bump(PopCondition(s).value, s.base).Ok?
  {
    hide Acquire;
    hide Bump;
    hide EmitBrIf;
    hide Recharge;
  }

  /** After a conditional branch: at the label if the condition holds, else behind the fresh charge. */
  ghost predicate Decided(k: World, frames: seq<Frame>, t: Translation, d: nat, x: Word, m: M.State, n: M.State,
                          ls: seq<Value>, hidden: seq<Word>, st: seq<Value>, fuel: nat) {
    if x != 0 then Jumped(k, frames, d, m, n) && Landed(k, frames, d, n, ls, hidden, st, fuel)
    else M.Reaches(k.c, m, M.Next(n)) && Match(k, t, n, ls, hidden, st, fuel)
  }

  lemma EmittedBrIfRuns(k: World, u: Translation, v: Translation, t: Translation, c: Ctx, below: seq<ValType>,
                        ls: seq<Value>, hidden: seq<Word>, st: seq<Value>, d: nat, target: Target, x: Word, m: M.State,
                        fuel: nat)
    returns (n: M.State)
    requires Fine(k) && View(u, c, below, ls, hidden, st) && TargetOK(u, c, d, target) && k.results == c.results
    requires Targets(c, d, TypesOf(st)) && k.from <= |u.code| && Leads(k, t)
    requires |DK.Lower(target.dropKeep)| + 2 < B31 && v == BrIfEmitted(u, target) && Recharge(v) == Ok(t)
    requires WF(v) && v.reachable && v.frames == u.frames != [] && Tests(k, u, m, ls, hidden, st, x, fuel)
    requires k.final.paramWords == u.paramWords
    ensures Decided(k, u.frames, t, d, x, m, n, ls, hidden, st, fuel)
  {
    hide Fine;
    hide View;
    hide Targets;
    hide TargetOK;
    hide Leads;
    hide Tests;
    hide Landed;
    hide Match;
    hide Window;
    hide Recharge;
    BrIfEmittedInFinal(k, u, v, t, target);
    hide BrIfEmitted;
    hide Tail;
    hide Emitted;
    hide DK.Headroom;
    hide M.Reaches;
    ReadyAfter(k, u, m, ls, hidden, st, x, fuel);
    hide Ready;
    if target.lab.Some? && target.dropKeep.drop == 0 {
      n := JumpIfFollows(k, u, c, below, ls, hidden, st, d, target, x, m, fuel);
    } else {
      n := SkipFollows(k, u, c, below, ls, hidden, st, d, target, x, m, fuel, |DK.Lower(target.dropKeep)| + 2);
    }
    if x == 0 {
      n := FallsThrough(k, v, t, m, n, ls, hidden, st, fuel);
    }
  }

  lemma ReadyAfter(k: World, u: Translation, m: M.State, ls: seq<Value>, hidden: seq<Word>, st: seq<Value>, x: Word,
                   fuel: nat)
    requires Tests(k, u, m, ls, hidden, st, x, fuel)
    ensures m.stack != [] && m.pc == k.off + |u.code|
    ensures forall pc :: var n := Tested(k, m, pc); Ready(k, n) && n.fuel == Store.Saturate(fuel) && n.pc == pc
  {
    hide Window;
  }

  /** The conditional branch as it stands in the finished code. */
  lemma BrIfEmittedInFinal(k: World, u: Translation, v: Translation, t: Translation, target: Target)
    requires |DK.Lower(target.dropKeep)| + 2 < B31 && v == BrIfEmitted(u, target) && Recharge(v) == Ok(t)
    requires WF(v) && v.reachable && v.frames != [] && k.from <= |u.code| && Leads(k, t)
    ensures k.from <= |v.code|
    ensures if target.lab.Some? && target.dropKeep.drop == 0
            then |v.code| == |u.code| + 1 && Emitted(k, |u.code|, [Jump(O.IfNez, target.lab.value)])
            else
              && |v.code| == |u.code| + |DK.Lower(target.dropKeep)| + 2
              && Emitted(k, |u.code|, [Op(O.Branch(O.IfEqz, |DK.Lower(target.dropKeep)| + 2))] + Tail(target))
              && u.height + DK.Headroom(target.dropKeep) <= k.final.maxHeight
  {
    hide DK.Lower;
    hide DK.Headroom;
    hide Emitted;
    hide WF;
    hide Kept;
    hide Recharge;
    RechargeKeeps(v);
    assert v.code <= t.code && v.maxHeight == t.maxHeight <= k.final.maxHeight;
    hide Leads;
    hide Extends;
    if target.lab.Some? && target.dropKeep.drop == 0 {
      PrefixEmitted(k, u.code, [Jump(O.IfNez, target.lab.value)], v.code, t);
    } else {
      var code := [Op(O.Branch(O.IfEqz, |DK.Lower(target.dropKeep)| + 2))] + Tail(target);
      assert v.code == u.code + code;
      hide Tail;
      hide BrIfEmitted;
      PrefixEmitted(k, u.code, code, v.code, t);
    }
  }

  lemma PrefixEmitted(k: World, a: seq<SymOp>, b: seq<SymOp>, ab: seq<SymOp>, t: Translation)
    requires ab == a + b && ab <= t.code && k.from <= |a| && Leads(k, t)
    requires LiveCharge(t).Some? ==> |ab| <= LiveCharge(t).value
    ensures Emitted(k, |a|, b)
  {
    assert t.code[|a|..|a| + |b|] == b;
    EmittedBetween(k, |a|, b, t);
  }

  lemma BrIfFollows(k: World, s: Translation, t: Translation, depth: nat, c: Ctx, below: seq<ValType>,
                    ls: seq<Value>, hidden: seq<Word>, st: seq<Value>, m: M.State, fuel: nat) returns (n: M.State)
    requires Fine(k) && View(s, c, below, ls, hidden, st) && k.from <= |s.code| && Leads(k, t) && k.results == c.results
    requires st != [] && TypesOf(st)[|st| - 1] == I32 && Targets(c, depth, TypesOf(st)[..|st| - 1])
    requires VisitBrIf(s, depth) == Ok(t) && Match(k, s, m, ls, hidden, st, fuel)
    ensures Follows(k, s.frames, t, m, n, hidden, Plain(BrIf(depth), ls, st), fuel + Paid(k, s.base))
  {
    hide Fine;
    hide WordsOf;
    hide Targets;
    hide VisitBrIf;
    hide TargetOK;
    hide BrIfEmitted;
    hide Recharge;
    hide Landed;
    hide Window;
    hide Match;
    hide View;
    hide Tests;
    hide At;
    var x := st[|st| - 1].bits;
    var u, target, v := BrIfTests(k, s, t, depth, c, below, ls, hidden, st, m, fuel);
    hide WF;
    hide Leads;
    n := EmittedBrIfRuns(k, u, v, t, c, below, ls, hidden, Below(st, 1), depth, target, x, m, fuel + Paid(k, s.base));
    hide M.Reaches;
  }

  /** The machine when the branch is about to test its condition: everything up to here is paid. */
  lemma BrIfTests(k: World, s: Translation, t: Translation, depth: nat, c: Ctx, below: seq<ValType>,
                  ls: seq<Value>, hidden: seq<Word>, st: seq<Value>, m: M.State, fuel: nat)
    returns (u: Translation, target: Target, v: Translation)
    requires View(s, c, below, ls, hidden, st) && Leads(k, t)
    requires st != [] && TypesOf(st)[|st| - 1] == I32 && Targets(c, depth, TypesOf(st)[..|st| - 1])
    requires VisitBrIf(s, depth) == Ok(t) && Match(k, s, m, ls, hidden, st, fuel)
    ensures st[|st| - 1].ty == I32 && |u.code| == |s.code| && u.frames == s.frames
    ensures View(u, c, below, ls, hidden, Below(st, 1)) && TargetOK(u, c, depth, target)
    ensures Targets(c, depth, TypesOf(Below(st, 1)))
    ensures |DK.Lower(target.dropKeep)| + 2 < B31 && v == BrIfEmitted(u, target) && Recharge(v) == Ok(t)
    ensures WF(v) && v.reachable && v.frames == u.frames != [] && k.final.paramWords == u.paramWords
    ensures Tests(k, u, m, ls, hidden, Below(st, 1), st[|st| - 1].bits, fuel + Paid(k, s.base))
  {
    hide WordsOf;
    hide VisitBrIf;
    hide BrIfEmitted;
    hide Recharge;
    hide Window;
    hide TargetOK;
    hide Targets;
    hide Ahead;
    hide Extends;
    hide WF;
    hide Placed;
    hide Bump;
    hide PopCondition;
    hide Leads;
    var p;
    p, u, target, v := BrIfParts(s, t, depth, c, below, TypesOf(st));
    TypesOfSplit(st, 1);
    SimpleRuns.TypeAt(st, |st| - 1);
    hide TypesOf;
    ConditionOnTop(k, s, c, below, ls, hidden, st, m, fuel);
    assert WF(p) && p.reachable && p.frames != [] by { PoppedWF(p, c, below, ls, hidden, Below(st, 1)); }
    BrIfFuel(k, s, p, u, v, t);
  }

  lemma PoppedWF(p: Translation, c: Ctx, below: seq<ValType>, ls: seq<Value>, hidden: seq<Word>, st: seq<Value>)
    requires View(p, c, below, ls, hidden, st)
    ensures WF(p) && p.reachable && p.frames != []
  {
    hide WordsOf;
  }

  lemma BrIfFuel(k: World, s: Translation, p: Translation, u: Translation, v: Translation, t: Translation)
    requires WF(p) && p.reachable && p.frames != [] && Ahead(k.final, p) == Ahead(k.final, s)
    requires Bump(p, s.base) == Ok(u) && u == p.(code := u.code) && WF(u)
    requires Extends(u, v) && u.code <= v.code && WF(v) && v.reachable && v.frames == u.frames && Recharge(v) == Ok(t)
    requires Leads(k, t)
    ensures Ahead(k.final, s) == Paid(k, s.base) && k.final.paramWords == u.paramWords
  {
    RechargeKeeps(v);
    ExtendsTransitive(u, v, t);
    ExtendsTransitive(u, t, k.final);
    AheadBumped(k.final, p, u, s.base);
    hide Recharge;
    ChargeInside(u);
    AheadSpent(k.final, u, t);
  }
}
