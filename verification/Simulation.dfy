/** How the machine follows the source semantics, one operator at a time. */
module Simulation {
  import opened Words
  import O = Opcodes
  import M = Machine
  import B = Blocks
  import Store
  import opened Source
  import opened Validation
  import opened Layout
  import opened Translator
  import opened Invariants
  import opened Progress
  import opened Branches
  import opened Locals
  import opened Images
  import opened SimpleRuns
  import Sequences
  import Numerics

  // ----- where the machine is after some source code -----

  /** In front of `return`, with exactly the results above the caller's words. */
  ghost predicate AtReturn(k: World, m: M.State, st: seq<Value>, fuel: nat) {
    && 0 <= m.pc < |k.c.code| && k.c.code[m.pc] == O.Return
    && |k.results| <= |st|
    && m.stack == k.caller + Flat(Top(st, |k.results|))
    && m.calls == k.calls && m.fuel == Store.Saturate(fuel)
  }

  /** The part of `hidden` that lies below a frame. */
  ghost predicate Depth(k: World, f: Frame, ls: seq<Value>, hidden: seq<Word>, b: nat) {
    !f.DeadFrame? && b <= |hidden| && k.final.paramWords + f.height == |Flat(ls)| + b
  }

  /** At the label of frame `f`, with its arguments on top and only the words below the frame left under them. */
  ghost predicate AtLabel(k: World, f: Frame, m: M.State, ls: seq<Value>, hidden: seq<Word>, st: seq<Value>,
                          fuel: nat) {
    && !f.DeadFrame?
    && LabelOf(f) < |k.final.labels| && k.final.labels[LabelOf(f)].Some?
    && |LabelTypes(f)| <= |st|
    && m.pc == k.off + k.final.labels[LabelOf(f)].value
    && (exists b: nat ::
        Depth(k, f, ls, hidden, b)
        && m.stack == k.caller + Window(ls, hidden[..b], Top(st, |LabelTypes(f)|)))
    && Ready(k, m) && m.fuel == Store.Saturate(fuel)
  }

  /** After a branch: leaving the outermost frame is returning. */
  ghost predicate Landed(k: World, frames: seq<Frame>, d: nat, m: M.State, ls: seq<Value>, hidden: seq<Word>,
                         st: seq<Value>, fuel: nat) {
    && d < |frames|
    && if d == |frames| - 1 then AtReturn(k, m, st, fuel)
       else AtLabel(k, frames[|frames| - 1 - d], m, ls, hidden, st, fuel)
  }

  /** Only a branch out of the function needs no jump. */
  ghost predicate Jumped(k: World, frames: seq<Frame>, d: nat, m: M.State, n: M.State) {
    M.Reaches(k.c, m, M.Next(n)) && (d + 1 < |frames| ==> M.Takes(k.c, m, 1, n))
  }

  lemma JumpedAfter(k: World, frames: seq<Frame>, d: nat, m: M.State, u: M.State, n: M.State)
    requires M.Reaches(k.c, m, M.Next(u)) && Jumped(k, frames, d, u, n)
    ensures Jumped(k, frames, d, m, n)
  {
    M.ReachesThen(k.c, m, u, M.Next(n));
    hide M.Reaches;
    hide M.Takes;
    if d + 1 < |frames| {
      M.ReachesTakes(k.c, m, u, 1, n);
    }
  }

  /** From `m` the machine gets to `n`, where it agrees with the source result. A trap follows from `n`; when
      the source has not finished, the machine has taken a step for every round of the loop it is in, and has at
      least been charged for what it has done. */
  ghost predicate Follows(k: World, frames: seq<Frame>, t: Translation, m: M.State, n: M.State,
                          hidden: seq<Word>, r: Source.Result, fuel: nat) {
    match r
    case Normal(ls, st) => M.Reaches(k.c, m, M.Next(n)) && Match(k, t, n, ls, hidden, st, fuel)
    case Branching(d, ls, st) => Jumped(k, frames, d, m, n) && Landed(k, frames, d, n, ls, hidden, st, fuel)
    case Returned(st) => M.Reaches(k.c, m, M.Next(n)) && AtReturn(k, n, st, fuel)
    case Trapped(trap) =>
      M.Reaches(k.c, m, M.Next(n)) && M.Reaches(k.c, n, M.Trapped(trap)) && n.fuel >= Store.Saturate(fuel)
    case Timeout(rounds) => M.Takes(k.c, m, rounds, n) && n.fuel >= Store.Saturate(fuel)
    case Invalid => false
  }

  // ----- small steps of the translation -----

  /** Emitting more code without changing frames or labels. */
  lemma AppendExtends(u: Translation, t: Translation)
    requires u.code <= t.code && t.labels == u.labels && t.frames == u.frames && u.maxHeight <= t.maxHeight
    requires t.metered == u.metered && t.base == u.base && t.paramWords == u.paramWords
    requires t.reachable ==> u.reachable
    ensures Extends(u, t)
  {
  }

  /** Paying for an operator moves fuel from what is still ahead to what has been charged. */
  lemma BumpMatch(k: World, s: Translation, u: Translation, delta: nat, c: Ctx, below: seq<ValType>,
                  ls: seq<Value>, hidden: seq<Word>, st: seq<Value>, m: M.State, fuel: nat)
    requires View(s, c, below, ls, hidden, st) && Match(k, s, m, ls, hidden, st, fuel)
    requires Bump(s, delta) == Ok(u) && Extends(u, k.final)
    ensures View(u, c, below, ls, hidden, st) && Match(k, u, m, ls, hidden, st, fuel + Paid(k, delta))
    ensures u == s.(code := u.code) && |u.code| == |s.code| && Extends(s, u)
  {
    BumpStays(s, c, below, TypesOf(st), delta);
    assert s.reachable && s.frames != [] && WF(s);
    hide Placed;
    AheadBumped(k.final, s, u, delta);
    hide WF;
    hide Bump;
    hide Ahead;
    hide Extends;
    hide Window;
  }

  // ----- operators without control flow -----

  lemma InlineFollows(k: World, u: Translation, t: Translation, plan: Plan, p: Piece, i: Instr, ls: seq<Value>,
                      hidden: seq<Word>, st: seq<Value>, m: M.State, fuel: nat)
    returns (n: M.State)
    requires Fine(k) && WF(u) && k.from <= |u.code| && Leads(k, t)
    requires t == Follow(u, plan) && Implements(u, plan, i, ls, hidden, st, p)
    requires Match(k, u, m, ls, hidden, st, fuel)
    requires Plain(i, ls, st).Normal? || Plain(i, ls, st).Trapped?
    ensures Follows(k, u.frames, t, m, n, hidden, Plain(i, ls, st), fuel)
  {
    hide Plain;
    hide Window;
    hide Fine;
    hide B.RunBlock;
    ChargeInside(u);
    hide WF;
    EmittedBetween(k, |u.code|, plan.code, t);
    assert Leads(k, t) ==> t.maxHeight <= k.final.maxHeight && t.paramWords == k.final.paramWords;
    hide Leads;
    assert m.stack == k.caller + p.below + p.window by { Associate(k.caller, p.below, p.window); }
    OpsRun(k, m, |u.code|, p.ops, k.caller + p.below, p.window, p.room, 16);
    AheadSame(k.final, u, t);
    hide Ahead;
    hide Emitted;
    var r := B.RunBlock(p.ops, 0, p.window, p.room, 16);
    M.ReachesStep(k.c, m);
    hide M.Reaches;
    if r.Leaves? {
      n := m.(pc := k.off + |u.code| + |p.ops|, stack := k.caller + p.below + r.window);
      Associate(k.caller, p.below, r.window);
    } else {
      n := m;
    }
  }

  // ----- calls of 64-bit snippets -----

  /** The machine inside the snippet, behind its stack check. */
  function Called(m: M.State, addr: Word, h: Word): M.State {
    var n := |m.stack|;
    m.(pc := addr + 1, calls := m.calls + [m.pc + 1], cap := if n + h > m.cap then m.cap + (n + h) else m.cap)
  }

  lemma EnterSnippet(c: M.Config, m: M.State, addr: Word, h: Word, body: seq<O.Opcode>)
    requires B.Holds(c, addr, [O.StackCheck(h)] + body + [O.Return])
    requires 0 <= m.pc < |c.code| && c.code[m.pc] == O.CallInternal(addr)
    requires |m.calls| < c.maxCalls && |m.stack| + h <= c.maxLen
    ensures M.Reaches(c, m, M.Next(Called(m, addr, h)))
    ensures B.Holds(c, addr + 1, body) && addr + 1 + |body| < |c.code| && c.code[addr + 1 + |body|] == O.Return
  {
    var all := [O.StackCheck(h)] + body + [O.Return];
    assert c.code[addr + 0] == all[0];
    assert c.code[addr + (1 + |body|)] == all[1 + |body|];
    forall j | 0 <= j < |body| ensures c.code[addr + 1 + j] == body[j] {
      assert c.code[addr + (1 + j)] == all[1 + j];
    }
    var m1 := m.(pc := addr, calls := m.calls + [m.pc + 1]);
    assert M.Step(c, m) == M.Next(m1);
    assert M.Step(c, m1) == M.Next(Called(m, addr, h));
    M.ReachesStep(c, m1);
    hide M.Step;
    M.StepThen(c, m, m1, M.Next(Called(m, addr, h)));
  }

  lemma SnippetLinked(k: World, at: nat, sn: Snippet)
    requires Fine(k) && Emitted(k, at, [CallSnippet(sn)])
    ensures k.off + at < |k.c.code| && sn in k.snippets && k.c.code[k.off + at] == O.CallInternal(k.snippets[sn])
    ensures B.Holds(k.c, k.snippets[sn], SnippetBody(sn))
    ensures Sequences.SnippetHeadroom(sn) <= SNIPPET_ROOM
  {
    hide Sequences.SnippetCode;
    assert k.final.code[at + 0] == [CallSnippet(sn)][0];
    assert ResolvedAt(k.c, k.off, k.final, at, k.snippets);
  }

  /** A call of a snippet replaces the limbs of its operands by the words of its result. */
  lemma SnippetCall(k: World, m: M.State, at: nat, sn: Snippet, below: seq<Word>, x: DWord, y: DWord)
    returns (n: M.State)
    requires Fine(k) && Emitted(k, at, [CallSnippet(sn)]) && m.pc == k.off + at
    requires m.stack == below + Numerics.Limbs2(x, y) && |m.stack| <= Ceiling(k) && m.calls == k.calls
    ensures M.Reaches(k.c, m, M.Next(n)) && M.Room(k.c, n) >= M.Room(k.c, m)
    ensures n == m.(pc := m.pc + 1, cap := n.cap,
                    stack := below + FlatValue(Val(Numerics.SnippetResult(sn), SnippetEval(sn, x, y))))
  {
    hide Sequences.SnippetCode;
    hide Sequences.SnippetHeadroom;
    hide B.RunBlock;
    hide B.Holds;
    hide FlatValue;
    hide Emitted;
    hide Linked;
    hide M.Reaches;
    var out := FlatValue(Val(Numerics.SnippetResult(sn), SnippetEval(sn, x, y)));
    hide SnippetEval;
    SnippetLinked(k, at, sn);
    var addr, h, body := k.snippets[sn], Sequences.SnippetHeadroom(sn), Sequences.SnippetCode(sn);
    EnterSnippet(k.c, m, addr, h, body);
    var m2 := Called(m, addr, h);
    Numerics.SnippetRuns(sn, x, y);
    B.BlockRuns(k.c, m2, addr + 1, body, 0, below, Numerics.Limbs2(x, y), 4 + h, 16);
    var m3 := m2.(pc := addr + 1 + |body|, stack := below + out);
    M.ReachesThen(k.c, m, m2, M.Next(m3));
    n := m3.(pc := m.pc + 1, calls := m.calls);
    LeaveSnippet(k.c, m3, m.calls, m.pc + 1);
    M.ReachesThen(k.c, m, m3, M.Next(n));
  }

  lemma LeaveSnippet(c: M.Config, m: M.State, calls: seq<int>, pc: int)
    requires 0 <= m.pc < |c.code| && c.code[m.pc] == O.Return && m.calls == calls + [pc]
    requires !M.Over(c, m.(pc := pc, calls := calls)) && !M.Watched(c, m)
    ensures M.Reaches(c, m, M.Next(m.(pc := pc, calls := calls)))
  {
    M.ReachesStep(c, m);
    assert m.calls[..|m.calls| - 1] == calls;
  }

  lemma SnippetMeans(sn: Snippet, ls: seq<Value>, rest: seq<Value>, x: Value, y: Value)
    requires x.ty == I64 && y.ty == I64
    ensures Plain(Num(I64Snippet(sn)), ls, rest + [x, y])
            == Normal(ls, rest + [Val(NumResult(I64Snippet(sn)), SnippetEval(sn, x.bits, y.bits))])
  {
    hide SnippetEval;
    var st := rest + [x, y];
    assert Top(st, 2) == [x, y] && Below(st, 2) == rest && TypesOf([x, y]) == [I64, I64];
  }

  lemma LastTwo(st: seq<Value>)
    requires EndsWith(TypesOf(st), [I64, I64])
    ensures |st| >= 2 && st[|st| - 2].ty == I64 && st[|st| - 1].ty == I64
    ensures var x, y, rest := st[|st| - 2], st[|st| - 1], Below(st, 2);
            st == rest + [x, y] && st == rest + [x] + [y]
  {
    var n := |st|;
    assert TypesOf(st)[n - 2..] == [I64, I64];
    assert [I64, I64][0] == TypesOf(st)[n - 2] && [I64, I64][1] == TypesOf(st)[n - 1];
  }

  lemma WideLimbs(x: Value, y: Value)
    requires x.ty == I64 && y.ty == I64
    ensures FlatValue(x) + FlatValue(y) == Numerics.Limbs2(x.bits, y.bits)
  {
  }

  lemma SnippetOperands(sn: Snippet, ls: seq<Value>, hidden: seq<Word>, st: seq<Value>)
    requires EndsWith(TypesOf(st), [I64, I64])
    ensures |st| >= 2
    ensures var x, y, rest := st[|st| - 2], st[|st| - 1], Below(st, 2);
            && x.ty == I64 && y.ty == I64
            && Window(ls, hidden, st) == Window(ls, hidden, rest) + Numerics.Limbs2(x.bits, y.bits)
            && Plain(Num(I64Snippet(sn)), ls, st) ==
               Normal(ls, rest + [Val(NumResult(I64Snippet(sn)), SnippetEval(sn, x.bits, y.bits))])
  {
    hide Flat;
    hide FlatValue;
    hide SnippetEval;
    hide Window;
    hide Plain;
    LastTwo(st);
    hide TypesOf;
    var x, y, rest := st[|st| - 2], st[|st| - 1], Below(st, 2);
    SnippetMeans(sn, ls, rest, x, y);
    WindowPush(ls, hidden, rest + [x], y);
    WindowPush(ls, hidden, rest, x);
    WideLimbs(x, y);
    Associate(Window(ls, hidden, rest), FlatValue(x), FlatValue(y));
  }

  /** What a snippet call plans. */
  lemma SnippetPlan(u: Translation, sn: Snippet)
    requires PlanFor(u, Num(I64Snippet(sn))).Ok?
    ensures PlanFor(u, Num(I64Snippet(sn))).value.code == [CallSnippet(sn)]
  {
    hide WordsOf;
  }

  lemma SnippetSteps(k: World, at: nat, sn: Snippet, ls: seq<Value>, hidden: seq<Word>, st: seq<Value>, m: M.State)
    returns (n: M.State)
    requires Fine(k) && Emitted(k, at, [CallSnippet(sn)]) && EndsWith(TypesOf(st), [I64, I64])
    requires m.pc == k.off + at && m.stack == k.caller + Window(ls, hidden, st) && |m.stack| <= Ceiling(k)
    requires m.calls == k.calls
    ensures Plain(Num(I64Snippet(sn)), ls, st).Normal?
    ensures var r := Plain(Num(I64Snippet(sn)), ls, st);
            && M.Reaches(k.c, m, M.Next(n)) && M.Room(k.c, n) >= M.Room(k.c, m)
            && n == m.(pc := m.pc + 1, cap := n.cap, stack := k.caller + Window(r.locals, hidden, r.stack))
  {
    hide Plain;
    hide Fine;
    SnippetOperands(sn, ls, hidden, st);
    var x, y, rest := st[|st| - 2], st[|st| - 1], Below(st, 2);
    hide TypesOf;
    var v: Value := Val(NumResult(I64Snippet(sn)), SnippetEval(sn, x.bits, y.bits));
    hide SnippetEval;
    WindowPush(ls, hidden, rest, v);
    hide Window;
    hide Emitted;
    hide M.Reaches;
    Associate(k.caller, Window(ls, hidden, rest), Numerics.Limbs2(x.bits, y.bits));
    n := SnippetCall(k, m, at, sn, k.caller + Window(ls, hidden, rest), x.bits, y.bits);
    Associate(k.caller, Window(ls, hidden, rest), FlatValue(v));
  }

  /** Facts about a state on the way to the finished translation. */
  lemma OnTheWay(k: World, u: Translation, t: Translation, c: Ctx, below: seq<ValType>, ls: seq<Value>,
                 hidden: seq<Word>, st: seq<Value>)
    requires View(u, c, below, ls, hidden, st) && Leads(k, t) && Extends(u, t)
    ensures |k.caller + Window(ls, hidden, st)| <= Ceiling(k)
    ensures u.paramWords == k.final.paramWords && u.maxHeight <= k.final.maxHeight && u.metered == k.final.metered
    ensures LiveCharge(u).Some? ==> LiveCharge(u).value < |u.code|
    ensures WF(u) && u.reachable && u.frames != []
  {
    hide WordsOf;
    hide CodeExtends;
    hide LabelsExtend;
    WindowSize(u, c, below, ls, hidden, st);
    ChargeInside(u);
    hide WF;
    hide Window;
  }

  lemma SnippetFollows(k: World, u: Translation, t: Translation, plan: Plan, sn: Snippet, c: Ctx, below: seq<ValType>,
                       ls: seq<Value>, hidden: seq<Word>, st: seq<Value>, m: M.State, fuel: nat) returns (n: M.State)
    requires Fine(k) && View(u, c, below, ls, hidden, st) && k.from <= |u.code| && Leads(k, t)
    requires PlanFor(u, Num(I64Snippet(sn))) == Ok(plan) && t == Follow(u, plan)
    requires Match(k, u, m, ls, hidden, st, fuel) && EndsWith(TypesOf(st), [I64, I64])
    ensures Follows(k, u.frames, t, m, n, hidden, Plain(Num(I64Snippet(sn)), ls, st), fuel)
  {
    hide Plain;
    hide Fine;
    hide View;
    hide Window;
    hide WordsOf;
    SnippetPlan(u, sn);
    hide PlanFor;
    AppendExtends(u, t);
    OnTheWay(k, u, t, c, below, ls, hidden, st);
    hide WF;
    EmittedBetween(k, |u.code|, plan.code, t);
    hide Leads;
    hide Extends;
    n := SnippetSteps(k, |u.code|, sn, ls, hidden, st, m);
    AheadSame(k.final, u, t);
    hide Ahead;
    hide M.Reaches;
  }

  /** Operators without control flow: the emitted code does what the operator means, and pays its cost. */
  lemma SimpleFollows(k: World, s: Translation, t: Translation, i: Instr, c: Ctx, below: seq<ValType>,
                      ls: seq<Value>, hidden: seq<Word>, st: seq<Value>, m: M.State, fuel: nat) returns (n: M.State)
    requires Fine(k) && View(s, c, below, ls, hidden, st) && k.from <= |s.code| && Leads(k, t)
    requires Simple(i) && CheckPlain(i, c, TypesOf(st)).Live? && VisitSimple(s, i) == Ok(t)
    requires Match(k, s, m, ls, hidden, st, fuel)
    ensures Follows(k, s.frames, t, m, n, hidden, Plain(i, ls, st), fuel + Paid(k, Cost(s.base, i)))
  {
    hide Fine;
    hide Match;
    hide PlanFor;
    hide CheckPlain;
    hide Plain;
    hide Follows;
    hide View;
    hide Leads;
    hide Extends;
    hide VisitSimple;
    hide Follow;
    hide WF;
    hide Bump;
    hide Cost;
    hide Implements;
    ViewGives(s, c, below, ls, hidden, st);
    FollowExtends(k, s, i, t);
    var u := Bump(s, Cost(s.base, i)).value;
    var plan := PlanFor(u, i).value;
    BumpMatch(k, s, u, Cost(s.base, i), c, below, ls, hidden, st, m, fuel);
    ViewGives(u, c, below, ls, hidden, st);
    SimpleNormal(i, c, ls, st);
    if Inline(i) {
      var p := PlanRuns(u, i, c, below, ls, hidden, st);
      n := InlineFollows(k, u, t, plan, p, i, ls, hidden, st, m, fuel + Paid(k, Cost(s.base, i)));
    } else {
      SnippetChecked(i, c, ls, st);
      n := SnippetFollows(k, u, t, plan, i.op.snippet, c, below, ls, hidden, st, m, fuel + Paid(k, Cost(s.base, i)));
    }
  }

  lemma ViewGives(s: Translation, c: Ctx, below: seq<ValType>, ls: seq<Value>, hidden: seq<Word>, st: seq<Value>)
    requires View(s, c, below, ls, hidden, st)
    ensures WF(s) && s.reachable && s.frames != [] && TypesOf(ls) == c.locals
  {
    hide WordsOf;
  }

  lemma FollowExtends(k: World, s: Translation, i: Instr, t: Translation)
    requires Simple(i) && s.reachable && VisitSimple(s, i) == Ok(t) && Leads(k, t)
    ensures var b := Bump(s, Cost(s.base, i));
            && b.Ok? && PlanFor(b.value, i).Ok? && t == Follow(b.value, PlanFor(b.value, i).value)
            && Extends(b.value, k.final)
  {
    hide PlanFor;
    hide Bump;
    hide Extends;
    var u := Bump(s, Cost(s.base, i)).value;
    hide Cost;
    AppendExtends(u, t);
    ExtendsTransitive(u, t, k.final);
  }

  lemma SnippetChecked(i: Instr, c: Ctx, ls: seq<Value>, st: seq<Value>)
    requires Simple(i) && !Inline(i) && CheckPlain(i, c, TypesOf(st)).Live?
    ensures i.Num? && i.op.I64Snippet? && EndsWith(TypesOf(st), [I64, I64])
  {
  }

  lemma SimpleNormal(i: Instr, c: Ctx, ls: seq<Value>, st: seq<Value>)
    requires TypesOf(ls) == c.locals && Simple(i) && CheckPlain(i, c, TypesOf(st)).Live?
    ensures Plain(i, ls, st).Normal? || Plain(i, ls, st).Trapped?
  {
    hide NumEval;
    PlainSound(i, c, ls, st);
    hide Fits;
  }
}
