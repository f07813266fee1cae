/** How the machine enters and leaves the code of blocks. */
module BlockRuns {
  import opened Words
  import O = Opcodes
  import M = Machine
  import Store
  import opened Source
  import opened Validation
  import opened Layout
  import opened Translator
  import opened Invariants
  import opened Frames
  import opened Progress
  import opened Control
  import opened Branches
  import opened Structure
  import opened Locals
  import opened Images
  import opened Simulation
  import opened BranchRuns

  /** The frame ends between `t1` and `t`: its end label lies there, and a fresh charge follows. */
  ghost predicate EndsAt(k: World, f: Frame, t1: Translation, t: Translation) {
    && !f.DeadFrame? && k.from <= |t1.code| && Leads(k, t)
    && t.metered == t1.metered && t.code == NewCharge(t1).code
    && LiveCharge(t) == (if t1.metered then O.Some(|t1.code|) else O.None)
    && (LiveCharge(t1).Some? ==> LiveCharge(t1).value < |t1.code|)
    && (!f.LoopFrame? ==> f.end < |k.final.labels| && k.final.labels[f.end] == O.Some(|t1.code|))
  }

  /** Everything is paid, and the machine stands at position `at` with the given window. */
  ghost predicate Stands(k: World, at: nat, m: M.State, ls: seq<Value>, hidden: seq<Word>, st: seq<Value>, fuel: nat) {
    && m.pc == k.off + at && m.stack == k.caller + Window(ls, hidden, st)
    && Ready(k, m) && m.fuel == Store.Saturate(fuel)
  }

  lemma WindowUnder(ls: seq<Value>, hidden: seq<Word>, under: seq<Value>, st: seq<Value>)
    ensures Window(ls, hidden, under + st) == Window(ls, hidden + Flat(under), st)
  {
    hide Flat;
    FlatAppend(under, st);
    Regroup4(Flat(ls), hidden, Flat(under), Flat(st));
  }

  lemma Regroup4(a: seq<Word>, b: seq<Word>, c: seq<Word>, d: seq<Word>)
    ensures a + b + (c + d) == a + (b + c) + d
  {
  }

  /** Executing the fresh charge behind a block. */
  lemma Arrives(k: World, t1: Translation, t: Translation, f: Frame, m: M.State, m1: M.State,
                ls: seq<Value>, hidden: seq<Word>, under: seq<Value>, st: seq<Value>, fuel: nat) returns (n: M.State)
    requires Fine(k) && EndsAt(k, f, t1, t)
    requires M.Reaches(k.c, m, M.Next(m1)) && Stands(k, |t1.code|, m1, ls, hidden + Flat(under), st, fuel)
    ensures M.Reaches(k.c, m, M.Next(n)) && Match(k, t, n, ls, hidden, under + st, fuel)
  {
    hide Window;
    hide Fine;
    hide M.Reaches;
    hide Leads;
    WindowUnder(ls, hidden, under, st);
    ChargeRuns(k, t1, t, m1, fuel);
    n := m1.(pc := k.off + |t.code|, fuel := Store.Saturate(fuel + Ahead(k.final, t)));
    hide Ahead;
    M.ReachesThen(k.c, m, m1, M.Next(n));
  }

  /** At the end of a body nothing is ahead of the charge any more. */
  lemma PaidAtEnd(k: World, t1: Translation, t: Translation, f: Frame, m: M.State, ls: seq<Value>, hidden: seq<Word>,
                  st: seq<Value>, fuel: nat)
    requires EndsAt(k, f, t1, t) && Match(k, t1, m, ls, hidden, st, fuel)
    ensures Stands(k, |t1.code|, m, ls, hidden, st, fuel)
  {
    hide Window;
    AheadSpent(k.final, t1, t);
  }

  /** A branch to the innermost label keeps all hidden words. */
  lemma AtInnermost(k: World, f: Frame, m: M.State, ls: seq<Value>, hidden: seq<Word>, st: seq<Value>, fuel: nat,
                    at: nat)
    requires AtLabel(k, f, m, ls, hidden, st, fuel) && k.final.paramWords + f.height == |Flat(ls)| + |hidden|
    requires k.final.labels[LabelOf(f)] == O.Some(at)
    ensures Stands(k, at, m, ls, hidden, Top(st, |LabelTypes(f)|), fuel)
  {
    hide Window;
    hide Flat;
    var b: nat :| Depth(k, f, ls, hidden, b) && m.stack == k.caller + Window(ls, hidden[..b], Top(st, |LabelTypes(f)|));
    assert hidden[..b] == hidden;
  }

  /** A branch out of the block lands where it would from outside. */
  lemma Outer(k: World, s: Translation, f: Frame, c: Ctx, below: seq<ValType>, ls: seq<Value>, hidden: seq<Word>,
              more: seq<Word>, d: nat, m: M.State, st: seq<Value>, fuel: nat)
    requires WF(s) && s.reachable && Placed(s, c, below) && TypesOf(ls) == c.locals
    requires WordsOf(below) == WordsOf(c.locals) + |hidden|
    requires k.final.paramWords == s.paramWords && d < |s.frames|
    requires Landed(k, s.frames + [f], d + 1, m, ls, hidden + more, st, fuel)
    ensures Landed(k, s.frames, d, m, ls, hidden, st, fuel)
  {
    hide WordsOf;
    hide Window;
    hide WF;
    var g := FrameAt(s, d);
    assert (s.frames + [f])[|s.frames| - 1 - d] == g;
    if d < |s.frames| - 1 {
      OuterDepth(k, s, c, below, ls, hidden, d);
      var n := |LabelTypes(g)|;
      var b: nat :| Depth(k, g, ls, hidden + more, b)
          && m.stack == k.caller + Window(ls, (hidden + more)[..b], Top(st, n));
      assert (hidden + more)[..b] == hidden[..b];
      assert Depth(k, g, ls, hidden, b);
    }
  }

  lemma OuterDepth(k: World, s: Translation, c: Ctx, below: seq<ValType>, ls: seq<Value>, hidden: seq<Word>, d: nat)
    requires Placed(s, c, below) && TypesOf(ls) == c.locals && WordsOf(below) == WordsOf(c.locals) + |hidden|
    requires k.final.paramWords == s.paramWords && d < |s.frames| - 1
    ensures |Flat(ls)| <= k.final.paramWords + FrameAt(s, d).height <= |Flat(ls)| + |hidden|
  {
    hide WordsOf;
  }

  /** The view of the surroundings of a block that stays the same while its body runs. */
  ghost predicate Around(k: World, s: Translation, c: Ctx, below: seq<ValType>, hidden: seq<Word>) {
    && WF(s) && s.reachable && Placed(s, c, below)
    && WordsOf(below) == WordsOf(c.locals) + |hidden| && k.final.paramWords == s.paramWords
  }

  /** What the result of a body must satisfy to be carried out of its block. */
  ghost predicate Carries(k: World, f: Frame, c: Ctx, hidden: seq<Word>, under: seq<Value>, arity: nat,
                          r: Source.Result) {
    && !f.DeadFrame?
    && k.final.paramWords + f.height == WordsOf(c.locals) + |hidden| + |Flat(under)|
    && (r.Normal? || r.Branching? ==> TypesOf(r.locals) == c.locals)
    && (r.Branching? && r.depth == 0 ==> !f.LoopFrame? && arity == |LabelTypes(f)|)
  }

  /** From the end of a body to behind its block. */
  lemma LeaveFollows(k: World, s: Translation, f: Frame, t1: Translation, t: Translation, c: Ctx, below: seq<ValType>,
                     hidden: seq<Word>, under: seq<Value>, arity: nat, m: M.State, m1: M.State, r: Source.Result,
                     fuel: nat)
    returns (n: M.State)
    requires Fine(k) && Around(k, s, c, below, hidden) && EndsAt(k, f, t1, t)
    requires Carries(k, f, c, hidden, under, arity, r)
    requires Follows(k, s.frames + [f], t1, m, m1, hidden + Flat(under), r, fuel)
    ensures Follows(k, s.frames, t, m, n, hidden, Unlabel(r, under, arity), fuel)
  {
    hide Fine;
    hide Window;
    hide M.Reaches;
    hide EndsAt;
    hide WordsOf;
    hide AtReturn;
    n := m1;
    match r
    case Normal(ls, st) =>
      hide Around;
      hide Match;
      hide Stands;
      PaidAtEnd(k, t1, t, f, m1, ls, hidden + Flat(under), st, fuel);
      n := Arrives(k, t1, t, f, m, m1, ls, hidden, under, st, fuel);
    case Branching(d, ls, st) => n := BranchLeaves(k, s, f, t1, t, c, below, hidden, under, arity, m, m1, r, fuel);
    case _ =>
  }

  lemma BranchLeaves(k: World, s: Translation, f: Frame, t1: Translation, t: Translation, c: Ctx, below: seq<ValType>,
                     hidden: seq<Word>, under: seq<Value>, arity: nat, m: M.State, m1: M.State, r: Source.Result,
                     fuel: nat)
    returns (n: M.State)
    requires Fine(k) && Around(k, s, c, below, hidden) && EndsAt(k, f, t1, t)
    requires Carries(k, f, c, hidden, under, arity, r)
    requires r.Branching? && Follows(k, s.frames + [f], t1, m, m1, hidden + Flat(under), r, fuel)
    ensures Follows(k, s.frames, t, m, n, hidden, Unlabel(r, under, arity), fuel)
  {
    hide Fine;
    hide Window;
    hide M.Reaches;
    hide WordsOf;
    hide AtReturn;
    hide Match;
    n := m1;
    var Branching(d, ls, st) := r;
    if d == 0 {
      hide Depth;
      hide Leads;
      assert s.frames != [];
      hide Around;
      assert (s.frames + [f])[|s.frames|] == f;
      AtInnermost(k, f, m1, ls, hidden + Flat(under), st, fuel, |t1.code|);
      hide AtLabel;
      n := Arrives(k, t1, t, f, m, m1, ls, hidden, under, Top(st, arity), fuel);
    } else {
      hide EndsAt;
      Outer(k, s, f, c, below, ls, hidden, Flat(under), d - 1, m1, st, fuel);
    }
  }

  // ----- entering -----

  /** Inside the block the operands below its parameters are hidden. */
  lemma EnterView(k: World, s: Translation, e: Translation, f: Frame, c: Ctx, lab: seq<ValType>, below: seq<ValType>,
                  ls: seq<Value>, hidden: seq<Word>, st: seq<Value>)
    requires Around(k, s, c, below, hidden) && TypesOf(ls) == c.locals && EndsWith(TypesOf(st), Params(f.bt))
    requires Entered(s, e, f, c, lab, Under(below, TypesOf(st), Params(f.bt)))
    ensures |Params(f.bt)| <= |st|
    ensures var under, args := Below(st, |Params(f.bt)|), Top(st, |Params(f.bt)|);
            && View(e, Enter(c, lab), Under(below, TypesOf(st), Params(f.bt)), ls, hidden + Flat(under), args)
            && k.final.paramWords + f.height == WordsOf(c.locals) + |hidden| + |Flat(under)|
            && Window(ls, hidden, st) == Window(ls, hidden + Flat(under), args)
            && TypesOf(args) == Params(f.bt)
  {
    hide WordsOf;
    hide At;
    hide Extends;
    hide WF;
    hide Placed;
    var n := |Params(f.bt)|;
    var under, args := Below(st, n), Top(st, n);
    TypesOfSplit(st, n);
    WindowUnder(ls, hidden, under, args);
    assert under + args == st;
    WordsAppend(below, TypesOf(under));
    hide Window;
    hide Flat;
  }

  lemma ViewAround(k: World, s: Translation, c: Ctx, below: seq<ValType>, ls: seq<Value>, hidden: seq<Word>,
                   st: seq<Value>)
    requires View(s, c, below, ls, hidden, st) && k.final.paramWords == s.paramWords
    ensures Around(k, s, c, below, hidden) && TypesOf(ls) == c.locals && s.frames != []
  {
    hide WF;
    hide WordsOf;
  }

  /** Where the end of a validated body lies. */
  lemma BodyEnds(k: World, s: Translation, e: Translation, t1: Translation, t: Translation, f: Frame, c: Ctx,
                 lab: seq<ValType>, below: seq<ValType>, flow: Flow)
    requires e.frames == s.frames + [f] && Entered(s, e, f, c, lab, below) && Good(e, t1, below, flow)
    requires Ended(t1, below, t) && Leads(k, t) && k.from <= |s.code|
    ensures EndsAt(k, f, t1, t) && Leads(k, t1) && Leads(k, e) && k.from <= |e.code|
    ensures f.IfFrame? && f.thenReachable.None? ==>
            f.els < |k.final.labels| && k.final.labels[f.els] == O.Some(|t1.code|)
  {
    hide WordsOf;
    hide WF;
    hide At;
    hide Leads;
    hide Extends;
    BodyLeads(k, s, e, t1, t, f, c, lab, below, flow);
    ChargeInside(t1);
    FrameKept(s, e, t1, f, below, flow);
    Labelled(k, t1, t, f, below);
    Grows3(s, e, t1);
  }

  /** The innermost frame is the same at the end of its body. */
  lemma FrameKept(s: Translation, e: Translation, t1: Translation, f: Frame, below: seq<ValType>, flow: Flow)
    requires e.frames == s.frames + [f] && Good(e, t1, below, flow)
    ensures |t1.frames| == |s.frames| + 1 && SameFrame(f, t1.frames[|s.frames|]) && t1.metered == e.metered
  {
    hide WF;
    hide CodeExtends;
    hide LabelsExtend;
  }

  /** The open labels of a frame that has ended lie at its end, in the finished translation too. */
  lemma Labelled(k: World, t1: Translation, t: Translation, f: Frame, below: seq<ValType>)
    requires t1.frames != [] && SameFrame(f, t1.frames[|t1.frames| - 1]) && Ended(t1, below, t) && Leads(k, t)
    ensures forall l :: l in Opens(f) ==> l < |k.final.labels| && k.final.labels[l] == O.Some(|t1.code|)
    ensures t.metered == t1.metered
    ensures !f.DeadFrame? && !f.LoopFrame? ==> f.end in Opens(f)
    ensures f.IfFrame? && f.thenReachable.None? ==> f.els in Opens(f)
  {
    hide WF;
    hide CodeExtends;
    var g := t1.frames[|t1.frames| - 1];
    assert Opens(g) == Opens(f);
    forall l | l in Opens(f) ensures l < |k.final.labels| && k.final.labels[l] == O.Some(|t1.code|) {
      assert l in Opens(g);
    }
  }

  lemma BodyLeads(k: World, s: Translation, e: Translation, t1: Translation, t: Translation, f: Frame, c: Ctx,
                  lab: seq<ValType>, below: seq<ValType>, flow: Flow)
    requires e.frames == s.frames + [f] && Entered(s, e, f, c, lab, below) && Good(e, t1, below, flow)
    requires Ended(t1, below, t) && Leads(k, t) && k.from <= |s.code|
    ensures Leads(k, t1) && Leads(k, e)
  {
    hide WF;
    hide At;
    ExtendsTransitive(t1, t, k.final);
    ExtendsTransitive(e, t1, k.final);
    Grows3(s, e, t1);
    hide Extends;
  }

  lemma Grows3(s: Translation, e: Translation, t1: Translation)
    requires Extends(s, e) && Extends(e, t1)
    ensures |s.code| <= |e.code| <= |t1.code|
  {
  }

  /** A block starts without any code. */
  lemma BlockMatch(k: World, s: Translation, e: Translation, m: M.State, ls: seq<Value>, hidden: seq<Word>,
                   st: seq<Value>, hidden': seq<Word>, args: seq<Value>, fuel: nat)
    requires Match(k, s, m, ls, hidden, st, fuel) && e.code == s.code && LiveCharge(e) == LiveCharge(s) && WF(s)
    requires Window(ls, hidden, st) == Window(ls, hidden', args)
    ensures Match(k, e, m, ls, hidden', args, fuel)
  {
    hide Window;
    ChargeInside(s);
    hide WF;
    AheadSame(k.final, s, e);
    hide Ahead;
  }

  /** Bumping the charge of an operator behind which another charge takes over. */
  lemma BumpSpent(f: Translation, s: Translation, u: Translation, delta: nat, t: Translation)
    requires WF(s) && s.reachable && s.frames != [] && Bump(s, delta) == Ok(u)
    requires u.code <= t.code && Extends(t, f) && (LiveCharge(t).Some? ==> LiveCharge(t).value >= |u.code|)
    requires t.metered == s.metered
    ensures Ahead(f, s) == if f.metered then delta else 0
  {
    assert FrameOK(s, s.frames[|s.frames| - 1]);
    if s.metered {
      var at := LiveCharge(s).value;
      assert Grown(false, t.code[at], f.code[at]);
    }
  }

  /** The conditional jump of an `if`: into the first branch, or to the other label. */
  lemma IfTest(k: World, s: Translation, u: Translation, e: Translation, f: Frame, ls: seq<Value>, hidden: seq<Word>,
               st: seq<Value>, x: Word, m: M.State, fuel: nat)
    returns (n: M.State)
    requires Fine(k) && WF(s) && s.reachable && s.frames != [] && k.from <= |s.code| && Leads(k, e)
    requires Bump(s, s.base) == Ok(u) && f.IfFrame? && e.code == NewCharge(Emit(u, [Jump(O.IfEqz, f.els)])).code
    requires e.metered == s.metered && LiveCharge(e) == (if s.metered then O.Some(|s.code| + 1) else O.None)
    requires m.pc == k.off + |s.code| && m.stack == k.caller + Window(ls, hidden, st) + [x] && Ready(k, m)
    requires m.fuel == Store.Saturate(fuel + Ahead(k.final, s))
    ensures M.Reaches(k.c, m, M.Next(n))
    ensures x != 0 ==> Match(k, e, n, ls, hidden, st, fuel + Paid(k, s.base))
    ensures x == 0 ==>
              && f.els < |k.final.labels| && k.final.labels[f.els].Some?
              && Stands(k, k.final.labels[f.els].value, n, ls, hidden, st, fuel + Paid(k, s.base))
  {
    hide Fine;
    IfJumpEmitted(k, s, u, e, f.els);
    hide WF;
    hide Bump;
    hide Leads;
    JumpRuns(k, m, |s.code|, O.IfEqz, f.els);
    hide Emitted;
    M.ReachesStep(k.c, m);
    hide M.Reaches;
    hide M.Step;
    assert m.stack[..|m.stack| - 1] == k.caller + Window(ls, hidden, st);
    hide Window;
    hide Ahead;
    if x == 0 {
      n := Tested(k, m, k.off + k.final.labels[f.els].value);
    } else {
      var m1 := Tested(k, m, m.pc + 1);
      var a := Emit(u, [Jump(O.IfEqz, f.els)]);
      ChargeRuns(k, a, e, m1, fuel + Paid(k, s.base));
      n := m1.(pc := k.off + |e.code|, fuel := Store.Saturate(fuel + Paid(k, s.base) + Ahead(k.final, e)));
      M.ReachesThen(k.c, m, m1, M.Next(n));
    }
  }

  lemma IfJumpEmitted(k: World, s: Translation, u: Translation, e: Translation, l: nat)
    requires WF(s) && s.reachable && s.frames != [] && k.from <= |s.code| && Leads(k, e)
    requires Bump(s, s.base) == Ok(u) && e.code == NewCharge(Emit(u, [Jump(O.IfEqz, l)])).code
    requires e.metered == s.metered && LiveCharge(e) == (if s.metered then O.Some(|s.code| + 1) else O.None)
    ensures Emitted(k, |s.code|, [Jump(O.IfEqz, l)]) && Ahead(k.final, s) == Paid(k, s.base) && |u.code| == |s.code|
    ensures u.metered == s.metered && k.from <= |s.code| + 1
    ensures e.metered ==> |e.code| == |s.code| + 2 && e.code[|s.code| + 1] == Op(O.ConsumeFuel(0))
    ensures !e.metered ==> |e.code| == |s.code| + 1 && e.code == Emit(u, [Jump(O.IfEqz, l)]).code
  {
    BumpKeeps(s, s.base);
    hide WF;
    BumpSpent(k.final, s, u, s.base, e);
    hide Bump;
    PrefixEmitted(k, u.code, [Jump(O.IfEqz, l)], u.code + [Jump(O.IfEqz, l)], e);
  }
}
