/** The simulation theorem: code emitted for a validated body follows the source semantics. */
module BodyRuns {
  import opened Words
  import O = Opcodes
  import M = Machine
  import Store
  import opened Source
  import opened Validation
  import opened Layout
  import opened Translator
  import opened Invariants
  import opened Frames
  import opened Progress
  import opened Control
  import opened Branches
  import opened Structure
  import opened Bodies
  import opened Locals
  import opened Images
  import opened Simulation
  import opened BranchRuns
  import opened BlockRuns
  import JumpTables
  import SimpleRuns

  // ----- operators that are not blocks -----

  predicate Flat1(i: Instr) { !i.Block? && !i.Loop? && !i.If? && !i.IfElse? }

  lemma PlainFollows(k: World, s: Translation, t: Translation, i: Instr, c: Ctx, below: seq<ValType>,
                     ls: seq<Value>, hidden: seq<Word>, st: seq<Value>, m: M.State, fuel: nat) returns (n: M.State)
    requires Fine(k) && View(s, c, below, ls, hidden, st) && k.from <= |s.code| && Leads(k, t) && k.results == c.results
    requires Flat1(i) && CheckPlain(i, c, TypesOf(st)) != Bad && TranslateInstr(s, i) == Ok(t)
    requires Match(k, s, m, ls, hidden, st, fuel)
    ensures Follows(k, s.frames, t, m, n, hidden, Plain(i, ls, st), fuel + Paid(k, Cost(s.base, i)))
  {
    hide Fine;
    hide View;
    hide Leads;
    hide Match;
    hide VisitSimple;
    hide VisitBr;
    hide VisitBrIf;
    hide VisitBrTable;
    hide VisitReturn;
    hide VisitUnreachable;
    hide Follows;
    hide At;
    PlainTranslated(s, i);
    hide TranslateInstr;
    PlainMeans(i, s.base, c, ls, st);
    hide Plain;
    hide CheckPlain;
    hide Cost;
    match i
    case Nop => n := NopFollows(k, s, m, ls, hidden, st, fuel);
    case Unreachable =>
      ViewReachable(s, c, below, ls, hidden, st);
      n := UnreachableFollows(k, s, t, c, below, ls, hidden, st, m, fuel);
    case Return => n := ReturnFollows(k, s, t, c, below, ls, hidden, st, m, fuel);
    case Br(d) => n := BrFollows(k, s, t, d, c, below, ls, hidden, st, m, fuel);
    case BrIf(d) => n := BrIfFollows(k, s, t, d, c, below, ls, hidden, st, m, fuel);
    case BrTable(ds, d) => n := JumpTables.BrTableFollows(k, s, t, ds, d, c, below, ls, hidden, st, m, fuel);
    case _ => n := SimpleFollowsAny(k, s, t, i, c, below, ls, hidden, st, m, fuel);
  }

  lemma PlainTranslated(s: Translation, i: Instr)
    requires Flat1(i)
    ensures i.Nop? ==> TranslateInstr(s, i) == Ok(s)
    ensures i.Unreachable? ==> TranslateInstr(s, i) == Ok(VisitUnreachable(s))
    ensures i.Return? ==> TranslateInstr(s, i) == VisitReturn(s)
    ensures i.Br? ==> TranslateInstr(s, i) == VisitBr(s, i.depth)
    ensures i.BrIf? ==> TranslateInstr(s, i) == VisitBrIf(s, i.depth)
    ensures i.BrTable? ==> TranslateInstr(s, i) == VisitBrTable(s, i.depths, i.default)
  {
    hide VisitSimple;
    hide VisitBr;
    hide VisitBrIf;
    hide VisitBrTable;
    hide VisitReturn;
    hide VisitUnreachable;
  }

  lemma PlainMeans(i: Instr, base: nat, c: Ctx, ls: seq<Value>, st: seq<Value>)
    requires Flat1(i) && CheckPlain(i, c, TypesOf(st)) != Bad
    ensures i.Nop? ==> Plain(i, ls, st) == Normal(ls, st) && Cost(base, i) == 0
    ensures i.Unreachable? ==> Plain(i, ls, st) == Trapped(O.UnreachableCodeReached) && Cost(base, i) == 0
    ensures i.Return? ==> Plain(i, ls, st) == Returned(st) && Cost(base, i) == 0 && EndsWith(TypesOf(st), c.results)
    ensures i.Br? || i.BrIf? || i.BrTable? ==> Cost(base, i) == base
    ensures i.Br? ==> Plain(i, ls, st) == Branching(i.depth, ls, st) && Targets(c, i.depth, TypesOf(st))
    ensures i.BrIf? || i.BrTable? ==> st != [] && TypesOf(st)[|st| - 1] == I32
    ensures i.BrIf? ==> Targets(c, i.depth, TypesOf(st)[..|st| - 1])
    ensures i.BrTable? ==> forall j :: j in i.depths + [i.default] ==> Targets(c, j, TypesOf(Below(st, 1)))
    ensures i.Nop? || i.Unreachable? || i.Return? || i.Br? || i.BrIf? || i.BrTable? || Simple(i)
  {
    hide Targets;
    TypesOfSplit1(st);
  }

  lemma SimpleFollowsAny(k: World, s: Translation, t: Translation, i: Instr, c: Ctx, below: seq<ValType>,
                         ls: seq<Value>, hidden: seq<Word>, st: seq<Value>, m: M.State, fuel: nat) returns (n: M.State)
    requires Fine(k) && View(s, c, below, ls, hidden, st) && k.from <= |s.code| && Leads(k, t)
    requires Simple(i) && CheckPlain(i, c, TypesOf(st)) != Bad && TranslateInstr(s, i) == Ok(t)
    requires Match(k, s, m, ls, hidden, st, fuel)
    ensures Follows(k, s.frames, t, m, n, hidden, Plain(i, ls, st), fuel + Paid(k, Cost(s.base, i)))
  {
    SimpleTranslated(s, i);
    SimpleLive(i, c, TypesOf(st));
    hide CheckPlain;
    hide TranslateInstr;
    hide Plain;
    hide Match;
    hide Follows;
    hide Fine;
    hide View;
    hide Leads;
    n := SimpleFollows(k, s, t, i, c, below, ls, hidden, st, m, fuel);
  }

  lemma SimpleTranslated(s: Translation, i: Instr)
    requires Simple(i)
    ensures TranslateInstr(s, i) == VisitSimple(s, i)
  {
    hide VisitSimple;
  }

  lemma SimpleLive(i: Instr, c: Ctx, ts: seq<ValType>)
    requires Simple(i) && CheckPlain(i, c, ts) != Bad
    ensures CheckPlain(i, c, ts).Live?
  {
  }

  lemma TypesOfSplit1(st: seq<Value>)
    ensures |TypesOf(st)| == |st|
    ensures st != [] ==> TypesOf(Below(st, 1)) == TypesOf(st)[..|st| - 1]
  {
    if st != [] {
      TypesOfSplit(st, 1);
    }
  }

  lemma ViewReachable(s: Translation, c: Ctx, below: seq<ValType>, ls: seq<Value>, hidden: seq<Word>, st: seq<Value>)
    requires View(s, c, below, ls, hidden, st)
    ensures s.reachable && s.frames != []
  {
    hide WF;
    hide WordsOf;
  }

  lemma NopFollows(k: World, s: Translation, m: M.State, ls: seq<Value>, hidden: seq<Word>, st: seq<Value>, fuel: nat)
    returns (n: M.State)
    requires Match(k, s, m, ls, hidden, st, fuel)
    ensures Follows(k, s.frames, s, m, n, hidden, Normal(ls, st), fuel + Paid(k, 0))
  {
    n := m;
    M.ReachesStep(k.c, m);
  }

  // ----- one after another -----

  lemma SameLanded(k: World, fs: seq<Frame>, gs: seq<Frame>, d: nat, m: M.State, ls: seq<Value>, hidden: seq<Word>,
                   st: seq<Value>, fuel: nat)
    requires |fs| == |gs| && forall j :: 0 <= j < |fs| ==> SameFrame(fs[j], gs[j])
    requires Landed(k, gs, d, m, ls, hidden, st, fuel)
    ensures Landed(k, fs, d, m, ls, hidden, st, fuel)
  {
    hide Window;
    hide AtReturn;
    var f, g := fs[|fs| - 1 - d], gs[|fs| - 1 - d];
    assert SameFrame(f, g);
    if d < |fs| - 1 {
      assert LabelOf(f) == LabelOf(g) && LabelTypes(f) == LabelTypes(g);
      var n := |LabelTypes(g)|;
      var b: nat :| Depth(k, g, ls, hidden, b) && m.stack == k.caller + Window(ls, hidden[..b], Top(st, n));
      assert Depth(k, f, ls, hidden, b);
    }
  }

  lemma KeptFrames(s: Translation, t: Translation)
    requires Kept(s, t)
    ensures |s.frames| == |t.frames| && forall j :: 0 <= j < |s.frames| ==> SameFrame(s.frames[j], t.frames[j])
  {
    forall j | 0 <= j < |s.frames| ensures SameFrame(s.frames[j], t.frames[j]) {
      if j < |s.frames| - 1 {
        assert s.frames[..|s.frames| - 1][j] == t.frames[..|s.frames| - 1][j];
      }
    }
  }

  /** A run followed by another one. */
  lemma ChainFollows(k: World, s: Translation, t1: Translation, t: Translation, m: M.State, m1: M.State, m2: M.State,
                     hidden: seq<Word>, r: Source.Result, fuel: nat)
    requires Kept(s, t1) && M.Reaches(k.c, m, M.Next(m1)) && Follows(k, t1.frames, t, m1, m2, hidden, r, fuel)
    ensures Follows(k, s.frames, t, m, m2, hidden, r, fuel)
  {
    KeptFrames(s, t1);
    hide Kept;
    hide Landed;
    hide Match;
    hide AtReturn;
    hide M.Reaches;
    match r
    case Normal(ls, st) => M.ReachesThen(k.c, m, m1, M.Next(m2));
    case Branching(d, ls, st) =>
      JumpedAfter(k, t1.frames, d, m, m1, m2);
      SameLanded(k, s.frames, t1.frames, d, m2, ls, hidden, st, fuel);
    case Returned(st) => M.ReachesThen(k.c, m, m1, M.Next(m2));
    case Trapped(trap) => M.ReachesThen(k.c, m, m1, M.Next(m2));
    case Timeout(rounds) => M.ReachesTakes(k.c, m, m1, rounds, m2);
  }

  /** What the first operator leaves for the rest of the code. */
  lemma RestLeads(k: World, s: Translation, t1: Translation, t: Translation, c: Ctx, below: seq<ValType>,
                  ts: seq<ValType>, code: seq<Instr>)
    requires At(s, c, below, ts) && code != [] && Check(code, c, ts) != Bad && k.from <= |s.code|
    requires TranslateInstr(s, code[0]) == Ok(t1) && Translate(t1, code[1..]) == Ok(t) && Leads(k, t)
    ensures Good(s, t1, below, CheckInstr(code[0], c, ts)) && Leads(k, t1) && t1.base == s.base && Kept(s, t1)
    ensures CheckInstr(code[0], c, ts).Live? ==> At(t1, c, below, CheckInstr(code[0], c, ts).types)
  {
    hide WordsOf;
    hide WF;
    LiveInstr(s, c, below, ts, code[0]);
    var f := CheckInstr(code[0], c, ts);
    if f.Live? {
      GoodAt(s, t1, c, below, f.types);
      hide At;
      LiveTranslate(t1, c, below, f.types, code[1..]);
    } else {
      DeadTail(t1, code[1..], below);
    }
    hide Translate;
    hide TranslateInstr;
    hide CheckInstr;
    ExtendsTransitive(t1, t, k.final);
    hide Kept;
    hide CodeExtends;
    assert |s.code| <= |t1.code| by { assert CodeExtends(s, t1); CodeGrows(s, t1); }
  }

  lemma CodeGrows(s: Translation, t: Translation)
    requires Extends(s, t)
    ensures |s.code| <= |t.code|
  {
  }

  /** The simulation theorem. Following the source, the machine reaches the end of the code, the label or the
      return a branch leads to, or the trap; the stack holds the flattened source state, and the fuel charged
      is the cost of the executed source operators. */
  lemma {:induction false} Runs(k: World, n: nat, s: Translation, t: Translation, code: seq<Instr>, c: Ctx,
                                below: seq<ValType>, ls: seq<Value>, hidden: seq<Word>, st: seq<Value>, m: M.State,
                                fuel: nat)
    returns (m2: M.State)
    requires Fine(k) && View(s, c, below, ls, hidden, st) && k.from <= |s.code| && Leads(k, t) && k.results == c.results
    requires Check(code, c, TypesOf(st)) != Bad && Translate(s, code) == Ok(t)
    requires Match(k, s, m, ls, hidden, st, fuel)
    ensures var r := Exec(s.base, n, code, ls, st);
            Follows(k, s.frames, t, m, m2, hidden, r.result, fuel + Paid(k, r.cost))
    decreases n, code, 0, 1
  {
    hide Fine;
    hide View;
    hide Match;
    hide Leads;
    hide Follows;
    hide ExecInstr;
    hide CheckInstr;
    hide TranslateInstr;
    hide Kept;
    hide Good;
    hide At;
    if code == [] {
      m2 := NopFollows(k, s, m, ls, hidden, st, fuel);
    } else {
      var t1 := TranslateInstr(s, code[0]).value;
      RestLeadsHere(k, s, t1, t, c, below, ls, hidden, st, code);
      var m1 := RunsInstr(k, n, s, t1, code[0], c, below, ls, hidden, st, m, fuel);
      var r := ExecInstr(s.base, n, code[0], ls, st);
      if r.result.Normal? {
        NextView(k, s, t1, c, below, ls, hidden, st, code[0], n, m, m1, fuel + Paid(k, r.cost));
        m2 := Runs(k, n, t1, t, code[1..], c, below, r.result.locals, hidden, r.result.stack, m1,
                   fuel + Paid(k, r.cost));
        ChainFollows(k, s, t1, t, m, m1, m2, hidden, Exec(s.base, n, code[1..], r.result.locals, r.result.stack).result,
                     fuel + Paid(k, r.cost) + Paid(k, Exec(s.base, n, code[1..], r.result.locals,
                                                           r.result.stack).cost));
      } else {
        m2 := m1;
        EarlyFollows(k, s.frames, t1, t, m, m1, hidden, r.result, fuel + Paid(k, r.cost));
      }
    }
  }

  /** Results that do not go on do not depend on where the code ends. */
  lemma EarlyFollows(k: World, frames: seq<Frame>, t1: Translation, t: Translation, m: M.State, n: M.State,
                     hidden: seq<Word>, r: Source.Result, fuel: nat)
    requires Follows(k, frames, t1, m, n, hidden, r, fuel) && !r.Normal?
    ensures Follows(k, frames, t, m, n, hidden, r, fuel)
  {
  }

  lemma RestLeadsHere(k: World, s: Translation, t1: Translation, t: Translation, c: Ctx, below: seq<ValType>,
                      ls: seq<Value>, hidden: seq<Word>, st: seq<Value>, code: seq<Instr>)
    requires View(s, c, below, ls, hidden, st) && code != [] && Check(code, c, TypesOf(st)) != Bad && k.from <= |s.code|
    requires TranslateInstr(s, code[0]) == Ok(t1) && Translate(t1, code[1..]) == Ok(t) && Leads(k, t)
    ensures Good(s, t1, below, CheckInstr(code[0], c, TypesOf(st))) && Leads(k, t1) && t1.base == s.base && Kept(s, t1)
    ensures k.from <= |t1.code| && CheckInstr(code[0], c, TypesOf(st)) != Bad
    ensures CheckInstr(code[0], c, TypesOf(st)).Live? ==> At(t1, c, below, CheckInstr(code[0], c, TypesOf(st)).types)
  {
    hide WordsOf;
    hide At;
    hide Good;
    hide Kept;
    hide Extends;
    RestLeads(k, s, t1, t, c, below, TypesOf(st), code);
  }

  /** After an operator that completes, the rest of the code sees its result. */
  lemma NextView(k: World, s: Translation, t1: Translation, c: Ctx, below: seq<ValType>, ls: seq<Value>,
                 hidden: seq<Word>, st: seq<Value>, i: Instr, n: nat, m: M.State, m1: M.State, fuel: nat)
    requires View(s, c, below, ls, hidden, st) && CheckInstr(i, c, TypesOf(st)) != Bad
    requires CheckInstr(i, c, TypesOf(st)).Live? ==> At(t1, c, below, CheckInstr(i, c, TypesOf(st)).types)
    requires ExecInstr(s.base, n, i, ls, st).result.Normal?
    requires Follows(k, s.frames, t1, m, m1, hidden, ExecInstr(s.base, n, i, ls, st).result, fuel)
    ensures var r := ExecInstr(s.base, n, i, ls, st).result;
            && CheckInstr(i, c, TypesOf(st)) == Live(TypesOf(r.stack))
            && View(t1, c, below, r.locals, hidden, r.stack) && Match(k, t1, m1, r.locals, hidden, r.stack, fuel)
            && M.Reaches(k.c, m, M.Next(m1))
  {
    hide At;
    hide WordsOf;
    hide Match;
    SoundInstr(s.base, n, i, c, ls, st);
    hide ExecInstr;
    hide CheckInstr;
  }

  // ----- blocks -----

  /** A frame has been entered, its body translated to `t1`, and ended in `t`. */
  ghost predicate Enclosing(k: World, s: Translation, e: Translation, t1: Translation, t: Translation, f: Frame,
                            c: Ctx, lab: seq<ValType>, below: seq<ValType>, hidden: seq<Word>, body: seq<Instr>) {
    && s.frames != [] && e.frames == s.frames + [f]
    && Around(k, s, c, below, hidden) && k.from <= |s.code| && Leads(k, t) && k.results == c.results
    && Translate(e, body) == Ok(t1) && VisitEnd(t1) == Ok(t)
  }

  /** What the validator says about a body, given the operands of its block. */
  ghost predicate Checked(bt: BlockType, body: seq<Instr>, lab: seq<ValType>, c: Ctx, ls: seq<Value>, st: seq<Value>) {
    CheckBody(bt, body, lab, c, TypesOf(st)) != Bad && TypesOf(ls) == c.locals
  }

  lemma EnclosedFacts(k: World, s: Translation, e: Translation, t1: Translation, t: Translation, f: Frame, c: Ctx,
                      lab: seq<ValType>, below: seq<ValType>, ls: seq<Value>, hidden: seq<Word>, st: seq<Value>,
                      body: seq<Instr>)
    requires Enclosing(k, s, e, t1, t, f, c, lab, below, hidden, body) && Checked(f.bt, body, lab, c, ls, st)
    requires EndsWith(TypesOf(st), Params(f.bt)) ==> Entered(s, e, f, c, lab, Under(below, TypesOf(st), Params(f.bt)))
    ensures |Params(f.bt)| <= |st| && EndsWith(TypesOf(st), Params(f.bt))
    ensures var under, args := Below(st, |Params(f.bt)|), Top(st, |Params(f.bt)|);
            && View(e, Enter(c, lab), Under(below, TypesOf(st), Params(f.bt)), ls, hidden + Flat(under), args)
            && k.final.paramWords + f.height == WordsOf(c.locals) + |hidden| + |Flat(under)|
            && Window(ls, hidden, st) == Window(ls, hidden + Flat(under), args)
            && TypesOf(args) == Params(f.bt)
    ensures Check(body, Enter(c, lab), Params(f.bt)) in {Dead, Live(Results(f.bt))}
    ensures EndsAt(k, f, t1, t) && Leads(k, t1) && Leads(k, e) && k.from <= |e.code|
    ensures f.IfFrame? && f.thenReachable.None? ==>
            f.els < |k.final.labels| && k.final.labels[f.els] == O.Some(|t1.code|)
  {
    hide WordsOf;
    hide Around;
    hide Leads;
    hide At;
    hide View;
    hide Translate;
    hide VisitEnd;
    hide Good;
    hide Ended;
    hide EndsAt;
    hide Window;
    BodyFits(f.bt, body, lab, c, TypesOf(st));
    BodyFlow(f.bt, body, lab, c, TypesOf(st));
    hide Entered;
    EnterView(k, s, e, f, c, lab, below, ls, hidden, st);
    LiveBody(s, e, c, below, TypesOf(st), f.bt, lab, body);
    hide CheckBody;
    BodyEnds(k, s, e, t1, t, f, c, lab, Under(below, TypesOf(st), Params(f.bt)),
             Check(body, Enter(c, lab), Params(f.bt)));
  }

  lemma BodyFlow(bt: BlockType, body: seq<Instr>, lab: seq<ValType>, c: Ctx, ts: seq<ValType>)
    requires CheckBody(bt, body, lab, c, ts) != Bad
    ensures Check(body, Enter(c, lab), Params(bt)) in {Dead, Live(Results(bt))}
  {
    hide Check;
  }

  lemma CarriesBody(k: World, n: nat, base: nat, body: seq<Instr>, f: Frame, c: Ctx, ls: seq<Value>, hidden: seq<Word>,
                    under: seq<Value>, args: seq<Value>)
    requires !f.DeadFrame? && !f.LoopFrame? && TypesOf(ls) == c.locals && TypesOf(args) == Params(f.bt)
    requires Check(body, Enter(c, Results(f.bt)), Params(f.bt)) != Bad
    requires k.final.paramWords + f.height == WordsOf(c.locals) + |hidden| + |Flat(under)|
    ensures Carries(k, f, c, hidden, under, |Results(f.bt)|, Exec(base, n, body, ls, args).result)
  {
    hide WordsOf;
    hide Flat;
    Sound(base, n, body, Enter(c, Results(f.bt)), ls, args);
    hide Check;
    hide Exec;
  }

  /** A body entered with its parameters on top, up to behind its end. */
  lemma {:induction false} RunsBody(k: World, n: nat, s: Translation, e: Translation, t1: Translation, t: Translation,
                                    f: Frame, body: seq<Instr>, c: Ctx, below: seq<ValType>, ls: seq<Value>,
                                    hidden: seq<Word>, st: seq<Value>, m: M.State, fuel: nat)
    returns (m2: M.State)
    requires Fine(k) && Enclosing(k, s, e, t1, t, f, c, Results(f.bt), below, hidden, body)
    requires Checked(f.bt, body, Results(f.bt), c, ls, st) && |Params(f.bt)| <= |st| && !f.LoopFrame?
    requires Entered(s, e, f, c, Results(f.bt), Under(below, TypesOf(st), Params(f.bt)))
    requires Match(k, e, m, ls, hidden + Flat(Below(st, |Params(f.bt)|)), Top(st, |Params(f.bt)|), fuel)
    ensures var r := ExecBlock(e.base, n, f.bt, body, ls, st);
            Follows(k, s.frames, t, m, m2, hidden, r.result, fuel + Paid(k, r.cost))
    decreases n, body, 1, 0
  {
    hide Fine;
    hide WordsOf;
    hide Flat;
    hide Around;
    hide Leads;
    hide View;
    hide Match;
    hide EndsAt;
    hide Carries;
    hide Follows;
    hide Window;
    hide Check;
    hide CheckBody;
    hide At;
    hide Exec;
    EnclosedFacts(k, s, e, t1, t, f, c, Results(f.bt), below, ls, hidden, st, body);
    assert !f.DeadFrame? by { hide WF; }
    hide Entered;
    var p := |Params(f.bt)|;
    var under, args, d := Below(st, p), Top(st, p), Enter(c, Results(f.bt));
    var m1 := Runs(k, n, e, t1, body, d, Under(below, TypesOf(st), Params(f.bt)), ls, hidden + Flat(under), args, m,
                   fuel);
    CarriesBody(k, n, e.base, body, f, c, ls, hidden, under, args);
    hide Translate;
    hide VisitEnd;
    hide Exec;
    var r := Exec(e.base, n, body, ls, args);
    m2 := LeaveFollows(k, s, f, t1, t, c, below, hidden, under, |Results(f.bt)|, m, m1, r.result,
                       fuel + Paid(k, r.cost));
  }

  // ----- loops -----

  /** A loop frame whose label sits in front of its charge. */
  ghost predicate LoopPlaced(k: World, s: Translation, e: Translation, f: Frame) {
    && f.LoopFrame? && s.frames != [] && e.frames == s.frames + [f]
    && k.from <= |s.code| && Leads(k, e)
    && e.metered == s.metered && e.code == NewCharge(s).code
    && LiveCharge(e) == (if s.metered then O.Some(|s.code|) else O.None)
    && f.head < |k.final.labels| && k.final.labels[f.head] == O.Some(|s.code|)
  }

  lemma LoopCharges(k: World, s: Translation, e: Translation, f: Frame, m: M.State, ls: seq<Value>, hidden: seq<Word>,
                    args: seq<Value>, fuel: nat)
    returns (n: M.State)
    requires Fine(k) && LoopPlaced(k, s, e, f) && Stands(k, |s.code|, m, ls, hidden, args, fuel)
    ensures M.Reaches(k.c, m, M.Next(n)) && Match(k, e, n, ls, hidden, args, fuel)
  {
    hide Fine;
    hide Window;
    hide Leads;
    ChargeRuns(k, s, e, m, fuel);
    n := m.(pc := k.off + |e.code|, fuel := Store.Saturate(fuel + Ahead(k.final, e)));
    hide Ahead;
  }

  /** A branch to the loop's own label arrives in front of the charge again. */
  lemma LoopAgain(k: World, s: Translation, e: Translation, f: Frame, t1: Translation, c: Ctx, below: seq<ValType>,
                  bt: BlockType, body: seq<Instr>, n: nat, ls: seq<Value>, hidden: seq<Word>, args: seq<Value>,
                  m: M.State, m1: M.State, fuel: nat)
    requires LoopPlaced(k, s, e, f) && f.bt == bt && View(e, Enter(c, Params(bt)), below, ls, hidden, args)
    requires k.final.paramWords + f.height == WordsOf(c.locals) + |hidden| && TypesOf(args) == Params(bt)
    requires Check(body, Enter(c, Params(bt)), Params(bt)) != Bad
    requires var r := Exec(e.base, n, body, ls, args).result;
             r.Branching? && r.depth == 0 && Follows(k, e.frames, t1, m, m1, hidden, r, fuel)
    ensures var r := Exec(e.base, n, body, ls, args).result;
            && |Params(bt)| <= |r.stack| && M.Takes(k.c, m, 1, m1) && M.Reaches(k.c, m, M.Next(m1))
            && TypesOf(Top(r.stack, |Params(bt)|)) == Params(bt)
            && View(e, Enter(c, Params(bt)), below, r.locals, hidden, Top(r.stack, |Params(bt)|))
            && Stands(k, |s.code|, m1, r.locals, hidden, Top(r.stack, |Params(bt)|), fuel)
  {
    hide WordsOf;
    hide At;
    hide Window;
    hide Flat;
    hide Leads;
    hide Stands;
    hide AtLabel;
    hide M.Reaches;
    Sound(e.base, n, body, Enter(c, Params(bt)), ls, args);
    var r := Exec(e.base, n, body, ls, args).result;
    hide Exec;
    hide Check;
    TypesOfSplit(r.stack, |Params(bt)|);
    hide TypesOf;
    assert e.frames[|e.frames| - 1] == f;
    AtInnermost(k, f, m1, r.locals, hidden, r.stack, fuel, |s.code|);
  }

  /** All iterations of a loop; every one of them pays for itself at its head. */
  lemma {:induction false} RunsLoop(k: World, n: nat, s: Translation, e: Translation, t1: Translation, f: Frame,
                                    bt: BlockType, body: seq<Instr>, c: Ctx, below: seq<ValType>, ls: seq<Value>,
                                    hidden: seq<Word>, args: seq<Value>, m: M.State, fuel: nat)
    returns (m2: M.State)
    requires Fine(k) && LoopPlaced(k, s, e, f) && f.bt == bt && k.results == c.results
    requires View(e, Enter(c, Params(bt)), below, ls, hidden, args) && TypesOf(args) == Params(bt)
    requires k.final.paramWords + f.height == WordsOf(c.locals) + |hidden|
    requires Check(body, Enter(c, Params(bt)), Params(bt)) != Bad && Translate(e, body) == Ok(t1) && Leads(k, t1)
    requires Stands(k, |s.code|, m, ls, hidden, args, fuel)
    ensures var r := ExecLoop(e.base, n, bt, body, ls, args);
            Follows(k, e.frames, t1, m, m2, hidden, r.result, fuel + Paid(k, r.cost))
    decreases n, body, 1, 0
  {
    hide Fine;
    hide WordsOf;
    hide View;
    hide Match;
    hide Check;
    hide Follows;
    hide Stands;
    hide Leads;
    hide Translate;
    hide M.Reaches;
    hide Exec;
    var d := Enter(c, Params(bt));
    var m0 := LoopCharges(k, s, e, f, m, ls, hidden, args, fuel);
    InLoop(k, s, e, f);
    hide LoopPlaced;
    var m1 := Runs(k, n, e, t1, body, d, below, ls, hidden, args, m0, fuel);
    var r := Exec(e.base, n, body, ls, args);
    KeptSame(e, e);
    hide Kept;
    if r.result.Branching? && r.result.depth == 0 {
      LoopAgain(k, s, e, f, t1, c, below, bt, body, n, ls, hidden, args, m0, m1, fuel + Paid(k, r.cost));
      m2 := m1;
      M.ReachesTakes(k.c, m, m0, 1, m1);
      M.TakesReaches(k.c, m, 1, m1);
      if n > 0 {
        var again := Top(r.result.stack, |Params(bt)|);
        m2 := RunsLoop(k, n - 1, s, e, t1, f, bt, body, c, below, r.result.locals, hidden, again, m1,
                       fuel + Paid(k, r.cost));
        var q := ExecLoop(e.base, n - 1, bt, body, r.result.locals, again);
        hide ExecLoop;
        RoundFollows(k, e.frames, t1, m, m1, m2, hidden, q.result, fuel + Paid(k, r.cost) + Paid(k, q.cost));
      } else {
        TimedOut(k, |s.code|, e.frames, t1, m, m1, r.result.locals, hidden, Top(r.result.stack, |Params(bt)|),
                 fuel + Paid(k, r.cost));
      }
    } else {
      m2 := m1;
      ChainFollows(k, e, e, t1, m, m0, m1, hidden, r.result, fuel + Paid(k, r.cost));
    }
  }

  /** One more round in front of a run. */
  lemma RoundFollows(k: World, frames: seq<Frame>, t: Translation, m: M.State, m1: M.State, m2: M.State,
                     hidden: seq<Word>, r: Source.Result, fuel: nat)
    requires M.Takes(k.c, m, 1, m1) && Follows(k, frames, t, m1, m2, hidden, r, fuel)
    ensures Follows(k, frames, t, m, m2, hidden, Later(r), fuel)
  {
    M.TakesReaches(k.c, m, 1, m1);
    hide Landed;
    hide Match;
    hide AtReturn;
    hide M.Reaches;
    hide M.Takes;
    match r
    case Normal(ls, st) => M.ReachesThen(k.c, m, m1, M.Next(m2));
    case Branching(d, ls, st) => JumpedAfter(k, frames, d, m, m1, m2);
    case Returned(st) => M.ReachesThen(k.c, m, m1, M.Next(m2));
    case Trapped(trap) => M.ReachesThen(k.c, m, m1, M.Next(m2));
    case Timeout(rounds) => M.TakesThen(k.c, m, 1, m1, rounds, m2);
  }

  lemma TimedOut(k: World, at: nat, frames: seq<Frame>, t: Translation, m: M.State, n: M.State,
                 ls: seq<Value>, hidden: seq<Word>, st: seq<Value>, fuel: nat)
    requires M.Reaches(k.c, m, M.Next(n)) && Stands(k, at, n, ls, hidden, st, fuel)
    ensures Follows(k, frames, t, m, n, hidden, Timeout(0), fuel)
  {
    M.TakesReaches(k.c, m, 0, n);
  }

  lemma InLoop(k: World, s: Translation, e: Translation, f: Frame)
    requires LoopPlaced(k, s, e, f)
    ensures Leads(k, e) && k.from <= |e.code| && e.frames != []
  {
  }

  // ----- block operators -----

  lemma SameBase(s: Translation, e: Translation, f: Frame, c: Ctx, lab: seq<ValType>, below: seq<ValType>)
    requires Entered(s, e, f, c, lab, below)
    ensures e.base == s.base && e.metered == s.metered && e.frames == s.frames + [f] && !f.DeadFrame?
  {
    hide At;
    hide WordsOf;
  }

  /** What is known when a block-like operator has been translated. */
  lemma Unenclose(s: Translation, v: Translator.Result<Translation>, body: seq<Instr>, t: Translation)
    returns (e: Translation, t1: Translation)
    requires Enclosed(v, body) == Ok(t)
    ensures v == Ok(e) && Translate(e, body) == Ok(t1) && VisitEnd(t1) == Ok(t)
  {
    hide Translate;
    hide VisitEnd;
    e := v.value;
    t1 := Translate(e, body).value;
  }

  lemma {:induction false} RunsBlock(k: World, n: nat, s: Translation, t: Translation, bt: BlockType, body: seq<Instr>,
                                     c: Ctx, below: seq<ValType>, ls: seq<Value>, hidden: seq<Word>, st: seq<Value>,
                                     m: M.State, fuel: nat)
    returns (m2: M.State)
    requires Fine(k) && View(s, c, below, ls, hidden, st) && k.from <= |s.code| && Leads(k, t) && k.results == c.results
    requires CheckBody(bt, body, Results(bt), c, TypesOf(st)) != Bad && TranslateInstr(s, Block(bt, body)) == Ok(t)
    requires Match(k, s, m, ls, hidden, st, fuel) && s.paramWords == k.final.paramWords
    ensures var r := ExecBlock(s.base, n, bt, body, ls, st);
            Follows(k, s.frames, t, m, m2, hidden, r.result, fuel + Paid(k, r.cost))
    decreases n, body, 2, 0
  {
    hide WF;
    hide Check;
    hide Flat;
    hide Translate;
    hide VisitEnd;
    hide TranslateInstr;
    hide CheckBody;
    hide Fine;
    hide WordsOf;
    hide Leads;
    hide Match;
    hide Follows;
    hide Window;
    hide At;
    hide ExecBlock;
    hide Entered;
    hide VisitBlock;
    BodyFits(bt, body, Results(bt), c, TypesOf(st));
    BlockUnfolds(s, bt, body);
    var e, t1 := Unenclose(s, VisitBlock(s, bt), body, t);
    hide Enclosed;
    BlockEntered(s, c, below, TypesOf(st), bt);
    var f := e.frames[|s.frames|];
    ViewAround(k, s, c, below, ls, hidden, st);
    SameBase(s, e, f, c, Results(bt), Under(below, TypesOf(st), Params(bt)));
    EnterView(k, s, e, f, c, Results(bt), below, ls, hidden, st);
    StateWF(k, s, c, below, hidden);
    hide Around;
    hide View;
    BlockMatch(k, s, e, m, ls, hidden, st, hidden + Flat(Below(st, |Params(bt)|)), Top(st, |Params(bt)|), fuel);
    m2 := RunsBody(k, n, s, e, t1, t, f, body, c, below, ls, hidden, st, m, fuel);
  }

  lemma StateWF(k: World, s: Translation, c: Ctx, below: seq<ValType>, hidden: seq<Word>)
    requires Around(k, s, c, below, hidden)
    ensures WF(s) && s.reachable
  {
  }

  lemma CarriesLoop(k: World, n: nat, base: nat, bt: BlockType, body: seq<Instr>, f: Frame, c: Ctx, ls: seq<Value>,
                    hidden: seq<Word>, under: seq<Value>, args: seq<Value>)
    requires f.LoopFrame? && f.bt == bt && TypesOf(ls) == c.locals && TypesOf(args) == Params(bt)
    requires Check(body, Enter(c, Params(bt)), Params(bt)) in {Dead, Live(Results(bt))}
    requires k.final.paramWords + f.height == WordsOf(c.locals) + |hidden| + |Flat(under)|
    ensures Carries(k, f, c, hidden, under, 0, ExecLoop(base, n, bt, body, ls, args).result)
  {
    hide WordsOf;
    hide Flat;
    SoundLoop(base, n, bt, body, c, ls, args);
    hide Check;
    hide ExecLoop;
  }

  lemma LoopIsPlaced(k: World, s: Translation, e: Translation, f: Frame, c: Ctx, below: seq<ValType>)
    requires Entered(s, e, f, c, Params(f.bt), below) && f.LoopFrame? && s.frames != []
    requires k.from <= |s.code| && Leads(k, e) && e.code == NewCharge(s).code
    requires LiveCharge(e) == (if s.metered then O.Some(|s.code|) else O.None)
    requires f.head < |e.labels| && e.labels[f.head] == O.Some(|s.code|)
    ensures LoopPlaced(k, s, e, f)
  {
    hide WordsOf;
    hide At;
    hide CodeExtends;
  }

  lemma LoopSetup(k: World, s: Translation, t: Translation, bt: BlockType, body: seq<Instr>, c: Ctx,
                  below: seq<ValType>, ls: seq<Value>, hidden: seq<Word>, st: seq<Value>, m: M.State, fuel: nat)
    returns (e: Translation, t1: Translation, f: Frame)
    requires View(s, c, below, ls, hidden, st) && k.from <= |s.code| && Leads(k, t) && k.results == c.results
    requires CheckBody(bt, body, Params(bt), c, TypesOf(st)) != Bad && TranslateInstr(s, Loop(bt, body)) == Ok(t)
    requires Match(k, s, m, ls, hidden, st, fuel) && s.paramWords == k.final.paramWords
    ensures f.LoopFrame? && f.bt == bt && |Params(bt)| <= |st| && e.base == s.base && e.frames == s.frames + [f]
    ensures Enclosing(k, s, e, t1, t, f, c, Params(bt), below, hidden, body) && Checked(bt, body, Params(bt), c, ls, st)
    ensures EndsWith(TypesOf(st), Params(bt)) && Entered(s, e, f, c, Params(bt), Under(below, TypesOf(st), Params(bt)))
    ensures e.code == NewCharge(s).code && LiveCharge(e) == (if s.metered then O.Some(|s.code|) else O.None)
    ensures f.head < |e.labels| && e.labels[f.head] == O.Some(|s.code|)
    ensures s.frames != [] && WF(s) && Around(k, s, c, below, hidden)
  {
    hide WordsOf;
    hide Leads;
    hide Window;
    hide At;
    hide Entered;
    hide VisitLoop;
    hide Match;
    BodyFits(bt, body, Params(bt), c, TypesOf(st));
    LoopUnfolds(s, bt, body);
    hide TranslateInstr;
    e, t1 := Unenclose(s, VisitLoop(s, bt), body, t);
    hide Enclosed;
    hide Translate;
    hide VisitEnd;
    LoopEntered(s, c, below, TypesOf(st), bt);
    f := e.frames[|s.frames|];
    ViewAround(k, s, c, below, ls, hidden, st);
    SameBase(s, e, f, c, Params(bt), Under(below, TypesOf(st), Params(bt)));
    StateWF(k, s, c, below, hidden);
    hide WF;
    hide Around;
    hide CheckBody;
  }

  /** Everything the run of a loop needs, from its setup. */
  lemma LoopReady(k: World, s: Translation, e: Translation, t1: Translation, t: Translation, f: Frame, body: seq<Instr>,
                  c: Ctx, below: seq<ValType>, ls: seq<Value>, hidden: seq<Word>, st: seq<Value>, m: M.State, fuel: nat)
    requires f.LoopFrame? && |Params(f.bt)| <= |st| && Match(k, s, m, ls, hidden, st, fuel)
    requires Enclosing(k, s, e, t1, t, f, c, Params(f.bt), below, hidden, body)
    requires Checked(f.bt, body, Params(f.bt), c, ls, st)
    requires EndsWith(TypesOf(st), Params(f.bt))
    requires Entered(s, e, f, c, Params(f.bt), Under(below, TypesOf(st), Params(f.bt)))
    requires e.code == NewCharge(s).code && LiveCharge(e) == (if s.metered then O.Some(|s.code|) else O.None)
    requires f.head < |e.labels| && e.labels[f.head] == O.Some(|s.code|) && WF(s)
    ensures var under, args := Below(st, |Params(f.bt)|), Top(st, |Params(f.bt)|);
            && View(e, Enter(c, Params(f.bt)), Under(below, TypesOf(st), Params(f.bt)), ls, hidden + Flat(under), args)
            && k.final.paramWords + f.height == WordsOf(c.locals) + |hidden| + |Flat(under)|
            && TypesOf(args) == Params(f.bt)
            && Stands(k, |s.code|, m, ls, hidden + Flat(under), args, fuel)
    ensures Check(body, Enter(c, Params(f.bt)), Params(f.bt)) in {Dead, Live(Results(f.bt))}
    ensures EndsAt(k, f, t1, t) && Leads(k, t1) && LoopPlaced(k, s, e, f) && Translate(e, body) == Ok(t1)
  {
    hide WordsOf;
    hide Leads;
    hide Window;
    hide Flat;
    hide Translate;
    hide VisitEnd;
    hide Around;
    hide At;
    hide View;
    hide Check;
    hide EndsAt;
    EnclosedFacts(k, s, e, t1, t, f, c, Params(f.bt), below, ls, hidden, st, body);
    hide CheckBody;
    LoopIsPlaced(k, s, e, f, c, Under(below, TypesOf(st), Params(f.bt)));
    hide Entered;
    hide LoopPlaced;
    LoopPaid(k, s, e, m, ls, hidden, st, fuel);
    LoopStands(k, s, m, ls, hidden, st, hidden + Flat(Below(st, |Params(f.bt)|)), Top(st, |Params(f.bt)|), fuel);
    hide Stands;
    hide WF;
    hide Match;
  }

  lemma {:induction false} RunsLoopInstr(k: World, n: nat, s: Translation, t: Translation, bt: BlockType,
                                         body: seq<Instr>, c: Ctx, below: seq<ValType>, ls: seq<Value>,
                                         hidden: seq<Word>, st: seq<Value>, m: M.State, fuel: nat)
    returns (m2: M.State)
    requires Fine(k) && View(s, c, below, ls, hidden, st) && k.from <= |s.code| && Leads(k, t) && k.results == c.results
    requires CheckBody(bt, body, Params(bt), c, TypesOf(st)) != Bad && TranslateInstr(s, Loop(bt, body)) == Ok(t)
    requires Match(k, s, m, ls, hidden, st, fuel) && s.paramWords == k.final.paramWords
    ensures |Params(bt)| <= |st|
    ensures var r := ExecLoop(s.base, n, bt, body, ls, Top(st, |Params(bt)|));
            Follows(k, s.frames, t, m, m2, hidden, Unlabel(r.result, Below(st, |Params(bt)|), 0),
                    fuel + Paid(k, r.cost))
    decreases n, body, 2, 0
  {
    hide Fine;
    hide WordsOf;
    hide Flat;
    hide View;
    hide Leads;
    hide Follows;
    hide Entered;
    hide Match;
    hide CheckBody;
    hide TranslateInstr;
    hide WF;
    hide Translate;
    hide Enclosing;
    hide Around;
    hide EndsAt;
    hide LoopPlaced;
    hide Stands;
    hide Check;
    hide ExecLoop;
    TypesMatch(c, below, s, ls, hidden, st);
    var e, t1, f := LoopSetup(k, s, t, bt, body, c, below, ls, hidden, st, m, fuel);
    LoopReady(k, s, e, t1, t, f, body, c, below, ls, hidden, st, m, fuel);
    var under, args := Below(st, |Params(bt)|), Top(st, |Params(bt)|);
    var m1 := RunsLoop(k, n, s, e, t1, f, bt, body, c, Under(below, TypesOf(st), Params(bt)), ls, hidden + Flat(under),
                       args, m, fuel);
    CarriesLoop(k, n, s.base, bt, body, f, c, ls, hidden, under, args);
    hide Carries;
    var r := ExecLoop(s.base, n, bt, body, ls, args);
    m2 := LeaveFollows(k, s, f, t1, t, c, below, hidden, under, 0, m, m1, r.result, fuel + Paid(k, r.cost));
  }

  lemma TypesMatch(c: Ctx, below: seq<ValType>, s: Translation, ls: seq<Value>, hidden: seq<Word>, st: seq<Value>)
    requires View(s, c, below, ls, hidden, st)
    ensures TypesOf(ls) == c.locals
  {
  }

  /** In front of a loop the old charge has been paid in full. */
  lemma LoopPaid(k: World, s: Translation, e: Translation, m: M.State, ls: seq<Value>, hidden: seq<Word>,
                 st: seq<Value>, fuel: nat)
    requires Match(k, s, m, ls, hidden, st, fuel) && WF(s) && Leads(k, e) && e.code == NewCharge(s).code
    requires LiveCharge(e) == (if s.metered then O.Some(|s.code|) else O.None)
    ensures Stands(k, |s.code|, m, ls, hidden, st, fuel)
  {
    hide Window;
    ChargeInside(s);
    hide WF;
    AheadSpent(k.final, s, e);
  }

  lemma LoopStands(k: World, s: Translation, m: M.State, ls: seq<Value>, hidden: seq<Word>, st: seq<Value>,
                   hidden': seq<Word>, args: seq<Value>, fuel: nat)
    requires Stands(k, |s.code|, m, ls, hidden, st, fuel) && Window(ls, hidden, st) == Window(ls, hidden', args)
    ensures Stands(k, |s.code|, m, ls, hidden', args, fuel)
  {
  }

  // ----- conditionals -----

  lemma IfUnfolds(s: Translation, bt: BlockType, thn: seq<Instr>)
    ensures TranslateInstr(s, If(bt, thn)) == Enclosed(VisitIf(s, bt), thn)
  {
    hide Translate;
    hide VisitEnd;
    hide VisitIf;
  }

  /** From the operands of an `if` to its first branch, or to its other label. */
  lemma IfStarts(k: World, s: Translation, e: Translation, bt: BlockType, c: Ctx, below: seq<ValType>, ls: seq<Value>,
                 hidden: seq<Word>, st: seq<Value>, m: M.State, fuel: nat)
    returns (f: Frame, m0: M.State)
    requires Fine(k) && View(s, c, below, ls, hidden, st) && k.from <= |s.code| && s.paramWords == k.final.paramWords
    requires st != [] && TypesOf(st)[|st| - 1] == I32 && EndsWith(TypesOf(Below(st, 1)), Params(bt))
    requires VisitIf(s, bt) == Ok(e) && Leads(k, e) && Match(k, s, m, ls, hidden, st, fuel)
    ensures |e.frames| == |s.frames| + 1 && e.frames[|s.frames|] == f && f.IfFrame? && f.bt == bt
    ensures f.thenReachable.None?
    ensures Entered(s, e, f, c, Results(bt), Under(below, TypesOf(Below(st, 1)), Params(bt)))
    ensures M.Reaches(k.c, m, M.Next(m0)) && st[|st| - 1].ty == I32
    ensures st[|st| - 1].bits != 0 ==> Match(k, e, m0, ls, hidden, Below(st, 1), fuel + Paid(k, s.base))
    ensures st[|st| - 1].bits == 0 ==>
              && f.els < |k.final.labels| && k.final.labels[f.els].Some?
              && Stands(k, k.final.labels[f.els].value, m0, ls, hidden, Below(st, 1), fuel + Paid(k, s.base))
  {
    hide Fine;
    hide WordsOf;
    hide Leads;
    hide Window;
    hide VisitIf;
    hide PopCondition;
    hide Bump;
    hide Ahead;
    hide Placed;
    TypesOfSplit1(st);
    SimpleRuns.TypeAt(st, |st| - 1);
    ConditionOnTop(k, s, c, below, ls, hidden, st, m, fuel);
    IfEntered(s, c, below, TypesOf(st), bt);
    ViewReachable(s, c, below, ls, hidden, st);
    f := e.frames[|s.frames|];
    SameBase(s, e, f, c, Results(bt), Under(below, TypesOf(Below(st, 1)), Params(bt)));
    assert WF(s);
    hide View;
    hide At;
    hide WF;
    hide Entered;
    m0 := IfTest(k, s, Bump(s, s.base).value, e, f, ls, hidden, Below(st, 1), st[|st| - 1].bits, m, fuel);
  }

  /** An `if` without a second branch that is not taken goes on behind its end. */
  lemma IfSkipped(k: World, s: Translation, e: Translation, t1: Translation, t: Translation, f: Frame, c: Ctx,
                  below: seq<ValType>, ls: seq<Value>, hidden: seq<Word>, st: seq<Value>, thn: seq<Instr>, m: M.State,
                  m0: M.State, fuel: nat)
    returns (m2: M.State)
    requires Fine(k) && Enclosing(k, s, e, t1, t, f, c, Results(f.bt), below, hidden, thn)
    requires Checked(f.bt, thn, Results(f.bt), c, ls, st) && |Params(f.bt)| <= |st| && f.IfFrame?
    requires f.thenReachable.None?
    requires Entered(s, e, f, c, Results(f.bt), Under(below, TypesOf(st), Params(f.bt)))
    requires f.els < |k.final.labels| && k.final.labels[f.els].Some?
    requires M.Reaches(k.c, m, M.Next(m0)) && Stands(k, k.final.labels[f.els].value, m0, ls, hidden, st, fuel)
    ensures Follows(k, s.frames, t, m, m2, hidden, Normal(ls, st), fuel)
  {
    hide Fine;
    hide WordsOf;
    hide Around;
    hide Leads;
    hide View;
    hide Match;
    hide EndsAt;
    hide Window;
    hide Check;
    hide At;
    hide M.Reaches;
    EnclosedFacts(k, s, e, t1, t, f, c, Results(f.bt), below, ls, hidden, st, thn);
    hide Entered;
    hide CheckBody;
    hide Enclosing;
    var under, args := Below(st, |Params(f.bt)|), Top(st, |Params(f.bt)|);
    assert under + args == st;
    m2 := Arrives(k, t1, t, f, m, m0, ls, hidden, under, args, fuel);
  }

  lemma Prefixed(k: World, s: Translation, t: Translation, m: M.State, m0: M.State, m2: M.State, hidden: seq<Word>,
                 r: Source.Result, fuel: nat)
    requires s.frames != [] && M.Reaches(k.c, m, M.Next(m0)) && Follows(k, s.frames, t, m0, m2, hidden, r, fuel)
    ensures Follows(k, s.frames, t, m, m2, hidden, r, fuel)
  {
    KeptSame(s, s);
    ChainFollows(k, s, s, t, m, m0, m2, hidden, r, fuel);
  }

  /** A machine at the start of a body that has been entered. */
  ghost predicate AtBody(k: World, e: Translation, f: Frame, m: M.State, ls: seq<Value>, hidden: seq<Word>,
                         st: seq<Value>, fuel: nat) {
    && |Params(f.bt)| <= |st|
    && Match(k, e, m, ls, hidden + Flat(Below(st, |Params(f.bt)|)), Top(st, |Params(f.bt)|), fuel)
  }

  /** The parts of a translated `if`. */
  lemma IfParts(k: World, s: Translation, t: Translation, bt: BlockType, thn: seq<Instr>, c: Ctx, below: seq<ValType>,
                ls: seq<Value>, hidden: seq<Word>, st: seq<Value>)
    returns (e: Translation, t1: Translation)
    requires View(s, c, below, ls, hidden, st) && k.from <= |s.code| && Leads(k, t)
    requires st != [] && TypesOf(st)[|st| - 1] == I32
    requires CheckBody(bt, thn, Results(bt), c, TypesOf(Below(st, 1))) != Bad && TranslateInstr(s, If(bt, thn)) == Ok(t)
    ensures VisitIf(s, bt) == Ok(e) && Translate(e, thn) == Ok(t1) && VisitEnd(t1) == Ok(t)
    ensures Leads(k, e) && EndsWith(TypesOf(Below(st, 1)), Params(bt))
  {
    hide WordsOf;
    hide Leads;
    hide View;
    hide VisitIf;
    hide Enclosed;
    hide TranslateInstr;
    hide Translate;
    hide VisitEnd;
    IfUnfolds(s, bt, thn);
    e, t1 := Unenclose(s, VisitIf(s, bt), thn, t);
    BodyFits(bt, thn, Results(bt), c, TypesOf(Below(st, 1)));
    hide CheckBody;
    IfLeads(k, s, e, t1, t, bt, thn, c, below, ls, hidden, st);
  }

  /** The frame of an `if` around its first branch. */
  lemma IfEnclosed(k: World, s: Translation, e: Translation, t1: Translation, t: Translation, f: Frame, thn: seq<Instr>,
                   c: Ctx, below: seq<ValType>, ls: seq<Value>, hidden: seq<Word>, st: seq<Value>)
    requires View(s, c, below, ls, hidden, st) && k.from <= |s.code| && Leads(k, t) && k.results == c.results
    requires st != [] && s.paramWords == k.final.paramWords
    requires CheckBody(f.bt, thn, Results(f.bt), c, TypesOf(Below(st, 1))) != Bad
    requires EndsWith(TypesOf(Below(st, 1)), Params(f.bt)) && Translate(e, thn) == Ok(t1) && VisitEnd(t1) == Ok(t)
    requires Entered(s, e, f, c, Results(f.bt), Under(below, TypesOf(Below(st, 1)), Params(f.bt)))
    ensures e.base == s.base && Around(k, s, c, below, hidden) && TypesOf(ls) == c.locals
    ensures Enclosing(k, s, e, t1, t, f, c, Results(f.bt), below, hidden, thn)
    ensures Checked(f.bt, thn, Results(f.bt), c, ls, Below(st, 1))
  {
    hide WordsOf;
    hide Leads;
    hide View;
    hide Translate;
    hide VisitEnd;
    hide CheckBody;
    hide Entered;
    ViewAround(k, s, c, below, ls, hidden, st);
    hide Around;
    SameBase(s, e, f, c, Results(f.bt), Under(below, TypesOf(Below(st, 1)), Params(f.bt)));
  }

  /** The first branch starts with its parameters on top. */
  lemma BodyStarts(k: World, s: Translation, e: Translation, f: Frame, c: Ctx, below: seq<ValType>, ls: seq<Value>,
                   hidden: seq<Word>, st: seq<Value>, m: M.State, fuel: nat)
    requires Around(k, s, c, below, hidden) && TypesOf(ls) == c.locals && EndsWith(TypesOf(st), Params(f.bt))
    requires Entered(s, e, f, c, Results(f.bt), Under(below, TypesOf(st), Params(f.bt)))
    ensures |Params(f.bt)| <= |st|
    ensures Match(k, e, m, ls, hidden, st, fuel) ==> AtBody(k, e, f, m, ls, hidden, st, fuel)
  {
    hide WordsOf;
    hide Around;
    hide Entered;
    hide View;
    hide Window;
    hide Match;
    EnterView(k, s, e, f, c, Results(f.bt), below, ls, hidden, st);
    if Match(k, e, m, ls, hidden, st, fuel) {
      SameWindow(k, e, m, ls, hidden, st, hidden + Flat(Below(st, |Params(f.bt)|)), Top(st, |Params(f.bt)|), fuel);
    }
  }

  lemma IfSetup(k: World, s: Translation, t: Translation, bt: BlockType, thn: seq<Instr>, c: Ctx, below: seq<ValType>,
                ls: seq<Value>, hidden: seq<Word>, st: seq<Value>, m: M.State, fuel: nat)
    returns (e: Translation, t1: Translation, f: Frame, m0: M.State)
    requires Fine(k) && View(s, c, below, ls, hidden, st) && k.from <= |s.code| && Leads(k, t) && k.results == c.results
    requires st != [] && TypesOf(st)[|st| - 1] == I32
    requires CheckBody(bt, thn, Results(bt), c, TypesOf(Below(st, 1))) != Bad && TranslateInstr(s, If(bt, thn)) == Ok(t)
    requires Match(k, s, m, ls, hidden, st, fuel) && s.paramWords == k.final.paramWords
    ensures f.IfFrame? && f.bt == bt && f.thenReachable.None? && |Params(bt)| <= |Below(st, 1)| && e.base == s.base
    ensures Enclosing(k, s, e, t1, t, f, c, Results(bt), below, hidden, thn)
    ensures Checked(bt, thn, Results(bt), c, ls, Below(st, 1))
    ensures Entered(s, e, f, c, Results(bt), Under(below, TypesOf(Below(st, 1)), Params(bt)))
    ensures M.Reaches(k.c, m, M.Next(m0))
    ensures st[|st| - 1].bits != 0 ==> AtBody(k, e, f, m0, ls, hidden, Below(st, 1), fuel + Paid(k, s.base))
    ensures st[|st| - 1].bits == 0 ==>
              && f.els < |k.final.labels| && k.final.labels[f.els].Some?
              && Stands(k, k.final.labels[f.els].value, m0, ls, hidden, Below(st, 1), fuel + Paid(k, s.base))
  {
    hide Fine;
    hide WordsOf;
    hide Leads;
    hide View;
    hide Entered;
    hide VisitIf;
    hide Match;
    hide Stands;
    hide AtBody;
    hide M.Reaches;
    hide TranslateInstr;
    hide Translate;
    hide VisitEnd;
    hide CheckBody;
    hide Around;
    hide Enclosing;
    hide Checked;
    e, t1 := IfParts(k, s, t, bt, thn, c, below, ls, hidden, st);
    f, m0 := IfStarts(k, s, e, bt, c, below, ls, hidden, st, m, fuel);
    IfEnclosed(k, s, e, t1, t, f, thn, c, below, ls, hidden, st);
    BodyStarts(k, s, e, f, c, below, ls, hidden, Below(st, 1), m0, fuel + Paid(k, s.base));
  }

  lemma {:induction false} RunsIf(k: World, n: nat, s: Translation, t: Translation, bt: BlockType, thn: seq<Instr>,
                                  c: Ctx, below: seq<ValType>, ls: seq<Value>, hidden: seq<Word>, st: seq<Value>,
                                  m: M.State, fuel: nat)
    returns (m2: M.State)
    requires Fine(k) && View(s, c, below, ls, hidden, st) && k.from <= |s.code| && Leads(k, t) && k.results == c.results
    requires st != [] && TypesOf(st)[|st| - 1] == I32
    requires CheckBody(bt, thn, Results(bt), c, TypesOf(Below(st, 1))) != Bad && TranslateInstr(s, If(bt, thn)) == Ok(t)
    requires Match(k, s, m, ls, hidden, st, fuel) && s.paramWords == k.final.paramWords
    ensures st[|st| - 1].bits == 0 ==> Follows(k, s.frames, t, m, m2, hidden, Normal(ls, Below(st, 1)),
                                               fuel + Paid(k, s.base))
    ensures st[|st| - 1].bits != 0 ==>
              var r := ExecBlock(s.base, n, bt, thn, ls, Below(st, 1));
              Follows(k, s.frames, t, m, m2, hidden, r.result, fuel + Paid(k, s.base) + Paid(k, r.cost))
    decreases n, thn, 2, 0
  {
    hide WordsOf;
    hide Flat;
    hide Window;
    hide Check;
    hide WF;
    hide At;
    hide Fine;
    hide View;
    hide Leads;
    hide Follows;
    hide Match;
    hide Stands;
    hide CheckBody;
    hide TranslateInstr;
    hide Entered;
    hide ExecBlock;
    hide M.Reaches;
    var e, t1, f, m0 := IfSetup(k, s, t, bt, thn, c, below, ls, hidden, st, m, fuel);
    var st' := Below(st, 1);
    EnclosedFrames(k, s, e, t1, t, f, c, Results(bt), below, hidden, thn);
    hide Enclosing;
    hide Checked;
    if st[|st| - 1].bits == 0 {
      m2 := IfSkipped(k, s, e, t1, t, f, c, below, ls, hidden, st', thn, m, m0, fuel + Paid(k, s.base));
    } else {
      m2 := RunsBody(k, n, s, e, t1, t, f, thn, c, below, ls, hidden, st', m0, fuel + Paid(k, s.base));
      var r := ExecBlock(s.base, n, bt, thn, ls, st');
      Prefixed(k, s, t, m, m0, m2, hidden, r.result, fuel + Paid(k, s.base) + Paid(k, r.cost));
    }
  }

  lemma EnclosedFrames(k: World, s: Translation, e: Translation, t1: Translation, t: Translation, f: Frame,
                       c: Ctx, lab: seq<ValType>, below: seq<ValType>, hidden: seq<Word>, body: seq<Instr>)
    requires Enclosing(k, s, e, t1, t, f, c, lab, below, hidden, body)
    ensures s.frames != []
  {
  }

  lemma SameWindow(k: World, e: Translation, m: M.State, ls: seq<Value>, hidden: seq<Word>, st: seq<Value>,
                   hidden': seq<Word>, args: seq<Value>, fuel: nat)
    requires Match(k, e, m, ls, hidden, st, fuel) && Window(ls, hidden, st) == Window(ls, hidden', args)
    ensures Match(k, e, m, ls, hidden', args, fuel)
  {
  }

  /** The states inside an `if` lead to the finished translation. */
  lemma IfLeads(k: World, s: Translation, e: Translation, t1: Translation, t: Translation, bt: BlockType,
                thn: seq<Instr>, c: Ctx, below: seq<ValType>, ls: seq<Value>, hidden: seq<Word>, st: seq<Value>)
    requires View(s, c, below, ls, hidden, st) && k.from <= |s.code| && Leads(k, t) && st != []
    requires TypesOf(st)[|st| - 1] == I32
    requires CheckBody(bt, thn, Results(bt), c, TypesOf(Below(st, 1))) != Bad
    requires VisitIf(s, bt) == Ok(e) && Translate(e, thn) == Ok(t1) && VisitEnd(t1) == Ok(t)
    ensures Leads(k, e)
  {
    hide WordsOf;
    hide At;
    hide Good;
    hide Translate;
    hide VisitEnd;
    hide VisitIf;
    hide Leads;
    TypesOfSplit1(st);
    var us := TypesOf(Below(st, 1));
    BodyFits(bt, thn, Results(bt), c, us);
    ViewFrames(s, c, below, ls, hidden, st);
    IfEntered(s, c, below, TypesOf(st), bt);
    LiveBody(s, e, c, below, us, bt, Results(bt), thn);
    hide CheckBody;
    FrameIs(s, e, c, Results(bt), Under(below, us, Params(bt)));
    BodyEnds(k, s, e, t1, t, e.frames[|s.frames|], c, Results(bt), Under(below, us, Params(bt)),
             Check(thn, Enter(c, Results(bt)), Params(bt)));
  }

  lemma ViewFrames(s: Translation, c: Ctx, below: seq<ValType>, ls: seq<Value>, hidden: seq<Word>, st: seq<Value>)
    requires View(s, c, below, ls, hidden, st)
    ensures s.frames != []
  {
    hide WF;
    hide WordsOf;
  }

  lemma FrameIs(s: Translation, e: Translation, c: Ctx, lab: seq<ValType>, below: seq<ValType>)
    requires |e.frames| == |s.frames| + 1 && Entered(s, e, e.frames[|s.frames|], c, lab, below)
    ensures e.frames == s.frames + [e.frames[|s.frames|]]
  {
    hide At;
  }

  // ----- conditionals with two branches -----

  lemma IfElseParts(s: Translation, bt: BlockType, thn: seq<Instr>, els: seq<Instr>, t: Translation)
    returns (e: Translation, t1: Translation, u: Translation, t3: Translation)
    requires TranslateInstr(s, IfElse(bt, thn, els)) == Ok(t)
    ensures VisitIf(s, bt) == Ok(e) && Translate(e, thn) == Ok(t1) && VisitElse(t1) == Ok(u)
    ensures Translate(u, els) == Ok(t3) && VisitEnd(t3) == Ok(t)
  {
    hide Translate;
    hide VisitEnd;
    hide VisitIf;
    hide VisitElse;
    e := VisitIf(s, bt).value;
    t1 := Translate(e, thn).value;
    u := VisitElse(t1).value;
    t3 := Translate(u, els).value;
  }

  /** Between the branches of an `if`: a jump over the second one, whose label and charge follow. */
  ghost predicate Between(k: World, t1: Translation, u: Translation, f: Frame) {
    && f.IfFrame? && k.from <= |t1.code| && Leads(k, t1) && Leads(k, u) && u.metered == t1.metered
    && (LiveCharge(t1).Some? ==> LiveCharge(t1).value < |t1.code|)
    && u.code == NewCharge(JumpOver(t1, f)).code
    && LiveCharge(u) == (if t1.metered then O.Some(|JumpOver(t1, f).code|) else O.None)
    && f.els < |k.final.labels| && k.final.labels[f.els] == O.Some(|JumpOver(t1, f).code|)
  }

  lemma BetweenHere(k: World, s: Translation, e: Translation, t1: Translation, u: Translation, f: Frame, c: Ctx,
                    lab: seq<ValType>, below: seq<ValType>, flow: Flow)
    requires e.frames == s.frames + [f] && f.IfFrame? && Entered(s, e, f, c, lab, below) && Good(e, t1, below, flow)
    requires |t1.frames| == |s.frames| + 1 && SameIf(f, t1.frames[|s.frames|])
    requires t1.frames[|s.frames|].els < |t1.labels|
    requires SecondStarts(t1, t1.frames[|s.frames|], below, u) && Leads(k, u) && k.from <= |s.code|
    ensures Between(k, t1, u, f) && Leads(k, e) && k.from <= |e.code|
  {
    hide WordsOf;
    hide At;
    var g := t1.frames[|s.frames|];
    assert JumpOver(t1, f) == JumpOver(t1, g);
    hide JumpOver;
    ExtendsTransitive(t1, u, k.final);
    ExtendsTransitive(e, t1, k.final);
    Grows3(s, e, t1);
    ChargeInside(t1);
    hide WF;
    hide CodeExtends;
  }

  /** The end of the first branch, seen as a branch to the end label. */
  function AsBranch(r: Source.Result): Source.Result {
    if r.Normal? then Branching(0, r.locals, r.stack) else r
  }

  lemma ThenJumps(k: World, frames: seq<Frame>, f: Frame, t1: Translation, u: Translation, t3: Translation,
                  t: Translation, hidden: seq<Word>, m: M.State, m1: M.State, r: Source.Result, fuel: nat)
    returns (n: M.State)
    requires Fine(k) && Between(k, t1, u, f) && EndsAt(k, f, t3, t)
    requires |frames| >= 2 && frames[|frames| - 1] == f && Follows(k, frames, t1, m, m1, hidden, r, fuel)
    requires r.Normal? ==>
               && t1.reachable && |r.stack| == |LabelTypes(f)|
               && k.final.paramWords + f.height == |Flat(r.locals)| + |hidden|
    ensures Follows(k, frames, t3, m, n, hidden, AsBranch(r), fuel)
  {
    hide Fine;
    hide Window;
    hide Flat;
    n := m1;
    if r.Normal? {
      hide Leads;
      hide M.Reaches;
      var at := |t1.code|;
      PrefixEmitted(k, t1.code, [Jump(O.Always, f.end)], JumpOver(t1, f).code, u);
      JumpRuns(k, m1, at, O.Always, f.end);
      hide Emitted;
      n := m1.(pc := k.off + k.final.labels[f.end].value);
      M.ReachesStep(k.c, m1);
      M.TakesStep(k.c, m1, n);
      hide M.Takes;
      JumpedAfter(k, frames, 0, m, m1, n);
      PaidBetween(k, t1, u, f);
      hide Ahead;
      assert Top(r.stack, |LabelTypes(f)|) == r.stack;
      assert hidden[..|hidden|] == hidden;
      assert Depth(k, f, r.locals, hidden, |hidden|);
    } else {
      hide M.Reaches;
      hide Between;
      hide EndsAt;
      hide Landed;
    }
  }

  lemma PaidBetween(k: World, t1: Translation, u: Translation, f: Frame)
    requires Between(k, t1, u, f)
    ensures Ahead(k.final, t1) == 0
  {
    AheadSpent(k.final, t1, u);
  }

  lemma UnlabelAsBranch(r: Source.Result, under: seq<Value>, arity: nat)
    requires r.Normal? ==> |r.stack| == arity
    ensures Unlabel(AsBranch(r), under, arity) == Unlabel(r, under, arity)
  {
    if r.Normal? {
      assert Top(r.stack, arity) == r.stack;
    }
  }

  /** What the result of the first branch must satisfy. */
  lemma ThenResult(k: World, n: nat, base: nat, e: Translation, t1: Translation, thn: seq<Instr>, f: Frame, c: Ctx,
                   below: seq<ValType>, ls: seq<Value>, hidden: seq<Word>, under: seq<Value>, args: seq<Value>)
    requires f.IfFrame? && TypesOf(ls) == c.locals && TypesOf(args) == Params(f.bt)
    requires var flow := Check(thn, Enter(c, Results(f.bt)), Params(f.bt));
             flow in {Dead, Live(Results(f.bt))} && Good(e, t1, below, flow)
    requires k.final.paramWords + f.height == WordsOf(c.locals) + |hidden| + |Flat(under)|
    ensures var r := Exec(base, n, thn, ls, args).result;
            && Carries(k, f, c, hidden, under, |Results(f.bt)|, AsBranch(r))
            && (r.Normal? ==>
                  && t1.reachable && |r.stack| == |LabelTypes(f)| == |Results(f.bt)|
                  && k.final.paramWords + f.height == |Flat(r.locals)| + |hidden + Flat(under)|)
  {
    hide WordsOf;
    hide WF;
    hide Extends;
    hide Kept;
    Sound(base, n, thn, Enter(c, Results(f.bt)), ls, args);
    var r := Exec(base, n, thn, ls, args).result;
    hide Exec;
    hide Check;
    if r.Normal? {
      assert |TypesOf(r.stack)| == |r.stack|;
    }
  }

  /** Both branches of an `if` have been translated. */
  ghost predicate TwoBranches(k: World, s: Translation, e: Translation, t1: Translation, u: Translation,
                              t3: Translation, t: Translation, f: Frame, g: Frame, bt: BlockType, thn: seq<Instr>,
                              els: seq<Instr>, c: Ctx, below: seq<ValType>, ls: seq<Value>, hidden: seq<Word>,
                              st: seq<Value>) {
    && f.IfFrame? && f.bt == bt && g.IfFrame? && g.bt == bt && |Params(bt)| <= |st| && e.base == s.base
    && u.base == s.base
    && s.frames != [] && e.frames == s.frames + [f] && Around(k, s, c, below, hidden) && k.results == c.results
    && Entered(s, e, f, c, Results(bt), Under(below, TypesOf(st), Params(bt)))
    && EndsWith(TypesOf(st), Params(bt)) && TypesOf(ls) == c.locals
    && Translate(e, thn) == Ok(t1) && Good(e, t1, Under(below, TypesOf(st), Params(bt)),
                                           Check(thn, Enter(c, Results(bt)), Params(bt)))
    && Check(thn, Enter(c, Results(bt)), Params(bt)) in {Dead, Live(Results(bt))}
    && Between(k, t1, u, f) && Leads(k, e) && k.from <= |e.code| && EndsAt(k, f, t3, t)
    && Enclosing(k, s, u, t3, t, g, c, Results(bt), below, hidden, els) && Checked(bt, els, Results(bt), c, ls, st)
    && Entered(s, u, g, c, Results(bt), Under(below, TypesOf(st), Params(bt)))
  }

  /** Inside the first branch. */
  lemma ThenEnters(k: World, s: Translation, e: Translation, t1: Translation, u: Translation, t3: Translation,
                   t: Translation, f: Frame, g: Frame, bt: BlockType, thn: seq<Instr>, els: seq<Instr>, c: Ctx,
                   below: seq<ValType>, ls: seq<Value>, hidden: seq<Word>, st: seq<Value>, m: M.State, fuel: nat)
    requires TwoBranches(k, s, e, t1, u, t3, t, f, g, bt, thn, els, c, below, ls, hidden, st)
    requires Match(k, e, m, ls, hidden, st, fuel)
    ensures |Params(bt)| <= |st| && e.base == s.base && TypesOf(ls) == c.locals
    ensures var under, args := Below(st, |Params(bt)|), Top(st, |Params(bt)|);
            && View(e, Enter(c, Results(bt)), Under(below, TypesOf(st), Params(bt)), ls, hidden + Flat(under), args)
            && Match(k, e, m, ls, hidden + Flat(under), args, fuel)
            && TypesOf(args) == Params(bt)
            && k.final.paramWords + f.height == WordsOf(c.locals) + |hidden| + |Flat(under)|
    ensures Leads(k, t1) && k.from <= |e.code| && k.results == Enter(c, Results(bt)).results
    ensures Check(thn, Enter(c, Results(bt)), Params(bt)) != Bad && Translate(e, thn) == Ok(t1)
  {
    hide WordsOf;
    hide Flat;
    hide Leads;
    hide View;
    hide EndsAt;
    hide Check;
    hide At;
    hide Good;
    hide Translate;
    hide Between;
    hide Window;
    hide Enclosing;
    hide Checked;
    hide Around;
    hide Entered;
    EnterView(k, s, e, f, c, Results(bt), below, ls, hidden, st);
    BetweenLeads(k, t1, u, f);
    SameWindow(k, e, m, ls, hidden, st, hidden + Flat(Below(st, |Params(bt)|)), Top(st, |Params(bt)|), fuel);
    hide Match;
  }

  /** From the end of the first branch, over the second one. */
  lemma ThenLeaves(k: World, n: nat, s: Translation, e: Translation, t1: Translation, u: Translation, t3: Translation,
                   t: Translation, f: Frame, g: Frame, bt: BlockType, thn: seq<Instr>, els: seq<Instr>, c: Ctx,
                   below: seq<ValType>, ls: seq<Value>, hidden: seq<Word>, st: seq<Value>, m: M.State, m1: M.State,
                   fuel: nat)
    returns (m2: M.State)
    requires Fine(k) && TwoBranches(k, s, e, t1, u, t3, t, f, g, bt, thn, els, c, below, ls, hidden, st)
    requires |Params(bt)| <= |st| && TypesOf(Top(st, |Params(bt)|)) == Params(bt)
    requires k.final.paramWords + f.height == WordsOf(c.locals) + |hidden| + |Flat(Below(st, |Params(bt)|))|
    requires Follows(k, e.frames, t1, m, m1, hidden + Flat(Below(st, |Params(bt)|)),
                     Exec(s.base, n, thn, ls, Top(st, |Params(bt)|)).result, fuel)
    ensures Follows(k, s.frames, t, m, m2, hidden, ExecBlock(s.base, n, bt, thn, ls, st).result, fuel)
  {
    hide WordsOf;
    hide Flat;
    hide Fine;
    hide Around;
    hide EndsAt;
    hide Carries;
    hide Follows;
    hide Check;
    hide Good;
    hide Translate;
    hide Between;
    hide Enclosing;
    hide Checked;
    hide Entered;
    hide Leads;
    hide Exec;
    var under, args := Below(st, |Params(bt)|), Top(st, |Params(bt)|);
    var inside := Under(below, TypesOf(st), Params(bt));
    ThenResult(k, n, s.base, e, t1, thn, f, c, inside, ls, hidden, under, args);
    var r := Exec(s.base, n, thn, ls, args).result;
    var m3 := ThenJumps(k, e.frames, f, t1, u, t3, t, hidden + Flat(under), m, m1, r, fuel);
    m2 := LeaveFollows(k, s, f, t3, t, c, below, hidden, under, |Results(bt)|, m, m3, AsBranch(r), fuel);
    UnlabelAsBranch(r, under, |Results(bt)|);
  }

  lemma {:induction false} RunsThen(k: World, n: nat, s: Translation, e: Translation, t1: Translation, u: Translation,
                                    t3: Translation, t: Translation, f: Frame, g: Frame, bt: BlockType, thn: seq<Instr>,
                                    els: seq<Instr>, c: Ctx, below: seq<ValType>, ls: seq<Value>, hidden: seq<Word>,
                                    st: seq<Value>, m: M.State, fuel: nat)
    returns (m2: M.State)
    requires Fine(k) && TwoBranches(k, s, e, t1, u, t3, t, f, g, bt, thn, els, c, below, ls, hidden, st)
    requires Match(k, e, m, ls, hidden, st, fuel)
    ensures var r := ExecBlock(s.base, n, bt, thn, ls, st);
            Follows(k, s.frames, t, m, m2, hidden, r.result, fuel + Paid(k, r.cost))
    decreases n, thn, 1, 0
  {
    hide TwoBranches;
    hide Fine;
    hide Match;
    hide WordsOf;
    hide Flat;
    hide Leads;
    hide View;
    hide Follows;
    hide Check;
    hide Translate;
    hide Exec;
    ThenEnters(k, s, e, t1, u, t3, t, f, g, bt, thn, els, c, below, ls, hidden, st, m, fuel);
    var under, args := Below(st, |Params(bt)|), Top(st, |Params(bt)|);
    var m1 := Runs(k, n, e, t1, thn, Enter(c, Results(bt)), Under(below, TypesOf(st), Params(bt)), ls,
                   hidden + Flat(under), args, m, fuel);
    var cost := Exec(s.base, n, thn, ls, args).cost;
    m2 := ThenLeaves(k, n, s, e, t1, u, t3, t, f, g, bt, thn, els, c, below, ls, hidden, st, m, m1,
                     fuel + Paid(k, cost));
  }

  lemma BetweenLeads(k: World, t1: Translation, u: Translation, f: Frame)
    requires Between(k, t1, u, f)
    ensures Leads(k, t1) && Leads(k, u) && k.from <= |t1.code| && k.from <= |u.code|
  {
  }

  /** The second branch starts at its label, behind the jump, with its own charge. */
  lemma ElseCharges(k: World, t1: Translation, u: Translation, f: Frame, m: M.State, m0: M.State, ls: seq<Value>,
                    hidden: seq<Word>, st: seq<Value>, fuel: nat)
    returns (n: M.State)
    requires Fine(k) && Between(k, t1, u, f) && M.Reaches(k.c, m, M.Next(m0))
    requires Stands(k, k.final.labels[f.els].value, m0, ls, hidden, st, fuel)
    ensures M.Reaches(k.c, m, M.Next(n)) && Match(k, u, n, ls, hidden, st, fuel)
  {
    hide Fine;
    hide Window;
    hide Leads;
    hide M.Reaches;
    var a := JumpOver(t1, f);
    ChargeRuns(k, a, u, m0, fuel);
    n := m0.(pc := k.off + |u.code|, fuel := Store.Saturate(fuel + Ahead(k.final, u)));
    hide Ahead;
    M.ReachesThen(k.c, m, m0, M.Next(n));
  }

  lemma BodiesFit(bt: BlockType, thn: seq<Instr>, els: seq<Instr>, c: Ctx, ts: seq<ValType>)
    requires CheckInstr(IfElse(bt, thn, els), c, ts) != Bad
    ensures ts != [] && ts[|ts| - 1] == I32 && EndsWith(ts[..|ts| - 1], Params(bt))
    ensures CheckBody(bt, thn, Results(bt), c, ts[..|ts| - 1]) != Bad
    ensures CheckBody(bt, els, Results(bt), c, ts[..|ts| - 1]) != Bad
  {
    BodyFits(bt, els, Results(bt), c, ts[..|ts| - 1]);
  }

  /** Translating both branches of an `if`. */
  lemma BothTranslated(s: Translation, e: Translation, t1: Translation, u: Translation, t3: Translation, t: Translation,
                       bt: BlockType, thn: seq<Instr>, els: seq<Instr>, c: Ctx, below: seq<ValType>, ts: seq<ValType>)
    returns (f: Frame, g: Frame)
    requires At(s, c, below, ts) && ts != [] && ts[|ts| - 1] == I32 && EndsWith(ts[..|ts| - 1], Params(bt))
    requires s.frames != []
    requires CheckBody(bt, thn, Results(bt), c, ts[..|ts| - 1]) != Bad
    requires CheckBody(bt, els, Results(bt), c, ts[..|ts| - 1]) != Bad
    requires VisitIf(s, bt) == Ok(e) && Translate(e, thn) == Ok(t1) && VisitElse(t1) == Ok(u)
    requires Translate(u, els) == Ok(t3) && VisitEnd(t3) == Ok(t)
    ensures |e.frames| == |s.frames| + 1 && e.frames[|s.frames|] == f && |u.frames| == |s.frames| + 1
    ensures u.frames[|s.frames|] == g
    ensures f.IfFrame? && f.bt == bt && f.thenReachable.None? && g.IfFrame? && g.bt == bt && g.end == f.end
    ensures var inside := Under(below, ts[..|ts| - 1], Params(bt));
            && Entered(s, e, f, c, Results(bt), inside) && Entered(s, u, g, c, Results(bt), inside)
            && Good(e, t1, inside, Check(thn, Enter(c, Results(bt)), Params(bt)))
            && |t1.frames| == |s.frames| + 1 && SameIf(f, t1.frames[|s.frames|])
            && t1.frames[|s.frames|].els < |t1.labels|
            && SecondStarts(t1, t1.frames[|s.frames|], inside, u)
            && Good(u, t3, inside, Check(els, Enter(c, Results(bt)), Params(bt)))
            && t3.frames != [] && Ended(t3, inside, t)
  {
    hide WordsOf;
    hide At;
    hide Good;
    hide Entered;
    hide SecondStarts;
    hide Ended;
    hide VisitIf;
    hide VisitElse;
    hide VisitEnd;
    hide Translate;
    hide CheckBody;
    var us := ts[..|ts| - 1];
    IfEntered(s, c, below, ts, bt);
    LiveThen(s, e, c, below, us, bt, thn);
    LiveBody(s, u, c, below, us, bt, Results(bt), els);
    GoodFrames(u, t3, Under(below, us, Params(bt)), Check(els, Enter(c, Results(bt)), Params(bt)));
    f, g := e.frames[|s.frames|], u.frames[|s.frames|];
  }

  lemma GoodFrames(s: Translation, t: Translation, below: seq<ValType>, flow: Flow)
    requires Good(s, t, below, flow)
    ensures t.frames != []
  {
    hide WF;
  }

  lemma TwoBranchesHere(k: World, s: Translation, e: Translation, t1: Translation, u: Translation, t3: Translation,
                        t: Translation, bt: BlockType, thn: seq<Instr>, els: seq<Instr>, c: Ctx, below: seq<ValType>,
                        ls: seq<Value>, hidden: seq<Word>, st: seq<Value>)
    returns (f: Frame, g: Frame)
    requires View(s, c, below, ls, hidden, st) && k.from <= |s.code| && Leads(k, t) && k.results == c.results
    requires CheckInstr(IfElse(bt, thn, els), c, TypesOf(st)) != Bad && s.paramWords == k.final.paramWords
    requires VisitIf(s, bt) == Ok(e) && Translate(e, thn) == Ok(t1) && VisitElse(t1) == Ok(u)
    requires Translate(u, els) == Ok(t3) && VisitEnd(t3) == Ok(t)
    ensures st != [] && |e.frames| == |s.frames| + 1 && e.frames[|s.frames|] == f
    ensures TwoBranches(k, s, e, t1, u, t3, t, f, g, bt, thn, els, c, below, ls, hidden, Below(st, 1))
  {
    hide WordsOf;
    hide At;
    hide Good;
    hide Entered;
    hide SecondStarts;
    hide Ended;
    hide Leads;
    hide VisitIf;
    hide VisitElse;
    hide VisitEnd;
    hide Translate;
    hide Check;
    hide Between;
    hide EndsAt;
    TypesOfSplit1(st);
    var st' := Below(st, 1);
    var inside := Under(below, TypesOf(st'), Params(bt));
    BodiesFit(bt, thn, els, c, TypesOf(st));
    BodyFlow(bt, thn, Results(bt), c, TypesOf(st'));
    hide CheckInstr;
    ViewAround(k, s, c, below, ls, hidden, st);
    f, g := BothTranslated(s, e, t1, u, t3, t, bt, thn, els, c, below, TypesOf(st));
    hide View;
    hide Around;
    SameBase(s, e, f, c, Results(bt), inside);
    SameBase(s, u, g, c, Results(bt), inside);
    BodyEnds(k, s, u, t3, t, g, c, Results(bt), inside, Check(els, Enter(c, Results(bt)), Params(bt)));
    BetweenHere(k, s, e, t1, u, f, c, Results(bt), inside, Check(thn, Enter(c, Results(bt)), Params(bt)));
    SameEnd(k, f, g, t3, t);
    hide CheckBody;
  }

  lemma SameEnd(k: World, f: Frame, g: Frame, t3: Translation, t: Translation)
    requires EndsAt(k, g, t3, t) && g.IfFrame? && f.IfFrame? && f.end == g.end
    ensures EndsAt(k, f, t3, t)
  {
  }

  lemma {:induction false} RunsElse(k: World, n: nat, s: Translation, e: Translation, t1: Translation, u: Translation,
                                    t3: Translation, t: Translation, f: Frame, g: Frame, bt: BlockType, thn: seq<Instr>,
                                    els: seq<Instr>, c: Ctx, below: seq<ValType>, ls: seq<Value>, hidden: seq<Word>,
                                    st: seq<Value>, m: M.State, fuel: nat)
    returns (m2: M.State)
    requires Fine(k) && TwoBranches(k, s, e, t1, u, t3, t, f, g, bt, thn, els, c, below, ls, hidden, st)
    requires Match(k, u, m, ls, hidden, st, fuel)
    ensures var r := ExecBlock(s.base, n, bt, els, ls, st);
            Follows(k, s.frames, t, m, m2, hidden, r.result, fuel + Paid(k, r.cost))
    decreases n, els, 2, 0
  {
    hide Fine;
    hide WordsOf;
    hide Around;
    hide Leads;
    hide View;
    hide EndsAt;
    hide Follows;
    hide Check;
    hide CheckBody;
    hide At;
    hide Good;
    hide Translate;
    hide VisitEnd;
    hide Between;
    hide Window;
    hide Entered;
    hide ExecBlock;
    assert u.frames == s.frames + [g] && Around(k, s, c, below, hidden);
    EnterView(k, s, u, g, c, Results(bt), below, ls, hidden, st);
    SameWindow(k, u, m, ls, hidden, st, hidden + Flat(Below(st, |Params(bt)|)), Top(st, |Params(bt)|), fuel);
    hide Match;
    m2 := RunsBody(k, n, s, u, t3, t, g, els, c, below, ls, hidden, st, m, fuel);
  }

  /** Both branches of an `if` have been translated, and the machine has tested the condition. */
  lemma IfElseSetup(k: World, s: Translation, t: Translation, bt: BlockType, thn: seq<Instr>, els: seq<Instr>, c: Ctx,
                    below: seq<ValType>, ls: seq<Value>, hidden: seq<Word>, st: seq<Value>, m: M.State, fuel: nat)
    returns (e: Translation, t1: Translation, u: Translation, t3: Translation, f: Frame, g: Frame, m0: M.State)
    requires Fine(k) && View(s, c, below, ls, hidden, st) && k.from <= |s.code| && Leads(k, t) && k.results == c.results
    requires CheckInstr(IfElse(bt, thn, els), c, TypesOf(st)) != Bad && TranslateInstr(s, IfElse(bt, thn, els)) == Ok(t)
    requires Match(k, s, m, ls, hidden, st, fuel) && s.paramWords == k.final.paramWords
    ensures st != [] && s.frames != []
    ensures TwoBranches(k, s, e, t1, u, t3, t, f, g, bt, thn, els, c, below, ls, hidden, Below(st, 1))
    ensures M.Reaches(k.c, m, M.Next(m0))
    ensures Match(k, if st[|st| - 1].bits != 0 then e else u, m0, ls, hidden, Below(st, 1), fuel + Paid(k, s.base))
  {
    hide Fine;
    hide View;
    hide Leads;
    hide Match;
    hide M.Reaches;
    hide Stands;
    hide Entered;
    hide WordsOf;
    e, t1, u, t3 := IfElseParts(s, bt, thn, els, t);
    hide TranslateInstr;
    hide VisitIf;
    f, g := TwoBranchesHere(k, s, e, t1, u, t3, t, bt, thn, els, c, below, ls, hidden, st);
    hide Translate;
    hide VisitElse;
    hide VisitEnd;
    TypesOfSplit1(st);
    BodiesFit(bt, thn, els, c, TypesOf(st));
    hide CheckInstr;
    hide CheckBody;
    TwoBranchesFacts(k, s, e, t1, u, t3, t, f, g, bt, thn, els, c, below, ls, hidden, Below(st, 1));
    hide TwoBranches;
    hide Between;
    var f';
    f', m0 := IfStarts(k, s, e, bt, c, below, ls, hidden, st, m, fuel);
    if st[|st| - 1].bits == 0 {
      m0 := ElseCharges(k, t1, u, f, m, m0, ls, hidden, Below(st, 1), fuel + Paid(k, s.base));
    }
  }

  lemma {:induction false} RunsIfElse(k: World, n: nat, s: Translation, t: Translation, bt: BlockType, thn: seq<Instr>,
                                      els: seq<Instr>, c: Ctx, below: seq<ValType>, ls: seq<Value>, hidden: seq<Word>,
                                      st: seq<Value>, m: M.State, fuel: nat)
    returns (m2: M.State)
    requires Fine(k) && View(s, c, below, ls, hidden, st) && k.from <= |s.code| && Leads(k, t) && k.results == c.results
    requires CheckInstr(IfElse(bt, thn, els), c, TypesOf(st)) != Bad && TranslateInstr(s, IfElse(bt, thn, els)) == Ok(t)
    requires Match(k, s, m, ls, hidden, st, fuel) && s.paramWords == k.final.paramWords
    ensures st != []
    ensures var r := ExecBlock(s.base, n, bt, if st[|st| - 1].bits != 0 then thn else els, ls, Below(st, 1));
            Follows(k, s.frames, t, m, m2, hidden, r.result, fuel + Paid(k, s.base) + Paid(k, r.cost))
    decreases n, IfElse(bt, thn, els), 0, 0
  {
    hide Fine;
    hide View;
    hide Leads;
    hide Match;
    hide Follows;
    hide ExecBlock;
    hide TwoBranches;
    hide CheckInstr;
    hide TranslateInstr;
    hide M.Reaches;
    var e, t1, u, t3, f, g, m0 := IfElseSetup(k, s, t, bt, thn, els, c, below, ls, hidden, st, m, fuel);
    if st[|st| - 1].bits != 0 {
      m2 := RunsThen(k, n, s, e, t1, u, t3, t, f, g, bt, thn, els, c, below, ls, hidden, Below(st, 1), m0,
                     fuel + Paid(k, s.base));
    } else {
      m2 := RunsElse(k, n, s, e, t1, u, t3, t, f, g, bt, thn, els, c, below, ls, hidden, Below(st, 1), m0,
                     fuel + Paid(k, s.base));
    }
    var r := ExecBlock(s.base, n, bt, if st[|st| - 1].bits != 0 then thn else els, ls, Below(st, 1));
    Prefixed(k, s, t, m, m0, m2, hidden, r.result, fuel + Paid(k, s.base) + Paid(k, r.cost));
  }

  lemma TwoBranchesFacts(k: World, s: Translation, e: Translation, t1: Translation, u: Translation, t3: Translation,
                         t: Translation, f: Frame, g: Frame, bt: BlockType, thn: seq<Instr>, els: seq<Instr>, c: Ctx,
                         below: seq<ValType>, ls: seq<Value>, hidden: seq<Word>, st: seq<Value>)
    requires TwoBranches(k, s, e, t1, u, t3, t, f, g, bt, thn, els, c, below, ls, hidden, st)
    ensures Leads(k, e) && Between(k, t1, u, f) && s.frames != []
  {
  }

  lemma {:induction false} RunsInstr(k: World, n: nat, s: Translation, t: Translation, i: Instr, c: Ctx,
                                     below: seq<ValType>, ls: seq<Value>, hidden: seq<Word>, st: seq<Value>, m: M.State,
                                     fuel: nat)
    returns (m2: M.State)
    requires Fine(k) && View(s, c, below, ls, hidden, st) && k.from <= |s.code| && Leads(k, t) && k.results == c.results
    requires CheckInstr(i, c, TypesOf(st)) != Bad && TranslateInstr(s, i) == Ok(t)
    requires Match(k, s, m, ls, hidden, st, fuel)
    ensures var r := ExecInstr(s.base, n, i, ls, st);
            Follows(k, s.frames, t, m, m2, hidden, r.result, fuel + Paid(k, r.cost))
    decreases n, i, 1, 0
  {
    hide Fine;
    hide View;
    hide Leads;
    hide Match;
    hide Follows;
    hide TranslateInstr;
    hide CheckBody;
    hide CheckPlain;
    hide ExecBlock;
    hide ExecLoop;
    hide Plain;
    hide Cost;
    hide Fits;
    SameWords(k, s, t, c, below, ls, hidden, st, i);
    match i
    case Block(bt, body) => m2 := RunsBlock(k, n, s, t, bt, body, c, below, ls, hidden, st, m, fuel);
    case Loop(bt, body) => m2 := RunsLoopInstr(k, n, s, t, bt, body, c, below, ls, hidden, st, m, fuel);
    case If(bt, thn) =>
      IfChecked(bt, thn, c, st);
      m2 := RunsIf(k, n, s, t, bt, thn, c, below, ls, hidden, st, m, fuel);
    case IfElse(bt, thn, els) => m2 := RunsIfElse(k, n, s, t, bt, thn, els, c, below, ls, hidden, st, m, fuel);
    case _ => m2 := RunsPlain(k, n, s, t, i, c, below, ls, hidden, st, m, fuel);
  }

  lemma IfChecked(bt: BlockType, thn: seq<Instr>, c: Ctx, st: seq<Value>)
    requires CheckInstr(If(bt, thn), c, TypesOf(st)) != Bad
    ensures st != [] && TypesOf(st)[|st| - 1] == I32 && CheckBody(bt, thn, Results(bt), c, TypesOf(Below(st, 1))) != Bad
  {
    TypesOfSplit1(st);
  }

  lemma SameWords(k: World, s: Translation, t: Translation, c: Ctx, below: seq<ValType>, ls: seq<Value>,
                  hidden: seq<Word>, st: seq<Value>, i: Instr)
    requires View(s, c, below, ls, hidden, st) && Leads(k, t) && CheckInstr(i, c, TypesOf(st)) != Bad
    requires TranslateInstr(s, i) == Ok(t)
    ensures s.paramWords == k.final.paramWords
  {
    hide At;
    hide WordsOf;
    hide TranslateInstr;
    hide CheckInstr;
    LiveInstr(s, c, below, TypesOf(st), i);
    hide WF;
    hide Kept;
    hide CodeExtends;
    hide LabelsExtend;
  }

  lemma RunsPlain(k: World, n: nat, s: Translation, t: Translation, i: Instr, c: Ctx, below: seq<ValType>,
                  ls: seq<Value>, hidden: seq<Word>, st: seq<Value>, m: M.State, fuel: nat) returns (m2: M.State)
    requires Fine(k) && View(s, c, below, ls, hidden, st) && k.from <= |s.code| && Leads(k, t) && k.results == c.results
    requires Flat1(i) && CheckInstr(i, c, TypesOf(st)) != Bad && TranslateInstr(s, i) == Ok(t)
    requires Match(k, s, m, ls, hidden, st, fuel)
    ensures var r := ExecInstr(s.base, n, i, ls, st);
            Follows(k, s.frames, t, m, m2, hidden, r.result, fuel + Paid(k, r.cost))
  {
    hide Fine;
    hide View;
    hide Leads;
    hide Match;
    hide Follows;
    hide TranslateInstr;
    PlainExec(n, s.base, i, c, ls, st);
    hide CheckInstr;
    hide ExecInstr;
    hide CheckPlain;
    hide Plain;
    m2 := PlainFollows(k, s, t, i, c, below, ls, hidden, st, m, fuel);
  }

  lemma PlainExec(n: nat, base: nat, i: Instr, c: Ctx, ls: seq<Value>, st: seq<Value>)
    requires Flat1(i)
    ensures CheckInstr(i, c, TypesOf(st)) == CheckPlain(i, c, TypesOf(st))
    ensures ExecInstr(base, n, i, ls, st) == Run(Plain(i, ls, st), Cost(base, i))
  {
    hide CheckPlain;
    hide Plain;
    hide Cost;
  }
}
