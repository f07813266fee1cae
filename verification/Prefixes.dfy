/** Calls in the middle: where the machine is, and what it has been charged, when part of the body is done. */
module Prefixes {
  import opened Words
  import O = Opcodes
  import M = Machine
  import Store
  import opened Source
  import opened Validation
  import opened Layout
  import opened Translator
  import opened Invariants
  import opened Progress
  import opened Branches
  import opened Bodies
  import opened Locals
  import opened Images
  import opened Simulation
  import opened BodyRuns
  import opened Functions
  import opened Calls

  lemma {:induction false} CheckPrefix(a: seq<Instr>, b: seq<Instr>, c: Ctx, ts: seq<ValType>)
    requires Check(a + b, c, ts) != Bad
    ensures Check(a, c, ts) != Bad
    ensures Check(a, c, ts).Live? ==> Check(a + b, c, ts) == Check(b, c, Check(a, c, ts).types)
    decreases |a|
  {
    hide CheckInstr;
    if a == [] {
      assert [] + b == b;
    } else {
      assert (a + b)[1..] == a[1..] + b;
      var f := CheckInstr(a[0], c, ts);
      if f.Live? {
        CheckPrefix(a[1..], b, c, f.types);
      }
    }
  }

  lemma {:induction false} TranslatePrefix(s: Translation, a: seq<Instr>, b: seq<Instr>, t: Translation)
    returns (t1: Translation)
    requires Translate(s, a + b) == Ok(t)
    ensures Translate(s, a) == Ok(t1) && Translate(t1, b) == Ok(t)
    decreases |a|
  {
    hide TranslateInstr;
    if a == [] {
      assert [] + b == b;
      t1 := s;
    } else {
      assert (a + b)[1..] == a[1..] + b;
      t1 := TranslatePrefix(TranslateInstr(s, a[0]).value, a[1..], b, t);
    }
  }

  /** The translation in the middle leads to the finished one. */
  lemma MiddleLeads(k: World, s: Translation, t1: Translation, t: Translation, a: seq<Instr>, b: seq<Instr>, c: Ctx,
                    below: seq<ValType>)
    requires At(s, c, below, []) && Check(a + b, c, []) != Bad && Check(a, c, []).Live?
    requires Translate(s, a) == Ok(t1) && Translate(t1, b) == Ok(t) && Leads(k, t) && k.from <= |s.code|
    ensures Leads(k, t1)
  {
    hide WordsOf;
    hide WF;
    hide Placed;
    hide Translate;
    CheckPrefix(a, b, c, []);
    LiveTranslate(s, c, below, [], a);
    var ts := Check(a, c, []).types;
    hide Kept;
    AtPlaced(s, c, below);
    GoodAt(s, t1, c, below, ts);
    hide At;
    LiveTranslate(t1, c, below, ts, b);
    hide Check;
    ExtendsTransitive(t1, t, k.final);
    CodeGrows(s, t1);
    hide Extends;
  }

  lemma AtPlaced(s: Translation, c: Ctx, below: seq<ValType>)
    requires At(s, c, below, [])
    ensures Placed(s, c, below)
  {
    hide WF;
    hide WordsOf;
  }

  /** When the first part of the body has completed, the machine holds the flattened source state above the caller's
      words, and it has already been charged for entering the function and for every operator of that part. */
  lemma PaidInAdvance(k: World, c: Costs, f: Function, code: seq<SymOp>, n: nat, a: seq<Instr>, b: seq<Instr>,
                      args: seq<Value>, m: M.State) returns (m1: M.State)
    requires Fine(k) && Compiled(k, c, f, code) && Entering(k, f, args, m) && f.body == a + b
    requires Exec(c.base, n, a, args + Zeros(LocalTypes(f.locals)), []).result.Normal?
    ensures var r := Exec(c.base, n, a, args + Zeros(LocalTypes(f.locals)), []);
            && M.Reaches(k.c, m, M.Next(m1)) && m1.calls == k.calls
            && m1.stack == k.caller + Window(r.result.locals, [], r.result.stack)
            && m1.fuel >= Store.Saturate(m.fuel + (if c.metered then EntryCost(c) + r.cost else 0))
  {
    hide Fine;
    hide WordsOf;
    hide M.Reaches;
    hide View;
    hide Leads;
    hide BodyDone;
    hide Closes;
    hide Good;
    hide Check;
    hide Exec;
    hide Zeros;
    hide LocalTypes;
    hide Flat;
    hide Opened;
    hide TranslateFunction;
    hide Entering;
    hide FunctionCtx;
    hide AllLocals;
    hide Translate;
    hide Window;
    hide Ahead;
    hide Kept;
    var t, dk := Parts(k, c, f, code);
    var s, ls := Opened(c, f, code), args + Zeros(LocalTypes(f.locals));
    BodyFacts(k, c, f, code, args, m);
    hide Compiled;
    var t1 := TranslatePrefix(s, a, b, t);
    PrefixLive(k, s, c.base, n, a, b, FunctionCtx(f), AllLocals(f), ls);
    MiddleLeads(k, s, t1, t, a, b, FunctionCtx(f), AllLocals(f));
    var m0 := PrologueRuns(k, c, f, code, args, m);
    var fuel := m.fuel + Paid(k, EntryCost(c));
    m1 := Runs(k, n, s, t1, a, FunctionCtx(f), AllLocals(f), ls, [], [], m0, fuel);
    M.ReachesThen(k.c, m, m0, M.Next(m1));
  }

  lemma PrefixLive(k: World, s: Translation, base: nat, n: nat, a: seq<Instr>, b: seq<Instr>, c: Ctx,
                   below: seq<ValType>, ls: seq<Value>)
    requires View(s, c, below, ls, [], []) && Check(a + b, c, []) != Bad && Exec(base, n, a, ls, []).result.Normal?
    ensures At(s, c, below, []) && Check(a, c, []).Live? && Check(a, c, TypesOf([])) != Bad
  {
    hide At;
    assert TypesOf([]) == [];
    CheckPrefix(a, b, c, []);
    Sound(base, n, a, c, ls, []);
    hide Check;
    hide Exec;
  }
}
