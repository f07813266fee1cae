/** With metering on and a fuel limit, every run of call-free compiled code ends within a bound. */
module Termination {
  import opened Words
  import O = Opcodes
  import M = Machine
  import Store
  import DK = DropKeeps
  import opened Source
  import opened Validation
  import opened Layout
  import opened Translator
  import opened Invariants
  import Progress
  import opened Branches
  import opened BranchRuns
  import opened Images
  import opened Functions
  import opened Calls
  import opened Metering
  import opened MeteredBodies
  import Limbs

  // ----- the shape of a finished function -----

  ghost predicate Shaped(from: nat, f: Translation) {
    && f.metered && from <= |f.code| && OpsFine(from, f) && LabelsCharge(f) && JumpsFine(f)
    && (exists q: nat :: SealedAt(from, f, q))
    && (forall l :: 1 <= l < |f.labels| && f.labels[l].Some? ==> from <= f.labels[l].value)
  }

  lemma OpenedMetered(c: Costs, f: Function, code: seq<SymOp>)
    requires c.metered && Affordable(c) && SmallGroups(f.locals) && Finished(code)
    ensures Metered(|code|, Opened(c, f, code))
  {
    hide WordsOf;
    var s, n := Opened(c, f, code), |code|;
    var locals := Ops(LocalsCode(f.locals));
    assert s.code == code + Head(c, f) + locals;
    LocalsConst(f.locals);
    forall i | n <= i < |s.code| ensures OpFine(s.code, i) && !s.code[i].Jump? && (i > n + 1 ==> !IsCharge(s.code, i)) {
      if i >= n + |Head(c, f)| {
        assert s.code[i] == locals[i - n - |Head(c, f)|] == Op(LocalsCode(f.locals)[i - n - |Head(c, f)|]);
      } else {
        assert s.code[i] == Head(c, f)[i - n];
      }
    }
    forall i | 0 <= i < |s.code| ensures !s.code[i].Jump? {
    }
    assert IsCharge(s.code, n + 1);
  }

  /** Every compiled function has the shape. */
  lemma FunctionShaped(k: World, c: Costs, f: Function, code: seq<SymOp>)
    requires Compiled(k, c, f, code) && c.metered
    ensures Shaped(|code|, k.final) && k.final.base == c.base
  {
    hide WordsOf;
    hide Translate;
    hide Check;
    hide Metered;
    hide Progress.Good;
    hide BodyDone;
    hide Leads;
    var t, dk := Parts(k, c, f, code);
    OpenedMetered(c, f, code);
    OpenedAt(c, f, code);
    LiveMetered(|code|, Opened(c, f, code), FunctionCtx(f), AllLocals(f), [], f.body, t);
    GoodBase(Opened(c, f, code), t, AllLocals(f), Check(f.body, FunctionCtx(f), []));
    LabelsInside(k, c, f, code);
    hide Opened;
    hide TranslateFunction;
    hide Closes;
    ClosesShaped(|code|, t, dk, k.final);
  }

  lemma LabelsInside(k: World, c: Costs, f: Function, code: seq<SymOp>)
    requires Affordable(c) && SmallGroups(f.locals) && Leads(k, Opened(c, f, code))
    ensures forall l :: 1 <= l < |k.final.labels| && k.final.labels[l].Some? ==> |code| <= k.final.labels[l].value
  {
    hide WordsOf;
  }

  lemma GoodBase(s: Translation, t: Translation, below: seq<ValType>, flow: Flow)
    requires Progress.Good(s, t, below, flow)
    ensures t.base == s.base
  {
    hide WF;
    hide CodeExtends;
    hide LabelsExtend;
  }

  lemma ClosesShaped(from: nat, t: Translation, dk: DK.DropKeep, v: Translation)
    requires Metered(from, t) && Closes(t, dk, v)
    requires forall l :: 1 <= l < |v.labels| && v.labels[l].Some? ==> from <= v.labels[l].value
    ensures Shaped(from, v)
  {
    var target := Target(O.None, dk);
    var u := if t.reachable then Take(t, target) else t;
    if t.reachable {
      TakeMetered(from, t, target);
      TakeShape(t, target);
      SameParts(t, target);
    }
    hide Take;
    hide Tail;
    assert v.code == u.code && u.labels == t.labels && v.base == u.base && !u.reachable;
    SameShape(from, u, v);
  }

  lemma SameShape(from: nat, u: Translation, v: Translation)
    requires Metered(from, u) && !u.reachable && v.code == u.code && v.metered == u.metered && v.base == u.base
    requires |v.labels| == |u.labels| && forall l :: 1 <= l < |u.labels| ==> v.labels[l] == u.labels[l]
    requires forall l :: 1 <= l < |v.labels| && v.labels[l].Some? ==> from <= v.labels[l].value
    ensures Shaped(from, v)
  {
    forall i | 0 <= i < |v.code| && v.code[i].Jump? ensures JumpFine(v, i) {
      assert JumpFine(u, i);
    }
    var q: nat :| SealedAt(from, u, q);
    assert SealedAt(from, v, q);
  }

  // ----- credit -----

  /** Whether the last charge executed in the current stretch of code was at least `base`. */
  function Credit(code: seq<SymOp>, base: nat, from: nat, p: nat): nat
    requires p <= |code|
  {
    if p <= from then 0
    else if code[p - 1].Op? && code[p - 1].op.ConsumeFuel? then (if code[p - 1].op.fuel >= base then 1 else 0)
    else Credit(code, base, from, p - 1)
  }

  /** In front of a charge nothing has been paid for yet. */
  function Standing(code: seq<SymOp>, base: nat, from: nat, p: nat): nat
    requires p < |code|
  {
    if code[p].Op? && code[p].op.ConsumeFuel? then 0 else Credit(code, base, from, p)
  }

  lemma {:induction false} QuietCredit(code: seq<SymOp>, base: nat, from: nat, a: nat, b: nat)
    requires from <= a <= b <= |code| && Quiet(code, a, b)
    ensures Credit(code, base, from, b) == Credit(code, base, from, a)
    decreases b
  {
    if a < b {
      assert !IsCharge(code, b - 1);
      QuietCredit(code, base, from, a, b - 1);
    }
  }

  lemma PaidCredit(code: seq<SymOp>, base: nat, from: nat, i: nat)
    requires from < i <= |code| && PaidBefore(code, base, i) && exists j :: from <= j < i && IsCharge(code, j)
    ensures Credit(code, base, from, i) == 1
  {
    var j: nat :| j < i && PaidAt(code, base, j) && Quiet(code, j + 1, i);
    var g: nat :| from <= g < i && IsCharge(code, g);
    assert j >= g;
    QuietCredit(code, base, from, j + 1, i);
  }

  // ----- the bound -----

  /** A machine inside one call-free compiled function. */
  ghost predicate Inside(c: M.Config, off: nat, from: nat, f: Translation, snippets: map<Snippet, Word>, q: nat) {
    && Linked(c, off, from, f, snippets) && c.limit.Some? && c.limit.value < Store.U64_MAX
    && Shaped(from, f) && SealedAt(from, f, q) && f.base >= 1
    && from + 1 < |f.code| && IsCharge(f.code, from + 1)
    && !IsCharge(f.code, from) && !f.code[from].Jump?
    && forall i :: from <= i < |f.code| ==> !f.code[i].CallSnippet?
  }

  ghost predicate Where(c: M.Config, off: nat, from: nat, q: nat, m: M.State) {
    off + from <= m.pc <= off + q && c.limit.Some? && m.fuel <= c.limit.value
  }

  /** How many charges of `base` fit into `r`. */
  function Rounds(r: nat, base: nat): nat
    requires base >= 1
  {
    if r < base then 0 else 1 + Rounds(r - base, base)
  }

  function Product(x: nat, y: nat): nat { if x == 0 then 0 else y + Product(x - 1, y) }

  /** Steps left at most. */
  function Left(limit: nat, fuel: nat, base: nat, credit: nat, size: nat, at: nat): int
    requires base >= 1 && fuel <= limit
  {
    Product(Rounds(limit - fuel, base) + credit + 1, size) - at
  }

  lemma {:induction false} ProductLess(x: nat, y: nat, size: nat)
    requires x < y
    ensures Product(x, size) + size <= Product(y, size)
    decreases y
  {
    if x < y - 1 {
      ProductLess(x, y - 1, size);
    }
  }

  lemma {:induction false} RoundsMonotone(a: nat, b: nat, base: nat)
    requires a <= b && base >= 1
    ensures Rounds(a, base) <= Rounds(b, base)
    decreases b
  {
    if a >= base {
      RoundsMonotone(a - base, b - base, base);
    }
  }

  lemma Spending(limit: nat, fuel: nat, x: nat, base: nat)
    requires base >= 1 && fuel + x <= limit
    ensures Rounds(limit - fuel - x, base) + (if x >= base then 1 else 0) <= Rounds(limit - fuel, base)
  {
    if x >= base {
      RoundsMonotone(limit - fuel - x, limit - fuel - base, base);
    } else {
      RoundsMonotone(limit - fuel - x, limit - fuel, base);
    }
  }

  /** In terms of division and multiplication. */
  lemma {:induction false} RoundsIsQuotient(r: nat, base: nat)
    requires base >= 1
    ensures Rounds(r, base) == r / base
    decreases r
  {
    if r >= base {
      RoundsIsQuotient(r - base, base);
      QuotientStep(r - base, base);
    } else {
      Limbs.ModUnique(r, r, 0, base);
    }
  }

  lemma QuotientStep(r: nat, base: nat)
    requires base >= 1
    ensures (r + base) / base == r / base + 1
  {
    var q, m := r / base, r % base;
    assert r == q * base + m;
    assert (q + 1) * base == q * base + base;
    Limbs.ModUnique(r + base, m, q + 1, base);
  }

  lemma {:induction false} ProductIs(x: nat, y: nat)
    ensures Product(x, y) == x * y
  {
    if x > 0 {
      ProductIs(x - 1, y);
      assert (x - 1) * y == x * y - y;
    }
  }

  function Measure(c: M.Config, off: nat, from: nat, f: Translation, m: M.State): int
    requires c.limit.Some? && m.fuel <= c.limit.value && f.base >= 1 && from <= m.pc - off < |f.code|
  {
    Left(c.limit.value, m.fuel, f.base, Standing(f.code, f.base, from, m.pc - off), |f.code| - from, m.pc - off - from)
  }

  datatype Kind = AtCharge(x: Word) | Onward | Back

  /** What one step does: it pays a charge, goes forward over no charge, or jumps to a charge. */
  ghost predicate Moves(off: nat, from: nat, f: Translation, q: nat, limit: nat, m: M.State, t: M.State, kind: Kind)
  {
    var p, p' := m.pc - off, t.pc - off;
    && from <= p <= q < |f.code| && from <= p' <= q && t.fuel <= limit
    && match kind
       case AtCharge(x) =>
         f.code[p] == Op(O.ConsumeFuel(x)) && p' == p + 1 && t.fuel == m.fuel + x
       case Onward =>
         !IsCharge(f.code, p) && p' > p && Quiet(f.code, p + 1, p') && t.fuel == m.fuel
       case Back =>
         !IsCharge(f.code, p) && IsCharge(f.code, p') && t.fuel == m.fuel
         && (p' <= p ==> Credit(f.code, f.base, from, p) == 1)
  }

  lemma CreditNext(code: seq<SymOp>, base: nat, from: nat, p: nat)
    requires from <= p < |code|
    ensures Credit(code, base, from, p + 1)
            == if IsCharge(code, p) then (if code[p].op.fuel >= base then 1 else 0) else Credit(code, base, from, p)
  {
  }

  /** Every step leaves less. */
  lemma MovesDecrease(c: M.Config, off: nat, from: nat, f: Translation, q: nat, m: M.State, t: M.State, kind: Kind)
    requires c.limit.Some? && m.fuel <= c.limit.value && f.base >= 1
    requires Moves(off, from, f, q, c.limit.value, m, t, kind)
    ensures 0 <= Measure(c, off, from, f, t) < Measure(c, off, from, f, m)
  {
    hide Rounds;
    hide Product;
    hide Credit;
    hide Quiet;
    var p, p', size, limit := m.pc - off, t.pc - off, |f.code| - from, c.limit.value;
    var a, a' := Rounds(limit - m.fuel, f.base), Rounds(limit - t.fuel, f.base);
    var s, s' := Standing(f.code, f.base, from, p), Standing(f.code, f.base, from, p');
    CreditBit(f.code, f.base, from, p);
    CreditBit(f.code, f.base, from, p');
    CreditNext(f.code, f.base, from, p);
    match kind {
      case AtCharge(x) =>
        Spending(limit, m.fuel, x, f.base);
        assert a' + s' <= a + s;
      case Onward =>
        if IsCharge(f.code, p') {
          assert s' == 0;
        } else {
          QuietCredit(f.code, f.base, from, p + 1, p');
          assert s' == s;
        }
      case Back =>
        assert s' == 0;
    }
    NonNegative(a' + s' + 1, size);
    if a' + s' < a + s {
      ProductLess(a' + s' + 1, a + s + 1, size);
    }
  }

  lemma NonNegative(x: nat, size: nat)
    requires x >= 1
    ensures Product(x, size) >= size
  {
    if x > 1 {
      ProductLess(1, x, size);
    }
  }

  lemma {:induction false} CreditBit(code: seq<SymOp>, base: nat, from: nat, p: nat)
    requires p <= |code|
    ensures Credit(code, base, from, p) <= 1
  {
    if p > from {
      CreditBit(code, base, from, p - 1);
    }
  }

  // ----- one step -----

  lemma FineAt(from: nat, f: Translation, q: nat, p: nat)
    requires Shaped(from, f) && SealedAt(from, f, q) && from <= p <= q
    ensures OpFine(f.code, p) && (f.code[p].Jump? ==> JumpFine(f, p))
    ensures !Terminal(f.code[p]) ==> p < q
    ensures Reach(f.code[p]) > 0 ==> p + Reach(f.code[p]) <= q
  {
  }

  lemma ChargeMoves(c: M.Config, off: nat, from: nat, f: Translation, snippets: map<Snippet, Word>, q: nat, m: M.State,
                    t: M.State)
    returns (kind: Kind)
    requires Inside(c, off, from, f, snippets, q) && Where(c, off, from, q, m) && M.Step(c, m) == M.Next(t)
    requires IsCharge(f.code, m.pc - off)
    ensures Moves(off, from, f, q, c.limit.value, m, t, kind)
  {
    hide M.Straight;
    var p := m.pc - off;
    FineAt(from, f, q, p);
    assert ResolvedAt(c, off, f, p, snippets);
    hide Linked;
    hide Shaped;
    hide SealedAt;
    kind := AtCharge(f.code[p].op.fuel);
  }

  lemma OpMoves(c: M.Config, off: nat, from: nat, f: Translation, snippets: map<Snippet, Word>, q: nat, m: M.State,
                t: M.State)
    requires Inside(c, off, from, f, snippets, q) && Where(c, off, from, q, m) && M.Step(c, m) == M.Next(t)
    requires !IsCharge(f.code, m.pc - off) && !f.code[m.pc - off].Jump? && c.code[m.pc] != O.Return
    ensures Moves(off, from, f, q, c.limit.value, m, t, Onward)
  {
    hide M.Straight;
    var p := m.pc - off;
    FineAt(from, f, q, p);
    assert ResolvedAt(c, off, f, p, snippets);
    assert !f.code[p].CallSnippet?;
    hide Linked;
    hide Shaped;
    hide SealedAt;
    var op := c.code[m.pc];
    if op.Branch? || op.BrTable? {
      assert f.code[p] == Op(op);
    } else {
      PlainStep(c, m, t, op);
      assert !Terminal(f.code[p]);
    }
  }

  /** Every other opcode goes on to the next one. */
  lemma PlainStep(c: M.Config, m: M.State, t: M.State, op: O.Opcode)
    requires 0 <= m.pc < |c.code| && c.code[m.pc] == op && M.Step(c, m) == M.Next(t)
    requires !op.Branch? && !op.BrTable? && !op.ConsumeFuel? && !op.CallInternal? && op != O.Return
    ensures t.pc == m.pc + 1 && t.fuel == m.fuel && op != O.Unreachable
  {
    hide M.Straight;
  }

  lemma JumpMoves(c: M.Config, off: nat, from: nat, f: Translation, snippets: map<Snippet, Word>, q: nat, m: M.State,
                  t: M.State)
    returns (kind: Kind)
    requires Inside(c, off, from, f, snippets, q) && Where(c, off, from, q, m) && M.Step(c, m) == M.Next(t)
    requires f.code[m.pc - off].Jump?
    ensures Moves(off, from, f, q, c.limit.value, m, t, kind)
  {
    var p := m.pc - off;
    FineAt(from, f, q, p);
    assert ResolvedAt(c, off, f, p, snippets);
    var l := f.code[p].target;
    var v := f.labels[l].value;
    assert IsCharge(f.code, v) && from <= v <= q;
    if t.pc - off == v {
      kind := Back;
      if v <= p {
        assert IsCharge(f.code, from + 1) && from + 1 < p;
        PaidCredit(f.code, f.base, from, p);
      }
    } else {
      kind := Onward;
    }
  }

  lemma StepMoves(c: M.Config, off: nat, from: nat, f: Translation, snippets: map<Snippet, Word>, q: nat, m: M.State,
                  t: M.State)
    returns (kind: Kind)
    requires Inside(c, off, from, f, snippets, q) && Where(c, off, from, q, m)
    requires M.Step(c, m) == M.Next(t) && c.code[m.pc] != O.Return
    ensures Moves(off, from, f, q, c.limit.value, m, t, kind)
  {
    hide M.Step;
    hide Moves;
    if IsCharge(f.code, m.pc - off) {
      kind := ChargeMoves(c, off, from, f, snippets, q, m, t);
    } else if f.code[m.pc - off].Jump? {
      kind := JumpMoves(c, off, from, f, snippets, q, m, t);
    } else {
      kind := Onward;
      OpMoves(c, off, from, f, snippets, q, m, t);
    }
  }

  // ----- whole runs -----

  /** After `n` steps the run stands at a return, or cannot go on: it is over, trapped or stuck. */
  ghost predicate EndsIn(c: M.Config, m: M.State, n: nat) {
    var o := M.Steps(c, m, n);
    o.Next? && (!M.Step(c, o.state).Next? || (0 <= o.state.pc < |c.code| && c.code[o.state.pc] == O.Return))
  }

  /** The bound for a run from any position. */
  lemma {:induction false} EndsWithin(c: M.Config, off: nat, from: nat, f: Translation, snippets: map<Snippet, Word>,
                                      q: nat, m: M.State)
    returns (n: nat)
    requires Inside(c, off, from, f, snippets, q) && Where(c, off, from, q, m)
    ensures EndsIn(c, m, n) && 0 <= n <= Measure(c, off, from, f, m)
    decreases Measure(c, off, from, f, m)
  {
    InCode(c, off, from, f, snippets, q, m);
    hide Inside;
    hide Measure;
    hide M.Step;
    if !M.Step(c, m).Next? || (0 <= m.pc < |c.code| && c.code[m.pc] == O.Return) {
      n := 0;
      MeasurePositive(c, off, from, f, snippets, q, m);
    } else {
      var t := M.Step(c, m).state;
      StepInside(c, off, from, f, snippets, q, m, t);
      n := EndsWithin(c, off, from, f, snippets, q, t);
      n := n + 1;
      assert M.Steps(c, m, n) == M.Steps(c, t, n - 1);
    }
  }

  lemma InCode(c: M.Config, off: nat, from: nat, f: Translation, snippets: map<Snippet, Word>, q: nat, m: M.State)
    requires Inside(c, off, from, f, snippets, q) && Where(c, off, from, q, m)
    ensures 0 <= m.pc < |c.code|
  {
  }

  lemma MeasurePositive(c: M.Config, off: nat, from: nat, f: Translation, snippets: map<Snippet, Word>, q: nat,
                        m: M.State)
    requires Inside(c, off, from, f, snippets, q) && Where(c, off, from, q, m)
    ensures Measure(c, off, from, f, m) >= 0
  {
    var p := m.pc - off;
    NonNegative(Rounds(c.limit.value - m.fuel, f.base) + Standing(f.code, f.base, from, p) + 1, |f.code| - from);
  }

  lemma StepInside(c: M.Config, off: nat, from: nat, f: Translation, snippets: map<Snippet, Word>, q: nat, m: M.State,
                   t: M.State)
    requires Inside(c, off, from, f, snippets, q) && Where(c, off, from, q, m)
    requires M.Step(c, m) == M.Next(t) && c.code[m.pc] != O.Return
    ensures Where(c, off, from, q, t)
    ensures 0 <= Measure(c, off, from, f, t) < Measure(c, off, from, f, m)
  {
    hide M.Step;
    hide Measure;
    var kind := StepMoves(c, off, from, f, snippets, q, m, t);
    MovesDecrease(c, off, from, f, q, m, t, kind);
  }

  /** Fuel-bounded termination. Whatever the stack holds, a metered call-free function entered with an empty
      fuel counter under a limit below the largest counter value is over within
      (limit / base + 1) * length steps: it returns, traps or is stuck, and never leaves its code. */
  lemma FuelBoundsSteps(k: World, c: Costs, f: Function, code: seq<SymOp>, limit: nat, m: M.State) returns (n: nat)
    requires Compiled(k, c, f, code) && c.metered && c.base >= 1
    requires Linked(k.c, k.off, k.from, k.final, k.snippets) && k.c.limit == O.Some(limit) && limit < Store.U64_MAX
    requires forall i :: |code| <= i < |k.final.code| ==> !k.final.code[i].CallSnippet?
    requires m.pc == k.off + k.from && m.fuel == 0
    ensures EndsIn(k.c, m, n) && n <= (limit / c.base + 1) * (|k.final.code| - |code|)
  {
    hide M.Step;
    hide TranslateFunction;
    FunctionShaped(k, c, f, code);
    EntryShape(k, c, f, code);
    hide Compiled;
    hide SealedAt;
    var q: nat :| SealedAt(|code|, k.final, q);
    EntryInside(k, |code|, k.final, q);
    n := EndsWithin(k.c, k.off, |code|, k.final, k.snippets, q, m);
    hide Shaped;
    hide Linked;
    RoundsIsQuotient(limit, c.base);
    ProductIs(limit / c.base + 1, |k.final.code| - |code|);
    hide Product;
    hide Rounds;
  }

  lemma EntryInside(k: World, from: nat, f: Translation, q: nat)
    requires SealedAt(from, f, q)
    ensures from <= q
  {
  }

  lemma EntryShape(k: World, c: Costs, f: Function, code: seq<SymOp>)
    requires Compiled(k, c, f, code) && c.metered
    ensures |code| + 1 < |k.final.code| && IsCharge(k.final.code, |code| + 1)
    ensures !IsCharge(k.final.code, |code|) && !k.final.code[|code|].Jump?
  {
    hide TranslateFunction;
    var t, dk := Parts(k, c, f, code);
    PrologueEmitted(k, c, f, code);
    hide Opened;
    hide Ahead;
    assert k.final.code[|code| + 0] == [Op(O.SignatureCheck(f.signature))][0];
    assert k.final.code[|code| + 1 + 0] == [Op(O.ConsumeFuel(EntryCost(c) + Ahead(k.final, Opened(c, f, code))))][0];
  }
}
