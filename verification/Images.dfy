/** Finished code: symbolic opcodes resolved and placed in a module, and how the machine and a
    translation state correspond while that code runs. */
module Images {
  import opened Words
  import O = Opcodes
  import M = Machine
  import B = Blocks
  import Store
  import opened Source
  import opened Validation
  import opened Layout
  import opened Translator
  import opened Invariants
  import opened Progress
  import opened Branches
  import opened Locals
  import Sequences

  /** The opcode that a symbolic one at position `i` of the finished translation `f` becomes. */
  ghost predicate Resolves(f: Translation, i: nat, snippets: map<Snippet, Word>, op: O.Opcode)
    requires i < |f.code|
  {
    match f.code[i]
    case Op(o) => op == o
    case Jump(kind, l) =>
      && l < |f.labels| && f.labels[l].Some?
      && op.Branch? && op.kind == kind && op.offset == f.labels[l].value - i
    case CallSnippet(sn) => sn in snippets && op == O.CallInternal(snippets[sn])
    case ReserveStack => op.StackCheck? && op.height == f.maxHeight
  }

  ghost predicate ResolvedAt(c: M.Config, off: nat, f: Translation, i: nat, snippets: map<Snippet, Word>)
    requires i < |f.code| && off + |f.code| <= |c.code|
  {
    Resolves(f, i, snippets, c.code[off + i])
  }

  function SnippetBody(sn: Snippet): seq<O.Opcode> {
    [O.StackCheck(Sequences.SnippetHeadroom(sn))] + Sequences.SnippetCode(sn) + [O.Return]
  }

  /** The code of one function from position `from` on sits in the module, shifted by `off`. */
  ghost predicate Linked(c: M.Config, off: nat, from: nat, f: Translation, snippets: map<Snippet, Word>) {
    && off + |f.code| <= |c.code|
    && (forall i :: from <= i < |f.code| ==> ResolvedAt(c, off, f, i, snippets))
    && (forall sn :: sn in snippets ==> B.Holds(c, snippets[sn], SnippetBody(sn)))
  }

  /** Everything that stays the same during one activation of a function. */
  datatype World = World(
    c: M.Config,
    off: nat,
    from: nat,
    final: Translation,
    snippets: map<Snippet, Word>,
    results: seq<ValType>,
    caller: seq<Word>,
    calls: seq<int>)

  /** Highest number of words any snippet needs above the caller's operands. */
  const SNIPPET_ROOM: nat := 8

  function Ceiling(k: World): nat { |k.caller| + k.final.paramWords + k.final.maxHeight }

  /** No fuel limit, one call level left for snippets, the stack limit out of reach, and a watch, if any, that
      leaves this activation the room its translation asks for. */
  ghost predicate Fine(k: World) {
    && Linked(k.c, k.off, k.from, k.final, k.snippets)
    && k.c.limit.None?
    && |k.calls| < k.c.maxCalls
    && Ceiling(k) + SNIPPET_ROOM <= k.c.maxLen
    && (k.c.watch.Some? ==> k.c.watch.value.calls == k.calls && Ceiling(k) <= k.c.watch.value.room)
  }

  /** What the live charge will still grow by until the translation is finished. */
  function Ahead(f: Translation, s: Translation): nat {
    var slot := LiveCharge(s);
    if slot.Some? && slot.value < |s.code| && slot.value < |f.code|
       && s.code[slot.value].Op? && s.code[slot.value].op.ConsumeFuel?
       && f.code[slot.value].Op? && f.code[slot.value].op.ConsumeFuel?
       && s.code[slot.value].op.fuel <= f.code[slot.value].op.fuel
    then f.code[slot.value].op.fuel - s.code[slot.value].op.fuel
    else 0
  }

  /** Costs count only when metering is on. */
  function Paid(k: World, cost: nat): nat { if k.final.metered then cost else 0 }

  ghost predicate Ready(k: World, m: M.State) {
    M.Room(k.c, m) >= Ceiling(k) && m.calls == k.calls
  }

  /** The machine stands where the translation stands, with the flattened source state on its stack,
      and has been charged `fuel` plus what the live charge still grows by. */
  ghost predicate Match(k: World, s: Translation, m: M.State, ls: seq<Value>, hidden: seq<Word>, st: seq<Value>,
                        fuel: nat) {
    && m.pc == k.off + |s.code|
    && m.stack == k.caller + Window(ls, hidden, st)
    && Ready(k, m)
    && m.fuel == Store.Saturate(fuel + Ahead(k.final, s))
  }

  /** Types and sizes of a source state in front of some code. */
  ghost predicate View(s: Translation, c: Ctx, below: seq<ValType>, ls: seq<Value>, hidden: seq<Word>, st: seq<Value>) {
    && At(s, c, below, TypesOf(st))
    && TypesOf(ls) == c.locals
    && WordsOf(below) == WordsOf(c.locals) + |hidden|
  }

  /** The translation `t` is on its way to the finished one. */
  ghost predicate Leads(k: World, t: Translation) {
    k.from <= |t.code| && Extends(t, k.final)
  }

  lemma WindowSize(s: Translation, c: Ctx, below: seq<ValType>, ls: seq<Value>, hidden: seq<Word>, st: seq<Value>)
    requires View(s, c, below, ls, hidden, st)
    ensures |Window(ls, hidden, st)| == s.paramWords + s.height
    ensures s.height <= s.maxHeight
  {
    hide WordsOf;
    hide Placed;
    hide FramesOK;
    hide JumpsOK;
    WordsAppend(below, TypesOf(st));
  }

  // ----- fuel -----

  lemma AheadBumped(f: Translation, s: Translation, u: Translation, delta: nat)
    requires WF(s) && s.reachable && s.frames != [] && Bump(s, delta) == Ok(u) && Extends(u, f)
    ensures Ahead(f, s) == Ahead(f, u) + (if f.metered then delta else 0)
  {
    var top := s.frames[|s.frames| - 1];
    assert FrameOK(s, top);
    if s.metered {
      var at := top.fuel.value;
      assert Grown(true, u.code[at], f.code[at]);
    }
  }

  /** Emitting more code under the same charge changes nothing. */
  lemma AheadSame(f: Translation, s: Translation, t: Translation)
    requires LiveCharge(s) == LiveCharge(t) && s.code <= t.code
    requires LiveCharge(s).Some? ==> LiveCharge(s).value < |s.code|
    ensures Ahead(f, t) == Ahead(f, s)
  {
  }

  /** Once another charge has taken over, or none, the old one has its final value. */
  lemma AheadSpent(f: Translation, s: Translation, t: Translation)
    requires s.code <= t.code && Extends(t, f)
    requires LiveCharge(s).Some? ==> LiveCharge(s).value < |s.code| && LiveCharge(t) != LiveCharge(s)
    ensures Ahead(f, s) == 0
  {
    if LiveCharge(s).Some? && LiveCharge(s).value < |s.code| {
      var at := LiveCharge(s).value;
      assert Grown(false, t.code[at], f.code[at]);
    }
  }

  lemma ChargeInside(s: Translation)
    requires WF(s)
    ensures LiveCharge(s).Some? ==> LiveCharge(s).value < |s.code|
  {
    if LiveCharge(s).Some? {
      assert FrameOK(s, s.frames[|s.frames| - 1]);
    }
  }

  // ----- running emitted code -----

  /** Opcodes of the finished translation, none of which is a charge that grew later. */
  ghost predicate Emitted(k: World, at: nat, code: seq<SymOp>) {
    k.from <= at && at + |code| <= |k.final.code| && forall j :: 0 <= j < |code| ==> k.final.code[at + j] == code[j]
  }

  /** Code emitted from `s` to `t` stays, except for the live charge. */
  lemma EmittedBetween(k: World, at: nat, code: seq<SymOp>, t: Translation)
    requires Leads(k, t) && k.from <= at && at + |code| <= |t.code|
    requires t.code[at..at + |code|] == code
    requires LiveCharge(t).Some? ==> LiveCharge(t).value < at || at + |code| <= LiveCharge(t).value
    ensures Emitted(k, at, code)
  {
    forall j | 0 <= j < |code| ensures k.final.code[at + j] == code[j] {
      assert t.code[at..at + |code|][j] == t.code[at + j];
      assert Grown(LiveCharge(t) == O.Some(at + j), t.code[at + j], k.final.code[at + j]);
    }
  }

  lemma EmittedPart(k: World, at: nat, a: seq<SymOp>, b: seq<SymOp>, c: seq<SymOp>)
    requires Emitted(k, at, a + b + c)
    ensures Emitted(k, at + |a|, b)
  {
    var all := a + b + c;
    forall j | 0 <= j < |b| ensures k.final.code[at + |a| + j] == b[j] {
      assert k.final.code[at + (|a| + j)] == all[|a| + j] == b[j];
    }
  }

  lemma Concrete(k: World, at: nat, ops: seq<O.Opcode>)
    requires Fine(k) && Emitted(k, at, Ops(ops))
    ensures B.Holds(k.c, k.off + at, ops)
  {
    forall j | 0 <= j < |ops| ensures k.c.code[k.off + at + j] == ops[j] {
      assert k.final.code[at + j] == Ops(ops)[j] == Op(ops[j]);
      assert ResolvedAt(k.c, k.off, k.final, at + j, k.snippets);
    }
  }

  /** Emitted straight-line code does to the top of the stack what the block interpreter says. */
  lemma OpsRun(k: World, m: M.State, at: nat, ops: seq<O.Opcode>, below: seq<Word>, w: seq<Word>, room: nat, n: nat)
    requires Fine(k) && Emitted(k, at, Ops(ops))
    requires m.pc == k.off + at && m.stack == below + w && |below| + room <= M.Room(k.c, m)
    ensures match B.RunBlock(ops, 0, w, room, n)
            case Leaves(w') => M.Reaches(k.c, m, M.Next(m.(pc := k.off + at + |ops|, stack := below + w')))
            case Faults(t) => M.Reaches(k.c, m, M.Trapped(t))
            case Broken => true
  {
    hide B.RunBlock;
    Concrete(k, at, ops);
    B.BlockRuns(k.c, m, k.off + at, ops, 0, below, w, room, n);
  }

  /** A jump of the finished code goes to its label. */
  lemma JumpRuns(k: World, m: M.State, at: nat, kind: O.JumpKind, l: nat)
    requires Fine(k) && Emitted(k, at, [Jump(kind, l)]) && m.pc == k.off + at
    requires kind.Always? || m.stack != []
    ensures l < |k.final.labels| && k.final.labels[l].Some?
    ensures var n := |m.stack|;
            var to := k.off + k.final.labels[l].value;
            M.Step(k.c, m) == M.Next(
              if kind.Always? then m.(pc := to)
              else m.(pc := if M.Taken(kind, m.stack[n - 1]) then to else m.pc + 1, stack := m.stack[..n - 1]))
  {
    assert k.final.code[at + 0] == [Jump(kind, l)][0];
    assert ResolvedAt(k.c, k.off, k.final, at, k.snippets);
  }

  /** One opcode of the finished code. */
  lemma OpRuns(k: World, m: M.State, at: nat, op: O.Opcode)
    requires Fine(k) && Emitted(k, at, [Op(op)]) && m.pc == k.off + at
    ensures M.Step(k.c, m) == M.Execute(k.c, m, op)
  {
    hide M.Execute;
    assert k.final.code[at + 0] == [Op(op)][0];
    assert ResolvedAt(k.c, k.off, k.final, at, k.snippets);
  }

  /** A fresh charge is executed: the machine pays its final value in advance. */
  lemma ChargeRuns(k: World, s: Translation, t: Translation, m: M.State, fuel: nat)
    requires Fine(k) && Leads(k, t) && k.from <= |s.code|
    requires t.metered ==>
             |t.code| == |s.code| + 1 && t.code[|s.code|] == Op(O.ConsumeFuel(0))
             && LiveCharge(t) == O.Some(|s.code|)
    requires !t.metered ==> t.code == s.code && LiveCharge(t).None?
    requires m.pc == k.off + |s.code| && m.fuel == Store.Saturate(fuel)
    ensures var m2 := m.(pc := k.off + |t.code|, fuel := Store.Saturate(fuel + Ahead(k.final, t)));
            M.Reaches(k.c, m, M.Next(m2))
  {
    M.ReachesStep(k.c, m);
    if t.metered {
      var at := |s.code|;
      assert Grown(true, t.code[at], k.final.code[at]);
      assert ResolvedAt(k.c, k.off, k.final, at, k.snippets);
      assert Ahead(k.final, t) == k.final.code[at].op.fuel;
    } else {
      assert m.(pc := k.off + |t.code|, fuel := Store.Saturate(fuel)) == m;
    }
  }
}
