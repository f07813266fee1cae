/** A function whose stack, code and charges stay within plain bounds meets every demand of its outline. */
module Bounds {
  import opened Words
  import O = Opcodes
  import opened Source
  import opened Validation
  import Layout
  import T = Translator
  import Functions
  import Branches
  import Surveys
  import opened Outlines

  // ----- numbers that stay below those of the outline -----

  predicate DemandModest(d: Demand, peak: nat, size: nat, spent: nat) {
    match d
    case Drops(drop, keep) => drop <= peak && keep <= peak
    case Charge(fuel) => fuel <= spent
    case Depth(words) => words <= peak
    case Back(offset) => 0 <= offset + size && offset <= size
    case Hop(ahead) => ahead <= size
    case Targets(count) => count <= size
  }

  ghost predicate MarkModest(m: Mark, size: nat) {
    && (m.head.Some? ==> m.head.value <= size)
    && (forall e :: e in m.exits ==> 0 <= e <= size) && (forall e :: e in m.skips ==> 0 <= e <= size)
  }

  ghost predicate Modest(o: Outline, spent: nat) {
    && o.words <= o.peak && o.charge <= spent
    && (forall i :: 0 <= i < |o.demands| ==> DemandModest(o.demands[i], o.peak, o.size, spent))
    && (forall d :: d in o.offsets ==> 0 <= d + o.size && d <= o.size)
    && (forall j :: 0 <= j < |o.marks| ==> MarkModest(o.marks[j], o.size))
  }

  /** Sizes, peaks and charges only grow. */
  lemma Grows(o: Outline, p: Outline, spent: nat, more: nat)
    requires Modest(o, spent) && spent <= more
    requires p == o.(size := p.size, peak := p.peak, words := p.words, charge := p.charge, kinds := p.kinds)
    requires o.size <= p.size && o.peak <= p.peak && p.words <= p.peak && p.charge <= more
    ensures Modest(p, more)
  {
    forall i | 0 <= i < |p.demands| ensures DemandModest(p.demands[i], p.peak, p.size, more) {
      assert DemandModest(o.demands[i], o.peak, o.size, spent);
    }
    forall j | 0 <= j < |p.marks| ensures MarkModest(p.marks[j], p.size) {
      assert MarkModest(o.marks[j], o.size);
    }
  }

  lemma AskModest(o: Outline, d: Demand, spent: nat)
    requires Modest(o, spent) && DemandModest(d, o.peak, o.size, spent)
    ensures Modest(Ask(o, d), spent)
  {
  }

  lemma SpendModest(k: T.Costs, o: Outline, n: nat, spent: nat)
    requires Modest(o, spent)
    ensures Modest(Spend(k, o, n), spent + n)
  {
    var p := if k.metered then o.(charge := o.charge + n) else o;
    Grows(o, p, spent, spent + n);
    if k.metered { AskModest(p, Charge(o.charge + n), spent + n); }
  }

  lemma FreshModest(k: T.Costs, o: Outline, spent: nat)
    requires Modest(o, spent)
    ensures Modest(Fresh(k, o), spent)
  {
    Grows(o, Fresh(k, o), spent, spent);
  }

  lemma JumpModest(o: Outline, depth: nat, at: nat, spent: nat)
    requires Modest(o, spent) && at <= o.size
    ensures Modest(Jump(o, depth, at), spent)
  {
    if depth < |o.marks| {
      var j, m := |o.marks| - 1 - depth, MarkAt(o, depth);
      assert MarkModest(m, o.size);
      if m.head.Some? {
        AskModest(o, Back(m.head.value - at), spent);
      } else {
        assert MarkModest(m.(exits := m.exits + {at as int}), o.size);
      }
    }
  }

  lemma DepartModest(o: Outline, depth: nat, at: nat, spent: nat)
    requires Modest(o, spent) && o.size <= at
    ensures Modest(Depart(o, depth, at), spent) && Depart(o, depth, at).size == at + 1
    ensures Depart(o, depth, at).words == o.words && Depart(o, depth, at).peak == o.peak
  {
    var p := o.(size := at + 1);
    Grows(o, p, spent, spent);
    if !Root(o, depth) {
      JumpModest(p, depth, at, spent);
      assert Jump(o, depth, at).(size := at + 1) == Jump(p, depth, at);
    }
  }

  // ----- operators -----

  lemma EntriesSuffix(ts: seq<ValType>, us: seq<ValType>)
    requires EndsWith(ts, us)
    ensures Entries(us) <= Entries(ts)
  {
    Branches.SuffixWords(ts, us);
  }

  lemma ShiftModest(c: Ctx, ts: seq<ValType>, o: Outline, depth: nat, spent: nat)
    requires Modest(o, spent) && Validation.Targets(c, depth, ts) && Entries(ts) <= o.words
    ensures Modest(Shift(c, o, depth), spent)
    ensures Shift(c, o, depth).size == o.size && Shift(c, o, depth).words == o.words
  {
    hide Entries, Layout.WordsOf;
    EntriesSuffix(ts, Label(c, depth));
    var d := Drops(Dropping(c, o, depth), Keeping(c, depth));
    AskModest(o, d, spent);
    Grows(Ask(o, d), Shift(c, o, depth), spent, spent);
    hide Modest;
  }

  lemma BrModest(k: T.Costs, c: Ctx, ts: seq<ValType>, o: Outline, depth: nat, spent: nat)
    requires Modest(o, spent) && Validation.Targets(c, depth, ts) && Entries(ts) <= o.words
    ensures Modest(OutlineBr(k, c, o, depth), spent + k.base)
  {
    hide Entries, Layout.WordsOf, Modest, Moves, Dropping, Keeping, Validation.Targets, Shift;
    ShiftModest(c, ts, o, depth, spent);
    var p := Shift(c, o, depth);
    SpendModest(k, p, k.base, spent);
    DepartModest(Spend(k, p, k.base), depth, o.size + Moves(Dropping(c, o, depth), Keeping(c, depth)), spent + k.base);
  }

  lemma PopModest(o: Outline, spent: nat)
    requires Modest(o, spent)
    ensures Modest(Popped(o), spent)
  {
    Grows(o, Popped(o), spent, spent);
  }

  lemma BrIfModest(k: T.Costs, c: Ctx, ts: seq<ValType>, o: Outline, depth: nat, spent: nat)
    requires Modest(o, spent) && ts != [] && ts[|ts| - 1] == I32 && Validation.Targets(c, depth, ts[..|ts| - 1])
    requires Entries(ts) <= o.words
    ensures Modest(OutlineBrIf(k, c, o, depth), spent + k.base)
    ensures OutlineBrIf(k, c, o, depth).words == Popped(o).words && Entries(ts[..|ts| - 1]) <= Popped(o).words
  {
    hide Entries, Layout.WordsOf, Modest, Moves, Dropping, Keeping, Validation.Targets, Shift, Depart, Spend;
    PopModest(o, spent);
    ConditionEntries(ts);
    var p, us := Popped(o), ts[..|ts| - 1];
    ShiftModest(c, us, p, depth, spent);
    SpendModest(k, Shift(c, p, depth), k.base, spent);
    var q := Spend(k, Shift(c, p, depth), k.base);
    SpendSame(k, Shift(c, p, depth), k.base);
    var at := if Dropping(c, p, depth) == 0 && !Root(o, depth) then o.size
        else o.size + 1 + Moves(Dropping(c, p, depth), Keeping(c, depth));
    DepartModest(q, depth, at, spent + k.base);
    FreshModest(k, Depart(q, depth, at), spent + k.base);
  }

  lemma SpendSame(k: T.Costs, o: Outline, n: nat)
    ensures Spend(k, o, n).size == o.size && Spend(k, o, n).words == o.words && Spend(k, o, n).marks == o.marks
  {
  }

  lemma ConditionEntries(ts: seq<ValType>)
    requires ts != [] && ts[|ts| - 1] == I32
    ensures Entries(ts[..|ts| - 1]) + 1 == Entries(ts)
  {
  }

  lemma RowModest(c: Ctx, us: seq<ValType>, o: Outline, depth: nat, slot: nat, spent: nat)
    requires Modest(o, spent) && Validation.Targets(c, depth, us) && Entries(us) <= o.words && slot <= o.size
    ensures Modest(Row(c, o, depth, slot), spent) && Row(c, o, depth, slot).size >= o.size
    ensures Row(c, o, depth, slot).words == o.words
  {
    hide Entries, Layout.WordsOf, Modest, Moves, Dropping, Keeping, Validation.Targets, Shift;
    ShiftModest(c, us, o, depth, spent);
    var p := Shift(c, o, depth);
    if Dropping(c, o, depth) == 0 {
      JumpModest(p, depth, slot, spent);
    } else {
      AskModest(p, Hop(Minus(o.size, slot)), spent);
      DepartModest(Ask(p, Hop(Minus(o.size, slot))), depth, o.size + Moves(Dropping(c, o, depth), Keeping(c, depth)),
                   spent);
      hide Depart;
    }
  }

  lemma {:induction false} RowsModest(c: Ctx, us: seq<ValType>, o: Outline, depths: seq<nat>, slot: nat, spent: nat)
    requires Modest(o, spent) && (forall d :: d in depths ==> Validation.Targets(c, d, us)) && Entries(us) <= o.words
    requires slot + 2 * |depths| <= o.size
    ensures Modest(Rows(c, o, depths, slot), spent) && Rows(c, o, depths, slot).size >= o.size
    decreases |depths|
  {
    hide Entries, Layout.WordsOf, Modest, Row, Validation.Targets;
    if depths != [] {
      RowModest(c, us, o, depths[0], slot, spent);
      RowsModest(c, us, Row(c, o, depths[0], slot), depths[1..], slot + 2, spent);
    }
  }

  lemma {:induction false} TableModest(k: T.Costs, c: Ctx, ts: seq<ValType>, o: Outline, depths: seq<nat>, spent: nat)
    requires Modest(o, spent) && ts != [] && ts[|ts| - 1] == I32 && Entries(ts) <= o.words
    requires forall d :: d in depths ==> Validation.Targets(c, d, ts[..|ts| - 1])
    ensures Modest(OutlineTable(k, c, o, depths), spent + k.base)
  {
    hide Modest, Rows;
    var us, b := ts[..|ts| - 1], spent + k.base;
    assert Entries(us) + 1 == Entries(ts);
    hide Entries, Layout.WordsOf;
    SpendModest(k, o, k.base, spent);
    PopModest(Spend(k, o, k.base), b);
    var p := Popped(Spend(k, o, k.base));
    var q := Place(p, 1 + 2 * |depths|);
    assert Modest(q, b) by { PlaceModest(p, 1 + 2 * |depths|, b); }
    RowsModest(c, us, q, depths, o.size + 1, b);
    AskModest(Rows(c, q, depths, o.size + 1), Demand.Targets(|depths|), b);
  }

  lemma PlaceModest(o: Outline, n: nat, spent: nat)
    requires Modest(o, spent)
    ensures Modest(Place(o, n), spent)
  {
    Grows(o, Place(o, n), spent, spent);
  }

  lemma ReturnModest(c: Ctx, ts: seq<ValType>, o: Outline, spent: nat)
    requires Modest(o, spent) && EndsWith(ts, c.results) && Entries(ts) <= o.words
    ensures Modest(OutlineReturn(c, o), spent)
  {
    hide Entries, Layout.WordsOf, Moves, Spill;
    EntriesSuffix(ts, c.results);
    var d := Drops(Minus(o.words, Entries(c.results)), Entries(c.results));
    AskModest(o, d, spent);
    Grows(Ask(o, d), OutlineReturn(c, o), spent, spent);
    hide Modest;
  }

  lemma SimpleModest(k: T.Costs, i: Instr, c: Ctx, ts: seq<ValType>, o: Outline, spent: nat)
    requires T.Simple(i) && CheckPlain(i, c, ts).Live?
    requires Modest(o, spent) && Entries(ts) <= o.words
    ensures Modest(OutlineSimple(k, i, c, ts, o), spent + k.base)
    ensures Entries(CheckPlain(i, c, ts).types) <= OutlineSimple(k, i, c, ts, o).words
  {
    hide Modest, Entries, Layout.WordsOf, LengthOf;
    var n := if i.Drop? then 0 else k.base;
    SpendModest(k, o, n, spent);
    var q := Spend(k, o, n);
    LocateModest(q, i, c, spent + n);
    var p := Locate(q, i, c);
    hide Locate, Spend;
    RoomEnough(i, c, ts);
    hide CheckPlain, RoomOf;
    GrowsTo(p, OutlineSimple(k, i, c, ts, o), spent + n, spent + k.base);
  }

  lemma GrowsTo(o: Outline, p: Outline, spent: nat, more: nat)
    requires Modest(o, spent) && spent <= more
    requires p == o.(size := p.size, peak := p.peak, words := p.words, kinds := p.kinds)
    requires o.size <= p.size && o.peak <= p.peak && p.words <= p.peak
    ensures Modest(p, more)
  {
    Grows(o, p, spent, more);
  }

  lemma LocateModest(o: Outline, i: Instr, c: Ctx, spent: nat)
    requires Modest(o, spent)
    ensures Modest(Locate(o, i, c), spent)
    ensures Locate(o, i, c) == o.(demands := Locate(o, i, c).demands)
  {
    hide Entries, Layout.WordsOf, Entry;
    match i
    case LocalGet(j) => AskModest(o, Depth(Deep(c, o.words, j)), spent);
    case LocalSet(j) =>
      AskModest(o, Depth(Deep(c, Minus(o.words, if j < |c.locals| then Entry(c.locals[j]) else 0), j)), spent);
    case LocalTee(j) => AskModest(o, Depth(Deep(c, o.words, j)), spent);
    case _ =>
    hide Modest;
  }

  /** The room asked for covers what the operator leaves. */
  lemma RoomEnough(i: Instr, c: Ctx, ts: seq<ValType>)
    requires T.Simple(i) && CheckPlain(i, c, ts).Live?
    ensures Entries(CheckPlain(i, c, ts).types) <= Entries(ts) + RoomOf(i, c)
  {
    hide Entries, Layout.WordsOf, OpRoom, NumParams, NumResult;
    var us := CheckPlain(i, c, ts).types;
    match i
    case Drop => EntriesPrefix(ts, |us|);
    case Select => EntriesPrefix(ts, |us|);
    case LocalSet(_) => EntriesPrefix(ts, |us|);
    case Const(v) => EntriesAppend(ts, [v.ty]);
    case LocalGet(j) => EntriesAppend(ts, [c.locals[j]]);
    case LocalTee(_) =>
    case Num(op) => NumEnough(op, ts);
  }

  lemma EntriesAppend(a: seq<ValType>, b: seq<ValType>)
    ensures Entries(a + b) == Entries(a) + Entries(b)
  {
    Layout.WordsAppend(a, b);
  }

  lemma EntriesPrefix(ts: seq<ValType>, n: nat)
    requires n <= |ts|
    ensures Entries(ts[..n]) <= Entries(ts)
  {
    EntriesAppend(ts[..n], ts[n..]);
    assert ts[..n] + ts[n..] == ts;
  }

  lemma NumEnough(op: NumOp, ts: seq<ValType>)
    requires EndsWith(ts, NumParams(op))
    ensures Entries(ts[..|ts| - |NumParams(op)|] + [NumResult(op)]) <= Entries(ts) + OpRoom(op)
  {
    hide Entries, Layout.WordsOf, OpRoom;
    OpEnough(op);
    var ps, r := NumParams(op), NumResult(op);
    hide NumParams, NumResult;
    var n := |ts| - |ps|;
    EntriesAppend(ts[..n], [r]);
    EntriesAppend(ts[..n], ts[n..]);
    assert ts[..n] + ts[n..] == ts;
  }

  lemma OpEnough(op: NumOp)
    ensures Entries([NumResult(op)]) <= Entries(NumParams(op)) + OpRoom(op)
  {
    assert Entries([I32, I32]) == 2 && Entries([I64, I64]) == 4 && Entries([I32]) == 1 && Entries([I64]) == 2;
  }

  // ----- blocks -----

  lemma InsideModest(o: Outline, m: Mark, spent: nat)
    requires Modest(o, spent) && MarkModest(m, o.size)
    ensures Modest(Inside(o, m), spent)
  {
  }

  lemma EndsWithin(places: set<int>, at: nat)
    requires forall e :: e in places ==> 0 <= e <= at
    ensures forall d :: d in Ends(places, at) ==> 0 <= d <= at
  {
  }

  lemma CloseModest(k: T.Costs, bt: BlockType, o: Outline, spent: nat)
    requires Modest(o, spent) && o.marks != []
    ensures Modest(Close(k, bt, o), spent)
    ensures Close(k, bt, o).words == o.marks[|o.marks| - 1].base + Entries(Results(bt))
    ensures Close(k, bt, o).marks == o.marks[..|o.marks| - 1]
  {
    hide Entries, Layout.WordsOf;
    var m := o.marks[|o.marks| - 1];
    assert MarkModest(m, o.size);
    EndsWithin(m.exits, o.size);
    EndsWithin(m.skips, o.size);
    var words := m.base + Entries(Results(bt));
    var p := Raise(o, words).(words := words);
    Grows(o, p, spent, spent);
    var q := p.(marks := o.marks[..|o.marks| - 1],
                offsets := o.offsets + Ends(m.exits, o.size) + Ends(m.skips, o.size));
    assert Modest(q, spent);
    FreshModest(k, q, spent);
  }

  lemma SwitchModest(k: T.Costs, bt: BlockType, live: bool, o: Outline, spent: nat)
    requires Modest(o, spent) && o.marks != []
    ensures Modest(Switch(k, bt, live, o), spent)
    ensures Switch(k, bt, live, o).words == o.marks[|o.marks| - 1].base + Entries(Params(bt))
    ensures Bases(Switch(k, bt, live, o)) == Bases(o)
  {
    hide Entries, Layout.WordsOf, Modest, Jump, Bases;
    var r := if live then Place(Jump(o, 0, o.size), 1) else o;
    JumpModest(o, 0, o.size, spent);
    PlaceModest(Jump(o, 0, o.size), 1, spent);
    JumpBases(o, 0, o.size);
    PlaceBases(Jump(o, 0, o.size), 1);
    BasesLast(o);
    BasesLast(r);
    TurnModest(bt, r, spent);
    var q := Turn(bt, r);
    FreshModest(k, q, spent);
    FreshBases(k, q);
    assert Switch(k, bt, live, o) == Fresh(k, q);
  }

  /** The change between two branches, before the fresh charge. */
  function Turn(bt: BlockType, r: Outline): Outline
    requires r.marks != []
  {
    var m := MarkAt(r, 0);
    var words := m.base + Entries(Params(bt));
    Raise(r, words).(marks := r.marks[|r.marks| - 1 := m.(skips := {})], words := words,
                     offsets := r.offsets + Ends(m.skips, r.size))
  }

  lemma TurnModest(bt: BlockType, r: Outline, spent: nat)
    requires Modest(r, spent) && r.marks != []
    ensures Modest(Turn(bt, r), spent) && Bases(Turn(bt, r)) == Bases(r)
    ensures Turn(bt, r).words == r.marks[|r.marks| - 1].base + Entries(Params(bt))
  {
    hide Entries, Layout.WordsOf;
    var m, n := MarkAt(r, 0), |r.marks| - 1;
    assert MarkModest(m, r.size);
    EndsWithin(m.skips, r.size);
    var words := m.base + Entries(Params(bt));
    var p := Raise(r, words).(words := words);
    Grows(r, p, spent, spent);
    forall j | 0 <= j <= n ensures MarkModest(Turn(bt, r).marks[j], r.size) { assert MarkModest(r.marks[j], r.size); }
  }

  lemma FreshBases(k: T.Costs, o: Outline)
    ensures Bases(Fresh(k, o)) == Bases(o) && Fresh(k, o).words == o.words
  {
  }

  lemma PlaceBases(o: Outline, n: nat)
    ensures Bases(Place(o, n)) == Bases(o)
  {
  }

  lemma BasesLast(o: Outline)
    ensures |Bases(o)| == |o.marks|
    ensures o.marks != [] ==> Bases(o)[|o.marks| - 1] == o.marks[|o.marks| - 1].base
  {
  }

  /** The words under the enclosing blocks. */
  function Bases(o: Outline): seq<nat> { seq(|o.marks|, j requires 0 <= j < |o.marks| => o.marks[j].base) }

  lemma JumpBases(o: Outline, depth: nat, at: nat)
    ensures Bases(Jump(o, depth, at)) == Bases(o)
  {
  }

  // ----- bodies -----

  /** What all operators of some code cost together, those inside its blocks included, at `base` each. */
  function Prices(base: nat, code: seq<Instr>): nat
    decreases code, 0
  {
    if code == [] then 0 else PriceOf(base, code[0]) + Prices(base, code[1..])
  }

  function PriceOf(base: nat, i: Instr): nat
    decreases i, 1
  {
    match i
    case Block(_, body) => base + Prices(base, body)
    case Loop(_, body) => base + Prices(base, body)
    case If(_, thn) => base + Prices(base, thn)
    case IfElse(_, thn, els) => base + Prices(base, thn) + Prices(base, els)
    case _ => base
  }

  lemma BasesKept(k: T.Costs, c: Ctx, ts: seq<ValType>, o: Outline, i: Instr)
    requires !i.Block? && !i.Loop? && !i.If? && !i.IfElse?
    ensures Bases(SurveyInstr(k, i, c, ts, o)) == Bases(o)
  {
    hide Bases, Jump, CheckPlain, LengthOf, RoomOf;
    match i
    case Br(depth) => DepartBases(Spend(k, Shift(c, o, depth), k.base), depth,
                                  o.size + Moves(Dropping(c, o, depth), Keeping(c, depth)));
                      SameMarks(o, Spend(k, Shift(c, o, depth), k.base));
    case BrIf(depth) => BrIfBases(k, c, o, depth);
    case BrTable(depths, default) => TableBases(k, c, o, depths + [default]);
    case Return => SameMarks(o, OutlineReturn(c, o));
    case Nop =>
    case Unreachable => SameMarks(o, Place(o, 1));
    case _ => SameMarks(o, OutlineSimple(k, i, c, ts, o));
  }

  lemma SameMarks(o: Outline, p: Outline)
    requires o.marks == p.marks
    ensures Bases(o) == Bases(p)
  {
  }

  lemma DepartBases(o: Outline, depth: nat, at: nat)
    ensures Bases(Depart(o, depth, at)) == Bases(o)
  {
    JumpBases(o, depth, at);
    SameMarks(Jump(o, depth, at), Jump(o, depth, at).(size := at + 1));
    SameMarks(o, o.(size := at + 1));
    hide Jump, Bases;
  }

  lemma BrIfBases(k: T.Costs, c: Ctx, o: Outline, depth: nat)
    ensures Bases(OutlineBrIf(k, c, o, depth)) == Bases(o)
  {
    hide Bases, Jump, Dropping, Keeping, Moves, Spill;
    var p := Popped(o);
    var q := Spend(k, Shift(c, p, depth), k.base);
    var at := if Dropping(c, p, depth) == 0 && !Root(o, depth) then o.size
        else o.size + 1 + Moves(Dropping(c, p, depth), Keeping(c, depth));
    SameMarks(o, q);
    DepartBases(q, depth, at);
    SameMarks(Depart(q, depth, at), Fresh(k, Depart(q, depth, at)));
    hide Depart;
  }

  lemma RowBases(c: Ctx, o: Outline, depth: nat, slot: nat)
    ensures Bases(Row(c, o, depth, slot)) == Bases(o)
  {
    hide Bases, Jump, Dropping, Keeping, Moves, Spill;
    var p := Shift(c, o, depth);
    var q := Ask(p, Hop(Minus(o.size, slot)));
    SameMarks(o, p);
    SameMarks(o, q);
    JumpBases(p, depth, slot);
    DepartBases(q, depth, o.size + Moves(Dropping(c, o, depth), Keeping(c, depth)));
    hide Depart;
  }

  lemma {:induction false} RowsBases(c: Ctx, o: Outline, depths: seq<nat>, slot: nat)
    ensures Bases(Rows(c, o, depths, slot)) == Bases(o)
    decreases |depths|
  {
    hide Row, Bases;
    if depths != [] {
      RowBases(c, o, depths[0], slot);
      RowsBases(c, Row(c, o, depths[0], slot), depths[1..], slot + 2);
    }
  }

  lemma TableBases(k: T.Costs, c: Ctx, o: Outline, depths: seq<nat>)
    ensures Bases(OutlineTable(k, c, o, depths)) == Bases(o)
  {
    hide Rows, Bases;
    var q := Place(Popped(Spend(k, o, k.base)), 1 + 2 * |depths|);
    SameMarks(o, q);
    RowsBases(c, q, depths, o.size + 1);
    SameMarks(Rows(c, q, depths, o.size + 1), OutlineTable(k, c, o, depths));
  }

  /** What one more operator, or one more body, leaves of the bounds. */
  ghost predicate StaysModest(o: Outline, p: Outline, spent: nat, f: Flow) {
    Modest(p, spent) && Bases(p) == Bases(o) && (f.Live? ==> Entries(f.types) <= p.words)
  }

  lemma PlainModest(k: T.Costs, i: Instr, c: Ctx, ts: seq<ValType>, o: Outline, spent: nat)
    requires !i.Block? && !i.Loop? && !i.If? && !i.IfElse? && CheckInstr(i, c, ts) != Bad
    requires Modest(o, spent) && Entries(ts) <= o.words
    ensures StaysModest(o, SurveyInstr(k, i, c, ts, o), spent + k.base, CheckInstr(i, c, ts))
  {
    hide Entries, Layout.WordsOf, Modest, Bases, OutlineBr, OutlineBrIf, OutlineTable, OutlineReturn, OutlineSimple,
        Validation.Targets;
    BasesKept(k, c, ts, o, i);
    match i
    case Nop => Relax(o, spent, spent + k.base);
    case Unreachable => PlaceModest(o, 1, spent); Relax(Place(o, 1), spent, spent + k.base);
    case Return => ReturnModest(c, ts, o, spent); Relax(OutlineReturn(c, o), spent, spent + k.base);
    case Br(depth) => BrModest(k, c, ts, o, depth, spent);
    case BrIf(depth) => BrIfModest(k, c, ts, o, depth, spent);
    case BrTable(depths, default) => TableModest(k, c, ts, o, depths + [default], spent);
    case _ => SimpleModest(k, i, c, ts, o, spent);
  }

  lemma Relax(o: Outline, spent: nat, more: nat)
    requires Modest(o, spent) && spent <= more
    ensures Modest(o, more)
  {
    Grows(o, o, spent, more);
  }

  lemma {:induction false} SurveyModest(k: T.Costs, code: seq<Instr>, c: Ctx, ts: seq<ValType>, o: Outline, spent: nat)
    requires Check(code, c, ts) != Bad && Modest(o, spent) && Entries(ts) <= o.words
    ensures StaysModest(o, Survey(k, code, c, ts, o), spent + Prices(k.base, code), Check(code, c, ts))
    decreases code, 0
  {
    hide Modest, Bases, SurveyInstr, CheckInstr, Entries, Layout.WordsOf, PriceOf;
    if code != [] {
      var i, n := code[0], PriceOf(k.base, code[0]);
      InstrModest(k, i, c, ts, o, spent);
      var f, p := CheckInstr(i, c, ts), SurveyInstr(k, i, c, ts, o);
      if f.Live? {
        SurveyModest(k, code[1..], c, f.types, p, spent + n);
      } else {
        SkipModest(k, code[1..], p, spent + n);
        Relax(Skip(k, code[1..], p), spent + n, spent + n + Prices(k.base, code[1..]));
      }
    }
  }

  lemma {:induction false} SkipModest(k: T.Costs, code: seq<Instr>, o: Outline, spent: nat)
    requires Modest(o, spent)
    ensures Modest(Skip(k, code, o), spent) && Bases(Skip(k, code, o)) == Bases(o)
    ensures Skip(k, code, o).words >= o.words
    decreases code, 0
  {
    hide Modest, Bases, SkipInstr;
    if code != [] {
      SkipInstrModest(k, code[0], o, spent);
      SkipModest(k, code[1..], SkipInstr(k, code[0], o), spent);
    }
  }

  lemma {:induction false} SkipInstrModest(k: T.Costs, i: Instr, o: Outline, spent: nat)
    requires Modest(o, spent)
    ensures Modest(SkipInstr(k, i, o), spent) && Bases(SkipInstr(k, i, o)) == Bases(o)
    ensures SkipInstr(k, i, o).words >= o.words
    decreases i, 1
  {
    hide Modest, Bases, Skip, SkipEnd;
    match i
    case Block(bt, body) => SkipModest(k, body, o, spent); SkipEndModest(k, bt, Skip(k, body, o), spent);
    case Loop(bt, body) => SkipModest(k, body, o, spent); SkipEndModest(k, bt, Skip(k, body, o), spent);
    case If(bt, thn) => SkipModest(k, thn, o, spent); SkipEndModest(k, bt, Skip(k, thn, o), spent);
    case IfElse(bt, thn, els) =>
      SkipModest(k, thn, o, spent);
      SkipModest(k, els, Skip(k, thn, o), spent);
      SkipEndModest(k, bt, Skip(k, els, Skip(k, thn, o)), spent);
    case _ =>
  }

  lemma SkipEndModest(k: T.Costs, bt: BlockType, o: Outline, spent: nat)
    requires Modest(o, spent)
    ensures Modest(SkipEnd(k, bt, o), spent) && Bases(SkipEnd(k, bt, o)) == Bases(o)
    ensures SkipEnd(k, bt, o).words >= o.words
  {
    hide Entries, Layout.WordsOf;
    Grows(o, SkipEnd(k, bt, o), spent, spent);
  }

  /** A block that has just been entered. */
  lemma EnteredModest(o: Outline, m: Mark, bt: BlockType, spent: nat)
    requires Modest(o, spent) && MarkModest(m, o.size) && m.base == Under(bt, o)
    ensures Modest(Inside(o, m), spent) && Bases(Inside(o, m)) == Bases(o) + [Under(bt, Inside(o, m))]
    ensures Inside(o, m).words == o.words
  {
    InsideModest(o, m, spent);
  }

  lemma EnterIfModest(k: T.Costs, bt: BlockType, o: Outline, spent: nat)
    requires Modest(o, spent)
    ensures var e := EnterIf(k, bt, o);
            && Modest(e, spent + k.base) && Bases(e) == Bases(o) + [Under(bt, e)] && e.words == Popped(o).words
  {
    hide Modest, Bases, Entries, Layout.WordsOf, MarkModest;
    PopModest(o, spent);
    SpendModest(k, Popped(o), k.base, spent);
    var p := Spend(k, Popped(o), k.base);
    PlaceModest(p, 1, spent + k.base);
    FreshModest(k, Place(p, 1), spent + k.base);
    var q, m := Fresh(k, Place(p, 1)), Mark(Under(bt, p), O.None, {}, {p.size as int});
    SkipWithin(m, p.size, q.size);
    EnteredModest(q, m, bt, spent + k.base);
    SameMarks(o, q);
  }

  lemma SkipWithin(m: Mark, at: nat, size: nat)
    requires m.head.None? && m.exits == {} && m.skips == {at as int} && at <= size
    ensures MarkModest(m, size)
  {
  }

  lemma {:induction false} InstrModest(k: T.Costs, i: Instr, c: Ctx, ts: seq<ValType>, o: Outline, spent: nat)
    requires CheckInstr(i, c, ts) != Bad && Modest(o, spent) && Entries(ts) <= o.words
    ensures StaysModest(o, SurveyInstr(k, i, c, ts, o), spent + PriceOf(k.base, i), CheckInstr(i, c, ts))
    decreases i, 1
  {
    hide Modest, Bases, Survey, Entries, Layout.WordsOf, Close, Check, Switch, EnterIf, MarkModest, Prices;
    match i
    case Block(bt, body) => BlockModest(k, bt, body, c, ts, o, spent);
    case Loop(bt, body) => LoopModest(k, bt, body, c, ts, o, spent);
    case If(bt, thn) => IfModest(k, bt, thn, c, ts, o, spent);
    case IfElse(bt, thn, els) => IfElseModest(k, bt, thn, els, c, ts, o, spent);
    case _ => PlainModest(k, i, c, ts, o, spent);
  }

  /** What checking a block tells. */
  lemma BodyChecked(bt: BlockType, body: seq<Instr>, lab: seq<ValType>, c: Ctx, ts: seq<ValType>)
    requires CheckBody(bt, body, lab, c, ts) != Bad
    ensures EndsWith(ts, Params(bt)) && Check(body, Enter(c, lab), Params(bt)) != Bad
    ensures CheckBody(bt, body, lab, c, ts) == Live(ts[..|ts| - |Params(bt)|] + Results(bt))
  {
    hide Check;
  }

  /** The outline and the price of a block. */
  lemma BlockIs(k: T.Costs, bt: BlockType, body: seq<Instr>, c: Ctx, ts: seq<ValType>, o: Outline)
    ensures SurveyInstr(k, Block(bt, body), c, ts, o)
         == Close(k, bt, Survey(k, body, Enter(c, Results(bt)), Params(bt),
                                Inside(o, Mark(Under(bt, o), O.None, {}, {}))))
    ensures SurveyInstr(k, Loop(bt, body), c, ts, o)
         == Close(k, bt, Survey(k, body, Enter(c, Params(bt)), Params(bt),
                                Inside(Fresh(k, o), Mark(Under(bt, o), O.Some(o.size), {}, {}))))
    ensures PriceOf(k.base, Block(bt, body)) == PriceOf(k.base, Loop(bt, body)) == k.base + Prices(k.base, body)
    ensures CheckInstr(Block(bt, body), c, ts) == CheckBody(bt, body, Results(bt), c, ts)
    ensures CheckInstr(Loop(bt, body), c, ts) == CheckBody(bt, body, Params(bt), c, ts)
  {
    hide Survey, Close, Prices, CheckBody;
  }

  lemma {:induction false} BlockModest(k: T.Costs, bt: BlockType, body: seq<Instr>, c: Ctx, ts: seq<ValType>,
                                       o: Outline, spent: nat)
    requires CheckInstr(Block(bt, body), c, ts) != Bad && Modest(o, spent) && Entries(ts) <= o.words
    ensures StaysModest(o, SurveyInstr(k, Block(bt, body), c, ts, o), spent + PriceOf(k.base, Block(bt, body)),
                        CheckInstr(Block(bt, body), c, ts))
    decreases body, 2
  {
    hide Modest, Bases, Survey, SurveyInstr, Entries, Layout.WordsOf, Close, Check, CheckBody, CheckInstr, MarkModest,
        Prices, PriceOf;
    BlockIs(k, bt, body, c, ts, o);
    BodyChecked(bt, body, Results(bt), c, ts);
    var m := Mark(Under(bt, o), O.None, {}, {});
    NewMark(m, o.size);
    EnteredModest(o, m, bt, spent);
    var e := Inside(o, m);
    hide Inside, Under;
    BodyModest(k, bt, body, Enter(c, Results(bt)), o, e, ts, Results(bt), spent);
    Relax(Close(k, bt, Survey(k, body, Enter(c, Results(bt)), Params(bt), e)),
          spent + Prices(k.base, body), spent + k.base + Prices(k.base, body));
  }

  lemma {:induction false} LoopModest(k: T.Costs, bt: BlockType, body: seq<Instr>, c: Ctx, ts: seq<ValType>,
                                      o: Outline, spent: nat)
    requires CheckInstr(Loop(bt, body), c, ts) != Bad && Modest(o, spent) && Entries(ts) <= o.words
    ensures StaysModest(o, SurveyInstr(k, Loop(bt, body), c, ts, o), spent + PriceOf(k.base, Loop(bt, body)),
                        CheckInstr(Loop(bt, body), c, ts))
    decreases body, 2
  {
    hide Modest, Bases, Survey, SurveyInstr, Entries, Layout.WordsOf, Close, Check, CheckBody, CheckInstr, MarkModest,
        Prices, PriceOf;
    BlockIs(k, bt, body, c, ts, o);
    BodyChecked(bt, body, Params(bt), c, ts);
    FreshModest(k, o, spent);
    var p, m := Fresh(k, o), Mark(Under(bt, o), O.Some(o.size), {}, {});
    NewMark(m, p.size);
    EnteredModest(p, m, bt, spent);
    FreshBases(k, o);
    var e := Inside(p, m);
    hide Inside, Under, Fresh;
    BodyModest(k, bt, body, Enter(c, Params(bt)), o, e, ts, Params(bt), spent);
    Relax(Close(k, bt, Survey(k, body, Enter(c, Params(bt)), Params(bt), e)),
          spent + Prices(k.base, body), spent + k.base + Prices(k.base, body));
  }

  lemma NewMark(m: Mark, size: nat)
    requires m.exits == {} && m.skips == {} && (m.head.Some? ==> m.head.value <= size)
    ensures MarkModest(m, size)
  {
  }

  lemma {:induction false} IfModest(k: T.Costs, bt: BlockType, thn: seq<Instr>, c: Ctx, ts: seq<ValType>, o: Outline,
                                    spent: nat)
    requires CheckInstr(If(bt, thn), c, ts) != Bad && Modest(o, spent) && Entries(ts) <= o.words
    ensures StaysModest(o, SurveyInstr(k, If(bt, thn), c, ts, o), spent + PriceOf(k.base, If(bt, thn)),
                        CheckInstr(If(bt, thn), c, ts))
    decreases If(bt, thn), 0
  {
    hide Modest, Bases, Survey, SurveyInstr, Entries, Layout.WordsOf, Close, Check, CheckBody, CheckInstr, EnterIf,
        Prices, PriceOf;
    IfIs(k, bt, thn, [], c, ts, o);
    var us := ts[..|ts| - 1];
    BodyChecked(bt, thn, Results(bt), c, us);
    ConditionEntries(ts);
    EnterIfModest(k, bt, o, spent);
    BodyModest(k, bt, thn, Enter(c, Results(bt)), o, EnterIf(k, bt, o), us, Results(bt), spent + k.base);
  }

  /** The outline and the price of an `if`. */
  lemma IfIs(k: T.Costs, bt: BlockType, thn: seq<Instr>, els: seq<Instr>, c: Ctx, ts: seq<ValType>, o: Outline)
    ensures var d := Enter(c, Results(bt));
            SurveyInstr(k, If(bt, thn), c, ts, o) == Close(k, bt, Survey(k, thn, d, Params(bt), EnterIf(k, bt, o)))
    ensures var d := Enter(c, Results(bt));
            SurveyInstr(k, IfElse(bt, thn, els), c, ts, o)
            == Close(k, bt, Survey(k, els, d, Params(bt),
                                   Switch(k, bt, Check(thn, d, Params(bt)).Live?,
                                          Survey(k, thn, d, Params(bt), EnterIf(k, bt, o)))))
    ensures PriceOf(k.base, If(bt, thn)) == k.base + Prices(k.base, thn)
    ensures PriceOf(k.base, IfElse(bt, thn, els)) == k.base + Prices(k.base, thn) + Prices(k.base, els)
    ensures CheckInstr(If(bt, thn), c, ts) != Bad ==>
            && ts != [] && ts[|ts| - 1] == I32
            && CheckInstr(If(bt, thn), c, ts) == CheckBody(bt, thn, Results(bt), c, ts[..|ts| - 1])
    ensures CheckInstr(IfElse(bt, thn, els), c, ts) != Bad ==>
            && ts != [] && ts[|ts| - 1] == I32 && CheckBody(bt, thn, Results(bt), c, ts[..|ts| - 1]) != Bad
            && CheckInstr(IfElse(bt, thn, els), c, ts) == CheckBody(bt, els, Results(bt), c, ts[..|ts| - 1])
  {
    hide Survey, Close, Switch, EnterIf, Prices, CheckBody, Check;
  }

  lemma {:induction false} IfElseModest(k: T.Costs, bt: BlockType, thn: seq<Instr>, els: seq<Instr>, c: Ctx,
                                        ts: seq<ValType>, o: Outline, spent: nat)
    requires CheckInstr(IfElse(bt, thn, els), c, ts) != Bad && Modest(o, spent) && Entries(ts) <= o.words
    ensures StaysModest(o, SurveyInstr(k, IfElse(bt, thn, els), c, ts, o),
                        spent + PriceOf(k.base, IfElse(bt, thn, els)), CheckInstr(IfElse(bt, thn, els), c, ts))
    decreases IfElse(bt, thn, els), 0
  {
    hide Modest, Bases, Survey, SurveyInstr, Entries, Layout.WordsOf, Close, Check, CheckBody, CheckInstr, EnterIf,
        Prices, PriceOf,
      Switch;
    IfIs(k, bt, thn, els, c, ts, o);
    var us, d := ts[..|ts| - 1], Enter(c, Results(bt));
    BodyChecked(bt, thn, Results(bt), c, us);
    BodyChecked(bt, els, Results(bt), c, us);
    ConditionEntries(ts);
    EnterIfModest(k, bt, o, spent);
    var e := EnterIf(k, bt, o);
    EntriesSuffix(us, Params(bt));
    SurveyModest(k, thn, d, Params(bt), e, spent + k.base);
    var t, more := Survey(k, thn, d, Params(bt), e), spent + k.base + Prices(k.base, thn);
    BasesLast(t);
    BasesLast(e);
    SwitchModest(k, bt, Check(thn, d, Params(bt)).Live?, t, more);
    var u := Switch(k, bt, Check(thn, d, Params(bt)).Live?, t);
    BodyModest(k, bt, els, d, o, u, us, Results(bt), more);
  }

  /** The body of a block and its end. */
  lemma {:induction false} BodyModest(k: T.Costs, bt: BlockType, body: seq<Instr>, d: Ctx, o: Outline, e: Outline,
                                      ts: seq<ValType>, lab: seq<ValType>, spent: nat)
    requires EndsWith(ts, Params(bt)) && Check(body, d, Params(bt)) != Bad
    requires Modest(e, spent) && Bases(e) == Bases(o) + [Under(bt, e)] && Entries(ts) <= e.words
    ensures var p := Close(k, bt, Survey(k, body, d, Params(bt), e));
            && Modest(p, spent + Prices(k.base, body)) && Bases(p) == Bases(o)
            && Entries(ts[..|ts| - |Params(bt)|] + Results(bt)) <= p.words
    decreases body, 1
  {
    hide Modest, Survey, Entries, Layout.WordsOf, Close, Check;
    EntriesSuffix(ts, Params(bt));
    SurveyModest(k, body, d, Params(bt), e, spent);
    var q, more := Survey(k, body, d, Params(bt), e), spent + Prices(k.base, body);
    BasesLast(q);
    BasesLast(e);
    BasesLast(o);
    CloseModest(k, bt, q, more);
    EntriesAppend(ts[..|ts| - |Params(bt)|], Results(bt));
    EntriesAppend(ts[..|ts| - |Params(bt)|], Params(bt));
    assert ts == ts[..|ts| - |Params(bt)|] + Params(bt);
    ClosedBases(k, bt, q, o);
  }

  lemma ClosedBases(k: T.Costs, bt: BlockType, q: Outline, o: Outline)
    requires q.marks != [] && |Bases(q)| == |Bases(o)| + 1 && Bases(q)[..|o.marks|] == Bases(o)
    ensures Bases(Close(k, bt, q)) == Bases(o)
  {
    var p := Close(k, bt, q);
    assert p.marks == q.marks[..|q.marks| - 1];
    forall j | 0 <= j < |p.marks| ensures Bases(p)[j] == Bases(o)[j] {
      assert Bases(q)[..|o.marks|][j] == Bases(q)[j];
    }
  }

  // ----- without metering costs do not matter -----

  lemma {:induction false} Unpriced(k: T.Costs, j: T.Costs, code: seq<Instr>, c: Ctx, ts: seq<ValType>, o: Outline)
    requires !k.metered && !j.metered
    ensures Survey(k, code, c, ts, o) == Survey(j, code, c, ts, o)
    decreases code, 0
  {
    hide SurveyInstr, CheckInstr, Skip;
    if code != [] {
      UnpricedInstr(k, j, code[0], c, ts, o);
      var f, p := CheckInstr(code[0], c, ts), SurveyInstr(k, code[0], c, ts, o);
      if f.Live? { Unpriced(k, j, code[1..], c, f.types, p); } else { UnpricedSkip(k, j, code[1..], p); }
    }
  }

  lemma {:induction false} UnpricedInstr(k: T.Costs, j: T.Costs, i: Instr, c: Ctx, ts: seq<ValType>, o: Outline)
    requires !k.metered && !j.metered
    ensures SurveyInstr(k, i, c, ts, o) == SurveyInstr(j, i, c, ts, o)
    decreases i, 1
  {
    hide Survey, SurveyInstr, Check, Close, Switch, EnterIf, Fresh, Inside, Under, Entries, Layout.WordsOf;
    match i
    case Block(bt, body) =>
      BlockIs(k, bt, body, c, ts, o);
      BlockIs(j, bt, body, c, ts, o);
      var e := Inside(o, Mark(Under(bt, o), O.None, {}, {}));
      Unpriced(k, j, body, Enter(c, Results(bt)), Params(bt), e);
      UnpricedBlocks(k, j, bt, true, Survey(k, body, Enter(c, Results(bt)), Params(bt), e));
    case Loop(bt, body) =>
      BlockIs(k, bt, body, c, ts, o);
      BlockIs(j, bt, body, c, ts, o);
      UnpricedBlocks(k, j, bt, true, o);
      var e := Inside(Fresh(k, o), Mark(Under(bt, o), O.Some(o.size), {}, {}));
      Unpriced(k, j, body, Enter(c, Params(bt)), Params(bt), e);
      UnpricedBlocks(k, j, bt, true, Survey(k, body, Enter(c, Params(bt)), Params(bt), e));
    case If(bt, thn) =>
      IfIs(k, bt, thn, [], c, ts, o);
      IfIs(j, bt, thn, [], c, ts, o);
      UnpricedBlocks(k, j, bt, true, o);
      Unpriced(k, j, thn, Enter(c, Results(bt)), Params(bt), EnterIf(k, bt, o));
      UnpricedBlocks(k, j, bt, true, Survey(k, thn, Enter(c, Results(bt)), Params(bt), EnterIf(k, bt, o)));
    case IfElse(bt, thn, els) => UnpricedIf(k, j, bt, thn, els, c, ts, o);
    case _ => UnpricedPlain(k, j, i, c, ts, o);
  }

  lemma {:induction false} UnpricedIf(k: T.Costs, j: T.Costs, bt: BlockType, thn: seq<Instr>, els: seq<Instr>, c: Ctx,
                                      ts: seq<ValType>, o: Outline)
    requires !k.metered && !j.metered
    ensures SurveyInstr(k, IfElse(bt, thn, els), c, ts, o) == SurveyInstr(j, IfElse(bt, thn, els), c, ts, o)
    decreases IfElse(bt, thn, els), 0
  {
    hide Survey, SurveyInstr, Check, Close, Switch, EnterIf;
    IfIs(k, bt, thn, els, c, ts, o);
    IfIs(j, bt, thn, els, c, ts, o);
    var d := Enter(c, Results(bt));
    UnpricedBlocks(k, j, bt, true, o);
    Unpriced(k, j, thn, d, Params(bt), EnterIf(k, bt, o));
    var t, live := Survey(k, thn, d, Params(bt), EnterIf(k, bt, o)), Check(thn, d, Params(bt)).Live?;
    UnpricedBlocks(k, j, bt, live, t);
    Unpriced(k, j, els, d, Params(bt), Switch(k, bt, live, t));
    UnpricedBlocks(k, j, bt, live, Survey(k, els, d, Params(bt), Switch(k, bt, live, t)));
  }

  lemma UnpricedBlocks(k: T.Costs, j: T.Costs, bt: BlockType, live: bool, o: Outline)
    requires !k.metered && !j.metered
    ensures Close(k, bt, o) == Close(j, bt, o) && Switch(k, bt, live, o) == Switch(j, bt, live, o)
    ensures EnterIf(k, bt, o) == EnterIf(j, bt, o) && Fresh(k, o) == Fresh(j, o)
  {
    hide Jump, Entries, Layout.WordsOf;
  }

  lemma UnpricedPlain(k: T.Costs, j: T.Costs, i: Instr, c: Ctx, ts: seq<ValType>, o: Outline)
    requires !k.metered && !j.metered && !i.Block? && !i.Loop? && !i.If? && !i.IfElse?
    ensures SurveyInstr(k, i, c, ts, o) == SurveyInstr(j, i, c, ts, o)
  {
    hide OutlineBr, OutlineBrIf, OutlineTable, OutlineSimple, OutlineReturn;
    match i
    case Br(depth) => UnpricedBranches(k, j, c, o, depth);
    case BrIf(depth) => UnpricedBranches(k, j, c, o, depth);
    case BrTable(depths, default) => UnpricedTable(k, j, c, o, depths + [default]);
    case _ => UnpricedSimple(k, j, i, c, ts, o);
  }

  lemma UnpricedBranches(k: T.Costs, j: T.Costs, c: Ctx, o: Outline, depth: nat)
    requires !k.metered && !j.metered
    ensures OutlineBr(k, c, o, depth) == OutlineBr(j, c, o, depth)
    ensures OutlineBrIf(k, c, o, depth) == OutlineBrIf(j, c, o, depth)
  {
    hide Jump, Dropping, Keeping, Moves, Spill, Entries, Layout.WordsOf;
  }

  lemma UnpricedTable(k: T.Costs, j: T.Costs, c: Ctx, o: Outline, depths: seq<nat>)
    requires !k.metered && !j.metered
    ensures OutlineTable(k, c, o, depths) == OutlineTable(j, c, o, depths)
  {
    hide Rows;
  }

  lemma UnpricedSimple(k: T.Costs, j: T.Costs, i: Instr, c: Ctx, ts: seq<ValType>, o: Outline)
    requires !k.metered && !j.metered
    ensures OutlineSimple(k, i, c, ts, o) == OutlineSimple(j, i, c, ts, o)
  {
    hide CheckPlain, LengthOf, RoomOf, Locate, Entries, Layout.WordsOf;
  }

  lemma {:induction false} UnpricedSkip(k: T.Costs, j: T.Costs, code: seq<Instr>, o: Outline)
    requires !k.metered && !j.metered
    ensures Skip(k, code, o) == Skip(j, code, o)
    decreases code, 0
  {
    hide SkipInstr;
    if code != [] {
      UnpricedSkipInstr(k, j, code[0], o);
      UnpricedSkip(k, j, code[1..], SkipInstr(k, code[0], o));
    }
  }

  lemma {:induction false} UnpricedSkipInstr(k: T.Costs, j: T.Costs, i: Instr, o: Outline)
    requires !k.metered && !j.metered
    ensures SkipInstr(k, i, o) == SkipInstr(j, i, o)
    decreases i, 1
  {
    hide Skip, Entries, Layout.WordsOf;
    match i
    case Block(_, body) => UnpricedSkip(k, j, body, o);
    case Loop(_, body) => UnpricedSkip(k, j, body, o);
    case If(_, thn) => UnpricedSkip(k, j, thn, o);
    case IfElse(_, thn, els) => UnpricedSkip(k, j, thn, o); UnpricedSkip(k, j, els, Skip(k, thn, o));
    case _ =>
  }

  // ----- functions -----

  lemma {:induction false} GroupsModest(locals: seq<(nat, ValType)>, peak: nat)
    requires Entries(Functions.LocalTypes(locals)) <= peak
    ensures forall i :: 0 <= i < |GroupDemands(locals)| ==>
              GroupDemands(locals)[i].Depth? && GroupDemands(locals)[i].words <= peak
    decreases |locals|
  {
    hide Entries, Layout.WordsOf, Entry;
    if locals != [] {
      var (n, t) := locals[0];
      Functions.RepeatWords(t, n);
      EntriesAppend(T.Repeat(t, n), Functions.LocalTypes(locals[1..]));
      GroupsModest(locals[1..], peak);
    }
  }

  lemma OpeningModest(k: T.Costs, f: T.Function)
    ensures Modest(Opening(k, f), Functions.EntryCost(k))
    ensures Entries([]) <= Opening(k, f).words
  {
    hide Entries, Layout.WordsOf, GroupDemands, Entry;
    assert Entries([]) == 0 by { NoEntries(); }
    var words := Entries(Functions.AllLocals(f));
    var start := Outline(2 + |f.locals|, words, words, 0, [Mark(0, O.None, {}, {})], [], {}, {});
    var o := Place(start, if k.metered then 1 else 0);
    NewMark(Mark(0, O.None, {}, {}), o.size);
    assert Modest(o, 0);
    SpendModest(k, o, k.params, 0);
    SpendModest(k, Spend(k, o, k.params), k.base, k.params);
    SpendModest(k, Spend(k, Spend(k, o, k.params), k.base), k.locals, k.params + k.base);
    EntriesAppend(f.params, Functions.LocalTypes(f.locals));
    GroupsModest(f.locals, words);
    var p := Spend(k, Spend(k, Spend(k, o, k.params), k.base), k.locals);
    GroupsAsked(p, Functions.EntryCost(k), GroupDemands(f.locals));
  }

  lemma NoEntries()
    ensures Entries([]) == 0
  {
  }

  lemma GroupsAsked(p: Outline, spent: nat, ds: seq<Demand>)
    requires Modest(p, spent) && forall i :: 0 <= i < |ds| ==> ds[i].Depth? && ds[i].words <= p.peak
    ensures Modest(p.(demands := p.demands + ds), spent)
  {
    var q := p.(demands := p.demands + ds);
    forall i | 0 <= i < |q.demands| ensures DemandModest(q.demands[i], q.peak, q.size, spent) {
      if i < |p.demands| {
        assert DemandModest(p.demands[i], p.peak, p.size, spent);
      } else {
        assert q.demands[i] == ds[i - |p.demands|];
      }
    }
  }

  /** All numbers of the outline stay below its peak, its size and the price of the whole function. */
  lemma OutlineModest(k: T.Costs, f: T.Function)
    requires Functions.ValidFunction(f)
    ensures Modest(OutlineOf(k, f), Functions.EntryCost(k) + Prices(k.base, f.body))
  {
    hide Modest, Survey, Opening, Entries, Layout.WordsOf, Check, Prices, OutlineReturn, Functions.AllLocals;
    var c, spent := Functions.FunctionCtx(f), Functions.EntryCost(k);
    OpeningModest(k, f);
    SurveyModest(k, f.body, c, [], Opening(k, f), spent);
    var o, more := Survey(k, f.body, c, [], Opening(k, f)), spent + Prices(k.base, f.body);
    var live := Check(f.body, c, []).Live?;
    if live { ReturnModest(c, f.results, o, more); }
    var p := if live then OutlineReturn(c, o) else o;
    PeakCovers(p, more);
    Grows(p, Raise(p, Entries(f.params) + Entries(f.results)), more, more);
  }

  lemma PeakCovers(p: Outline, spent: nat)
    requires Modest(p, spent)
    ensures p.words <= p.peak && p.charge <= spent
  {
  }

  lemma {:induction false} AllMet(ds: seq<Demand>)
    requires forall i :: 0 <= i < |ds| ==> Met(ds[i])
    ensures Verdict(ds) == O.None
    decreases |ds|
  {
    if ds != [] { AllMet(ds[1..]); }
  }

  lemma Unbothered(o: Outline, spent: nat)
    requires Modest(o, spent) && o.peak < 0x1_0000 && o.size < 0x8000_0000 && spent < 0x1_0000_0000
    ensures Verdict(o.demands) == O.None
    ensures forall d :: d in o.offsets ==> -0x8000_0000 <= d < 0x8000_0000
  {
    forall i | 0 <= i < |o.demands| ensures Met(o.demands[i]) {
      assert DemandModest(o.demands[i], o.peak, o.size, spent);
    }
    AllMet(o.demands);
    hide Verdict;
  }

  /** A valid function can be compiled whenever it needs fewer than 2^16 words of stack, fewer than 2^31 opcodes and,
      if it is metered, its operators and its entry cost less than 2^32 together. */
  lemma Suffices(k: T.Costs, f: T.Function)
    requires Functions.ValidFunction(f)
    requires OutlineOf(k, f).peak < 0x1_0000 && OutlineOf(k, f).size < 0x8000_0000
    requires k.metered ==> Functions.EntryCost(k) + Prices(k.base, f.body) < 0x1_0000_0000
    ensures Diagnosis(k, f) == O.None
  {
    hide Modest, Verdict, Entries, Layout.WordsOf, Survey, Functions.ValidFunction, Check, Opening;
    if k.metered {
      OutlineModest(k, f);
      Unbothered(OutlineOf(k, f), Functions.EntryCost(k) + Prices(k.base, f.body));
    } else {
      var j := T.Costs(false, 0, 0, 0);
      assert OutlineOf(k, f) == OutlineOf(j, f) by { UnpricedFunction(k, j, f); }
      OutlineModest(j, f);
      NoPrice(f.body);
      Unbothered(OutlineOf(j, f), Functions.EntryCost(j) + Prices(0, f.body));
    }
    hide OutlineOf;
  }

  lemma UnpricedFunction(k: T.Costs, j: T.Costs, f: T.Function)
    requires !k.metered && !j.metered
    ensures OutlineOf(k, f) == OutlineOf(j, f)
  {
    hide Survey, Entries, Layout.WordsOf, Check, GroupDemands, Finale;
    assert Opening(k, f) == Opening(j, f);
    Unpriced(k, j, f.body, Functions.FunctionCtx(f), [], Opening(k, f));
    hide Opening;
  }

  lemma {:induction false} NoPrice(code: seq<Instr>)
    ensures Prices(0, code) == 0
    decreases code, 0
  {
    if code != [] {
      NoInstrPrice(code[0]);
      NoPrice(code[1..]);
    }
  }

  lemma {:induction false} NoInstrPrice(i: Instr)
    ensures PriceOf(0, i) == 0
    decreases i, 1
  {
    match i
    case Block(_, body) => NoPrice(body);
    case Loop(_, body) => NoPrice(body);
    case If(_, thn) => NoPrice(thn);
    case IfElse(_, thn, els) => NoPrice(thn); NoPrice(els);
    case _ =>
  }
}
