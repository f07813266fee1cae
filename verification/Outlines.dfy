/** What a function comes to when it is compiled, told from its operators and their types alone: how many opcodes, how
    high a stack, which offsets its branches get, which 64-bit routines it calls, and which limits it must keep to. */
module Outlines {
  import O = Opcodes
  import opened Source
  import opened Validation
  import Functions
  import Layout
  import T = Translator

  /** A count that has to fit somewhere. */
  datatype Demand =
    | Drops(drop: nat, keep: nat)
    | Charge(fuel: nat)
    | Depth(words: nat)
    | Back(offset: int)
    | Hop(ahead: nat)
    | Targets(count: nat)

  predicate Met(d: Demand) {
    match d
    case Drops(drop, keep) => drop < 0x1_0000 && keep < 0x1_0000
    case Charge(fuel) => fuel < 0x1_0000_0000
    case Depth(words) => words < 0x1_0000_0000
    case Back(offset) => -0x8000_0000 <= offset < 0x8000_0000
    case Hop(ahead) => ahead < 0x8000_0000
    case Targets(count) => count < 0x1_0000_0000
  }

  function Complaint(d: Demand): T.Failure {
    match d
    case Drops(_, _) => T.DropKeepOutOfBounds
    case Charge(_) => T.BlockFuelOutOfBounds
    case Depth(_) => T.TooLarge
    case Back(_) => T.BranchOffsetOutOfBounds
    case Hop(_) => T.TooLarge
    case Targets(_) => T.BranchTableTargetsOutOfBounds
  }

  /** What the first unmet demand leads to. */
  function Verdict(ds: seq<Demand>): O.Option<T.Failure> {
    if ds == [] then O.None else if Met(ds[0]) then Verdict(ds[1..]) else O.Some(Complaint(ds[0]))
  }

  /** An enclosing label: the words below its operands, where a loop starts, and the places of the branches to its end
      and of the jump to the second branch of an `if`. */
  datatype Mark = Mark(base: nat, head: O.Option<nat>, exits: set<int>, skips: set<int>)

  /** Opcodes so far, words on the stack and the most there have been, the open charge, the enclosing labels, the
      demands in order, the offsets of settled branches, the routines called. */
  datatype Outline = Outline(size: nat, words: nat, peak: nat, charge: nat, marks: seq<Mark>, demands: seq<Demand>,
                             offsets: set<int>, kinds: set<Snippet>)

  function Minus(a: nat, b: nat): nat { if a >= b then a - b else 0 }

  /** Stack entries of values: two for 64 bits. */
  function Entries(ts: seq<ValType>): (n: nat)
    ensures n == Layout.WordsOf(ts)
  {
    if ts == [] then 0
    else Entries(ts[..|ts| - 1]) + (if ts[|ts| - 1] == I64 || ts[|ts| - 1] == F64 then 2 else 1)
  }

  function Entry(t: ValType): (n: nat)
    ensures n == Width(t) && (n == 2 <==> Wide(t))
  {
    assert [t][..0] == [];
    Entries([t])
  }

  // ----- single changes -----

  function Ask(o: Outline, d: Demand): Outline { o.(demands := o.demands + [d]) }

  function Spend(k: T.Costs, o: Outline, n: nat): Outline {
    if k.metered then Ask(o, Charge(o.charge + n)).(charge := o.charge + n) else o
  }

  function Place(o: Outline, n: nat): Outline { o.(size := o.size + n) }

  /** A new charge starts here. */
  function Fresh(k: T.Costs, o: Outline): Outline { if k.metered then Place(o, 1).(charge := 0) else o }

  function Raise(o: Outline, words: nat): Outline { o.(peak := if words > o.peak then words else o.peak) }

  // ----- branches -----

  function MarkAt(o: Outline, depth: nat): Mark {
    if depth < |o.marks| then o.marks[|o.marks| - 1 - depth] else Mark(0, O.None, {}, {})
  }

  predicate Root(o: Outline, depth: nat) { depth + 1 >= |o.marks| }

  function Keeping(c: Ctx, depth: nat): nat { if depth < |c.labels| then Entries(Label(c, depth)) else 0 }

  function Dropping(c: Ctx, o: Outline, depth: nat): nat { Minus(o.words, MarkAt(o, depth).base + Keeping(c, depth)) }

  /** Opcodes that move the kept words down over the dropped ones. */
  function Moves(drop: nat, keep: nat): nat {
    if drop == 0 then 0 else if drop >= keep then keep + 1 else 2 * keep + 1
  }

  /** Words are copied over the top of the stack only if the two areas overlap. */
  function Spill(drop: nat, keep: nat): nat { if 0 < drop < keep then 1 else 0 }

  /** A jump at `at` to an enclosing label. */
  function Jump(o: Outline, depth: nat, at: nat): Outline {
    if depth >= |o.marks| then o
    else
      var j, m := |o.marks| - 1 - depth, MarkAt(o, depth);
      match m.head
      case Some(head) => Ask(o, Back(head - at)).(offsets := o.offsets + {head - at})
      case None => o.(marks := o.marks[j := m.(exits := m.exits + {at})])
  }

  /** The last opcode of a branch: a return out of the outermost label, a jump otherwise. */
  function Depart(o: Outline, depth: nat, at: nat): Outline {
    (if Root(o, depth) then o else Jump(o, depth, at)).(size := at + 1)
  }

  function Shift(c: Ctx, o: Outline, depth: nat): Outline {
    Raise(Ask(o, Drops(Dropping(c, o, depth), Keeping(c, depth))),
          o.words + Spill(Dropping(c, o, depth), Keeping(c, depth)))
  }

  function OutlineBr(k: T.Costs, c: Ctx, o: Outline, depth: nat): Outline {
    Depart(Spend(k, Shift(c, o, depth), k.base), depth, o.size + Moves(Dropping(c, o, depth), Keeping(c, depth)))
  }

  function Popped(o: Outline): Outline { o.(words := Minus(o.words, 1)) }

  /** Unless nothing has to be dropped, a conditional jump over the moves comes first. */
  function OutlineBrIf(k: T.Costs, c: Ctx, o: Outline, depth: nat): Outline {
    var p := Popped(o);
    var drop, keep := Dropping(c, p, depth), Keeping(c, depth);
    var at := if drop == 0 && !Root(o, depth) then o.size else o.size + 1 + Moves(drop, keep);
    Fresh(k, Depart(Spend(k, Shift(c, p, depth), k.base), depth, at))
  }

  /** One target of a table, whose slot is at `slot`; targets that drop something get code behind the table. */
  function Row(c: Ctx, o: Outline, depth: nat, slot: nat): Outline {
    var drop, keep := Dropping(c, o, depth), Keeping(c, depth);
    var p := Shift(c, o, depth);
    if drop == 0 then (if Root(o, depth) then p else Jump(p, depth, slot))
    else Depart(Ask(p, Hop(Minus(o.size, slot))), depth, o.size + Moves(drop, keep))
  }

  function Rows(c: Ctx, o: Outline, depths: seq<nat>, slot: nat): Outline
    decreases |depths|
  {
    if depths == [] then o else Rows(c, Row(c, o, depths[0], slot), depths[1..], slot + 2)
  }

  function OutlineTable(k: T.Costs, c: Ctx, o: Outline, depths: seq<nat>): Outline {
    var p := Popped(Spend(k, o, k.base));
    Ask(Rows(c, Place(p, 1 + 2 * |depths|), depths, o.size + 1), Targets(|depths|))
  }

  function OutlineReturn(c: Ctx, o: Outline): Outline {
    var keep := Entries(c.results);
    var drop := Minus(o.words, keep);
    Place(Raise(Ask(o, Drops(drop, keep)), o.words + Spill(drop, keep)), Moves(drop, keep) + 1)
  }

  // ----- operators without control flow -----

  function OpLength(op: NumOp): nat {
    match op
    case I64Eqz => 5
    case I64Count(count) => (match count case Clz => 10 case Ctz => 13 case Popcnt => 6)
    case I64Logic(_) => 6
    case ExtendS => 3
    case _ => 1
  }

  /** Words above the operands for which room is asked. */
  function OpRoom(op: NumOp): nat {
    match op
    case I64Eqz => 1
    case I64Count(count) => if count.Popcnt? then 1 else 3
    case I64Logic(_) => 1
    case ExtendS => 3
    case ExtendU => 2
    case _ => 0
  }

  function LengthOf(i: Instr, c: Ctx, ts: seq<ValType>): nat {
    var n := |ts|;
    match i
    case Drop => if n >= 1 then Entry(ts[n - 1]) else 0
    case Select => if n >= 2 && Entry(ts[n - 2]) == 2 then 6 else 1
    case Const(v) => Entry(v.ty)
    case LocalGet(j) => if j < |c.locals| then Entry(c.locals[j]) else 0
    case LocalSet(j) => if j < |c.locals| then Entry(c.locals[j]) else 0
    case LocalTee(j) => if j < |c.locals| && Entry(c.locals[j]) == 2 then 3 else 1
    case Num(op) => OpLength(op)
    case _ => 0
  }

  function RoomOf(i: Instr, c: Ctx): nat {
    match i
    case Const(v) => Entry(v.ty)
    case LocalGet(j) => if j < |c.locals| then Entry(c.locals[j]) else 0
    case LocalTee(j) => if j < |c.locals| && Entry(c.locals[j]) == 2 then 1 else 0
    case Num(op) => OpRoom(op)
    case _ => 0
  }

  /** How deep a local lies, counted from the top of a stack of so many words. */
  function Deep(c: Ctx, words: nat, j: nat): nat {
    if j <= |c.locals| then Minus(words, Entries(c.locals[..j])) else 0
  }

  function Locate(o: Outline, i: Instr, c: Ctx): Outline {
    match i
    case LocalGet(j) => Ask(o, Depth(Deep(c, o.words, j)))
    case LocalSet(j) => Ask(o, Depth(Deep(c, Minus(o.words, if j < |c.locals| then Entry(c.locals[j]) else 0), j)))
    case LocalTee(j) => Ask(o, Depth(Deep(c, o.words, j)))
    case _ => o
  }

  function OutlineSimple(k: T.Costs, i: Instr, c: Ctx, ts: seq<ValType>, o: Outline): Outline {
    var p := Locate(Spend(k, o, if i.Drop? then 0 else k.base), i, c);
    var f := CheckPlain(i, c, ts);
    Place(Raise(p, o.words + RoomOf(i, c)), LengthOf(i, c, ts)).(
      words := if f.Live? then Minus(o.words + Entries(f.types), Entries(ts)) else o.words,
      kinds := if i.Num? && i.op.I64Snippet? then o.kinds + {i.op.snippet} else o.kinds)
  }

  // ----- blocks -----

  function Inside(o: Outline, m: Mark): Outline { o.(marks := o.marks + [m]) }

  function Ends(places: set<int>, at: int): set<int> { set e | e in places :: at - e }

  /** The end of a block: its branches are settled, its results stay, a new charge starts. */
  function Close(k: T.Costs, bt: BlockType, o: Outline): Outline {
    if o.marks == [] then o
    else
      var m := o.marks[|o.marks| - 1];
      var words := m.base + Entries(Results(bt));
      Fresh(k, Raise(o, words).(marks := o.marks[..|o.marks| - 1], words := words,
                                offsets := o.offsets + Ends(m.exits, o.size) + Ends(m.skips, o.size)))
  }

  /** Between the branches of an `if`: a jump to the end if this point is reached, then the second branch. */
  function Switch(k: T.Costs, bt: BlockType, live: bool, o: Outline): Outline {
    if o.marks == [] then o
    else
      var p := if live then Place(Jump(o, 0, o.size), 1) else o;
      var m := MarkAt(p, 0);
      var words := m.base + Entries(Params(bt));
      Fresh(k, Raise(p, words).(marks := p.marks[|p.marks| - 1 := m.(skips := {})], words := words,
                                offsets := p.offsets + Ends(m.skips, p.size)))
  }

  function Under(bt: BlockType, o: Outline): nat { Minus(o.words, Entries(Params(bt))) }

  function EnterIf(k: T.Costs, bt: BlockType, o: Outline): Outline {
    var p := Spend(k, Popped(o), k.base);
    Inside(Fresh(k, Place(p, 1)), Mark(Under(bt, p), O.None, {}, {p.size}))
  }

  function Survey(k: T.Costs, code: seq<Instr>, c: Ctx, ts: seq<ValType>, o: Outline): Outline
    decreases code, 0
  {
    if code == [] then o
    else
      var f := CheckInstr(code[0], c, ts);
      var p := SurveyInstr(k, code[0], c, ts, o);
      if f.Live? then Survey(k, code[1..], c, f.types, p) else Skip(k, code[1..], p)
  }

  function SurveyInstr(k: T.Costs, i: Instr, c: Ctx, ts: seq<ValType>, o: Outline): Outline
    decreases i, 1
  {
    match i
    case Nop => o
    case Unreachable => Place(o, 1)
    case Return => OutlineReturn(c, o)
    case Br(depth) => OutlineBr(k, c, o, depth)
    case BrIf(depth) => OutlineBrIf(k, c, o, depth)
    case BrTable(depths, default) => OutlineTable(k, c, o, depths + [default])
    case Block(bt, body) =>
      var e := Inside(o, Mark(Under(bt, o), O.None, {}, {}));
      Close(k, bt, Survey(k, body, Enter(c, Results(bt)), Params(bt), e))
    case Loop(bt, body) =>
      var e := Inside(Fresh(k, o), Mark(Under(bt, o), O.Some(o.size), {}, {}));
      Close(k, bt, Survey(k, body, Enter(c, Params(bt)), Params(bt), e))
    case If(bt, thn) =>
      Close(k, bt, Survey(k, thn, Enter(c, Results(bt)), Params(bt), EnterIf(k, bt, o)))
    case IfElse(bt, thn, els) =>
      var d := Enter(c, Results(bt));
      var t := Survey(k, thn, d, Params(bt), EnterIf(k, bt, o));
      var e := Switch(k, bt, Check(thn, d, Params(bt)).Live?, t);
      Close(k, bt, Survey(k, els, d, Params(bt), e))
    case _ => OutlineSimple(k, i, c, ts, o)
  }

  /** Code that is never reached: only the ends of its blocks leave a trace. */
  function Skip(k: T.Costs, code: seq<Instr>, o: Outline): Outline
    decreases code, 0
  {
    if code == [] then o else Skip(k, code[1..], SkipInstr(k, code[0], o))
  }

  function SkipInstr(k: T.Costs, i: Instr, o: Outline): Outline
    decreases i, 1
  {
    match i
    case Block(bt, body) => SkipEnd(k, bt, Skip(k, body, o))
    case Loop(bt, body) => SkipEnd(k, bt, Skip(k, body, o))
    case If(bt, thn) => SkipEnd(k, bt, Skip(k, thn, o))
    case IfElse(bt, thn, els) => SkipEnd(k, bt, Skip(k, els, Skip(k, thn, o)))
    case _ => o
  }

  function SkipEnd(k: T.Costs, bt: BlockType, o: Outline): Outline {
    var words := o.words + Entries(Results(bt));
    Fresh(k, Raise(o, words).(words := words))
  }

  // ----- functions -----

  function GroupDemands(locals: seq<(nat, ValType)>): seq<Demand> {
    if locals == [] then [] else [Depth(locals[0].0 * Entry(locals[0].1))] + GroupDemands(locals[1..])
  }

  /** What stands in front of the body: the signature, the charge, the stack check, and one opcode for each group of
      locals. */
  function Opening(k: T.Costs, f: T.Function): Outline {
    var words := Entries(Functions.AllLocals(f));
    var start := Outline(2 + |f.locals|, words, words, 0, [Mark(0, O.None, {}, {})], [], {}, {});
    var paid := Spend(k, Spend(k, Spend(k, Place(start, if k.metered then 1 else 0), k.params), k.base), k.locals);
    paid.(demands := paid.demands + GroupDemands(f.locals))
  }

  /** Reaching the end of the function returns from it. */
  function Finale(f: T.Function, live: bool, o: Outline): Outline {
    Raise(if live then OutlineReturn(Functions.FunctionCtx(f), o) else o, Entries(f.params) + Entries(f.results))
  }

  function OutlineOf(k: T.Costs, f: T.Function): Outline {
    var c := Functions.FunctionCtx(f);
    Finale(f, Check(f.body, c, []).Live?, Survey(k, f.body, c, [], Opening(k, f)))
  }

  /** Words of stack beyond the parameters: the operand of the stack check. */
  function HeightOf(f: T.Function, o: Outline): nat { Minus(o.peak, Entries(f.params)) }

  /** Why the function cannot be compiled, if it cannot: the first demand that is not met, else a branch too long, else
      too high a stack. */
  ghost function Diagnosis(k: T.Costs, f: T.Function): O.Option<T.Failure> {
    var o := OutlineOf(k, f);
    if Verdict(o.demands).Some? then Verdict(o.demands)
    else if exists d :: d in o.offsets && !(-0x8000_0000 <= d < 0x8000_0000) then O.Some(T.BranchOffsetOutOfBounds)
    else if HeightOf(f, o) >= 0x1_0000_0000 then O.Some(T.TooLarge)
    else O.None
  }
}
