/** The layout of branch tables, and the machine going through one. */
module JumpTables {
  import opened Words
  import O = Opcodes
  import M = Machine
  import DK = DropKeeps
  import Store
  import opened Source
  import opened Validation
  import opened Layout
  import opened Translator
  import opened Invariants
  import opened Progress
  import opened Branches
  import opened Locals
  import opened Images
  import opened Simulation
  import opened BranchRuns
  import SimpleRuns

  function Exit(target: Target): SymOp {
    if target.lab.None? then Op(O.Return) else Jump(O.Always, target.lab.value)
  }

  /** The code at `r` behind the table reshapes the operands for the target and leaves. */
  ghost predicate Trampoline(tables: Tables, r: nat, target: Target) {
    r + |Tail(target)| <= |tables.trampolines| && tables.trampolines[r..r + |Tail(target)|] == Tail(target)
  }

  /** Slot `i` leads to the target: directly if nothing is dropped, else through a trampoline,
      which lies `size` words behind the start of the table. */
  ghost predicate SlotLeads(tables: Tables, size: nat, i: nat, target: Target) {
    && 2 * i + 1 < |tables.slots|
    && tables.slots[2 * i + 1] == Op(O.Return)
    && if target.dropKeep.drop == 0 then tables.slots[2 * i] == Exit(target)
       else exists r: nat :: Trampoline(tables, r, target) && IsHop(tables.slots[2 * i], size + r - 2 * i)
  }

  predicate IsHop(op: SymOp, offset: int) {
    op.Op? && op.op.Branch? && op.op.kind.Always? && op.op.offset == offset
  }

  /** The room the moves of the target need is part of the peak. */
  ghost predicate Encodes(s: Translation, tables: Tables, size: nat, i: nat, depth: nat) {
    var a := Acquire(s, depth);
    && a.Ok? && SlotLeads(tables, size, i, a.value)
    && s.height + DK.Headroom(a.value.dropKeep) <= tables.peak
  }

  ghost predicate Grows(a: Tables, b: Tables) {
    a.slots <= b.slots && a.trampolines <= b.trampolines && a.peak <= b.peak
  }

  lemma FirstEncoded(s: Translation, at: nat, size: nat, depths: seq<nat>, acc: Tables)
    returns (target: Target, mid: Tables)
    requires depths != [] && EncodeTargets(s, at, size, depths, acc).Ok?
    ensures Acquire(s, depths[0]) == Ok(target) && EncodeTarget(s, at, size, target, acc) == Ok(mid)
    ensures EncodeTargets(s, at, size, depths, acc) == EncodeTargets(s, at, size, depths[1..], mid)
  {
    hide EncodeTarget;
    hide Acquire;
    target := Acquire(s, depths[0]).value;
    mid := EncodeTarget(s, at, size, target, acc).value;
  }

  lemma GrowsNot(a: Tables)
    ensures Grows(a, a)
  {
  }

  lemma GrowsOn(a: Tables, b: Tables, c: Tables)
    requires Grows(a, b) && Grows(b, c)
    ensures Grows(a, c) && b.peak <= c.peak
  {
  }

  lemma SlotStays(a: Tables, b: Tables, size: nat, i: nat, target: Target)
    requires SlotLeads(a, size, i, target) && Grows(a, b)
    ensures SlotLeads(b, size, i, target)
  {
    if target.dropKeep.drop != 0 {
      var r: nat :| Trampoline(a, r, target) && IsHop(a.slots[2 * i], size + r - 2 * i);
      assert b.trampolines[r..r + |Tail(target)|] == a.trampolines[r..r + |Tail(target)|];
      assert Trampoline(b, r, target);
    }
  }

  lemma TargetEncoded(s: Translation, at: nat, size: nat, target: Target, acc: Tables, i: nat)
    requires |acc.slots| == 2 * i && EncodeTarget(s, at, size, target, acc).Ok?
    ensures var t := EncodeTarget(s, at, size, target, acc).value;
            && Grows(acc, t) && |t.slots| == 2 * (i + 1) && SlotLeads(t, size, i, target)
            && s.height + DK.Headroom(target.dropKeep) <= t.peak
  {
    hide DK.Lower;
    hide DK.Headroom;
    var t := EncodeTarget(s, at, size, target, acc).value;
    if target.dropKeep.drop != 0 {
      var m := |acc.trampolines|;
      assert t.trampolines == acc.trampolines + Tail(target);
      assert t.trampolines[m..m + |Tail(target)|] == Tail(target);
      assert Trampoline(t, m, target);
      assert IsHop(t.slots[2 * i], size + m - 2 * i);
    }
  }

  /** The jump-table theorem: slot `i` of the finished table leads to the destination of target `i`. */
  lemma {:induction false} TableLayout(s: Translation, at: nat, size: nat, depths: seq<nat>, acc: Tables, j: nat)
    requires |acc.slots| == 2 * j && EncodeTargets(s, at, size, depths, acc).Ok?
    ensures var t := EncodeTargets(s, at, size, depths, acc).value;
            && Grows(acc, t) && |t.slots| == 2 * (j + |depths|)
            && forall i :: 0 <= i < |depths| ==> Encodes(s, t, size, j + i, depths[i])
    decreases |depths|
  {
    hide EncodeTarget;
    hide SlotLeads;
    hide DK.Headroom;
    hide Grows;
    hide Acquire;
    if depths == [] {
      GrowsNot(acc);
    } else {
      var target, mid := FirstEncoded(s, at, size, depths, acc);
      hide EncodeTargets;
      TargetEncoded(s, at, size, target, acc, j);
      TableLayout(s, at, size, depths[1..], mid, j + 1);
      var t := EncodeTargets(s, at, size, depths[1..], mid).value;
      SlotStays(mid, t, size, j, target);
      GrowsOn(acc, mid, t);
      forall i | 0 <= i < |depths| ensures Encodes(s, t, size, j + i, depths[i]) {
        if i > 0 {
          assert depths[i] == depths[1..][i - 1];
          assert Encodes(s, t, size, (j + 1) + (i - 1), depths[1..][i - 1]);
        }
      }
    }
  }

  // ----- running -----

  /** The table opcode skips to the slot of the selected target; selectors out of range take the last one. */
  function Selected(x: Word, depths: seq<nat>): nat { if x < |depths| then x else |depths| }

  lemma SelectedDepth(x: Word, depths: seq<nat>, default: nat)
    ensures Selected(x, depths) < |depths + [default]| == |depths| + 1
    ensures (depths + [default])[Selected(x, depths)] == if x < |depths| then depths[x] else default
  {
  }

  lemma TableParts(k: World, at: nat, n: Word, tables: Tables, i: nat, r: nat, l: nat)
    requires Emitted(k, at, [Op(O.BrTable(n))] + tables.slots + tables.trampolines)
    requires i < |tables.slots| && r + l <= |tables.trampolines|
    ensures Emitted(k, at, [Op(O.BrTable(n))])
    ensures Emitted(k, at + 1 + i, [tables.slots[i]])
    ensures Emitted(k, at + 1 + |tables.slots| + r, tables.trampolines[r..r + l])
  {
    var first := [Op(O.BrTable(n))];
    var all := first + tables.slots + tables.trampolines;
    assert k.final.code[at + (1 + i)] == all[1 + i];
    var a, tail := first + tables.slots + tables.trampolines[..r], tables.trampolines[r..];
    assert all == a + tail[..l] + tail[l..];
    EmittedPart(k, at, a, tail[..l], tail[l..]);
    assert tail[..l] == tables.trampolines[r..r + l];
    assert k.final.code[at + 0] == all[0];
  }

  /** From the slot of a target the machine gets to its destination. */
  lemma SlotLands(k: World, s: Translation, c: Ctx, below: seq<ValType>, ls: seq<Value>, hidden: seq<Word>,
                  st: seq<Value>, d: nat, target: Target, tables: Tables, at: nat, n: Word, i: nat, m: M.State,
                  fuel: nat)
    returns (v: M.State)
    requires Fine(k) && View(s, c, below, ls, hidden, st) && TargetOK(s, c, d, target) && k.results == c.results
    requires Targets(c, d, TypesOf(st)) && k.final.paramWords == s.paramWords
    requires Emitted(k, at, [Op(O.BrTable(n))] + tables.slots + tables.trampolines)
    requires SlotLeads(tables, |tables.slots|, i, target)
    requires s.height + DK.Headroom(target.dropKeep) <= k.final.maxHeight
    requires m.pc == k.off + at + 1 + 2 * i && m.stack == k.caller + Window(ls, hidden, st)
    requires Ready(k, m) && m.fuel == Store.Saturate(fuel)
    ensures Jumped(k, s.frames, d, m, v) && Landed(k, s.frames, d, v, ls, hidden, st, fuel)
  {
    hide Fine;
    hide View;
    hide TargetOK;
    hide Targets;
    hide Landed;
    hide Tail;
    hide Window;
    hide DK.Headroom;
    hide M.Reaches;
    hide Jumped;
    var slot := at + 1 + 2 * i;
    if target.dropKeep.drop == 0 {
      TableParts(k, at, n, tables, 2 * i, 0, 0);
      hide Emitted;
      AlreadyReshaped(k, s, c, below, ls, hidden, st, d, target, m);
      hide Reshaped;
      v := ExitLands(k, s, c, below, ls, hidden, st, d, target, slot, m, fuel);
    } else {
      var r: nat :| Trampoline(tables, r, target) && IsHop(tables.slots[2 * i], |tables.slots| + r - 2 * i);
      TableParts(k, at, n, tables, 2 * i, r, |Tail(target)|);
      hide Emitted;
      var u := HopRuns(k, m, slot, tables.slots[2 * i], |tables.slots| + r - 2 * i);
      v := TailLands(k, s, c, below, ls, hidden, st, d, target, at + 1 + |tables.slots| + r, u, fuel);
      JumpedAfter(k, s.frames, d, m, u, v);
    }
  }

  lemma HopRuns(k: World, m: M.State, at: nat, op: SymOp, offset: int) returns (u: M.State)
    requires Fine(k) && Emitted(k, at, [op]) && IsHop(op, offset) && m.pc == k.off + at
    ensures M.Reaches(k.c, m, M.Next(u)) && u == m.(pc := m.pc + offset)
  {
    assert [op] == [Op(op.op)];
    OpRuns(k, m, at, op.op);
    hide Fine;
    M.ReachesStep(k.c, m);
    u := m.(pc := m.pc + offset);
  }

  lemma TableRuns(k: World, u: Translation, m: M.State, depths: seq<nat>, ls: seq<Value>, hidden: seq<Word>,
                  st: seq<Value>, x: Word, fuel: nat)
    returns (v: M.State)
    requires Fine(k) && |depths| + 1 < B32 && Emitted(k, |u.code|, [Op(O.BrTable(|depths| + 1))])
    requires Tests(k, u, m, ls, hidden, st, x, fuel)
    ensures M.Reaches(k.c, m, M.Next(v))
    ensures v.pc == k.off + |u.code| + 1 + 2 * Selected(x, depths) && v.stack == k.caller + Window(ls, hidden, st)
    ensures Ready(k, v) && v.fuel == Store.Saturate(fuel)
  {
    hide Window;
    OpRuns(k, m, |u.code|, O.BrTable(|depths| + 1));
    hide Fine;
    hide Emitted;
    M.ReachesStep(k.c, m);
    hide M.Reaches;
    hide M.Step;
    assert m.stack[..|m.stack| - 1] == k.caller + Window(ls, hidden, st);
    v := Tested(k, m, m.pc + 2 * Selected(x, depths) + 1);
  }

  // ----- the whole operator -----

  lemma BrTableParts(s: Translation, t: Translation, depths: seq<nat>, default: nat, c: Ctx, below: seq<ValType>,
                     ts: seq<ValType>)
    returns (u: Translation, p: Translation, tables: Tables)
    requires At(s, c, below, ts) && |ts| >= 1 && ts[|ts| - 1] == I32 && VisitBrTable(s, depths, default) == Ok(t)
    ensures Bump(s, s.base) == Ok(u) && PopCondition(u) == Ok(p) && |depths| + 1 < B32
    ensures EncodeTargets(p, |p.code| + 1, 2 * |depths| + 2, depths + [default], Tables([], [], 0)) == Ok(tables)
    ensures t == BrTableEmitted(p, |depths| + 1, tables) && At(p, c, below, ts[..|ts| - 1])
    ensures u.code == p.code && |u.code| == |s.code| && p.frames == s.frames
  {
    hide WF;
    hide WordsOf;
    BrTableSucceeds(s, depths, default);
    BumpStays(s, c, below, ts, s.base);
    u := Bump(s, s.base).value;
    ConditionPopped(u, c, below, ts);
    p := PopCondition(u).value;
    BrTableIs(s, depths, default, u, p);
    hide Bump;
    hide PopCondition;
    hide EncodeTargets;
    hide VisitBrTable;
    hide Placed;
    hide Extends;
    tables := EncodeTargets(p, |p.code| + 1, 2 * |depths| + 2, depths + [default], Tables([], [], 0)).value;
  }

  lemma BrTableSucceeds(s: Translation, depths: seq<nat>, default: nat)
    requires s.reachable && VisitBrTable(s, depths, default).Ok?
    ensures Bump(s, s.base).Ok?
  {
    hide Bump;
    hide PopCondition;
    hide EncodeTargets;
  }

  lemma EmittedTable(k: World, p: Translation, n: Word, tables: Tables, t: Translation)
    requires t == BrTableEmitted(p, n, tables) && k.from <= |p.code| && Leads(k, t)
    ensures Emitted(k, |p.code|, [Op(O.BrTable(n))] + tables.slots + tables.trampolines)
    ensures tables.peak <= k.final.maxHeight && LiveCharge(t).None? && p.code <= t.code
  {
    PrefixEmitted(k, p.code, [Op(O.BrTable(n))] + tables.slots + tables.trampolines, t.code, t);
  }

  /** Everything up to the table opcode is paid, and the selector is on top. */
  lemma TableTests(k: World, s: Translation, t: Translation, depths: seq<nat>, default: nat, c: Ctx,
                   below: seq<ValType>, ls: seq<Value>, hidden: seq<Word>, st: seq<Value>, m: M.State, fuel: nat)
    returns (p: Translation, tables: Tables)
    requires View(s, c, below, ls, hidden, st) && k.from <= |s.code| && Leads(k, t)
    requires st != [] && TypesOf(st)[|st| - 1] == I32
    requires VisitBrTable(s, depths, default) == Ok(t) && Match(k, s, m, ls, hidden, st, fuel)
    ensures st[|st| - 1].ty == I32 && |depths| + 1 < B32 && p.frames == s.frames && |p.code| == |s.code|
    ensures View(p, c, below, ls, hidden, Below(st, 1)) && k.final.paramWords == p.paramWords
    ensures EncodeTargets(p, |p.code| + 1, 2 * |depths| + 2, depths + [default], Tables([], [], 0)) == Ok(tables)
    ensures Emitted(k, |p.code|, [Op(O.BrTable(|depths| + 1))] + tables.slots + tables.trampolines)
    ensures tables.peak <= k.final.maxHeight
    ensures Tests(k, p, m, ls, hidden, Below(st, 1), st[|st| - 1].bits, fuel + Paid(k, s.base))
  {
    hide WordsOf;
    hide VisitBrTable;
    hide EncodeTargets;
    hide Window;
    hide Emitted;
    hide At;
    hide Bump;
    hide PopCondition;
    var u;
    u, p, tables := TableSetup(k, s, t, depths, default, c, below, ls, hidden, st);
    BumpMatch(k, s, u, s.base, c, below, ls, hidden, st, m, fuel);
    ConditionOnTop(k, u, c, below, ls, hidden, st, m, fuel + Paid(k, s.base));
    hide Ahead;
    hide Extends;
    hide TypesOf;
  }

  lemma TableSetup(k: World, s: Translation, t: Translation, depths: seq<nat>, default: nat, c: Ctx,
                   below: seq<ValType>, ls: seq<Value>, hidden: seq<Word>, st: seq<Value>)
    returns (u: Translation, p: Translation, tables: Tables)
    requires View(s, c, below, ls, hidden, st) && k.from <= |s.code| && Leads(k, t)
    requires st != [] && TypesOf(st)[|st| - 1] == I32 && VisitBrTable(s, depths, default) == Ok(t)
    ensures st[|st| - 1].ty == I32 && |depths| + 1 < B32 && p.frames == s.frames && |p.code| == |s.code|
    ensures Bump(s, s.base) == Ok(u) && PopCondition(u) == Ok(p) && Extends(u, k.final)
    ensures EncodeTargets(p, |p.code| + 1, 2 * |depths| + 2, depths + [default], Tables([], [], 0)) == Ok(tables)
    ensures Emitted(k, |p.code|, [Op(O.BrTable(|depths| + 1))] + tables.slots + tables.trampolines)
    ensures tables.peak <= k.final.maxHeight && Ahead(k.final, p) == 0 && k.final.paramWords == p.paramWords
    ensures |u.code| == |p.code|
  {
    hide WordsOf;
    hide VisitBrTable;
    hide EncodeTargets;
    hide Emitted;
    SimpleRuns.TypeAt(st, |st| - 1);
    u, p, tables := BrTableParts(s, t, depths, default, c, below, TypesOf(st));
    EmittedTable(k, p, |depths| + 1, tables, t);
    ChargeInside(p);
    hide WF;
    hide Placed;
    AheadSpent(k.final, p, t);
    TableExtends(u, p, |depths| + 1, tables, t);
    hide BrTableEmitted;
    hide Bump;
    ExtendsTransitive(u, t, k.final);
  }

  lemma TableExtends(u: Translation, p: Translation, n: Word, tables: Tables, t: Translation)
    requires PopCondition(u) == Ok(p) && t == BrTableEmitted(p, n, tables)
    ensures Extends(u, t)
  {
    AppendExtends(u, t);
  }

  /** The slot that a selector picks. */
  lemma SlotPicked(p: Translation, depths: seq<nat>, default: nat, tables: Tables, x: Word) returns (d: nat)
    requires EncodeTargets(p, |p.code| + 1, 2 * |depths| + 2, depths + [default], Tables([], [], 0)) == Ok(tables)
    ensures d == (if x < |depths| then depths[x] else default) && d in depths + [default]
    ensures |tables.slots| == 2 * |depths| + 2 && Encodes(p, tables, |tables.slots|, Selected(x, depths), d)
  {
    hide Encodes;
    hide EncodeTargets;
    hide Grows;
    var all, i := depths + [default], Selected(x, depths);
    SelectedDepth(x, depths, default);
    hide Selected;
    d := all[i];
    TableLayout(p, |p.code| + 1, 2 * |depths| + 2, all, Tables([], [], 0), 0);
    assert Encodes(p, tables, 2 * |depths| + 2, 0 + i, all[i]);
  }

  lemma TargetPicked(k: World, p: Translation, c: Ctx, below: seq<ValType>, ls: seq<Value>, hidden: seq<Word>,
                     st: seq<Value>, depths: seq<nat>, default: nat, tables: Tables, x: Word)
    returns (d: nat, target: Target)
    requires View(p, c, below, ls, hidden, st) && forall j :: j in depths + [default] ==> Targets(c, j, TypesOf(st))
    requires EncodeTargets(p, |p.code| + 1, 2 * |depths| + 2, depths + [default], Tables([], [], 0)) == Ok(tables)
    ensures d == (if x < |depths| then depths[x] else default) && Targets(c, d, TypesOf(st))
    ensures TargetOK(p, c, d, target)
    ensures |tables.slots| == 2 * |depths| + 2 && SlotLeads(tables, |tables.slots|, Selected(x, depths), target)
    ensures p.height + DK.Headroom(target.dropKeep) <= tables.peak
  {
    hide WordsOf;
    hide SlotLeads;
    hide TargetOK;
    hide EncodeTargets;
    hide Selected;
    hide DK.Headroom;
    hide Targets;
    hide At;
    d := SlotPicked(p, depths, default, tables, x);
    AcquireGood(p, c, below, TypesOf(st), d);
    hide Acquire;
    target := Acquire(p, d).value;
  }

  lemma BrTableFollows(k: World, s: Translation, t: Translation, depths: seq<nat>, default: nat, c: Ctx,
                       below: seq<ValType>, ls: seq<Value>, hidden: seq<Word>, st: seq<Value>, m: M.State, fuel: nat)
    returns (n: M.State)
    requires Fine(k) && View(s, c, below, ls, hidden, st) && k.from <= |s.code| && Leads(k, t) && k.results == c.results
    requires st != [] && TypesOf(st)[|st| - 1] == I32
    requires forall j :: j in depths + [default] ==> Targets(c, j, TypesOf(Below(st, 1)))
    requires VisitBrTable(s, depths, default) == Ok(t) && Match(k, s, m, ls, hidden, st, fuel)
    ensures Follows(k, s.frames, t, m, n, hidden, Plain(BrTable(depths, default), ls, st), fuel + Paid(k, s.base))
  {
    hide Fine;
    hide VisitBrTable;
    hide Match;
    hide View;
    hide Leads;
    hide Emitted;
    hide EncodeTargets;
    hide SlotLeads;
    hide Landed;
    hide Tests;
    hide Targets;
    hide TargetOK;
    hide DK.Headroom;
    hide M.Reaches;
    hide Jumped;
    var p, tables := TableTests(k, s, t, depths, default, c, below, ls, hidden, st, m, fuel);
    var x, st' := st[|st| - 1].bits, Below(st, 1);
    var d, target := TargetPicked(k, p, c, below, ls, hidden, st', depths, default, tables, x);
    TableParts(k, |p.code|, |depths| + 1, tables, 0, 0, 0);
    var v := TableRuns(k, p, m, depths, ls, hidden, st', x, fuel + Paid(k, s.base));
    n := SlotLands(k, p, c, below, ls, hidden, st', d, target, tables, |p.code|, |depths| + 1, Selected(x, depths), v,
                   fuel + Paid(k, s.base));
    JumpedAfter(k, s.frames, d, m, v, n);
  }
}
