/** Branch tables, target by target, emit what their outlines say. */
module SurveyTables {
  import opened Words
  import O = Opcodes
  import opened Source
  import opened Validation
  import opened Layout
  import opened Translator
  import opened Invariants
  import opened Branches
  import opened Surveys
  import opened SurveySteps
  import opened SurveyBranches
  import DK = DropKeeps
  import U = Outlines

  /** The jumps so far, with those of the table in the places they are going to take. */
  function TableJumps(t: Translation, n: nat, acc: Tables, from: nat): set<(int, nat)>
    requires from <= |t.code|
  {
    var start := |t.code| + 1 - from;
    JumpsFrom(t.code, from) + Places(acc.slots, start) + Places(acc.trampolines, start + n)
  }

  ghost predicate SlotsTidy(acc: Tables, n: nat) {
    forall i :: 0 <= i < |acc.slots| ==> SlotTidy(acc.slots[i], n + |acc.trampolines| - i)
  }

  predicate SlotTidy(op: SymOp, ahead: int) {
    op.Jump? || op == Op(O.Return) || (op.Op? && op.op.Branch? && 1 <= op.op.offset < ahead)
  }

  ghost predicate NoCallsIn(code: seq<SymOp>) { forall i :: 0 <= i < |code| ==> !code[i].CallSnippet? }

  /** The outline `q` of a table whose first targets are encoded in `acc`; `n` is the size of all slots, `o` the outline
      before the table. */
  ghost predicate RowsFit(t: Translation, n: nat, acc: Tables, o: U.Outline, q: U.Outline, from: nat) {
    && |t.code| == from + o.size && |acc.slots| <= n
    && q.size == o.size + 1 + n + |acc.trampolines|
    && q.words == o.words == t.height + t.paramWords && q.charge == o.charge && q.kinds == o.kinds
    && q.peak == Max(t.maxHeight, acc.peak) + t.paramWords
    && Marked(TableJumps(t, n, acc, from), t, q.marks, from)
    && q.offsets == SpansOf(TableJumps(t, n, acc, from), t.labels, from)
    && SlotsTidy(acc, n) && Tidy(acc.trampolines, 0, false) && NoCallsIn(acc.slots) && NoCallsIn(acc.trampolines)
  }

  // ----- one target -----

  /** What one more target adds to the tables. */
  function Added(acc: Tables, slot: SymOp, code: seq<SymOp>, peak: nat): Tables {
    Tables(acc.slots + [slot, Op(O.Return)], acc.trampolines + code, peak)
  }

  lemma AddedTidy(acc: Tables, n: nat, slot: SymOp, code: seq<SymOp>, peak: nat)
    requires |acc.slots| + 2 <= n && SlotsTidy(acc, n) && Tidy(acc.trampolines, 0, false)
    requires NoCallsIn(acc.slots) && NoCallsIn(acc.trampolines) && NoCallsIn(code) && !slot.CallSnippet?
    requires Tidy(code, 0, false)
    requires SlotTidy(slot, n + |acc.trampolines| + |code| - |acc.slots|)
    ensures var more := Added(acc, slot, code, peak);
            && SlotsTidy(more, n) && Tidy(more.trampolines, 0, false)
            && NoCallsIn(more.slots) && NoCallsIn(more.trampolines)
  {
    TidyAppend(acc.trampolines, code, 0, false, false);
    var more := Added(acc, slot, code, peak);
    forall i | 0 <= i < |more.slots| ensures SlotTidy(more.slots[i], n + |more.trampolines| - i) {
      if i < |acc.slots| { assert SlotTidy(acc.slots[i], n + |acc.trampolines| - i); }
    }
  }

  /** Where the jumps of one more target are. */
  lemma AddedJumps(t: Translation, n: nat, acc: Tables, from: nat, slot: SymOp, code: seq<SymOp>, peak: nat)
    requires from <= |t.code|
    ensures var start := |t.code| + 1 - from;
            TableJumps(t, n, Added(acc, slot, code, peak), from)
            == TableJumps(t, n, acc, from) + Places([slot], start + |acc.slots|)
               + Places(code, start + n + |acc.trampolines|)
  {
    var start := |t.code| + 1 - from;
    PlacesAppend(acc.slots, [slot, Op(O.Return)], start);
    assert [slot, Op(O.Return)] == [slot] + [Op(O.Return)];
    PlacesAppend([slot], [Op(O.Return)], start + |acc.slots|);
    NoPlaces([Op(O.Return)], start + |acc.slots| + 1);
    PlacesAppend(acc.trampolines, code, start + n);
    hide Places, JumpsFrom;
  }

  /** What encoding a target does, case by case. */
  function Encoded(t: Translation, at: nat, n: nat, target: Target, acc: Tables): Translator.Result<Tables> {
    var peak := Max(acc.peak, t.height + DK.Headroom(target.dropKeep));
    var moves := Ops(DK.Lower(target.dropKeep));
    if target.dropKeep.drop == 0 then
      if target.lab.None? then Ok(Added(acc, Op(O.Return), [], peak))
      else
        var l :- CheckJump(t, target.lab.value, at + |acc.slots|);
        Ok(Added(acc, SymOp.Jump(O.Always, l), [], peak))
    else
      var over :- AsOffset(n - |acc.slots| + |acc.trampolines|);
      if target.lab.None? then Ok(Added(acc, Op(O.Branch(O.Always, over)), moves + [Op(O.Return)], peak))
      else
        var l :- CheckJump(t, target.lab.value, at + n + |acc.trampolines| + |moves|);
        Ok(Added(acc, Op(O.Branch(O.Always, over)), moves + [SymOp.Jump(O.Always, l)], peak))
  }

  lemma EncodedIs(t: Translation, at: nat, n: nat, target: Target, acc: Tables)
    ensures EncodeTarget(t, at, n, target, acc) == Encoded(t, at, n, target, acc)
  {
    hide DK.Lower, DK.Headroom, CheckJump, AsOffset;
    assert acc.trampolines + [] == acc.trampolines;
    var moves := Ops(DK.Lower(target.dropKeep));
    forall last ensures acc.trampolines + moves + [last] == acc.trampolines + (moves + [last]) { }
  }

  /** A step of the rows that ends as its outline says. */
  ghost predicate RowKept(r: Translator.Result<Tables>, t: Translation, n: nat, o: U.Outline, q: U.Outline, from: nat) {
    match r
    case Ok(acc) => U.Verdict(q.demands).None? && RowsFit(t, n, acc, o, q, from)
    case Err(e) => U.Verdict(q.demands) == O.Some(e)
  }

  /** One more target, its jump (if any) being in `more`. */
  lemma RowAdded(t: Translation, n: nat, acc: Tables, o: U.Outline, q: U.Outline, from: nat, slot: SymOp,
                 code: seq<SymOp>, peak: nat, p: U.Outline)
    requires RowsFit(t, n, acc, o, q, from) && |acc.slots| + 2 <= n
    requires NoCallsIn(code) && !slot.CallSnippet? && Tidy(code, 0, false)
    requires SlotTidy(slot, n + |acc.trampolines| + |code| - |acc.slots|)
    requires p.size == q.size + |code| && p.words == q.words && p.charge == q.charge && p.kinds == q.kinds
    requires p.peak == Max(t.maxHeight, peak) + t.paramWords
    requires var start := o.size + 1;
             var jumps := TableJumps(t, n, acc, from) + Places([slot], start + |acc.slots|)
                          + Places(code, start + n + |acc.trampolines|);
             Marked(jumps, t, p.marks, from) && p.offsets == SpansOf(jumps, t.labels, from)
    ensures RowsFit(t, n, Added(acc, slot, code, peak), o, p, from)
  {
    hide TableJumps, Places, SlotsTidy, Tidy, NoCallsIn, Marked, SpansOf;
    AddedJumps(t, n, acc, from, slot, code, peak);
    AddedTidy(acc, n, slot, code, peak);
    var start := o.size + 1;
    var jumps := TableJumps(t, n, acc, from) + Places([slot], start + |acc.slots|)
                 + Places(code, start + n + |acc.trampolines|);
    assert TableJumps(t, n, Added(acc, slot, code, peak), from) == jumps;
  }

  /** The state of the rows before a target is encoded. */
  ghost predicate RowReady(t: Translation, c: Ctx, below: seq<ValType>, us: seq<ValType>, n: nat, acc: Tables,
                           o: U.Outline, q: U.Outline, from: nat) {
    At(t, c, below, us) && |acc.slots| + 2 <= n && RowsFit(t, n, acc, o, q, from) && U.Verdict(q.demands).None?
  }

  lemma ShiftFits(t: Translation, n: nat, acc: Tables, o: U.Outline, q: U.Outline, from: nat, target: Target,
                  c: Ctx, depth: nat)
    requires RowsFit(t, n, acc, o, q, from)
    requires target.dropKeep.drop == U.Dropping(c, q, depth) && target.dropKeep.keep == U.Keeping(c, depth)
    ensures var p, peak := U.Shift(c, q, depth), Max(acc.peak, t.height + DK.Headroom(target.dropKeep));
            p.peak == Max(t.maxHeight, peak) + t.paramWords && p == q.(peak := p.peak, demands := p.demands)
  {
    hide TableJumps, SlotsTidy, Tidy, NoCallsIn, Marked, SpansOf, U.Dropping, U.Keeping;
  }

  /** Nothing to drop: the slot itself is the branch. */
  lemma RowDirect(t: Translation, c: Ctx, below: seq<ValType>, us: seq<ValType>, n: nat, acc: Tables, o: U.Outline,
                  q: U.Outline, from: nat, depth: nat, target: Target)
    requires RowReady(t, c, below, us, n, acc, o, q, from) && depth < |t.frames| == |q.marks|
    requires target.dropKeep.drop == U.Dropping(c, q, depth) == 0 && target.dropKeep.keep == U.Keeping(c, depth)
    requires target.lab == if U.Root(q, depth) then O.None else O.Some(LabelOf(FrameAt(t, depth)))
    requires U.Verdict(U.Shift(c, q, depth).demands).None?
    ensures RowKept(Encoded(t, |t.code| + 1, n, target, acc), t, n, o, U.Row(c, q, depth, o.size + 1 + |acc.slots|),
                    from)
  {
    hide WordsOf, U.Verdict, U.Dropping, U.Keeping, U.Spill, DK.Lower, DK.Headroom, CheckJump, U.Jump, U.Shift, Places,
      SpansOf, Marked, SlotsTidy, Tidy, NoCallsIn;
    ShiftFits(t, n, acc, o, q, from, target, c, depth);
    AtParts(t, c, below, us);
    var p, slot := U.Shift(c, q, depth), o.size + 1 + |acc.slots|;
    var jumps, peak := TableJumps(t, n, acc, from), Max(acc.peak, t.height + DK.Headroom(target.dropKeep));
    EmptyCode(o.size + 1 + n + |acc.trampolines|);
    hide TableJumps;
    if U.Root(q, depth) {
      NoPlaces([Op(O.Return)], slot);
      RowAdded(t, n, acc, o, q, from, Op(O.Return), [], peak, p);
    } else {
      JumpChecked(t, p, from, jumps, depth, slot);
      JumpMarked(jumps, t, p, from, depth, slot);
      JumpKeepsRest(p, depth, slot);
      var l := LabelOf(FrameAt(t, depth));
      OnePlace(O.Always, l, slot);
      assert jumps + {(slot, l)} + {} == jumps + {(slot, l)};
      hide LabelOf, At, FramesOK;
      RowAdded(t, n, acc, o, q, from, SymOp.Jump(O.Always, l), [], peak, U.Jump(p, depth, slot));
    }
  }

  lemma EmptyCode(start: int)
    ensures Tidy([], 0, false) && NoCallsIn([]) && Places([], start) == {}
  {
  }

  /** Something to drop: the slot leads to code behind the table. */
  lemma RowOver(t: Translation, c: Ctx, below: seq<ValType>, us: seq<ValType>, n: nat, acc: Tables, o: U.Outline,
                q: U.Outline, from: nat, depth: nat, target: Target)
    requires RowReady(t, c, below, us, n, acc, o, q, from) && depth < |t.frames| == |q.marks|
    requires target.dropKeep.drop == U.Dropping(c, q, depth) > 0 && target.dropKeep.keep == U.Keeping(c, depth)
    requires target.lab == if U.Root(q, depth) then O.None else O.Some(LabelOf(FrameAt(t, depth)))
    requires U.Verdict(U.Shift(c, q, depth).demands).None?
    ensures RowKept(Encoded(t, |t.code| + 1, n, target, acc), t, n, o, U.Row(c, q, depth, o.size + 1 + |acc.slots|),
                    from)
  {
    hide WordsOf, U.Verdict, U.Dropping, U.Keeping, U.Spill, DK.Lower, DK.Headroom, CheckJump, U.Jump, U.Shift, Places,
      SpansOf, Marked, SlotsTidy, Tidy, NoCallsIn, U.Moves;
    ShiftFits(t, n, acc, o, q, from, target, c, depth);
    AtParts(t, c, below, us);
    var p := U.Shift(c, q, depth);
    var d := U.Hop(U.Minus(q.size, o.size + 1 + |acc.slots|));
    Asked(p, d);
    LaterRow(c, q, depth, o.size + 1 + |acc.slots|);
    hide U.Row;
    assert d.ahead == n - |acc.slots| + |acc.trampolines|;
    if U.Met(d) {
      RowMoved(t, n, acc, o, q, from, c, depth, target);
    }
    hide TableJumps, RowsFit, At;
  }

  lemma LaterRow(c: Ctx, q: U.Outline, depth: nat, slot: nat)
    requires U.Dropping(c, q, depth) > 0
    ensures var h := U.Ask(U.Shift(c, q, depth), U.Hop(U.Minus(q.size, slot)));
            && U.Row(c, q, depth, slot) == U.Depart(h, depth,
                                                    q.size + U.Moves(U.Dropping(c, q, depth), U.Keeping(c, depth)))
            && (U.Verdict(h.demands).Some? ==> U.Verdict(U.Row(c, q, depth, slot).demands) == U.Verdict(h.demands))
  {
    hide U.Verdict, U.Dropping, U.Keeping, U.Moves;
    JumpAsks(U.Ask(U.Shift(c, q, depth), U.Hop(U.Minus(q.size, slot))), depth,
             q.size + U.Moves(U.Dropping(c, q, depth), U.Keeping(c, depth)));
    hide U.Jump, U.Shift;
  }

  lemma RowMoved(t: Translation, n: nat, acc: Tables, o: U.Outline, q: U.Outline, from: nat, c: Ctx, depth: nat,
                 target: Target)
    requires FramesOK(t) && |acc.slots| + 2 <= n && RowsFit(t, n, acc, o, q, from)
    requires depth < |t.frames| == |q.marks|
    requires target.dropKeep.drop == U.Dropping(c, q, depth) > 0 && target.dropKeep.keep == U.Keeping(c, depth)
    requires target.lab == if U.Root(q, depth) then O.None else O.Some(LabelOf(FrameAt(t, depth)))
    requires n - |acc.slots| + |acc.trampolines| < B31
    requires var h := U.Ask(U.Shift(c, q, depth), U.Hop(n - |acc.slots| + |acc.trampolines|));
             U.Verdict(h.demands).None? && q.size - (o.size + 1 + |acc.slots|) == n - |acc.slots| + |acc.trampolines|
    ensures RowKept(Encoded(t, |t.code| + 1, n, target, acc), t, n, o, U.Row(c, q, depth, o.size + 1 + |acc.slots|),
                    from)
  {
    hide WordsOf, U.Verdict, U.Dropping, U.Keeping, U.Spill, DK.Lower, DK.Headroom, CheckJump, U.Jump, U.Shift, Places,
      SpansOf, Marked, SlotsTidy, Tidy, NoCallsIn, U.Moves, U.Row;
    var dk, ahead := target.dropKeep, n - |acc.slots| + |acc.trampolines|;
    var h := U.Ask(U.Shift(c, q, depth), U.Hop(ahead));
    LaterRow(c, q, depth, o.size + 1 + |acc.slots|);
    ShiftFits(t, n, acc, o, q, from, target, c, depth);
    LowerIs(dk);
    var ops, slot := Ops(DK.Lower(dk)), Op(O.Branch(O.Always, ahead));
    var peak, at := Max(acc.peak, t.height + DK.Headroom(dk)), q.size + U.Moves(dk.drop, dk.keep);
    NoPlaces([slot], o.size + 1 + |acc.slots|);
    if U.Root(q, depth) {
      MovedCode(dk, Op(O.Return), q.size);
      RowAdded(t, n, acc, o, q, from, slot, ops + [Op(O.Return)], peak, h.(size := at + 1));
    } else {
      assert !FrameAt(t, depth).DeadFrame? by { MarkLive(TableJumps(t, n, acc, from), t, q.marks, from, depth); }
      var l, jumps := LabelOf(FrameAt(t, depth)), TableJumps(t, n, acc, from);
      assert jumps + {} + {(at, l)} == jumps + {(at, l)};
      JumpChecked(t, h, from, jumps, depth, at);
      JumpMarked(jumps, t, h, from, depth, at);
      JumpKeepsRest(h, depth, at);
      MovedCode(dk, SymOp.Jump(O.Always, l), q.size);
      hide TableJumps, LabelOf, FramesOK;
      RowAdded(t, n, acc, o, q, from, slot, ops + [SymOp.Jump(O.Always, l)], peak,
               U.Jump(h, depth, at).(size := at + 1));
    }
  }

  lemma MarkLive(jumps: set<(int, nat)>, t: Translation, marks: seq<U.Mark>, from: nat, depth: nat)
    requires Marked(jumps, t, marks, from) && depth < |t.frames|
    ensures !FrameAt(t, depth).DeadFrame?
  {
    var j := |t.frames| - 1 - depth;
    assert MarkFits(jumps, t, t.frames[j], marks[j], j == 0, from);
  }

  /** Moves and the opcode behind them. */
  lemma MovedCode(dk: DK.DropKeep, last: SymOp, start: int)
    requires last == Op(O.Return) || last.Jump?
    ensures var code := Ops(DK.Lower(dk)) + [last];
            && Tidy(code, 0, false) && NoCallsIn(code)
            && Places(code, start) == if last.Jump? then {(start + |DK.Lower(dk)|, last.target)} else {}
  {
    LowerTidy(dk, true);
    var ops := Ops(DK.Lower(dk));
    hide DK.Lower;
    TidyAppend(ops, [last], 0, true, false);
    PlacesAppend(ops, [last], start);
    NoPlaces(ops, start);
    if last.Jump? { OnePlace(last.kind, last.target, start + |ops|); } else { NoPlaces([last], start + |ops|); }
    hide Places;
  }

  lemma RowSurveyed(t: Translation, c: Ctx, below: seq<ValType>, us: seq<ValType>, n: nat, acc: Tables, o: U.Outline,
                    q: U.Outline, from: nat, depth: nat)
    requires RowReady(t, c, below, us, n, acc, o, q, from) && Targets(c, depth, us)
    ensures var r := (var target :- Acquire(t, depth);
                      EncodeTarget(t, |t.code| + 1, n, target, acc));
            RowKept(r, t, n, o, U.Row(c, q, depth, o.size + 1 + |acc.slots|), from)
  {
    hide WordsOf, U.Verdict, U.Dropping, U.Keeping, U.Spill, U.Jump, U.Row, Places, SpansOf, Marked, SlotsTidy, Tidy,
      NoCallsIn, Acquire, Encoded, EncodeTarget, TableJumps, RowKept;
    Acquired(t, c, below, us, depth, q, TableJumps(t, n, acc, from), from);
    Asked(q, U.Drops(U.Dropping(c, q, depth), U.Keeping(c, depth)));
    if Acquire(t, depth).Ok? {
      var target := Acquire(t, depth).value;
      EncodedIs(t, |t.code| + 1, n, target, acc);
      if target.dropKeep.drop == 0 {
        RowDirect(t, c, below, us, n, acc, o, q, from, depth, target);
      } else {
        RowOver(t, c, below, us, n, acc, o, q, from, depth, target);
      }
    } else {
      RowRefused(t, n, c, o, q, depth, o.size + 1 + |acc.slots|, from, Acquire(t, depth).failure);
    }
  }

  lemma RowRefused(t: Translation, n: nat, c: Ctx, o: U.Outline, q: U.Outline, depth: nat, slot: nat, from: nat,
                   e: Failure)
    requires U.Verdict(U.Shift(c, q, depth).demands) == O.Some(e)
    ensures RowKept(Err(e), t, n, o, U.Row(c, q, depth, slot), from)
  {
    hide U.Verdict, U.Dropping, U.Keeping, U.Moves, RowsFit;
    RowAsks(c, q, depth, slot);
    hide U.Row;
  }

  /** An unmet demand stays the first one. */
  lemma RowAsks(c: Ctx, q: U.Outline, depth: nat, slot: nat)
    ensures U.Verdict(U.Shift(c, q, depth).demands).Some? ==>
            U.Verdict(U.Row(c, q, depth, slot).demands) == U.Verdict(U.Shift(c, q, depth).demands)
    ensures U.Verdict(q.demands).Some? ==> U.Verdict(U.Row(c, q, depth, slot).demands) == U.Verdict(q.demands)
  {
    hide U.Verdict, U.Dropping, U.Keeping, U.Moves;
    var p := U.Shift(c, q, depth);
    Asked(q, U.Drops(U.Dropping(c, q, depth), U.Keeping(c, depth)));
    Asked(p, U.Hop(U.Minus(q.size, slot)));
    JumpAsks(p, depth, slot);
    JumpAsks(U.Ask(p, U.Hop(U.Minus(q.size, slot))), depth,
             q.size + U.Moves(U.Dropping(c, q, depth), U.Keeping(c, depth)));
    hide U.Jump;
  }

  // ----- all targets -----

  lemma {:induction false} RowsAsk(c: Ctx, q: U.Outline, depths: seq<nat>, slot: nat)
    ensures U.Verdict(q.demands).Some? ==> U.Verdict(U.Rows(c, q, depths, slot).demands) == U.Verdict(q.demands)
    decreases |depths|
  {
    hide U.Verdict, U.Row;
    if depths != [] {
      RowAsks(c, q, depths[0], slot);
      RowsAsk(c, U.Row(c, q, depths[0], slot), depths[1..], slot + 2);
    }
  }

  lemma {:induction false} RowsSurveyed(t: Translation, c: Ctx, below: seq<ValType>, us: seq<ValType>, n: nat,
                                        acc: Tables, o: U.Outline, q: U.Outline, from: nat, depths: seq<nat>)
    requires At(t, c, below, us) && |acc.slots| + 2 * |depths| == n && RowsFit(t, n, acc, o, q, from)
    requires U.Verdict(q.demands).None? && forall k :: k in depths ==> Targets(c, k, us)
    ensures RowKept(EncodeTargets(t, |t.code| + 1, n, depths, acc), t, n, o,
                    U.Rows(c, q, depths, o.size + 1 + |acc.slots|), from)
    ensures match EncodeTargets(t, |t.code| + 1, n, depths, acc)
            case Ok(done) => |done.slots| == n
            case Err(_) => true
    decreases |depths|
  {
    hide At, RowsFit, U.Verdict, U.Row, Acquire, EncodeTarget, Targets;
    if depths != [] {
      RowSurveyed(t, c, below, us, n, acc, o, q, from, depths[0]);
      var r := (var target :- Acquire(t, depths[0]);
                EncodeTarget(t, |t.code| + 1, n, target, acc));
      var p := U.Row(c, q, depths[0], o.size + 1 + |acc.slots|);
      if r.Ok? {
        TwoSlots(t, |t.code| + 1, n, Acquire(t, depths[0]).value, acc);
        RowsSurveyed(t, c, below, us, n, r.value, o, p, from, depths[1..]);
      } else {
        RowsAsk(c, p, depths[1..], o.size + 1 + |acc.slots| + 2);
      }
    }
  }

  lemma TwoSlots(t: Translation, at: nat, n: nat, target: Target, acc: Tables)
    ensures match EncodeTarget(t, at, n, target, acc)
            case Ok(more) => |more.slots| == |acc.slots| + 2
            case Err(_) => true
  {
    EncodedIs(t, at, n, target, acc);
    hide EncodeTarget, DK.Lower, CheckJump, AsOffset;
  }

  // ----- the whole table -----

  /** `br_table` in terms of its parts. */
  lemma TableIsParts(s: Translation, depths: seq<nat>, default: nat, u: Translation, t: Translation)
    requires s.reachable && Bump(s, s.base) == Ok(u) && PopCondition(u) == Ok(t)
    ensures VisitBrTable(s, depths, default)
         == var tables :- EncodeTargets(t, |t.code| + 1, 2 * |depths| + 2, depths + [default], Tables([], [], 0));
            if |depths| + 1 >= B32 then Err(BranchTableTargetsOutOfBounds)
            else Ok(BrTableEmitted(t, |depths| + 1, tables))
  {
    hide Bump, PopCondition, EncodeTargets;
  }

  lemma TableBroke(s: Translation, depths: seq<nat>, default: nat)
    requires s.reachable && Bump(s, s.base).Err?
    ensures VisitBrTable(s, depths, default) == Err(Bump(s, s.base).failure)
  {
    hide Bump;
  }

  lemma NoRows(t: Translation, n: nat, o: U.Outline, from: nat)
    requires Tracks(t, o, from)
    ensures RowsFit(t, n, Tables([], [], 0), o, U.Place(o, 1 + n), from)
  {
    hide Places, SpansOf;
    TrackedParts(t, o, from);
    var start := |t.code| + 1 - from;
    EmptyCode(start);
    EmptyCode(start + n);
    assert TableJumps(t, n, Tables([], [], 0), from) == JumpsFrom(t.code, from);
  }

  /** A complete table has been emitted. */
  lemma TableTracks(t: Translation, n: Word, acc: Tables, o: U.Outline, q: U.Outline, from: nat, p: U.Outline)
    requires Tracks(t, o, from) && t.reachable && n >= 1
    requires RowsFit(t, 2 * n, acc, o, q, from) && |acc.slots| == 2 * n
    requires p == q.(demands := p.demands)
    ensures Tracks(BrTableEmitted(t, n, acc), p, from)
  {
    hide Places, SpansOf, Kinds, MarkFits;
    var v := BrTableEmitted(t, n, acc);
    var head := [Op(O.BrTable(n))];
    var ext := head + acc.slots + acc.trampolines;
    TableTidy(n, acc);
    TablePlaces(t, n, acc, from);
    TableKinds(n, acc);
    assert v.code == t.code + ext;
    KindsAppend(t.code[from..], ext);
    assert v.code[from..] == t.code[from..] + ext;
    TidyAppend(t.code, ext, from, true, false);
    PaidStays(t, v, ext, o.charge);
    LandedStays(t, v, ext, from);
    hide Tidy, TableJumps, SlotsTidy, NoCallsIn;
    MarksStay(JumpsFrom(v.code, from), t, v, p.marks, from);
  }

  lemma TableKinds(n: Word, acc: Tables)
    requires NoCallsIn(acc.slots) && NoCallsIn(acc.trampolines)
    ensures Kinds([Op(O.BrTable(n))] + acc.slots + acc.trampolines) == {}
  {
    var ext := [Op(O.BrTable(n))] + acc.slots + acc.trampolines;
    forall i | 0 <= i < |ext| ensures !ext[i].CallSnippet? {
      if 1 <= i < 1 + |acc.slots| {
        assert ext[i] == acc.slots[i - 1];
      } else if i > 0 {
        assert ext[i] == acc.trampolines[i - 1 - |acc.slots|];
      }
    }
    NoKinds(ext);
  }

  lemma TableTidy(n: Word, acc: Tables)
    requires n >= 1 && |acc.slots| == 2 * n && SlotsTidy(acc, 2 * n) && Tidy(acc.trampolines, 0, false)
    ensures Tidy([Op(O.BrTable(n))] + acc.slots + acc.trampolines, 0, false)
  {
    var ext := [Op(O.BrTable(n))] + acc.slots + acc.trampolines;
    forall i | 0 <= i < |ext| ensures TidyOp(ext[i], |ext| - i + Slack(false)) {
      if 1 <= i < 1 + |acc.slots| {
        assert ext[i] == acc.slots[i - 1];
        assert SlotTidy(acc.slots[i - 1], 2 * n + |acc.trampolines| - (i - 1));
      } else if i > 0 {
        var j := i - 1 - |acc.slots|;
        assert ext[i] == acc.trampolines[j];
        assert TidyOp(acc.trampolines[j], |acc.trampolines| - j + Slack(false));
      }
    }
  }

  lemma TablePlaces(t: Translation, n: Word, acc: Tables, from: nat)
    requires from <= |t.code| && |acc.slots| == 2 * n
    ensures var ext := [Op(O.BrTable(n))] + acc.slots + acc.trampolines;
            JumpsFrom(t.code + ext, from) == TableJumps(t, 2 * n, acc, from)
  {
    var head, start := [Op(O.BrTable(n))], |t.code| - from;
    JumpsAppend(t.code, head + acc.slots + acc.trampolines, from);
    PlacesAppend(head + acc.slots, acc.trampolines, start);
    PlacesAppend(head, acc.slots, start);
    NoPlaces(head, start);
    hide Places, JumpsFrom;
  }

  lemma TableSurveyed(k: Costs, s: Translation, c: Ctx, below: seq<ValType>, ts: seq<ValType>, depths: seq<nat>,
                      default: nat, o: U.Outline, from: nat)
    requires At(s, c, below, ts) && |ts| >= 1 && ts[|ts| - 1] == I32
    requires forall d :: d in depths + [default] ==> Targets(c, d, ts[..|ts| - 1])
    requires Tracks(s, o, from) && U.Verdict(o.demands).None? && s.metered == k.metered && s.base == k.base
    ensures Keeps(VisitBrTable(s, depths, default), U.OutlineTable(k, c, o, depths + [default]), from)
  {
    hide WordsOf, U.Verdict, Tracks, Bump, PopCondition, U.Rows, Targets;
    BumpSurveyed(k, s, c, below, ts, o, from);
    AtParts(s, c, below, ts);
    var q := U.Spend(k, o, k.base);
    TableAsks(k, c, o, depths + [default]);
    hide U.OutlineTable;
    if Bump(s, s.base).Ok? {
      var u := Bump(s, s.base).value;
      ConditionTracks(u, c, below, ts, q, from);
      TablePopped(k, s, u, PopCondition(u).value, c, below, ts[..|ts| - 1], depths, default, o, from);
    } else {
      hide At, WF;
      TableBroke(s, depths, default);
    }
  }

  lemma TableAsks(k: Costs, c: Ctx, o: U.Outline, depths: seq<nat>)
    ensures U.Verdict(U.Spend(k, o, k.base).demands).Some? ==>
            U.Verdict(U.OutlineTable(k, c, o, depths).demands) == U.Verdict(U.Spend(k, o, k.base).demands)
    ensures var p := U.Rows(c, U.Place(U.Popped(U.Spend(k, o, k.base)), 1 + 2 * |depths|), depths, o.size + 1);
            && U.OutlineTable(k, c, o, depths) == U.Ask(p, U.Targets(|depths|))
            && (U.Verdict(p.demands).Some? ==>
                U.Verdict(U.OutlineTable(k, c, o, depths).demands)
                == U.Verdict(p.demands))
  {
    hide U.Verdict, U.Rows;
    var p := U.Place(U.Popped(U.Spend(k, o, k.base)), 1 + 2 * |depths|);
    RowsAsk(c, p, depths, o.size + 1);
    Asked(U.Rows(c, p, depths, o.size + 1), U.Targets(|depths|));
  }

  lemma TablePopped(k: Costs, s: Translation, u: Translation, t: Translation, c: Ctx, below: seq<ValType>,
                    us: seq<ValType>, depths: seq<nat>, default: nat, o: U.Outline, from: nat)
    requires s.reachable && Bump(s, s.base) == Ok(u) && PopCondition(u) == Ok(t) && At(t, c, below, us)
    requires var p := U.Popped(U.Spend(k, o, k.base)); Tracks(t, p, from) && U.Verdict(p.demands).None?
    requires forall d :: d in depths + [default] ==> Targets(c, d, us)
    ensures Keeps(VisitBrTable(s, depths, default), U.OutlineTable(k, c, o, depths + [default]), from)
  {
    hide WordsOf, U.Verdict, Tracks, Bump, PopCondition, U.Rows, Targets, RowsFit, VisitBrTable, EncodeTargets,
      BrTableEmitted;
    var p, all, n := U.Popped(U.Spend(k, o, k.base)), depths + [default], 2 * |depths| + 2;
    TableIsParts(s, depths, default, u, t);
    NoRows(t, n, p, from);
    var start := U.Place(p, 1 + n);
    RowsSurveyed(t, c, below, us, n, Tables([], [], 0), p, start, from, all);
    TableAsks(k, c, o, all);
    AtParts(t, c, below, us);
    hide At, U.OutlineTable;
    var r := EncodeTargets(t, |t.code| + 1, n, all, Tables([], [], 0));
    var q := U.Rows(c, start, all, o.size + 1);
    assert p.size == o.size;
    if r.Ok? {
      Asked(q, U.Targets(|all|));
      if |all| < B32 {
        TableTracks(t, |all|, r.value, p, q, from, U.Ask(q, U.Targets(|all|)));
      }
    }
  }
}
