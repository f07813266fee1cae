/** Branches emit what their outlines say. */
module SurveyBranches {
  import opened Words
  import O = Opcodes
  import opened Source
  import opened Validation
  import opened Layout
  import opened Translator
  import opened Invariants
  import opened Frames
  import opened Progress
  import opened Branches
  import opened Surveys
  import opened SurveySteps
  import DK = DropKeeps
  import U = Outlines

  // ----- moves -----

  lemma {:induction false} MovesTidy(drop: O.U16, keep: O.U16, i: nat)
    requires i <= keep && drop > 0
    ensures forall j :: 0 <= j < |DK.Moves(drop, keep, i)| ==> Still(DK.Moves(drop, keep, i)[j])
    decreases keep - i
  {
    if i < keep {
      MovesTidy(drop, keep, i + 1);
    }
  }

  /** Opcodes that are tidy wherever they stand. */
  predicate Still(o: O.Opcode) { !o.Branch? && !o.BrTable? && TidyOp(Op(o), 0) }

  lemma LowerTidy(dk: DK.DropKeep, open: bool)
    ensures Tidy(Ops(DK.Lower(dk)), 0, open)
    ensures forall i :: 0 <= i < |DK.Lower(dk)| ==> Still(DK.Lower(dk)[i])
  {
    if dk.drop > 0 && dk.drop < dk.keep {
      MovesTidy(dk.drop, dk.keep, 0);
    }
    var ops := DK.Lower(dk);
    assert forall i :: 0 <= i < |ops| ==> Still(ops[i]);
    hide DK.Lower;
    forall i | 0 <= i < |ops| ensures TidyOp(Op(ops[i]), |ops| - i + Slack(open)) {
      assert Still(ops[i]);
    }
  }

  /** The lowered moves in the outline's terms. */
  lemma LowerIs(dk: DK.DropKeep)
    ensures |DK.Lower(dk)| == U.Moves(dk.drop, dk.keep) && DK.Headroom(dk) == U.Spill(dk.drop, dk.keep)
  {
    DK.LowerLength(dk);
  }

  // ----- targets -----

  /** Acquiring a target in closed form. */
  lemma AcquireExact(s: Translation, depth: nat)
    requires depth < |s.frames| && !FrameAt(s, depth).DeadFrame? && s.frames[0].BlockFrame? && s.frames[0].height == 0
    requires FrameAt(s, depth).height + WordsOf(LabelTypes(FrameAt(s, depth))) <= s.height
    ensures var f, root := FrameAt(s, depth), depth + 1 == |s.frames|;
            var keep := WordsOf(LabelTypes(f));
            var drop := s.height - f.height - keep + (if root then s.paramWords else 0);
            Acquire(s, depth)
            == if drop < B16 && keep < B16
               then Ok(Target(if root then O.None else O.Some(LabelOf(f)), DK.DropKeep(drop, keep)))
               else Err(DropKeepOutOfBounds)
  {
    hide WordsOf;
  }

  /** The numbers of a branch in the outline. */
  lemma ShapeIs(s: Translation, c: Ctx, depth: nat, o: U.Outline, jumps: set<(int, nat)>, from: nat)
    requires depth < |s.frames| == |o.marks| == |c.labels| && s.frames[0].BlockFrame? && s.frames[0].height == 0
    requires !FrameAt(s, depth).DeadFrame?
    requires Marked(jumps, s, o.marks, from) && o.words == s.height + s.paramWords
    requires FrameAt(s, depth).height + WordsOf(Label(c, depth)) <= s.height
    ensures var root := depth + 1 == |s.frames|;
            && U.Root(o, depth) == root && U.Keeping(c, depth) == WordsOf(Label(c, depth))
            && U.Dropping(c, o, depth)
               == s.height - FrameAt(s, depth).height - U.Keeping(c, depth) + (if root then s.paramWords else 0)
  {
    hide WordsOf;
    var j := |s.frames| - 1 - depth;
    assert MarkFits(jumps, s, s.frames[j], o.marks[j], j == 0, from);
  }

  /** The drop-keep of a branch is the one of the outline; it is refused exactly if a number has more than 16 bits. */
  lemma Acquired(s: Translation, c: Ctx, below: seq<ValType>, ts: seq<ValType>, depth: nat, o: U.Outline,
                 jumps: set<(int, nat)>, from: nat)
    requires At(s, c, below, ts) && Targets(c, depth, ts)
    requires Marked(jumps, s, o.marks, from) && o.words == s.height + s.paramWords
    ensures depth < |s.frames| == |o.marks|
    ensures AcquireIs(s, c, depth, o)
  {
    hide WordsOf, Acquire, WF, MarkFits;
    HeightsFit(s, c, below, ts, depth);
    assert s.frames[0].height == 0;
    AtParts(s, c, below, ts);
    FrameKnown(s, |s.frames| - 1 - depth);
    hide At, Placed;
    AcquireExact(s, depth);
    ShapeIs(s, c, depth, o, jumps, from);
    hide Marked, U.Dropping, U.Keeping, U.Root, LabelOf, LabelTypes, Label;
  }

  /** What acquiring a target gives, in the outline's terms. */
  ghost predicate AcquireIs(s: Translation, c: Ctx, depth: nat, o: U.Outline)
    requires depth < |s.frames|
  {
    var drop, keep := U.Dropping(c, o, depth), U.Keeping(c, depth);
    match Acquire(s, depth)
    case Ok(t) =>
      && U.Met(U.Drops(drop, keep)) && t.dropKeep == DK.DropKeep(drop, keep)
      && t.lab == (if U.Root(o, depth) then O.None else O.Some(LabelOf(FrameAt(s, depth))))
      && !FrameAt(s, depth).DeadFrame? && LabelOf(FrameAt(s, depth)) < |s.labels|
    case Err(e) => e == DropKeepOutOfBounds && !U.Met(U.Drops(drop, keep))
  }

  lemma TrackedParts(s: Translation, o: U.Outline, from: nat)
    requires Tracks(s, o, from)
    ensures |s.code| == from + o.size && o.words == s.height + s.paramWords
    ensures Marked(JumpsFrom(s.code, from), s, o.marks, from)
    ensures o.offsets == SpansOf(JumpsFrom(s.code, from), s.labels, from)
  {
  }

  lemma ReturnOutlined(s: Translation, c: Ctx, below: seq<ValType>, ts: seq<ValType>, o: U.Outline, from: nat)
    requires At(s, c, below, ts) && EndsWith(ts, c.results) && Tracks(s, o, from)
    ensures var keep := U.Entries(c.results);
            var drop := U.Minus(o.words, keep);
            match DropKeepReturn(s)
            case Ok(dk) => U.Met(U.Drops(drop, keep)) && dk == DK.DropKeep(drop, keep)
            case Err(e) => e == DropKeepOutOfBounds && !U.Met(U.Drops(drop, keep))
  {
    hide WordsOf;
    var depth := |s.frames| - 1;
    assert Label(c, depth) == c.results;
    TrackedParts(s, o, from);
    Acquired(s, c, below, ts, depth, o, JumpsFrom(s.code, from), from);
    assert MarkFits(JumpsFrom(s.code, from), s, s.frames[0], o.marks[0], true, from);
    hide WF, JumpsFrom, Tracks, Paid;
  }

  // ----- leaving -----

  lemma LeaveTracks(u: Translation, o: U.Outline, from: nat, dk: DK.DropKeep, p: U.Outline)
    requires Tracks(u, o, from) && u.reachable
    requires p == U.Raise(o, o.words + U.Spill(dk.drop, dk.keep)).(size := o.size + U.Moves(dk.drop, dk.keep) + 1,
                                                                  demands := p.demands)
    ensures Tracks(Leave(u, dk), p, from)
  {
    LowerIs(dk);
    LowerTidy(dk, false);
    hide DK.Lower, DK.Headroom, Kinds;
    var ops := Ops(DK.Lower(dk));
    var ext := ops + [Op(O.Return)];
    assert u.code + ops + [Op(O.Return)] == u.code + ext;
    assert Tidy(ext, 0, false);
    NoKinds(ext);
    Emitted(u, o, from, Leave(u, dk), p, ext);
  }

  lemma ReturnSurveyed(s: Translation, c: Ctx, below: seq<ValType>, ts: seq<ValType>, o: U.Outline, from: nat)
    requires At(s, c, below, ts) && EndsWith(ts, c.results) && Tracks(s, o, from) && U.Verdict(o.demands).None?
    ensures Keeps(VisitReturn(s), U.OutlineReturn(c, o), from)
  {
    ReturnOutlined(s, c, below, ts, o, from);
    var keep := U.Entries(c.results);
    var drop := U.Minus(o.words, keep);
    Asked(o, U.Drops(drop, keep));
    var r := DropKeepReturn(s);
    hide DropKeepReturn, U.Verdict, Tracks, WF, U.Minus, U.Entries, U.Moves, U.Spill;
    assert s.reachable;
    if r.Ok? {
      LeaveTracks(s, o, from, r.value, U.OutlineReturn(c, o));
    }
  }

  lemma UnreachableSurveyed(s: Translation, o: U.Outline, from: nat)
    requires Tracks(s, o, from) && s.reachable
    ensures Tracks(VisitUnreachable(s), U.Place(o, 1), from)
  {
    var ext := [Op(O.Unreachable)];
    NoKinds(ext);
    Emitted(s, o, from, VisitUnreachable(s), U.Place(o, 1), ext);
  }

  // ----- jumps -----

  /** A jump is refused exactly if its offset to a loop does not fit. */
  lemma JumpChecked(u: Translation, o: U.Outline, from: nat, jumps: set<(int, nat)>, depth: nat, at: nat)
    requires FramesOK(u) && Marked(jumps, u, o.marks, from) && o.offsets == SpansOf(jumps, u.labels, from)
    requires depth + 1 < |u.frames| && U.Verdict(o.demands).None?
    ensures !FrameAt(u, depth).DeadFrame?
    ensures CheckJump(u, LabelOf(FrameAt(u, depth)), from + at)
         == if U.Verdict(U.Jump(o, depth, at).demands).None? then Ok(LabelOf(FrameAt(u, depth)))
            else Err(BranchOffsetOutOfBounds)
    ensures U.Verdict(U.Jump(o, depth, at).demands) in {O.None, O.Some(BranchOffsetOutOfBounds)}
  {
    hide Places, SpansOf, U.Verdict;
    JumpMarked(jumps, u, o, from, depth, at);
    var m := U.MarkAt(o, depth);
    assert MarkFits(jumps, u, FrameAt(u, depth), m, false, from);
    if m.head.Some? {
      Asked(o, U.Back(m.head.value - at));
    }
  }

  /** Moves, then the jump. */
  lemma BranchTracks(u: Translation, o: U.Outline, from: nat, dk: DK.DropKeep, depth: nat, p: U.Outline)
    requires FramesOK(u) && Tracks(u, o, from) && u.reachable && depth + 1 < |u.frames|
    requires !FrameAt(u, depth).DeadFrame?
    requires var q := U.Jump(o, depth, o.size + U.Moves(dk.drop, dk.keep));
             p == U.Raise(q, o.words + U.Spill(dk.drop, dk.keep)).(
                  size := o.size + U.Moves(dk.drop, dk.keep) + 1, demands := p.demands)
    ensures Tracks(Branch(u, dk, LabelOf(FrameAt(u, depth))), p, from)
  {
    LowerIs(dk);
    LowerTidy(dk, false);
    var l := LabelOf(FrameAt(u, depth));
    hide DK.Lower, DK.Headroom, U.MarkAt;
    var ops, last := Ops(DK.Lower(dk)), [SymOp.Jump(O.Always, l)];
    assert u.code + ops + last == u.code + (ops + last);
    assert Tidy(ops + last, 0, false);
    EmittedJump(u, o, from, Branch(u, dk, l), p, ops, O.Always, depth);
  }

  /** The end of a branch: out of the function, or to a label if its offset fits. */
  function Departed(u: Translation, target: Target): Translator.Result<Translation> {
    if target.lab.None? then Ok(Leave(u, target.dropKeep))
    else
      var l :- CheckJump(u, target.lab.value, |u.code| + |DK.Lower(target.dropKeep)|);
      Ok(Branch(u, target.dropKeep, l))
  }

  /** `br` in terms of its parts. */
  lemma BrExact(s: Translation, depth: nat, target: Target, u: Translation)
    requires s.reachable && Acquire(s, depth) == Ok(target) && Bump(s, s.base) == Ok(u) && u == s.(code := u.code)
    ensures VisitBr(s, depth) == Departed(u, target)
  {
    SameReturn(s, u, depth);
    hide Acquire, Bump, DropKeepReturn, DK.Lower;
  }

  /** Demands do not count for the state. */
  lemma Undemanding(s: Translation, o: U.Outline, p: U.Outline, from: nat)
    requires Tracks(s, o, from) && p == o.(demands := p.demands)
    ensures Tracks(s, p, from)
  {
  }

  /** The state between charging and moving, whose outline has all demands but that of the jump. */
  function Charged(k: Costs, c: Ctx, o: U.Outline, depth: nat): U.Outline {
    U.Spend(k, U.Ask(o, U.Drops(U.Dropping(c, o, depth), U.Keeping(c, depth))), k.base)
  }

  lemma BrSurveyed(k: Costs, s: Translation, c: Ctx, below: seq<ValType>, ts: seq<ValType>, depth: nat, o: U.Outline,
                   from: nat)
    requires At(s, c, below, ts) && Targets(c, depth, ts) && Tracks(s, o, from) && U.Verdict(o.demands).None?
    requires s.metered == k.metered && s.base == k.base
    ensures Keeps(VisitBr(s, depth), U.OutlineBr(k, c, o, depth), from)
  {
    hide WordsOf, U.Verdict, Tracks, Acquire, U.Dropping, U.Keeping, U.Root, U.OutlineBr, VisitBr;
    TrackedParts(s, o, from);
    Acquired(s, c, below, ts, depth, o, JumpsFrom(s.code, from), from);
    hide Marked, JumpsFrom, SpansOf;
    Asked(o, U.Drops(U.Dropping(c, o, depth), U.Keeping(c, depth)));
    LaterDemands(k, c, o, depth);
    if Acquire(s, depth).Err? {
      assert s.reachable;
      hide At;
      BrRefused(s, depth);
    } else {
      BrAcquired(k, s, c, below, ts, depth, o, from, Acquire(s, depth).value);
    }
  }

  lemma BrAcquired(k: Costs, s: Translation, c: Ctx, below: seq<ValType>, ts: seq<ValType>, depth: nat, o: U.Outline,
                   from: nat, target: Target)
    requires At(s, c, below, ts) && Tracks(s, o, from) && U.Verdict(o.demands).None?
    requires s.metered == k.metered && s.base == k.base
    requires Acquire(s, depth) == Ok(target) && depth < |s.frames| == |o.marks|
    requires target.dropKeep.drop == U.Dropping(c, o, depth) && target.dropKeep.keep == U.Keeping(c, depth)
    requires target.lab == if U.Root(o, depth) then O.None else O.Some(LabelOf(FrameAt(s, depth)))
    requires U.Verdict(U.Ask(o, U.Drops(U.Dropping(c, o, depth), U.Keeping(c, depth))).demands).None?
    ensures Keeps(VisitBr(s, depth), U.OutlineBr(k, c, o, depth), from)
  {
    hide WordsOf, U.Verdict, Tracks, Acquire, U.Dropping, U.Keeping, U.Root, U.OutlineBr, VisitBr, Bump, Departed;
    var q := U.Ask(o, U.Drops(U.Dropping(c, o, depth), U.Keeping(c, depth)));
    Undemanding(s, o, q, from);
    LaterDemands(k, c, o, depth);
    BumpSurveyed(k, s, c, below, ts, q, from);
    assert s.reachable;
    hide At;
    if Bump(s, s.base).Err? {
      BrBroke(s, depth);
    } else {
      BrExact(s, depth, target, Bump(s, s.base).value);
      BrTaken(k, Bump(s, s.base).value, c, below, ts, depth, o, target, from);
    }
  }

  /** Charging for a branch. */
  lemma BumpSurveyed(k: Costs, s: Translation, c: Ctx, below: seq<ValType>, ts: seq<ValType>, o: U.Outline, from: nat)
    requires At(s, c, below, ts) && Tracks(s, o, from) && U.Verdict(o.demands).None?
    requires s.metered == k.metered && s.base == k.base
    ensures Keeps(Bump(s, s.base), U.Spend(k, o, k.base), from)
    ensures match Bump(s, s.base)
            case Err(_) => true
            case Ok(u) => At(u, c, below, ts) && u == s.(code := u.code) && |u.code| == |s.code|
  {
    hide WordsOf, Tracks;
    BumpStays(s, c, below, ts, s.base);
    assert s.frames != [];
    Spent(k, s, o, from, k.base);
    hide WF;
  }

  lemma BrRefused(s: Translation, depth: nat)
    requires s.reachable && Acquire(s, depth).Err?
    ensures VisitBr(s, depth) == Err(Acquire(s, depth).failure)
  {
    hide Acquire;
  }

  lemma BrBroke(s: Translation, depth: nat)
    requires s.reachable && Acquire(s, depth).Ok? && Bump(s, s.base).Err?
    ensures VisitBr(s, depth) == Err(Bump(s, s.base).failure)
  {
    hide Acquire;
    hide Bump;
  }

  /** The first unmet demand stays the first. */
  lemma LaterDemands(k: Costs, c: Ctx, o: U.Outline, depth: nat)
    ensures var d := U.Drops(U.Dropping(c, o, depth), U.Keeping(c, depth));
            && (U.Verdict(U.Ask(o, d).demands).Some? ==>
                U.Verdict(U.OutlineBr(k, c, o, depth).demands) == U.Verdict(U.Ask(o, d).demands))
            && (U.Verdict(Charged(k, c, o, depth).demands).Some? ==>
                U.Verdict(U.OutlineBr(k, c, o, depth).demands) == U.Verdict(Charged(k, c, o, depth).demands))
  {
    hide U.Verdict;
    var p := U.Shift(c, o, depth);
    var q := U.Spend(k, p, k.base);
    assert p.demands == U.Ask(o, U.Drops(U.Dropping(c, o, depth), U.Keeping(c, depth))).demands;
    assert q.demands == Charged(k, c, o, depth).demands;
    if k.metered { Asked(p, U.Charge(o.charge + k.base)); }
    var at := o.size + U.Moves(U.Dropping(c, o, depth), U.Keeping(c, depth));
    JumpAsks(q, depth, at);
  }

  lemma JumpAsks(o: U.Outline, depth: nat, at: nat)
    ensures U.Verdict(o.demands).Some? ==> U.Verdict(U.Jump(o, depth, at).demands) == U.Verdict(o.demands)
  {
    hide U.Verdict;
    var m := U.MarkAt(o, depth);
    if m.head.Some? { Asked(o, U.Back(m.head.value - at)); }
  }

  lemma BrTaken(k: Costs, u: Translation, c: Ctx, below: seq<ValType>, ts: seq<ValType>, depth: nat, o: U.Outline,
                target: Target, from: nat)
    requires At(u, c, below, ts) && depth < |u.frames| == |o.marks|
    requires Tracks(u, Charged(k, c, o, depth), from) && U.Verdict(Charged(k, c, o, depth).demands).None?
    requires target.dropKeep.drop == U.Dropping(c, o, depth) && target.dropKeep.keep == U.Keeping(c, depth)
    requires target.lab == if U.Root(o, depth) then O.None else O.Some(LabelOf(FrameAt(u, depth)))
    ensures Keeps(Departed(u, target), U.OutlineBr(k, c, o, depth), from)
  {
    hide WordsOf, U.Verdict, U.Dropping, U.Keeping, U.Moves, U.Spill, Tracks, DK.Lower, CheckJump, U.Jump, Leave,
        Branch;
    LowerIs(target.dropKeep);
    var q, p := Charged(k, c, o, depth), U.OutlineBr(k, c, o, depth);
    assert FramesOK(u) && u.reachable;
    TrackedParts(u, q, from);
    hide At, FramesOK;
    if U.Root(o, depth) {
      LeaveTracks(u, q, from, target.dropKeep, p);
    } else {
      var at := o.size + U.Moves(target.dropKeep.drop, target.dropKeep.keep);
      JumpChecked(u, q, from, JumpsFrom(u.code, from), depth, at);
      JumpOfSpent(k, U.Shift(c, o, depth), q, depth, at);
      BranchTracks(u, q, from, target.dropKeep, depth, p);
    }
  }

  /** Jumps look at marks and demands only. */
  lemma JumpOfSpent(k: Costs, p: U.Outline, q: U.Outline, depth: nat, at: nat)
    requires U.Spend(k, p, k.base) == q.(peak := p.peak)
    ensures U.Jump(U.Spend(k, p, k.base), depth, at) == U.Jump(q, depth, at).(peak := p.peak)
    ensures U.Jump(q, depth, at).peak == q.peak
  {
  }

  // ----- conditional branches -----

  /** Only the emulated stack changes. */
  lemma Restacked(s: Translation, o: U.Outline, from: nat, t: Translation, p: U.Outline)
    requires Tracks(s, o, from) && t == s.(types := t.types, height := t.height)
    requires p == o.(words := t.height + t.paramWords, demands := p.demands)
    ensures Tracks(t, p, from)
  {
    MarksStay(JumpsFrom(s.code, from), s, t, o.marks, from);
  }

  lemma ConditionTracks(s: Translation, c: Ctx, below: seq<ValType>, ts: seq<ValType>, o: U.Outline, from: nat)
    requires At(s, c, below, ts) && |ts| >= 1 && ts[|ts| - 1] == I32 && Tracks(s, o, from)
    ensures match PopCondition(s)
            case Err(_) => false
            case Ok(t) =>
              && At(t, c, below, ts[..|ts| - 1]) && Tracks(t, U.Popped(o), from)
              && t.metered == s.metered && t.base == s.base
  {
    hide WordsOf;
    ConditionPopped(s, c, below, ts);
    var t := PopCondition(s).value;
    assert o.words == s.height + s.paramWords;
    hide At, Tracks, PopCondition;
    Restacked(s, o, from, t, U.Popped(o));
  }

  /** The code of a conditional branch: refused if the offset of its jump does not fit. */
  function DepartedIf(u: Translation, target: Target): Translator.Result<Translation>
    requires |DK.Lower(target.dropKeep)| + 2 < B31
  {
    var direct := target.lab.Some? && target.dropKeep.drop == 0;
    if target.lab.None? then Ok(BrIfEmitted(u, target))
    else
      var _ :- CheckJump(u, target.lab.value, |u.code| + (if direct then 0 else 1 + |DK.Lower(target.dropKeep)|));
      Ok(BrIfEmitted(u, target))
  }

  lemma BrIfExact(u: Translation, target: Target)
    ensures |DK.Lower(target.dropKeep)| + 2 < B31
    ensures EmitBrIf(u, target) == DepartedIf(u, target)
  {
    LowerFits(target.dropKeep);
    hide DK.Lower;
    var moves := DK.Lower(target.dropKeep);
    var t := EmitDropKeep(Emit(u, [Op(O.Branch(O.IfEqz, |moves| + 2))]), target.dropKeep);
    assert |t.code| == |u.code| + 1 + |moves|;
  }

  /** Where the jump or the return of a conditional branch stands. */
  function SkipAt(o: U.Outline, depth: nat, drop: nat, keep: nat): nat {
    if drop == 0 && !U.Root(o, depth) then o.size else o.size + 1 + U.Moves(drop, keep)
  }

  /** The outline of the emitted code, without its demands. */
  function Skipping(q: U.Outline, depth: nat, drop: nat, keep: nat): U.Outline {
    U.Raise(U.Depart(q, depth, SkipAt(q, depth, drop, keep)), q.words + U.Spill(drop, keep))
  }

  lemma SkipReturns(u: Translation, q: U.Outline, from: nat, target: Target, depth: nat)
    requires Tracks(u, q, from) && u.reachable && target.lab.None? && U.Root(q, depth)
    requires |DK.Lower(target.dropKeep)| + 2 < B31
    ensures Tracks(BrIfEmitted(u, target), Skipping(q, depth, target.dropKeep.drop, target.dropKeep.keep), from)
  {
    var dk := target.dropKeep;
    LowerIs(dk);
    LowerTidy(dk, true);
    var ops := Ops(DK.Lower(dk));
    hide DK.Lower, DK.Headroom;
    var skip := [Op(O.Branch(O.IfEqz, |ops| + 2))];
    var ext := skip + ops + [Op(O.Return)];
    assert u.code + skip + ops + [Op(O.Return)] == u.code + ext;
    SkipTidy(skip[0], ops, Op(O.Return));
    NoKinds(ext);
    Emitted(u, q, from, BrIfEmitted(u, target), Skipping(q, depth, dk.drop, dk.keep), ext);
  }

  lemma SkipTidy(skip: SymOp, ops: seq<SymOp>, last: SymOp)
    requires |ops| + 2 < B31 && skip == Op(O.Branch(O.IfEqz, |ops| + 2)) && Tidy(ops, 0, true)
    requires (last == Op(O.Return) || last.Jump?)
    ensures Tidy([skip] + ops + [last], 0, true)
  {
    TidyAppend(ops, [last], 0, true, true);
    assert [skip] + ops + [last] == [skip] + (ops + [last]);
    var rest := ops + [last];
    forall i | 0 <= i < |rest| + 1 ensures TidyOp(([skip] + rest)[i], |rest| + 1 - i + 1) {
      if i > 0 { assert TidyOp(rest[i - 1], |rest| - (i - 1) + 1); }
    }
  }

  lemma SkipJumps(u: Translation, q: U.Outline, from: nat, target: Target, depth: nat)
    requires FramesOK(u) && StackOK(u) && Tracks(u, q, from) && u.reachable && !U.Root(q, depth)
    requires depth < |u.frames| == |q.marks| && !FrameAt(u, depth).DeadFrame?
    requires target.lab == O.Some(LabelOf(FrameAt(u, depth))) && |DK.Lower(target.dropKeep)| + 2 < B31
    ensures Tracks(BrIfEmitted(u, target), Skipping(q, depth, target.dropKeep.drop, target.dropKeep.keep), from)
  {
    hide U.Jump, Tracks, FramesOK;
    var dk := target.dropKeep;
    LowerIs(dk);
    JumpKeepsRest(q, depth, SkipAt(q, depth, dk.drop, dk.keep));
    if dk.drop == 0 {
      HeightTracked(u, q, from);
      DirectJump(u, q, from, target, depth);
    } else {
      SkipThenJump(u, q, from, target, depth);
    }
  }

  lemma DirectJump(u: Translation, q: U.Outline, from: nat, target: Target, depth: nat)
    requires FramesOK(u) && q.words <= q.peak && Tracks(u, q, from) && u.reachable && !U.Root(q, depth)
    requires depth < |u.frames| == |q.marks| && !FrameAt(u, depth).DeadFrame? && target.dropKeep.drop == 0
    requires target.lab == O.Some(LabelOf(FrameAt(u, depth))) && |DK.Lower(target.dropKeep)| + 2 < B31
    ensures Tracks(BrIfEmitted(u, target), Skipping(q, depth, 0, target.dropKeep.keep), from)
  {
    hide DK.Lower, DK.Headroom, U.Jump;
    var ext := [SymOp.Jump(O.IfNez, target.lab.value)];
    assert [] + ext == ext;
    JumpKeepsRest(q, depth, q.size);
    EmittedJump(u, q, from, BrIfEmitted(u, target), Skipping(q, depth, 0, target.dropKeep.keep), [], O.IfNez, depth);
  }

  lemma SkipThenJump(u: Translation, q: U.Outline, from: nat, target: Target, depth: nat)
    requires FramesOK(u) && Tracks(u, q, from) && u.reachable && !U.Root(q, depth) && target.dropKeep.drop > 0
    requires depth < |u.frames| == |q.marks| && !FrameAt(u, depth).DeadFrame?
    requires target.lab == O.Some(LabelOf(FrameAt(u, depth))) && |DK.Lower(target.dropKeep)| + 2 < B31
    ensures Tracks(BrIfEmitted(u, target), Skipping(q, depth, target.dropKeep.drop, target.dropKeep.keep), from)
  {
    hide DK.Lower, DK.Headroom, U.Jump, U.Moves, U.Spill, FramesOK, Tidy, Shaped, Paid, LabelOf, BrIfEmitted, Skipping;
    var dk := target.dropKeep;
    LowerIs(dk);
    LowerTidy(dk, true);
    var ops := Ops(DK.Lower(dk));
    var skip, last := [Op(O.Branch(O.IfEqz, |ops| + 2))], [SymOp.Jump(O.Always, target.lab.value)];
    SkipTidy(skip[0], ops, last[0]);
    SkipEmitted(u, target, ops);
    SkipSized(u, q, from, target, depth);
    EmittedJump(u, q, from, BrIfEmitted(u, target), Skipping(q, depth, dk.drop, dk.keep), skip + ops, O.Always, depth);
  }

  lemma SkipEmitted(u: Translation, target: Target, ops: seq<SymOp>)
    requires target.lab.Some? && target.dropKeep.drop > 0 && ops == Ops(DK.Lower(target.dropKeep)) && |ops| + 2 < B31
    ensures var v := BrIfEmitted(u, target);
            && v.code == u.code + ([Op(O.Branch(O.IfEqz, |ops| + 2))] + ops + [SymOp.Jump(O.Always, target.lab.value)])
            && v == u.(code := v.code, maxHeight := v.maxHeight)
  {
    hide DK.Lower, DK.Headroom;
    var skip, last := [Op(O.Branch(O.IfEqz, |ops| + 2))], [SymOp.Jump(O.Always, target.lab.value)];
    assert u.code + skip + ops + last == u.code + (skip + ops + last);
  }

  lemma SkipSized(u: Translation, q: U.Outline, from: nat, target: Target, depth: nat)
    requires Tracks(u, q, from) && target.lab.Some? && target.dropKeep.drop > 0 && !U.Root(q, depth)
    requires |DK.Lower(target.dropKeep)| + 2 < B31
    ensures var p, dk := Skipping(q, depth, target.dropKeep.drop, target.dropKeep.keep), target.dropKeep;
            && Sized(BrIfEmitted(u, target), p, from) && p.charge == q.charge && p.kinds == q.kinds
            && p.marks == U.Jump(q, depth, q.size + 1 + |DK.Lower(dk)|).marks
            && p.offsets == U.Jump(q, depth, q.size + 1 + |DK.Lower(dk)|).offsets
  {
    LowerIs(target.dropKeep);
    TrackedShape(u, q, from);
    hide DK.Lower, DK.Headroom, U.Jump, U.Moves, U.Spill, Tracks;
    assert Sized(u, q, from);
    JumpKeepsRest(q, depth, SkipAt(q, depth, target.dropKeep.drop, target.dropKeep.keep));
  }

  lemma HeightTracked(u: Translation, q: U.Outline, from: nat)
    requires StackOK(u) && Tracks(u, q, from)
    ensures q.words <= q.peak
  {
  }

  lemma JumpKeepsRest(q: U.Outline, depth: nat, at: nat)
    ensures var p := U.Jump(q, depth, at);
            p.size == q.size && p.words == q.words && p.peak == q.peak && p.charge == q.charge && p.kinds == q.kinds
  {
  }

  /** The outline of `br_if`, with the change of the peak last. */
  lemma BrIfOutlined(k: Costs, c: Ctx, p: U.Outline, o: U.Outline, depth: nat)
    requires p == U.Popped(o)
    ensures var q := Charged(k, c, p, depth);
            && U.OutlineBrIf(k, c, o, depth)
               == U.Fresh(k, Skipping(q, depth, U.Dropping(c, p, depth), U.Keeping(c, depth)))
            && U.Root(q, depth) == U.Root(p, depth) && q.size == o.size && q.marks == o.marks
  {
    hide U.Dropping, U.Keeping, U.Moves, U.Spill;
  }

  lemma BrIfDemands(k: Costs, c: Ctx, o: U.Outline, depth: nat)
    ensures var p := U.Popped(o);
            var q := Charged(k, c, p, depth);
            && (U.Verdict(U.Ask(p, U.Drops(U.Dropping(c, p, depth), U.Keeping(c, depth))).demands).Some? ==>
                U.Verdict(U.OutlineBrIf(k, c, o, depth).demands)
                == U.Verdict(U.Ask(p, U.Drops(U.Dropping(c, p, depth), U.Keeping(c, depth))).demands))
            && (U.Verdict(q.demands).Some? ==>
                U.Verdict(U.OutlineBrIf(k, c, o, depth).demands) == U.Verdict(q.demands))
            && U.OutlineBrIf(k, c, o, depth).demands
               == (if U.Root(q, depth) then q
                   else U.Jump(q, depth, SkipAt(q, depth, U.Dropping(c, p, depth), U.Keeping(c, depth)))).demands
  {
    hide U.Verdict, U.Dropping, U.Keeping, U.Moves, U.Spill, U.Jump;
    var p := U.Popped(o);
    var d := U.Drops(U.Dropping(c, p, depth), U.Keeping(c, depth));
    var a := U.Ask(p, d);
    var q := Charged(k, c, p, depth);
    BrIfOutlined(k, c, p, o, depth);
    if k.metered { Asked(a, U.Charge(a.charge + k.base)); }
    JumpAsks(q, depth, SkipAt(q, depth, U.Dropping(c, p, depth), U.Keeping(c, depth)));
    hide U.OutlineBrIf;
  }

  lemma BrIfTaken(k: Costs, u: Translation, c: Ctx, below: seq<ValType>, us: seq<ValType>, depth: nat, o: U.Outline,
                  target: Target, from: nat)
    requires At(u, c, below, us) && depth < |u.frames| == |o.marks| && u.metered == k.metered
    requires var p := U.Popped(o);
             && Tracks(u, Charged(k, c, p, depth), from) && U.Verdict(Charged(k, c, p, depth).demands).None?
             && target.dropKeep.drop == U.Dropping(c, p, depth) && target.dropKeep.keep == U.Keeping(c, depth)
    requires target.lab == if U.Root(o, depth) then O.None else O.Some(LabelOf(FrameAt(u, depth)))
    requires |DK.Lower(target.dropKeep)| + 2 < B31
    ensures match DepartedIf(u, target)
            case Err(e) => U.Verdict(U.OutlineBrIf(k, c, o, depth).demands) == O.Some(e)
            case Ok(v) =>
              U.Verdict(U.OutlineBrIf(k, c, o, depth).demands).None? && u.frames == v.frames && WF(v)
              && Tracks(v, Skipping(Charged(k, c, U.Popped(o), depth), depth, U.Dropping(c, U.Popped(o), depth),
                                    U.Keeping(c, depth)), from)
              && v.metered == u.metered
  {
    hide WordsOf, U.Verdict, U.Dropping, U.Keeping, U.Moves, U.Spill, Tracks, DK.Lower, CheckJump, U.Jump, BrIfEmitted,
      WF, Skipping, U.OutlineBrIf, SkipAt;
    var p := U.Popped(o);
    var q := Charged(k, c, p, depth);
    BrIfDemands(k, c, o, depth);
    BrIfOutlined(k, c, p, o, depth);
    AtParts(u, c, below, us);
    if U.Root(q, depth) {
      SkipReturns(u, q, from, target, depth);
    } else {
      BrIfJumps(u, q, from, target, depth);
      FrameKnown(u, |u.frames| - 1 - depth);
    }
    hide At, FramesOK, StackOK, Charged;
    if DepartedIf(u, target).Ok? {
      BrIfEmittedKeeps(u, target);
      SameMetering(u, target);
    }
  }

  /** The jump of a conditional branch fits or not. */
  lemma BrIfJumps(u: Translation, q: U.Outline, from: nat, target: Target, depth: nat)
    requires WF(u) && Tracks(u, q, from) && U.Verdict(q.demands).None? && u.reachable && !U.Root(q, depth)
    requires depth < |u.frames| == |q.marks| && !FrameAt(u, depth).DeadFrame?
    requires target.lab == O.Some(LabelOf(FrameAt(u, depth))) && |DK.Lower(target.dropKeep)| + 2 < B31
    ensures var drop, keep := target.dropKeep.drop, target.dropKeep.keep;
            var ds := U.Jump(q, depth, SkipAt(q, depth, drop, keep)).demands;
            match DepartedIf(u, target)
            case Err(e) => U.Verdict(ds) == O.Some(e)
            case Ok(v) => U.Verdict(ds).None? && v == BrIfEmitted(u, target)
                          && Tracks(v, Skipping(q, depth, drop, keep), from)
  {
    hide U.Verdict, U.Moves, U.Spill, Tracks, DK.Lower, CheckJump, U.Jump, BrIfEmitted, Skipping, FramesOK, LabelsOK,
      JumpsOK, StackOK;
    LowerIs(target.dropKeep);
    TrackedParts(u, q, from);
    JumpChecked(u, q, from, JumpsFrom(u.code, from), depth,
                SkipAt(q, depth, target.dropKeep.drop, target.dropKeep.keep));
    SkipJumps(u, q, from, target, depth);
    hide Marked, JumpsFrom, SpansOf, LabelOf;
  }

  lemma SameMetering(u: Translation, target: Target)
    requires |DK.Lower(target.dropKeep)| + 2 < B31
    ensures BrIfEmitted(u, target).metered == u.metered
  {
  }

  lemma AtParts(u: Translation, c: Ctx, below: seq<ValType>, ts: seq<ValType>)
    requires At(u, c, below, ts)
    ensures WF(u) && FramesOK(u) && StackOK(u) && u.reachable && u.frames != []
  {
  }

  lemma BrIfSurveyed(k: Costs, s: Translation, c: Ctx, below: seq<ValType>, ts: seq<ValType>, depth: nat,
                     o: U.Outline, from: nat)
    requires At(s, c, below, ts) && |ts| >= 1 && ts[|ts| - 1] == I32 && Targets(c, depth, ts[..|ts| - 1])
    requires Tracks(s, o, from) && U.Verdict(o.demands).None? && s.metered == k.metered && s.base == k.base
    ensures Keeps(VisitBrIf(s, depth), U.OutlineBrIf(k, c, o, depth), from)
  {
    hide WordsOf, U.Verdict, Tracks, Acquire, U.Dropping, U.Keeping, U.Root, U.OutlineBrIf, VisitBrIf;
    ConditionTracks(s, c, below, ts, o, from);
    var t, us, p := PopCondition(s).value, ts[..|ts| - 1], U.Popped(o);
    AtParts(s, c, below, ts);
    TrackedParts(t, p, from);
    Acquired(t, c, below, us, depth, p, JumpsFrom(t.code, from), from);
    hide Marked, JumpsFrom, SpansOf;
    Asked(p, U.Drops(U.Dropping(c, p, depth), U.Keeping(c, depth)));
    BrIfDemands(k, c, o, depth);
    RootPopped(o, depth);
    hide PopCondition;
    if Acquire(t, depth).Err? {
      hide At, WF;
      BrIfRefused(s, t, depth);
    } else {
      BrIfAcquired(k, s, t, c, below, us, depth, o, from, Acquire(t, depth).value);
    }
  }

  lemma RootPopped(o: U.Outline, depth: nat)
    ensures U.Root(U.Popped(o), depth) == U.Root(o, depth)
  {
  }

  lemma BrIfRefused(s: Translation, t: Translation, depth: nat)
    requires s.reachable && PopCondition(s) == Ok(t) && Acquire(t, depth).Err?
    ensures VisitBrIf(s, depth) == Err(Acquire(t, depth).failure)
  {
    hide Acquire, PopCondition;
  }

  lemma BrIfIsParts(s: Translation, t: Translation, depth: nat, target: Target)
    requires s.reachable && PopCondition(s) == Ok(t) && Acquire(t, depth) == Ok(target) && t.base == s.base
    ensures VisitBrIf(s, depth) == (var u :- Bump(t, t.base);
                                    var v :- EmitBrIf(u, target);
                                    Recharge(v))
  {
    hide Acquire, PopCondition, Bump, EmitBrIf, Recharge;
  }

  lemma BrIfAcquired(k: Costs, s: Translation, t: Translation, c: Ctx, below: seq<ValType>, us: seq<ValType>,
                     depth: nat, o: U.Outline, from: nat, target: Target)
    requires s.reachable && PopCondition(s) == Ok(t) && At(t, c, below, us) && t.base == s.base
    requires Tracks(t, U.Popped(o), from) && U.Verdict(o.demands).None?
    requires t.metered == k.metered && t.base == k.base
    requires Acquire(t, depth) == Ok(target) && depth < |t.frames| == |o.marks|
    requires var p := U.Popped(o);
             && target.dropKeep.drop == U.Dropping(c, p, depth) && target.dropKeep.keep == U.Keeping(c, depth)
             && U.Verdict(U.Ask(p, U.Drops(U.Dropping(c, p, depth), U.Keeping(c, depth))).demands).None?
    requires target.lab == if U.Root(o, depth) then O.None else O.Some(LabelOf(FrameAt(t, depth)))
    ensures Keeps(VisitBrIf(s, depth), U.OutlineBrIf(k, c, o, depth), from)
  {
    hide WordsOf, U.Verdict, Tracks, Acquire, U.Dropping, U.Keeping, U.Root, U.OutlineBrIf, VisitBrIf, Bump, DepartedIf,
      PopCondition, WF, Skipping, EmitBrIf, Recharge;
    var p := U.Popped(o);
    var q := U.Ask(p, U.Drops(U.Dropping(c, p, depth), U.Keeping(c, depth)));
    Undemanding(t, p, q, from);
    BrIfDemands(k, c, o, depth);
    BumpSurveyed(k, t, c, below, us, q, from);
    BrIfIsParts(s, t, depth, target);
    if Bump(t, t.base).Ok? {
      var u := Bump(t, t.base).value;
      BrIfExact(u, target);
      BrIfTaken(k, u, c, below, us, depth, o, target, from);
      BrIfOutlined(k, c, p, o, depth);
      AtParts(u, c, below, us);
      hide At, DK.Lower;
      if DepartedIf(u, target).Ok? {
        TrackedShape(DepartedIf(u, target).value,
                     Skipping(Charged(k, c, p, depth), depth, U.Dropping(c, p, depth), U.Keeping(c, depth)), from);
        hide Shaped, Paid;
        RechargeTracks(k, DepartedIf(u, target).value,
                       Skipping(Charged(k, c, p, depth), depth, U.Dropping(c, p, depth), U.Keeping(c, depth)), from);
      }
    }
  }
}
