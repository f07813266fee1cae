/** Operators without control flow emit what their outlines say. */
module SurveySimple {
  import opened Words
  import O = Opcodes
  import opened Source
  import opened Validation
  import opened Layout
  import opened Translator
  import opened Invariants
  import opened Progress
  import opened Branches
  import opened Surveys
  import opened SurveySteps
  import opened SurveyBranches
  import Sequences
  import U = Outlines

  /** A plan with so many opcodes and so much room above the operands; it is refused exactly if the local lies `deep`
      words down and that is too much. */
  ghost predicate PlanFits(s: Translation, r: Translator.Result<Plan>, length: nat, room: nat, deep: nat) {
    match r
    case Ok(p) =>
      && |p.code| == length && Max(s.maxHeight, p.peak) == Max(s.maxHeight, s.height + room)
      && (forall i :: 0 <= i < |p.code| ==> !p.code[i].Jump?) && Tidy(p.code, 0, true) && deep < B32
    case Err(e) => e == TooLarge && deep >= B32
  }

  /** The words from a local to the top. */
  lemma DeepIs(c: Ctx, types: seq<ValType>, k: nat)
    requires c.locals <= types && k < |c.locals|
    ensures U.Deep(c, WordsOf(types), k) == WordsOf(types[k..]) >= 1
  {
    hide WordsOf;
    assert types == types[..k] + types[k..];
    assert types[..k] == c.locals[..k];
    WordsAppend(types[..k], types[k..]);
    var us := types[k..];
    WordsPopped(us);
  }

  lemma TwiceFits(op: O.Opcode, t: ValType)
    requires Still(op)
    ensures |Twice(op, t)| == U.Entry(t) && Tidy(Twice(op, t), 0, true)
    ensures forall i :: 0 <= i < |Twice(op, t)| ==> !Twice(op, t)[i].Jump? && !Twice(op, t)[i].CallSnippet?
  {
  }

  lemma GetFits(s: Translation, c: Ctx, k: nat)
    requires StackOK(s) && c.locals <= s.types && k < |c.locals|
    ensures PlanFits(s, PlanGet(s, k), U.Entry(c.locals[k]), U.Entry(c.locals[k]),
                     U.Deep(c, s.paramWords + s.height, k))
    ensures PlanGet(s, k).Ok? ==> Kinds(PlanGet(s, k).value.code) == {}
  {
    hide WordsOf, U.Entry, Kinds, Tidy;
    DeepIs(c, s.types, k);
    if WordsOf(s.types[k..]) < B32 {
      TwiceFits(O.LocalGet(WordsOf(s.types[k..])), s.types[k]);
      NoKinds(PlanGet(s, k).value.code);
    }
    hide U.Deep;
  }

  lemma SetFits(s: Translation, c: Ctx, below: seq<ValType>, ts: seq<ValType>, k: nat)
    requires StackOK(s) && s.types == below + ts && c.locals <= below && s.paramWords <= WordsOf(below)
    requires k < |c.locals| && ts != [] && ts[|ts| - 1] == c.locals[k]
    ensures PlanFits(s, PlanSet(s, k), U.Entry(c.locals[k]), 0,
                     U.Deep(c, U.Minus(s.paramWords + s.height, U.Entry(c.locals[k])), k))
    ensures PlanSet(s, k).Ok? ==> Kinds(PlanSet(s, k).value.code) == {}
  {
    hide WordsOf, U.Entry, Kinds, Tidy;
    Popping(s, below, ts);
    var rest := s.types[..|s.types| - 1];
    assert c.locals <= rest;
    DeepIs(c, rest, k);
    if WordsOf(rest[k..]) < B32 {
      TwiceFits(O.LocalSet(WordsOf(rest[k..])), c.locals[k]);
      NoKinds(PlanSet(s, k).value.code);
    }
    hide U.Deep;
  }

  lemma TeeFits(s: Translation, c: Ctx, below: seq<ValType>, ts: seq<ValType>, k: nat)
    requires StackOK(s) && s.types == below + ts && c.locals <= below
    requires k < |c.locals| && ts != [] && ts[|ts| - 1] == c.locals[k]
    ensures PlanFits(s, PlanTee(s, k), if U.Entry(c.locals[k]) == 2 then 3 else 1,
                     if U.Entry(c.locals[k]) == 2 then 1 else 0, U.Deep(c, s.paramWords + s.height, k))
    ensures PlanTee(s, k).Ok? ==> Kinds(PlanTee(s, k).value.code) == {}
  {
    hide WordsOf, U.Entry, Kinds;
    DeepIs(c, s.types, k);
    TeeDeep(s.types, k);
    hide U.Deep;
    if PlanTee(s, k).Ok? { NoKinds(PlanTee(s, k).value.code); }
  }

  lemma TeeDeep(types: seq<ValType>, k: nat)
    requires k + 1 < |types|
    ensures WordsOf(types[k..]) >= 1 + Width(types[|types| - 1])
  {
    hide WordsOf;
    var us := types[k..];
    WordsPopped(us);
    WordsPopped(us[..|us| - 1]);
  }

  lemma ConstFits(s: Translation, v: Value)
    ensures PlanFits(s, Ok(PlanConst(s, v)), U.Entry(v.ty), U.Entry(v.ty), 0)
    ensures Kinds(PlanConst(s, v).code) == {}
  {
  }

  lemma DropFits(s: Translation, below: seq<ValType>, ts: seq<ValType>)
    requires StackOK(s) && s.types == below + ts && s.paramWords <= WordsOf(below) && ts != []
    ensures PlanFits(s, PlanDrop(s), U.Entry(ts[|ts| - 1]), 0, 0)
    ensures PlanDrop(s).Ok? ==> Kinds(PlanDrop(s).value.code) == {}
  {
    hide WordsOf, Kinds, Tidy, U.Entry;
    Popping(s, below, ts);
    TwiceFits(O.Drop, ts[|ts| - 1]);
    NoKinds(PlanDrop(s).value.code);
  }

  lemma SelectFits(s: Translation, below: seq<ValType>, ts: seq<ValType>)
    requires StackOK(s) && s.types == below + ts && s.paramWords <= WordsOf(below)
    requires |ts| >= 3 && ts[|ts| - 1] == I32 && ts[|ts| - 2] == ts[|ts| - 3]
    ensures PlanFits(s, PlanSelect(s), if U.Entry(ts[|ts| - 2]) == 2 then 6 else 1, 0, 0)
    ensures PlanSelect(s).Ok? ==> Kinds(PlanSelect(s).value.code) == {}
  {
    hide WordsOf, Kinds, U.Entry;
    SelectGood(s, below, ts);
    ThreeWords(below, ts);
    assert s.types[|s.types| - 2] == ts[|ts| - 2];
    if PlanSelect(s).Ok? { NoKinds(PlanSelect(s).value.code); }
  }

  lemma ThreeWords(below: seq<ValType>, ts: seq<ValType>)
    requires |ts| >= 3
    ensures WordsOf(below + ts) >= WordsOf(below) + 3
  {
    hide WordsOf;
    WordsAppend(below, ts);
    WordsPopped(ts);
    WordsPopped(ts[..|ts| - 1]);
    WordsPopped(ts[..|ts| - 1][..|ts| - 2]);
  }

  // ----- numbers -----

  lemma NumCodeFits(op: NumOp)
    requires !op.I64Snippet?
    ensures |Sequences.NumCode(op)| == U.OpLength(op) && Tidy(Ops(Sequences.NumCode(op)), 0, true)
  {
    if op.I64Count? {
      CountCodeFits(op.count);
    }
  }

  lemma CountCodeFits(c: O.CountOp)
    ensures |Sequences.CountCode(c)| == U.OpLength(I64Count(c)) && Tidy(Ops(Sequences.CountCode(c)), 0, true)
  {
    hide Tidy;
    match c
    case Clz => ClzFits();
    case Ctz => CtzFits();
    case Popcnt => PopcntFits();
  }

  lemma ClzFits()
    ensures |Sequences.CountCode(O.Clz)| == 10 && Tidy(Ops(Sequences.CountCode(O.Clz)), 0, true)
  {
  }

  lemma CtzFits()
    ensures |Sequences.CountCode(O.Ctz)| == 13 && Tidy(Ops(Sequences.CountCode(O.Ctz)), 0, true)
  {
  }

  lemma PopcntFits()
    ensures |Sequences.CountCode(O.Popcnt)| == 6 && Tidy(Ops(Sequences.CountCode(O.Popcnt)), 0, true)
  {
  }

  lemma RoomIs(op: NumOp)
    ensures var room, w, r := if op.I64Snippet? then 0 else Sequences.Headroom(op), WordsOf(NumParams(op)),
                              Width(NumResult(op));
            room + (if r > w then r - w else 0) == U.OpRoom(op)
  {
    WordsTwo(I32, I32);
    WordsTwo(I64, I64);
    hide WordsOf;
  }

  lemma NumFits(s: Translation, op: NumOp, below: seq<ValType>, ts: seq<ValType>)
    requires StackOK(s) && s.types == below + ts && s.paramWords <= WordsOf(below)
    requires EndsWith(ts, NumParams(op))
    ensures PlanFits(s, PlanFor(s, Num(op)), U.OpLength(op), U.OpRoom(op), 0)
    ensures PlanFor(s, Num(op)).Ok? ==>
            Kinds(PlanFor(s, Num(op)).value.code) == if op.I64Snippet? then {op.snippet} else {}
  {
    hide WordsOf, Kinds, Sequences.NumCode, Tidy;
    var ps := NumParams(op);
    ReplaceGood(s, below, ts, ps, NumResult(op));
    if op.WrapI64? {
      WordsTwo(I64, I64);
      NoKinds([Op(O.Drop)]);
      assert Tidy([Op(O.Drop)], 0, true) by { StillTidy(O.Drop); }
    } else {
      PoppedGood(s, op, below, ts);
      RoomIs(op);
      if op.I64Snippet? {
        SnippetFits(op.snippet);
      } else {
        NumCodeFits(op);
        NoKinds(Ops(Sequences.NumCode(op)));
      }
      hide Popped, Pushed, U.OpLength, U.OpRoom, Sequences.Headroom, NumParams, NumResult;
    }
  }

  lemma StillTidy(op: O.Opcode)
    requires Still(op)
    ensures Tidy([Op(op)], 0, true)
  {
  }

  lemma SnippetFits(sn: Snippet)
    ensures Tidy([CallSnippet(sn)], 0, true) && Kinds([CallSnippet(sn)]) == {sn}
  {
    assert [CallSnippet(sn)][0].CallSnippet?;
  }

  // ----- all of them -----

  /** The local an operator reaches, in words from the top; zero if there is none. */
  function DeepOf(i: Instr, c: Ctx, words: nat): nat {
    match i
    case LocalGet(j) => U.Deep(c, words, j)
    case LocalSet(j) => U.Deep(c, U.Minus(words, if j < |c.locals| then U.Entry(c.locals[j]) else 0), j)
    case LocalTee(j) => U.Deep(c, words, j)
    case _ => 0
  }

  function KindsOf(i: Instr): set<Snippet> { if i.Num? && i.op.I64Snippet? then {i.op.snippet} else {} }

  lemma SimpleFits(s: Translation, i: Instr, c: Ctx, below: seq<ValType>, ts: seq<ValType>)
    requires Simple(i) && StackOK(s) && s.types == below + ts && c.locals <= below && s.paramWords <= WordsOf(below)
    requires CheckPlain(i, c, ts).Live?
    ensures PlanFits(s, PlanFor(s, i), U.LengthOf(i, c, ts), U.RoomOf(i, c), DeepOf(i, c, s.paramWords + s.height))
    ensures PlanFor(s, i).Ok? ==> Kinds(PlanFor(s, i).value.code) == KindsOf(i)
  {
    hide WordsOf, PlanFits, Kinds, U.Entry, U.OpLength, U.OpRoom, U.Deep;
    match i
    case Drop => DropFits(s, below, ts);
    case Select => SelectFits(s, below, ts);
    case Const(v) => ConstFits(s, v);
    case LocalGet(k) => assert c.locals <= s.types; GetFits(s, c, k);
    case LocalSet(k) => SetFits(s, c, below, ts, k);
    case LocalTee(k) => TeeFits(s, c, below, ts, k);
    case Num(op) => NumFits(s, op, below, ts);
  }

  /** What locating a local asks for. */
  lemma Located(o: U.Outline, i: Instr, c: Ctx)
    requires U.Verdict(o.demands).None?
    ensures var p := U.Locate(o, i, c);
            && p == o.(demands := p.demands)
            && U.Verdict(p.demands) == if DeepOf(i, c, o.words) < B32 then O.None else O.Some(TooLarge)
  {
    hide U.Verdict, U.Deep, U.Entry;
    match i
    case LocalGet(_) => Asked(o, U.Depth(DeepOf(i, c, o.words)));
    case LocalSet(_) => Asked(o, U.Depth(DeepOf(i, c, o.words)));
    case LocalTee(_) => Asked(o, U.Depth(DeepOf(i, c, o.words)));
    case _ =>
  }

  lemma LocatedLater(o: U.Outline, i: Instr, c: Ctx)
    ensures U.Verdict(o.demands).Some? ==> U.Verdict(U.Locate(o, i, c).demands) == U.Verdict(o.demands)
  {
    hide U.Verdict, U.Deep, U.Entry;
    match i
    case LocalGet(_) => Asked(o, U.Depth(DeepOf(i, c, o.words)));
    case LocalSet(_) => Asked(o, U.Depth(DeepOf(i, c, o.words)));
    case LocalTee(_) => Asked(o, U.Depth(DeepOf(i, c, o.words)));
    case _ =>
  }

  /** Following a plan. */
  lemma FollowTracks(u: Translation, o: U.Outline, from: nat, plan: Plan, p: U.Outline, length: nat, room: nat)
    requires Tracks(u, o, from) && u.reachable && PlanFits(u, Ok(plan), length, room, 0)
    requires p == U.Place(U.Raise(o, o.words + room), length).(words := plan.height + u.paramWords,
                                                               kinds := o.kinds + Kinds(plan.code), demands :=
                                                                   p.demands)
    ensures Tracks(Follow(u, plan), p, from)
  {
    hide Kinds, Tidy, SpansOf, Marked, Landed;
    Emitted(u, o, from, Follow(u, plan), p, plan.code);
  }

  lemma SimpleCharged(k: Costs, s: Translation, i: Instr, c: Ctx, below: seq<ValType>, ts: seq<ValType>, o: U.Outline,
                      from: nat)
    requires At(s, c, below, ts) && Tracks(s, o, from) && U.Verdict(o.demands).None? && Simple(i)
    requires s.metered == k.metered && s.base == k.base
    ensures var r := Bump(s, Cost(s.base, i));
            && Keeps(r, U.Spend(k, o, if i.Drop? then 0 else k.base), from)
            && (r.Ok? ==> At(r.value, c, below, ts))
  {
    hide WordsOf, Tracks;
    BumpStays(s, c, below, ts, Cost(s.base, i));
    assert s.frames != [];
    Spent(k, s, o, from, Cost(s.base, i));
    hide WF;
  }

  lemma SimpleIsParts(s: Translation, i: Instr)
    requires Simple(i) && s.reachable
    ensures VisitSimple(s, i) == (var u :- Bump(s, Cost(s.base, i));
                                  var p :- PlanFor(u, i);
                                  Ok(Follow(u, p)))
  {
    hide Bump, PlanFor, Follow, Cost;
  }

  lemma SimpleSurveyed(k: Costs, s: Translation, i: Instr, c: Ctx, below: seq<ValType>, ts: seq<ValType>,
                       o: U.Outline, from: nat)
    requires At(s, c, below, ts) && Simple(i) && CheckPlain(i, c, ts).Live?
    requires Tracks(s, o, from) && U.Verdict(o.demands).None? && s.metered == k.metered && s.base == k.base
    ensures Keeps(VisitSimple(s, i), U.OutlineSimple(k, i, c, ts, o), from)
  {
    hide WordsOf, U.Verdict, Tracks, Bump, PlanFor, Follow, Cost, Simple, CheckPlain, U.LengthOf, U.RoomOf;
    AtParts(s, c, below, ts);
    SimpleCharged(k, s, i, c, below, ts, o, from);
    SimpleIsParts(s, i);
    var q := U.Spend(k, o, if i.Drop? then 0 else k.base);
    LocatedLater(q, i, c);
    if Bump(s, Cost(s.base, i)).Ok? {
      PlanSurveyed(k, Bump(s, Cost(s.base, i)).value, i, c, below, ts, o, from);
    }
    hide VisitSimple, At;
  }

  lemma PlanSurveyed(k: Costs, u: Translation, i: Instr, c: Ctx, below: seq<ValType>, ts: seq<ValType>,
                     o: U.Outline, from: nat)
    requires At(u, c, below, ts) && Simple(i) && CheckPlain(i, c, ts).Live?
    requires var q := U.Spend(k, o, if i.Drop? then 0 else k.base); Tracks(u, q, from) && U.Verdict(q.demands).None?
    ensures var r := (var p :- PlanFor(u, i);
                      Ok(Follow(u, p)));
            Keeps(r, U.OutlineSimple(k, i, c, ts, o), from)
  {
    hide WordsOf, U.Verdict, Tracks, PlanFor, Follow, Simple, CheckPlain, U.LengthOf, U.RoomOf, U.Locate, DeepOf,
      Kinds;
    var q := U.Spend(k, o, if i.Drop? then 0 else k.base);
    PlaceParts(u, c, below, ts);
    TrackedParts(u, q, from);
    SimpleFits(u, i, c, below, ts);
    PlanGood(u, i, c, below, ts);
    Located(q, i, c);
    hide At, Marked, JumpsFrom, SpansOf;
    if PlanFor(u, i).Ok? {
      NextWords(u, below, ts, CheckPlain(i, c, ts).types);
      FollowTracks(u, q, from, PlanFor(u, i).value, U.OutlineSimple(k, i, c, ts, o), U.LengthOf(i, c, ts),
                   U.RoomOf(i, c));
    }
  }

  lemma PlaceParts(u: Translation, c: Ctx, below: seq<ValType>, ts: seq<ValType>)
    requires At(u, c, below, ts)
    ensures StackOK(u) && u.types == below + ts && c.locals <= below && u.paramWords <= WordsOf(below) && u.reachable
    ensures WordsOf(u.types) == u.paramWords + u.height
  {
    hide WordsOf;
    FloorFits(u, c, below);
  }

  /** The words after an operator, counted by the types on both sides. */
  lemma NextWords(u: Translation, below: seq<ValType>, ts: seq<ValType>, us: seq<ValType>)
    requires WordsOf(below + ts) == u.paramWords + u.height
    ensures U.Minus(u.paramWords + u.height + U.Entries(us), U.Entries(ts)) == WordsOf(below + us)
  {
    hide WordsOf;
    WordsAppend(below, ts);
    WordsAppend(below, us);
  }
}
