/** Validated code is translated without a panic, and the emulated type stack follows its types. */
module Progress {
  import opened Words
  import O = Opcodes
  import opened Source
  import opened Validation
  import opened Layout
  import opened Translator
  import opened Invariants
  import DK = DropKeeps
  import Sequences

  /** Words of the type stack that belong to the locals and to the enclosing blocks. */
  function Floor(s: Translation, c: Ctx): nat
    requires s.frames != [] && (|s.frames| > 1 ==> !s.frames[|s.frames| - 1].DeadFrame?)
  {
    if |s.frames| == 1 then WordsOf(c.locals) else s.paramWords + s.frames[|s.frames| - 1].height
  }

  /** The frames match the labels of the context, and `below` is what lies under the operands. */
  ghost predicate Placed(s: Translation, c: Ctx, below: seq<ValType>) {
    && |s.frames| == |c.labels| > 0
    && (forall j :: 0 <= j < |s.frames| ==> !s.frames[j].DeadFrame? && LabelTypes(s.frames[j]) == c.labels[j])
    && (forall j, k :: 0 <= j < k < |s.frames| ==> s.frames[j].height <= s.frames[k].height)
    && (forall j :: 1 <= j < |s.frames| ==> WordsOf(c.locals) <= s.paramWords + s.frames[j].height)
    && s.frames[0].BlockFrame? && s.frames[0].height == 0 && c.labels[0] == c.results
    && s.paramWords <= WordsOf(c.locals)
    && WordsOf(below) == Floor(s, c)
    && c.locals <= below
    && (|s.frames| == 1 ==> below == c.locals)
  }

  /** The state reached from `s` by translating code with the given flow. */
  ghost predicate Good(s: Translation, t: Translation, below: seq<ValType>, f: Flow) {
    && WF(t) && Extends(s, t) && Kept(s, t)
    && match f
       case Live(ts) => t.reachable && t.types == below + ts
       case Dead => !t.reachable && below <= t.types
       case Bad => false
  }

  ghost predicate GoodResult(s: Translation, r: Translator.Result<Translation>, below: seq<ValType>, f: Flow) {
    match r
    case Ok(t) => Good(s, t, below, f)
    case Err(e) => e != Panic
  }

  lemma HeightOfOperands(s: Translation, c: Ctx, below: seq<ValType>, ts: seq<ValType>)
    requires StackOK(s) && Placed(s, c, below) && s.types == below + ts
    ensures s.paramWords + s.height == Floor(s, c) + WordsOf(ts)
    ensures |s.frames| > 1 ==> s.height == s.frames[|s.frames| - 1].height + WordsOf(ts)
  {
    WordsAppend(below, ts);
  }

  // ----- operators without control flow -----

  ghost predicate PlanOK(s: Translation, r: Translator.Result<Plan>, types: seq<ValType>) {
    match r
    case Ok(p) =>
      && p.types == types
      && WordsOf(types) == s.paramWords + p.height
      && p.height <= Max(s.maxHeight, p.peak)
      && forall i :: 0 <= i < |p.code| ==> !p.code[i].Jump?
    case Err(e) => e != Panic
  }

  lemma WordsLast(ts: seq<ValType>, t: ValType)
    ensures WordsOf(ts + [t]) == WordsOf(ts) + Width(t)
  {
    assert (ts + [t])[..|ts|] == ts;
  }

  lemma PlanGood(s: Translation, i: Instr, c: Ctx, below: seq<ValType>, ts: seq<ValType>)
    requires Simple(i) && StackOK(s) && s.types == below + ts && c.locals <= below
    requires s.paramWords <= WordsOf(below)
    requires CheckPlain(i, c, ts).Live?
    ensures PlanOK(s, PlanFor(s, i), below + CheckPlain(i, c, ts).types)
  {
    hide WordsOf;
    hide PlanOK;
    match i
    case Drop => DropGood(s, below, ts);
    case Select => SelectGood(s, below, ts);
    case Const(v) => ConstGood(s, v, below, ts);
    case LocalGet(k) => GetGood(s, k, c, below, ts);
    case LocalSet(k) => SetGood(s, k, below, ts);
    case LocalTee(k) => TeeGood(s, k, below, ts);
    case Num(op) => NumGood(s, op, below, ts);
  }

  lemma ConstGood(s: Translation, v: Value, below: seq<ValType>, ts: seq<ValType>)
    requires StackOK(s) && s.types == below + ts
    ensures PlanOK(s, Ok(PlanConst(s, v)), below + (ts + [v.ty]))
  {
    hide WordsOf;
    WordsLast(s.types, v.ty);
    assert below + (ts + [v.ty]) == s.types + [v.ty];
  }

  lemma GetGood(s: Translation, k: nat, c: Ctx, below: seq<ValType>, ts: seq<ValType>)
    requires StackOK(s) && s.types == below + ts && c.locals <= below && k < |c.locals|
    ensures PlanOK(s, PlanGet(s, k), below + (ts + [c.locals[k]]))
  {
    hide WordsOf;
    assert s.types[k] == c.locals[k];
    WordsLast(s.types, s.types[k]);
    assert below + (ts + [c.locals[k]]) == s.types + [s.types[k]];
  }

  lemma Popping(s: Translation, below: seq<ValType>, ts: seq<ValType>)
    requires StackOK(s) && s.types == below + ts && s.paramWords <= WordsOf(below) && ts != []
    ensures var t := ts[|ts| - 1];
            && s.types[..|s.types| - 1] == below + ts[..|ts| - 1]
            && s.types[|s.types| - 1] == t
            && WordsOf(below + ts[..|ts| - 1]) == s.paramWords + s.height - Width(t)
            && Width(t) <= s.height
  {
    hide WordsOf;
    var n := |ts| - 1;
    WordsAppend(below, ts);
    WordsPopped(ts);
    assert s.types[..|s.types| - 1] == below + ts[..n];
    WordsAppend(below, ts[..n]);
  }

  lemma WordsPopped(ts: seq<ValType>)
    requires ts != []
    ensures WordsOf(ts) == WordsOf(ts[..|ts| - 1]) + Width(ts[|ts| - 1])
  {
  }

  lemma DropGood(s: Translation, below: seq<ValType>, ts: seq<ValType>)
    requires StackOK(s) && s.types == below + ts && s.paramWords <= WordsOf(below) && ts != []
    ensures PlanOK(s, PlanDrop(s), below + ts[..|ts| - 1])
  {
    hide WordsOf;
    Popping(s, below, ts);
  }

  lemma SetGood(s: Translation, k: nat, below: seq<ValType>, ts: seq<ValType>)
    requires StackOK(s) && s.types == below + ts && s.paramWords <= WordsOf(below) && ts != []
    requires k < |below|
    ensures PlanOK(s, PlanSet(s, k), below + ts[..|ts| - 1])
  {
    hide WordsOf;
    Popping(s, below, ts);
  }

  lemma SelectGood(s: Translation, below: seq<ValType>, ts: seq<ValType>)
    requires StackOK(s) && s.types == below + ts && s.paramWords <= WordsOf(below)
    requires |ts| >= 3 && ts[|ts| - 1] == I32 && ts[|ts| - 2] == ts[|ts| - 3]
    ensures PlanOK(s, PlanSelect(s), below + ts[..|ts| - 2])
  {
    hide WordsOf;
    var t, n := ts[|ts| - 2], |ts|;
    assert ts == ts[..n - 2] + [t, I32] && ts[..n - 2] == ts[..n - 3] + [t];
    WordsAppend(below, ts);
    WordsAppend(ts[..n - 2], [t, I32]);
    WordsLast(ts[..n - 3], t);
    WordsTwo(t, I32);
    assert s.types[..|s.types| - 2] == below + ts[..n - 2];
    WordsAppend(below, ts[..n - 2]);
  }

  lemma WordsTwo(t: ValType, u: ValType)
    ensures WordsOf([t, u]) == Width(t) + Width(u) && WordsOf([t]) == Width(t)
  {
    WordsLast([], t);
    WordsLast([t], u);
    assert [] + [t] == [t] && [t] + [u] == [t, u];
  }

  lemma TeeGood(s: Translation, k: nat, below: seq<ValType>, ts: seq<ValType>)
    requires StackOK(s) && s.types == below + ts && k < |below| && ts != []
    ensures PlanOK(s, PlanTee(s, k), below + ts)
  {
    hide WordsOf;
    var us := s.types[k..];
    WordsPopped(us);
    assert us[|us| - 1] == s.types[|s.types| - 1];
    assert WordsOf(us) >= 1;
  }

  lemma NumGood(s: Translation, op: NumOp, below: seq<ValType>, ts: seq<ValType>)
    requires StackOK(s) && s.types == below + ts && s.paramWords <= WordsOf(below)
    requires EndsWith(ts, NumParams(op))
    ensures PlanOK(s, PlanFor(s, Num(op)), below + (ts[..|ts| - |NumParams(op)|] + [NumResult(op)]))
  {
    hide WordsOf;
    hide Sequences.NumCode;
    var ps := NumParams(op);
    ReplaceGood(s, below, ts, ps, NumResult(op));
    if op.WrapI64? {
      WordsTwo(I64, I64);
    } else {
      PoppedGood(s, op, below, ts);
    }
  }

  /** On validated operands the type stack agrees with the operator. */
  lemma PoppedGood(s: Translation, op: NumOp, below: seq<ValType>, ts: seq<ValType>)
    requires s.types == below + ts && EndsWith(ts, NumParams(op))
    ensures Popped(s, op) == NumParams(op) && s.types[|s.types| - |NumParams(op)|..] == NumParams(op)
    ensures !op.WrapI64? ==> Pushed(s, op) == NumResult(op)
  {
    var ps, n := NumParams(op), |s.types|;
    assert s.types[n - |ps|..] == ts[|ts| - |ps|..];
    assert s.types[n - 1] == s.types[n - |ps|..][|ps| - 1];
  }

  lemma ReplaceGood(s: Translation, below: seq<ValType>, ts: seq<ValType>, ps: seq<ValType>, r: ValType)
    requires StackOK(s) && s.types == below + ts && s.paramWords <= WordsOf(below)
    requires EndsWith(ts, ps)
    ensures var rest := ts[..|ts| - |ps|];
            && s.types[..|s.types| - |ps|] + [r] == below + (rest + [r])
            && WordsOf(below + (rest + [r])) == s.paramWords + s.height - WordsOf(ps) + Width(r)
            && WordsOf(ps) <= s.height
  {
    hide WordsOf;
    SplitSuffix(s.types, below, ts, ps);
    ReplacedWords(below, ts[..|ts| - |ps|], ps, r);
  }

  lemma ReplacedWords(below: seq<ValType>, rest: seq<ValType>, ps: seq<ValType>, r: ValType)
    ensures below + rest + [r] == below + (rest + [r])
    ensures WordsOf(below + (rest + ps)) == WordsOf(below) + WordsOf(rest) + WordsOf(ps)
    ensures WordsOf(below + (rest + [r])) == WordsOf(below) + WordsOf(rest) + Width(r)
  {
    hide WordsOf;
    WordsAppend(rest, ps);
    WordsAppend(below, rest + ps);
    WordsAppend(below, rest + [r]);
    WordsLast(rest, r);
    Associate(below, rest, [r]);
  }

  lemma SplitSuffix(all: seq<ValType>, below: seq<ValType>, ts: seq<ValType>, ps: seq<ValType>)
    requires all == below + ts && EndsWith(ts, ps)
    ensures ts == ts[..|ts| - |ps|] + ps
    ensures all[..|all| - |ps|] == below + ts[..|ts| - |ps|]
  {
  }

  lemma SimpleGood(s: Translation, i: Instr, c: Ctx, below: seq<ValType>, ts: seq<ValType>)
    requires WF(s) && s.reachable && Placed(s, c, below) && s.types == below + ts
    requires Simple(i) && CheckPlain(i, c, ts).Live?
    ensures GoodResult(s, VisitSimple(s, i), below, CheckPlain(i, c, ts))
  {
    hide WordsOf;
    hide PlanFor;
    hide CheckPlain;
    hide Cost;
    hide Extends;
    BumpKeeps(s, Cost(s.base, i));
    var b := Bump(s, Cost(s.base, i));
    hide Bump;
    if b.Ok? {
      var u := b.value;
      HeightOfOperands(s, c, below, ts);
      PlanGood(u, i, c, below, ts);
      FollowGood(s, u, PlanFor(u, i), below, CheckPlain(i, c, ts).types);
    }
  }

  lemma FollowGood(s: Translation, u: Translation, r: Translator.Result<Plan>, below: seq<ValType>, ts: seq<ValType>)
    requires WF(u) && Extends(s, u) && u.reachable && s.frames == u.frames != []
    requires PlanOK(u, r, below + ts)
    ensures r.Ok? ==> Good(s, Follow(u, r.value), below, Live(ts))
    ensures r.Err? ==> r.failure != Panic
  {
    hide WordsOf;
    if r.Ok? {
      var p := r.value;
      AppendKeeps(u, p.code, p.types, p.height, p.peak, true);
      hide WF;
      ExtendsTransitive(s, u, Follow(u, p));
      hide Extends;
      KeptSame(s, Follow(u, p));
    }
  }
}
