/** A function that never ends, at the one limit the fuel counter cannot pass. */
module Spin {
  import opened Words
  import O = Opcodes
  import M = Machine
  import Store
  import opened Source
  import opened Validation
  import opened Layout
  import opened Translator
  import opened Functions
  import Images
  import DK = DropKeeps
  import opened Calls
  import opened Modules
  import opened Executions

  /** `loop br 0 end` */
  function Forever(): Function { Function(0, [], [], [], [Loop(Empty, [Br(0)])]) }

  lemma {:induction false} LoopsOn(base: nat, n: nat, ls: seq<Value>)
    ensures ExecLoop(base, n, Empty, [Br(0)], ls, []).result == Timeout(n)
    decreases n
  {
    var body := [Br(0)];
    assert body[1..] == [];
    var r := Exec(base, n, body, ls, []);
    assert ExecInstr(base, n, Br(0), ls, []).result == Branching(0, ls, []);
    assert r.result == Branching(0, ls, []);
    if n > 0 {
      LoopsOn(base, n - 1, ls);
      assert Top(r.result.stack, 0) == [];
    }
  }

  lemma ForeverDiverges(base: nat, n: nat)
    ensures Invoke(base, n, Forever(), []).result == Timeout(n)
  {
    var ls: seq<Value> := [] + Zeros(LocalTypes([]));
    LoopsOn(base, n, ls);
    var st: seq<Value> := [];
    assert Top(st, 0) == [];
    assert ExecInstr(base, n, Forever().body[0], ls, st).result == Timeout(n);
  }

  /** A call of this function does not end when the limit is the largest counter value: the saturating counter never
      exceeds that one. */
  lemma LargestLimitNeverEnds(x: Call, j: nat)
    requires Valid(x) && Ample(x) && x.unit.definition == Forever()
    requires x.c.limit == O.Some(Store.U64_MAX)
    ensures !Ended(x, j)
  {
    assert x.args == [];
    hide Valid;
    hide Ample;
    forall n: nat ensures Meaning(x, n).result.Timeout? {
      ForeverDiverges(x.unit.costs.base, n);
    }
    hide Meaning;
    DivergesToo(x, j);
  }

  // ----- the function compiled on its own -----

  function Root(slot: nat): Frame { BlockFrame(Func([], []), 0, 0, O.Some(slot)) }

  function Around(): Frame { LoopFrame(Empty, 1, 0, O.Some(3)) }

  /** A translation of the function on its way: `body` stands behind the prologue. */
  function Stage(c: Costs, body: seq<SymOp>, labels: seq<O.Option<nat>>, frames: seq<Frame>,
                 reachable: bool): Translation
    requires c.metered && Affordable(c)
  {
    Translation(true, c.base, 0, Head(c, Forever()) + body, labels, frames, [], 0, 0, reachable)
  }

  function Charge(x: Word): SymOp { Op(O.ConsumeFuel(x)) }

  /** The finished function. */
  function Finish(c: Costs): Translation
    requires c.metered && Affordable(c)
  {
    Stage(c, [Charge(c.base), Jump(O.Always, 1), Charge(0), Op(O.Return)], [O.Some(6), O.Some(3)], [], false)
  }

  lemma PrologueStage(c: Costs)
    requires c.metered && Affordable(c)
    ensures Prologue(c, Forever(), []) == Ok(Stage(c, [], [O.None], [Root(1)], true))
  {
    hide Bump;
    hide WordsOf;
    ReservedIs(c, Forever(), []);
    hide Start;
    WordsNone();
    var s := Reserved(c, Forever(), []);
    assert TranslateLocals(s, []) == Ok(s);
    assert [] + Head(c, Forever()) == Head(c, Forever()) + [];
  }

  lemma LoopStage(c: Costs)
    requires c.metered && Affordable(c)
    ensures VisitLoop(Stage(c, [], [O.None], [Root(1)], true), Empty)
            == Ok(Stage(c, [Charge(0)], [O.None, O.Some(3)], [Root(1), Around()], true))
  {
    var s, h := Stage(c, [], [O.None], [Root(1)], true), Head(c, Forever());
    WordsNone();
    hide WordsOf;
    assert s.code == h && |h| == 3;
    var none: seq<O.Option<nat>> := [O.None, O.None];
    assert s.labels + [O.None] == none && none[1 := O.Some(3)] == [O.None, O.Some(3)];
    assert h + [Charge(0)] == Stage(c, [Charge(0)], [O.None, O.Some(3)], [Root(1), Around()], true).code;
    assert FrameHeight(s, Empty) == Ok(0);
    assert Pin(NewLabel(s), 1) == Ok(s.(labels := [O.None, O.Some(3)]));
    assert s.frames + [Around()] == [Root(1), Around()];
  }

  lemma BrStage(c: Costs)
    requires c.metered && Affordable(c)
    ensures VisitBr(Stage(c, [Charge(0)], [O.None, O.Some(3)], [Root(1), Around()], true), 0)
            == Ok(Stage(c, [Charge(c.base), Jump(O.Always, 1)], [O.None, O.Some(3)], [Root(1), Around()], false))
  {
    var labels, frames := [O.None, O.Some(3)], [Root(1), Around()];
    var s, h := Stage(c, [Charge(0)], labels, frames, true), Head(c, Forever());
    WordsNone();
    hide WordsOf;
    assert Acquire(s, 0) == Ok(Target(O.Some(1), DK.DropKeep(0, 0)));
    hide Acquire;
    var u := Stage(c, [Charge(c.base)], labels, frames, true);
    assert (h + [Charge(0)])[3 := Charge(c.base)] == h + [Charge(c.base)];
    assert Bump(s, s.base) == Ok(u);
    hide Bump;
    assert h + [Charge(c.base)] + [] == h + [Charge(c.base)];
    assert EmitDropKeep(u, DK.DropKeep(0, 0)) == u;
    hide EmitDropKeep;
    assert h + [Charge(c.base)] + [Jump(O.Always, 1)] == h + [Charge(c.base), Jump(O.Always, 1)];
  }

  lemma EndStage(c: Costs)
    requires c.metered && Affordable(c)
    ensures VisitEnd(Stage(c, [Charge(c.base), Jump(O.Always, 1)], [O.None, O.Some(3)], [Root(1), Around()], false))
            == Ok(Stage(c, [Charge(c.base), Jump(O.Always, 1), Charge(0)], [O.None, O.Some(3)], [Root(5)], true))
  {
    var body := [Charge(c.base), Jump(O.Always, 1)];
    var s := Stage(c, body, [O.None, O.Some(3)], [Root(1), Around()], false);
    WordsNone();
    hide WordsOf;
    assert PinEnd(s, Around()) == Ok(s);
    hide PinEnd;
    assert s.frames[..1] == [Root(1)];
    var u := Stage(c, body, [O.None, O.Some(3)], [Root(1)], true);
    assert ShrinkTo(s.(reachable := true), 0) == Ok(s.(reachable := true));
    assert PushTypes(u, []) == u by { assert u.types + [] == u.types; }
    assert u.frames[0 := Root(5)] == [Root(5)];
    assert u.code + [Charge(0)] == Head(c, Forever()) + (body + [Charge(0)]);
    assert Recharge(u) == Ok(Stage(c, body + [Charge(0)], [O.None, O.Some(3)], [Root(5)], true));
    assert body + [Charge(0)] == [Charge(c.base), Jump(O.Always, 1), Charge(0)];
  }

  lemma ReturnStage(c: Costs)
    requires c.metered && Affordable(c)
    ensures VisitEnd(Stage(c, [Charge(c.base), Jump(O.Always, 1), Charge(0)], [O.None, O.Some(3)], [Root(5)], true))
            == Ok(Finish(c))
  {
    var body := [Charge(c.base), Jump(O.Always, 1), Charge(0)];
    var s, h := Stage(c, body, [O.None, O.Some(3)], [Root(5)], true), Head(c, Forever());
    WordsNone();
    hide WordsOf;
    assert [O.None, O.Some(3)][0 := O.Some(6)] == [O.Some(6), O.Some(3)];
    var t := Stage(c, body, [O.Some(6), O.Some(3)], [Root(5)], true);
    assert PinEnd(s, Root(5)) == Ok(t);
    hide PinEnd;
    assert DropKeepReturn(t) == Ok(DK.DropKeep(0, 0));
    hide DropKeepReturn;
    assert h + body + [] == h + body;
    assert EmitDropKeep(t, DK.DropKeep(0, 0)) == t;
    hide EmitDropKeep;
    assert h + body + [Op(O.Return)] == h + (body + [Op(O.Return)]);
    var v := t.(code := h + (body + [Op(O.Return)]), reachable := false);
    assert VisitReturn(t) == Ok(v);
    hide VisitReturn;
    assert ShrinkTo(v, 0) == Ok(v);
    var u := v.(frames := []);
    assert v.frames[..0] == [];
    assert PushTypes(u, []) == u by { assert u.types + [] == u.types; }
    assert body + [Op(O.Return)] == [Charge(c.base), Jump(O.Always, 1), Charge(0), Op(O.Return)];
  }

  /** The function compiles. */
  lemma ForeverTranslated(c: Costs)
    requires c.metered && Affordable(c)
    ensures TranslateFunction(c, Forever(), []) == Ok(Finish(c))
  {
    hide Prologue;
    hide VisitLoop;
    hide VisitBr;
    hide VisitEnd;
    hide Stage;
    PrologueStage(c);
    LoopStage(c);
    BrStage(c);
    EndStage(c);
    ReturnStage(c);
    BodyStage(Stage(c, [], [O.None], [Root(1)], true));
  }

  lemma BodyStage(s: Translation)
    requires VisitLoop(s, Empty).Ok? && VisitBr(VisitLoop(s, Empty).value, 0).Ok?
    ensures Translate(s, Forever().body) == VisitEnd(VisitBr(VisitLoop(s, Empty).value, 0).value)
  {
    hide VisitLoop;
    hide VisitBr;
    hide VisitEnd;
    var body, br := Forever().body, [Br(0)];
    assert body[1..] == [] && br[1..] == [];
    var t := VisitLoop(s, Empty).value;
    assert Translate(t, br) == VisitBr(t, 0) by { assert TranslateInstr(t, br[0]) == VisitBr(t, 0); }
    var r := TranslateInstr(s, body[0]);
    assert r == VisitEnd(VisitBr(t, 0).value);
  }

  // ----- a machine that runs nothing else -----

  function Alone(c: Costs): Call
    requires c.metered && Affordable(c)
  {
    var code := [O.SignatureCheck(0), O.ConsumeFuel(EntryCost(c)), O.StackCheck(0),
                 O.ConsumeFuel(c.base), O.Branch(O.Always, -1), O.ConsumeFuel(0), O.Return];
    Call(M.Config(code, O.Some(Store.U64_MAX), Images.SNIPPET_ROOM, M.MAX_RECURSION_DEPTH, O.None),
         0, Unit(c, Forever()), Piece([], Finish(c)), map[], [], [], M.State(0, [], 0, [], 0, O.None))
  }

  lemma ForeverValid()
    ensures ValidFunction(Forever())
  {
    var loop, br := Forever().body, [Br(0)];
    assert loop[1..] == [] && br[1..] == [];
    var ctx := FunctionCtx(Forever());
    assert Label(Enter(ctx, []), 0) == [];
    assert CheckInstr(br[0], Enter(ctx, []), []) == Dead;
    assert Check(br, Enter(ctx, []), []) == Dead;
    assert CheckInstr(loop[0], ctx, []) == Live([]);
    assert Check(loop, ctx, []) == Live([]);
  }

  lemma AloneLinked(c: Costs, config: M.Config)
    requires c.metered && Affordable(c) && config.code == Alone(c).c.code
    ensures Images.Linked(config, 0, 0, Finish(c), map[])
  {
    var f := Finish(c);
    assert |f.code| == 7;
    forall i | 0 <= i < |f.code| ensures Images.ResolvedAt(config, 0, f, i, map[]) {
      assert i in {0, 1, 2, 3, 4, 5, 6};
    }
  }

  /** Compiled on its own it is a call like any other, and it does not end. */
  lemma AloneNeverEnds(c: Costs, j: nat)
    requires c.metered && Affordable(c)
    ensures Valid(Alone(c)) && Ample(Alone(c)) && !Ended(Alone(c), j)
  {
    hide ValidFunction;
    hide TranslateFunction;
    hide Images.Linked;
    hide Ended;
    var x := Alone(c);
    ForeverTranslated(c);
    ForeverValid();
    forall config: M.Config | config.code == x.c.code ensures Images.Linked(config, 0, 0, Finish(c), map[]) {
      AloneLinked(c, config);
    }
    assert LinkedPiece(x.c.code, x.entry, x.unit, x.piece, x.snippets);
    hide LinkedPiece;
    assert Flat([]) == [] && TypesOf([]) == [];
    LargestLimitNeverEnds(x, j);
  }
}
