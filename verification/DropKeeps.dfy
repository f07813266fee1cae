/** Lowering of "drop these words under the top ones" into local moves. */
module DropKeeps {
  import opened Words
  import opened Opcodes
  import opened Machine
  import opened Blocks

  datatype DropKeep = DropKeep(drop: U16, keep: U16)

  function Overwrite(drop: U16, n: nat): seq<Opcode> { seq(n, _ => LocalSet(drop)) }

  /** Moves of words `i`, `i + 1`, ... below `keep`, each down by `drop` places. */
  function Moves(drop: U16, keep: U16, i: nat): seq<Opcode>
    requires i <= keep
    decreases keep - i
  {
    if i == keep then [] else [LocalGet(keep - i), LocalSet(keep + drop - i)] + Moves(drop, keep, i + 1)
  }

  function Lower(dk: DropKeep): seq<Opcode> {
    var DropKeep(drop, keep) := dk;
    if drop == 0 then []
    else if drop >= keep then Overwrite(drop, keep) + [BulkDrop(drop - keep)]
    else Moves(drop, keep, 0) + [BulkDrop(drop)]
  }

  /** Room for one word above the operands is needed only when words overlap. */
  function Headroom(dk: DropKeep): nat { if 0 < dk.drop < dk.keep then 1 else 0 }

  lemma {:induction false} MovesLength(drop: U16, keep: U16, i: nat)
    requires i <= keep
    ensures |Moves(drop, keep, i)| == 2 * (keep - i)
    decreases keep - i
  {
    if i < keep {
      MovesLength(drop, keep, i + 1);
    }
  }

  /** The moves in closed form. */
  lemma {:induction false} MovesAt(drop: U16, keep: U16, i: nat, j: nat)
    requires i <= j < keep
    ensures |Moves(drop, keep, i)| == 2 * (keep - i)
    ensures Moves(drop, keep, i)[2 * (j - i)] == LocalGet(keep - j)
    ensures Moves(drop, keep, i)[2 * (j - i) + 1] == LocalSet(keep + drop - j)
    decreases j
  {
    MovesLength(drop, keep, i);
    if j > i {
      MovesAtTail(drop, keep, i, j);
    }
  }

  lemma {:induction false} MovesAtTail(drop: U16, keep: U16, i: nat, j: nat)
    requires i < j < keep
    ensures |Moves(drop, keep, i)| == 2 * (keep - i)
    ensures Moves(drop, keep, i)[2 * (j - i)] == LocalGet(keep - j)
    ensures Moves(drop, keep, i)[2 * (j - i) + 1] == LocalSet(keep + drop - j)
    decreases keep - i
  {
    MovesLength(drop, keep, i);
    var rest := Moves(drop, keep, i + 1);
    MovesLength(drop, keep, i + 1);
    if j > i + 1 {
      MovesAtTail(drop, keep, i + 1, j);
    }
    assert Moves(drop, keep, i)[2 * (j - i)] == rest[2 * (j - (i + 1))];
    assert Moves(drop, keep, i)[2 * (j - i) + 1] == rest[2 * (j - (i + 1)) + 1];
  }

  /** The first branch: after `j` writes the last `j` kept words sit in the dropped area. */
  lemma {:induction false} OverwriteRuns(ops: seq<Opcode>, dropped: seq<Word>, kept: seq<Word>, j: nat)
    requires 0 < |dropped| < 0x1_0000 && |kept| <= |dropped|
    requires ops == Overwrite(|dropped|, |kept|) + [BulkDrop(|dropped| - |kept|)]
    requires j <= |kept|
    ensures var w := dropped[..|kept| - j] + kept[|kept| - j..] + dropped[|kept|..] + kept[..|kept| - j];
            RunBlock(ops, j, w, |dropped| + |kept|, |kept| - j + 1) == Leaves(kept)
    decreases |kept| - j
  {
    hide Move, RunBlock;
    var k, room := |kept|, |dropped| + |kept|;
    var area := dropped[..k - j] + kept[k - j..] + dropped[k..];
    var w := area + kept[..k - j];
    if j == k {
      MoveBulkDrop(ops, j, w, room, |dropped| - k);
      assert w[..|w| - (|dropped| - k)] == kept;
      LastMove(ops, j, w, room, 1, kept);
    } else {
      var rest := area + kept[..k - j - 1];
      assert w == rest + [kept[k - j - 1]];
      MoveSet(ops, j, rest, kept[k - j - 1], room, |dropped|);
      var w' := dropped[..k - j - 1] + kept[k - j - 1..] + dropped[k..] + kept[..k - j - 1];
      assert Put(rest, |dropped|, kept[k - j - 1]) == w';
      NextMove(ops, j, w, room, k - j + 1, j + 1, w');
      OverwriteRuns(ops, dropped, kept, j + 1);
    }
  }

  /** The opcodes of the second branch, by position. */
  ghost predicate AreMoves(ops: seq<Opcode>, d: U16, k: U16) {
    |ops| == 2 * k + 1 && ops[2 * k] == BulkDrop(d) && forall p :: 0 <= p < 2 * k ==> ops[p] == MoveAt(d, k, p)
  }

  function MoveAt(d: U16, k: U16, p: nat): Opcode
    requires p < 2 * k
  {
    if p % 2 == 0 then LocalGet(k - p / 2) else LocalSet(k + d - p / 2)
  }

  lemma MovesShape(dk: DropKeep)
    requires 0 < dk.drop < dk.keep
    ensures AreMoves(Lower(dk), dk.drop, dk.keep)
  {
    var ops := Lower(dk);
    MovesLength(dk.drop, dk.keep, 0);
    forall p | 0 <= p < 2 * dk.keep
      ensures ops[p] == MoveAt(dk.drop, dk.keep, p)
    {
      MovesAt(dk.drop, dk.keep, 0, p / 2);
      assert p == 2 * (p / 2) || p == 2 * (p / 2) + 1;
    }
  }

  /** The area while it is moved: the lowest `i` words are already the first kept ones. */
  function Moved(dropped: seq<Word>, kept: seq<Word>, i: nat): seq<Word>
    requires i <= |kept|
  {
    kept[..i] + (dropped + kept)[i..]
  }

  lemma {:induction false} MovesRun(ops: seq<Opcode>, dropped: seq<Word>, kept: seq<Word>, i: nat)
    requires 0 < |dropped| < |kept| < 0x1_0000 && AreMoves(ops, |dropped|, |kept|)
    requires i <= |kept|
    ensures RunBlock(ops, 2 * i, Moved(dropped, kept, i), |dropped| + |kept| + 1, 2 * (|kept| - i) + 1) == Leaves(kept)
    decreases |kept| - i
  {
    hide Move, RunBlock;
    if i == |kept| {
      MovesEnd(ops, dropped, kept);
    } else {
      OneMove(ops, dropped, kept, i, 2 * (|kept| - i) + 1);
      MovesRun(ops, dropped, kept, i + 1);
    }
  }

  lemma MovesEnd(ops: seq<Opcode>, dropped: seq<Word>, kept: seq<Word>)
    requires 0 < |dropped| < |kept| < 0x1_0000 && AreMoves(ops, |dropped|, |kept|)
    ensures RunBlock(ops, 2 * |kept|, Moved(dropped, kept, |kept|), |dropped| + |kept| + 1, 1) == Leaves(kept)
  {
    hide Move, RunBlock;
    var w := Moved(dropped, kept, |kept|);
    MoveBulkDrop(ops, 2 * |kept|, w, |w| + 1, |dropped|);
    assert w[..|w| - |dropped|] == kept;
    LastMove(ops, 2 * |kept|, w, |w| + 1, 1, kept);
  }

  lemma OneMove(ops: seq<Opcode>, dropped: seq<Word>, kept: seq<Word>, i: nat, n: nat)
    requires 0 < |dropped| < |kept| < 0x1_0000 && AreMoves(ops, |dropped|, |kept|)
    requires i < |kept| && n >= 2
    ensures RunBlock(ops, 2 * i, Moved(dropped, kept, i), |dropped| + |kept| + 1, n) ==
            RunBlock(ops, 2 * (i + 1), Moved(dropped, kept, i + 1), |dropped| + |kept| + 1, n - 2)
  {
    hide Move, RunBlock;
    var k, d := |kept|, |dropped|;
    var w, room := Moved(dropped, kept, i), d + k + 1;
    var w' := Moved(dropped, kept, i + 1);
    assert ops[2 * i] == MoveAt(d, k, 2 * i) == LocalGet(k - i);
    assert ops[2 * i + 1] == MoveAt(d, k, 2 * i + 1) == LocalSet(k + d - i);
    assert w[|w| - (k - i)] == kept[i];
    MoveGet(ops, 2 * i, w, room, k - i);
    MoveSet(ops, 2 * i + 1, w, kept[i], room, k + d - i);
    assert Put(w, k + d - i, kept[i]) == w';
    NextMove(ops, 2 * i, w, room, n, 2 * i + 1, w + [kept[i]]);
    NextMove(ops, 2 * i + 1, w + [kept[i]], room, n - 1, 2 * (i + 1), w');
  }

  /** The lowered code removes exactly the dropped words and keeps the kept ones in order. */
  lemma LowerRuns(dk: DropKeep, dropped: seq<Word>, kept: seq<Word>)
    requires |dropped| == dk.drop && |kept| == dk.keep
    ensures RunBlock(Lower(dk), 0, dropped + kept, |dropped| + |kept| + Headroom(dk), 2 * |kept| + 1) == Leaves(kept)
  {
    hide Move;
    if dk.drop == 0 {
      assert dropped + kept == kept;
    } else if dk.drop >= dk.keep {
      OverwriteAll(dk, dropped, kept);
    } else {
      MovesShape(dk);
      MovesRun(Lower(dk), dropped, kept, 0);
      assert Moved(dropped, kept, 0) == dropped + kept;
    }
  }

  lemma OverwriteAll(dk: DropKeep, dropped: seq<Word>, kept: seq<Word>)
    requires |dropped| == dk.drop >= dk.keep == |kept| && dk.drop > 0
    ensures RunBlock(Lower(dk), 0, dropped + kept, |dropped| + |kept|, 2 * |kept| + 1) == Leaves(kept)
  {
    hide Move, RunBlock;
    var k := |kept|;
    assert dropped[..k - 0] + kept[k - 0..] + dropped[k..] + kept[..k - 0] == dropped + kept;
    OverwriteRuns(Lower(dk), dropped, kept, 0);
    MoreSteps(Lower(dk), 0, dropped + kept, |dropped| + k, k + 1, k);
  }

  lemma {:induction false} MoreSteps(ops: seq<Opcode>, pc: int, w: seq<Word>, room: nat, n: nat, more: nat)
    requires RunBlock(ops, pc, w, room, n).Leaves?
    ensures RunBlock(ops, pc, w, room, n + more) == RunBlock(ops, pc, w, room, n)
    decreases n
  {
    if pc != |ops| {
      var m := Move(ops, pc, w, room);
      MoreSteps(ops, m.pc, m.window, room, n - 1, more);
    }
  }

  /** The number of opcodes emitted, which `br_if` uses as the distance to its fall-through. */
  lemma LowerLength(dk: DropKeep)
    ensures |Lower(dk)| == if dk.drop == 0 then 0 else if dk.drop >= dk.keep then dk.keep + 1 else 2 * dk.keep + 1
  {
    MovesLength(dk.drop, dk.keep, 0);
  }
}
