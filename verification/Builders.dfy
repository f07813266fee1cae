/** The growing parts of a translation: the instruction set, the emulated stack height and the frames. */
module Builders {
  import opened Words
  import O = Opcodes
  import T = Translator
  import DK = DropKeeps
  import Sequences

  class InstructionSet {
    var instr: seq<O.Opcode>

    constructor ()
      ensures instr == []
    {
      instr := [];
    }

    method Push(op: O.Opcode)
      modifies this
      ensures instr == old(instr) + [op]
    {
      instr := instr + [op];
    }

    /** Pushes a fixed sequence, opcode by opcode. */
    method PushAll(ops: seq<O.Opcode>)
      modifies this
      ensures instr == old(instr) + ops
    {
      assert instr == old(instr) + ops[..0];
      for i := 0 to |ops|
        invariant instr == old(instr) + ops[..i]
      {
        Push(ops[i]);
        assert ops[..i + 1] == ops[..i] + [ops[i]];
        assert old(instr) + ops[..i] + [ops[i]] == old(instr) + ops[..i + 1];
      }
      assert ops[..|ops|] == ops;
    }

    /** Adds to a charge. */
    method BumpFuelConsumption(at: nat, delta: nat) returns (r: O.Option<T.Failure>)
      modifies this
      ensures r.Some? ==> instr == old(instr)
      ensures r.None? ==>
                && at < |old(instr)| && old(instr)[at].ConsumeFuel? && old(instr)[at].fuel + delta < B32
                && instr == old(instr)[at := O.ConsumeFuel(old(instr)[at].fuel + delta)]
      ensures r == O.Some(T.BlockFuelOutOfBounds) ==>
              at < |instr| && instr[at].ConsumeFuel? && instr[at].fuel + delta >= B32
      ensures r.Some? && r.value != T.BlockFuelOutOfBounds ==>
              r.value == T.Panic && !(at < |instr| && instr[at].ConsumeFuel?)
    {
      if at >= |instr| || !instr[at].ConsumeFuel? {
        return O.Some(T.Panic);
      }
      if instr[at].fuel + delta >= B32 {
        return O.Some(T.BlockFuelOutOfBounds);
      }
      instr := instr[at := O.ConsumeFuel(instr[at].fuel + delta)];
      r := O.None;
    }

    method UpdateBranchOffset(at: nat, offset: O.I32)
      requires at < |instr| && instr[at].Branch?
      modifies this
      ensures instr == old(instr)[at := O.Branch(old(instr)[at].kind, offset)]
    {
      instr := instr[at := O.Branch(instr[at].kind, offset)];
    }

    method UpdateStackCheck(at: nat, height: Word)
      requires at < |instr| && instr[at].StackCheck?
      modifies this
      ensures instr == old(instr)[at := O.StackCheck(height)]
    {
      instr := instr[at := O.StackCheck(height)];
    }

    /** Replaces the callee of a call or function reference. */
    method UpdateCallee(at: nat, op: O.Opcode)
      requires at < |instr|
      modifies this
      ensures instr == old(instr)[at := op]
    {
      instr := instr[at := op];
    }

    /** `br_if` skips its moves: the `n`-th opcode from the end is the branch over them. */
    method UpdateLastNth(n: nat, offset: O.I32)
      requires n < |instr| && instr[|instr| - 1 - n].Branch?
      modifies this
      ensures instr == old(instr)[|old(instr)| - 1 - n := O.Branch(old(instr)[|old(instr)| - 1 - n].kind, offset)]
    {
      UpdateBranchOffset(|instr| - 1 - n, offset);
    }
  }

  class ValueStackHeight {
    var height: nat
    var maxHeight: nat

    ghost predicate Valid()
      reads this
    {
      height <= maxHeight
    }

    constructor ()
      ensures height == 0 && maxHeight == 0
    {
      height, maxHeight := 0, 0;
    }

    method PushN(n: nat)
      modifies this
      ensures height == old(height) + n && maxHeight == T.Max(old(maxHeight), height)
    {
      height := height + n;
      maxHeight := if height > maxHeight then height else maxHeight;
    }

    method PopN(n: nat)
      requires n <= height
      modifies this
      ensures height == old(height) - n && maxHeight == old(maxHeight)
    {
      height := height - n;
    }

    method ShrinkTo(newHeight: nat)
      requires newHeight <= height
      modifies this
      ensures height == newHeight && maxHeight == old(maxHeight)
    {
      height := newHeight;
    }
  }

  /** The kept words overwrite the dropped ones. */
  method PushOverwrite(drop: O.U16, keep: O.U16, to: InstructionSet) returns (count: nat)
    modifies to
    ensures to.instr == old(to.instr) + DK.Overwrite(drop, keep) && count == keep
  {
    count := 0;
    assert to.instr == old(to.instr) + DK.Overwrite(drop, 0);
    for i := 0 to keep
      invariant to.instr == old(to.instr) + DK.Overwrite(drop, i) && count == i
    {
      to.Push(O.LocalSet(drop));
      count := count + 1;
      assert DK.Overwrite(drop, i) + [O.LocalSet(drop)] == DK.Overwrite(drop, i + 1);
    }
  }

  /** The kept words move down one by one. */
  method PushMoves(drop: O.U16, keep: O.U16, to: InstructionSet) returns (count: nat)
    modifies to
    ensures to.instr == old(to.instr) + DK.Moves(drop, keep, 0) && count == 2 * keep
  {
    count := 0;
    for i := 0 to keep
      invariant to.instr + DK.Moves(drop, keep, i) == old(to.instr) + DK.Moves(drop, keep, 0)
      invariant count == 2 * i
    {
      ghost var before, rest := to.instr, DK.Moves(drop, keep, i + 1);
      to.Push(O.LocalGet(keep - i));
      to.Push(O.LocalSet(keep as int + drop as int - i));
      count := count + 2;
      assert to.instr + rest == before + ([O.LocalGet(keep - i), O.LocalSet(keep as int + drop as int - i)] + rest);
    }
    assert to.instr + [] == to.instr;
  }

  /** Lowers a drop-keep into `to`; the count of emitted opcodes is what `br_if` skips. */
  method TranslateDropKeep(dk: DK.DropKeep, to: InstructionSet, stack: ValueStackHeight) returns (count: nat)
    requires stack.Valid()
    modifies to, stack
    ensures to.instr == old(to.instr) + DK.Lower(dk) && count == |DK.Lower(dk)|
    ensures stack.Valid() && stack.height == old(stack.height)
    ensures stack.maxHeight == T.Max(old(stack.maxHeight), stack.height + DK.Headroom(dk))
  {
    var drop, keep := dk.drop, dk.keep;
    DK.LowerLength(dk);
    if drop == 0 {
      return 0;
    }
    if drop >= keep {
      count := PushOverwrite(drop, keep, to);
      to.Push(O.BulkDrop(drop - keep));
      assert to.instr == old(to.instr) + (DK.Overwrite(drop, keep) + [O.BulkDrop(drop - keep)]);
    } else {
      stack.PushN(1);
      stack.PopN(1);
      count := PushMoves(drop, keep, to);
      to.Push(O.BulkDrop(drop));
      assert to.instr == old(to.instr) + (DK.Moves(drop, keep, 0) + [O.BulkDrop(drop)]);
    }
    count := count + 1;
  }

  /** The stack of control frames. */
  class ControlFlowStack {
    var frames: seq<T.Frame>

    constructor ()
      ensures frames == []
    {
      frames := [];
    }

    method PushFrame(f: T.Frame)
      modifies this
      ensures frames == old(frames) + [f]
    {
      frames := frames + [f];
    }

    method PopFrame() returns (f: T.Frame)
      requires frames != []
      modifies this
      ensures f == old(frames)[|old(frames)| - 1] && frames == old(frames)[..|old(frames)| - 1]
    {
      f := frames[|frames| - 1];
      frames := frames[..|frames| - 1];
    }

    /** The innermost live frame moves on to another charge. */
    method UpdateConsumeFuelInstr(at: nat) returns (ok: bool)
      requires frames != []
      modifies this
      ensures var f, n := old(frames)[|old(frames)| - 1], |old(frames)|;
              && ok == (f.DeadFrame? || f.fuel.Some?)
              && frames == if f.DeadFrame? || f.fuel.None? then old(frames)
                 else old(frames)[n - 1 := f.(fuel := O.Some(at))]
    {
      var f := frames[|frames| - 1];
      if f.DeadFrame? {
        return true;
      }
      if f.fuel.None? {
        return false;
      }
      frames := frames[|frames| - 1 := f.(fuel := O.Some(at))];
      ok := true;
    }
  }
}
