/** Relocatable opcode blocks, run on a window at the top of the stack. */
module Blocks {
  import opened Words
  import opened Opcodes
  import opened Machine

  datatype BlockOutcome = Leaves(window: seq<Word>) | Faults(trap: TrapCode) | Broken

  datatype BlockMove = To(pc: int, window: seq<Word>) | Raise(trap: TrapCode) | Fall

  /** One step inside a block, never holding more than `room` words. */
  function Move(ops: seq<Opcode>, pc: int, w: seq<Word>, room: nat): BlockMove {
    if !(0 <= pc < |ops|) then Fall
    else if ops[pc].Branch? then Hop(ops[pc], pc, w)
    else Settle(Straight(ops[pc], w), pc, room)
  }

  function Hop(op: Opcode, pc: int, w: seq<Word>): BlockMove
    requires op.Branch?
  {
    if op.kind.Always? then To(pc + op.offset, w)
    else if w == [] then Fall
    else To(if Taken(op.kind, w[|w| - 1]) then pc + op.offset else pc + 1, w[..|w| - 1])
  }

  function Settle(e: Effect, pc: int, room: nat): BlockMove {
    match e
    case Ok(w) => if |w| <= room then To(pc + 1, w) else Fall
    case Fails(t) => Raise(t)
    case _ => Fall
  }

  /** Runs `ops` from `pc` for at most `n` steps. */
  function RunBlock(ops: seq<Opcode>, pc: int, w: seq<Word>, room: nat, n: nat): BlockOutcome
    decreases n
  {
    if pc == |ops| then Leaves(w)
    else if n == 0 then Broken
    else match Move(ops, pc, w, room)
      case To(pc', w') => RunBlock(ops, pc', w', room, n - 1)
      case Raise(t) => Faults(t)
      case Fall => Broken
  }

  lemma MoveGet(ops: seq<Opcode>, pc: int, w: seq<Word>, room: nat, d: Word)
    requires 0 <= pc < |ops| && ops[pc] == LocalGet(d) && 1 <= d <= |w| < room
    ensures Move(ops, pc, w, room) == To(pc + 1, w + [w[|w| - d]])
  {
  }

  lemma MoveSet(ops: seq<Opcode>, pc: int, w: seq<Word>, x: Word, room: nat, d: Word)
    requires 0 <= pc < |ops| && ops[pc] == LocalSet(d) && 1 <= d <= |w| <= room
    ensures Move(ops, pc, w + [x], room) == To(pc + 1, Put(w, d, x))
  {
    assert (w + [x])[..|w|] == w;
  }

  lemma MoveBulkDrop(ops: seq<Opcode>, pc: int, w: seq<Word>, room: nat, d: Word)
    requires 0 <= pc < |ops| && ops[pc] == BulkDrop(d) && d <= |w| && |w| - d <= room
    ensures Move(ops, pc, w, room) == To(pc + 1, w[..|w| - d])
  {
    assert w[..|w| - d] + [] == w[..|w| - d];
  }

  /** One step of a block that is not at its end. */
  lemma NextMove(ops: seq<Opcode>, pc: int, w: seq<Word>, room: nat, n: nat, pc': int, w': seq<Word>)
    requires n > 0 && pc != |ops| && Move(ops, pc, w, room) == To(pc', w')
    ensures RunBlock(ops, pc, w, room, n) == RunBlock(ops, pc', w', room, n - 1)
  {
  }

  /** The last step of a block. */
  lemma LastMove(ops: seq<Opcode>, pc: int, w: seq<Word>, room: nat, n: nat, w': seq<Word>)
    requires n > 0 && pc != |ops| && Move(ops, pc, w, room) == To(|ops|, w')
    ensures RunBlock(ops, pc, w, room, n) == Leaves(w')
  {
  }

  /** A straight-line opcode that succeeds on a window does the same above any other words. */
  lemma StraightIsLocal(op: Opcode, below: seq<Word>, w: seq<Word>)
    ensures Straight(op, w).Ok? ==> Straight(op, below + w) == Ok(below + Straight(op, w).stack)
    ensures Straight(op, w).Fails? ==> Straight(op, below + w) == Straight(op, w)
  {
    if op.LocalGet? || op.LocalSet? || op.LocalTee? {
      LocalIsLocal(op, below, w);
    } else {
      TopmostIsLocal(op, below, w);
    }
  }

  lemma TopmostIsLocal(op: Opcode, below: seq<Word>, w: seq<Word>)
    ensures Topmost(op, w).Ok? ==> Topmost(op, below + w) == Ok(below + Topmost(op, w).stack)
    ensures Topmost(op, w).Fails? ==> Topmost(op, below + w) == Topmost(op, w)
  {
    hide Compute;
    if Arity(op).Some? && Arity(op).value <= |w| {
      var s, k := below + w, Arity(op).value;
      var args := w[|w| - k..];
      assert s[|s| - k..] == args;
      assert s[..|s| - k] == below + w[..|w| - k];
      OnTopIsLocal(below, w[..|w| - k], Compute(op, args));
    }
  }

  lemma OnTopIsLocal(below: seq<Word>, rest: seq<Word>, e: Effect)
    ensures OnTop(below + rest, e) == if e.Ok? then Ok(below + OnTop(rest, e).stack) else e
  {
    if e.Ok? {
      assert (below + rest) + e.stack == below + (rest + e.stack);
    }
  }

  lemma LocalIsLocal(op: Opcode, below: seq<Word>, w: seq<Word>)
    requires op.LocalGet? || op.LocalSet? || op.LocalTee?
    ensures Straight(op, w).Ok? ==> Straight(op, below + w) == Ok(below + Straight(op, w).stack)
    ensures !Straight(op, w).Fails?
  {
    var s := below + w;
    var m, n := |w|, |s|;
    match op
    case LocalGet(d) =>
      if 1 <= d <= m {
        assert s + [s[n - d]] == below + (w + [w[m - d]]);
      }
    case LocalSet(d) =>
      if 1 <= d < m {
        assert Put(s[..n - 1], d, s[n - 1]) == below + Put(w[..m - 1], d, w[m - 1]);
      }
    case LocalTee(d) =>
      if 1 <= d <= m {
        assert Put(s, d, s[n - 1]) == below + Put(w, d, w[m - 1]);
      }
  }

  ghost predicate Holds(c: Config, at: int, ops: seq<Opcode>) {
    0 <= at && at + |ops| <= |c.code| && forall i :: 0 <= i < |ops| ==> c.code[at + i] == ops[i]
  }

  /** The machine, standing inside a block, does what the block does to the window. */
  lemma {:induction false} BlockRuns(c: Config, s: State, at: int, ops: seq<Opcode>, pc: int,
                                     below: seq<Word>, w: seq<Word>, room: nat, n: nat)
    requires Holds(c, at, ops)
    requires s.pc == at + pc && s.stack == below + w && |below| + room <= Room(c, s)
    ensures match RunBlock(ops, pc, w, room, n)
            case Leaves(w') => Reaches(c, s, Next(s.(pc := at + |ops|, stack := below + w')))
            case Faults(t) => Reaches(c, s, Trapped(t))
            case Broken => true
    decreases n
  {
    ReachesStep(c, s);
    if pc == |ops| {
      assert s == s.(pc := at + |ops|, stack := below + w);
    } else if n > 0 {
      MoveRuns(c, s, at, ops, pc, below, w, room);
      var m := Move(ops, pc, w, room);
      if m.To? {
        var t := s.(pc := at + m.pc, stack := below + m.window);
        BlockRuns(c, t, at, ops, m.pc, below, m.window, room, n - 1);
        match RunBlock(ops, m.pc, m.window, room, n - 1)
        case Leaves(w') => StepThen(c, s, t, Next(s.(pc := at + |ops|, stack := below + w')));
        case Faults(trap) => StepThen(c, s, t, Trapped(trap));
        case Broken =>
      }
    }
  }

  lemma MoveRuns(c: Config, s: State, at: int, ops: seq<Opcode>, pc: int, below: seq<Word>, w: seq<Word>, room: nat)
    requires Holds(c, at, ops)
    requires s.pc == at + pc && s.stack == below + w && |below| + room <= Room(c, s)
    ensures match Move(ops, pc, w, room)
            case To(pc', w') => Step(c, s) == Next(s.(pc := at + pc', stack := below + w'))
            case Raise(t) => Step(c, s) == Trapped(t)
            case Fall => true
  {
    if 0 <= pc < |ops| {
      var op := ops[pc];
      assert c.code[at + pc] == op;
      if op.Branch? {
        if w != [] {
          assert s.stack[..|s.stack| - 1] == below + w[..|w| - 1];
        }
      } else {
        StraightIsLocal(op, below, w);
        if Straight(op, w).Ok? || Straight(op, w).Fails? {
          StepStraight(c, s);
        }
      }
    }
  }
}
