/** The value stack of the interpreter: an array of entries with a stack pointer, accessed without bounds
    checks because every function reserves what it needs. */
module ValueStacks {
  import opened Words
  import opened Opcodes
  import M = Machine
  import S = Source
  import Layout

  class ValueStack {
    var entries: array<Word>
    var stackPtr: nat
    const maximumLen: nat

    ghost predicate Valid()
      reads this
    {
      stackPtr <= entries.Length
    }

    /** The words below the stack pointer. */
    ghost function Contents(): seq<Word>
      requires Valid()
      reads this, entries
    {
      entries[..stackPtr]
    }

    /** How many entries exist at all: writing beyond them is out of bounds. */
    function Capacity(): nat
      reads this
    {
      entries.Length
    }

    constructor (initialLen: nat, maximum: nat)
      requires 0 < initialLen <= maximum
      ensures Valid() && Contents() == [] && entries.Length == initialLen && maximumLen == maximum && fresh(entries)
    {
      entries := new Word[initialLen](_ => 0);
      stackPtr, maximumLen := 0, maximum;
    }

    /** Makes room for `additional` entries, growing generously so that this is rare. */
    method Reserve(additional: nat) returns (ok: bool)
      requires Valid()
      modifies this`entries
      ensures Valid() && stackPtr == old(stackPtr) && Contents() == old(Contents())
      ensures ok <==> stackPtr + additional <= maximumLen
      ensures ok ==> stackPtr + additional <= Capacity()
      ensures entries == old(entries) || fresh(entries)
      ensures Capacity() == if ok && stackPtr + additional > old(Capacity())
              then old(Capacity()) + stackPtr + additional else old(Capacity())
    {
      var newLen := stackPtr + additional;
      if newLen > maximumLen {
        return false;
      }
      if newLen > entries.Length {
        var was := entries;
        var grown := new Word[was.Length + newLen](i reads was => if 0 <= i < was.Length then was[i] else 0);
        entries := grown;
      }
      ok := true;
    }

    method Push(x: Word)
      requires Valid() && stackPtr < Capacity()
      modifies this`stackPtr, entries
      ensures Valid() && Contents() == old(Contents()) + [x]
    {
      entries[stackPtr] := x;
      stackPtr := stackPtr + 1;
    }

    method Pop() returns (x: Word)
      requires Valid() && stackPtr > 0
      modifies this`stackPtr
      ensures Valid() && old(Contents()) == Contents() + [x]
    {
      stackPtr := stackPtr - 1;
      x := entries[stackPtr];
    }

    /** The entry at a depth, 1 being the topmost. */
    method NthBack(depth: nat) returns (x: Word)
      requires Valid() && 1 <= depth <= stackPtr
      ensures x == Contents()[|Contents()| - depth]
    {
      x := entries[stackPtr - depth];
    }

    method SetNthBack(depth: nat, x: Word)
      requires Valid() && 1 <= depth <= stackPtr
      modifies entries
      ensures Valid() && Contents() == M.Put(old(Contents()), depth, x)
    {
      entries[stackPtr - depth] := x;
    }

    method DropN(n: nat)
      requires Valid() && n <= stackPtr
      modifies this`stackPtr
      ensures Valid() && Contents() == old(Contents())[..old(stackPtr) - n]
    {
      stackPtr := stackPtr - n;
    }

    // ----- typed values -----

    /** The low word lies below the high one. */
    method PushI64(n: DWord)
      requires Valid() && stackPtr + 2 <= Capacity()
      modifies this`stackPtr, entries
      ensures Valid() && Contents() == old(Contents()) + [Lo(n), Hi(n)]
    {
      Push(Lo(n));
      Push(Hi(n));
    }

    method PopI64() returns (n: DWord)
      requires Valid() && stackPtr >= 2
      modifies this`stackPtr
      ensures Valid() && old(Contents()) == Contents() + [Lo(n), Hi(n)]
    {
      var hi := Pop();
      var lo := Pop();
      n := Join(lo, hi);
    }

    /** A typed value takes the words that the layout says. */
    method PushValue(v: S.Value)
      requires Valid() && stackPtr + S.Width(v.ty) <= Capacity()
      modifies this`stackPtr, entries
      ensures Valid() && Contents() == old(Contents()) + Layout.FlatValue(v)
    {
      match v.ty
      case I64 => PushI64(v.bits);
      case F64 => PushI64(v.bits);
      case _ => Push(v.bits);
    }

    /** Popping by type gives back the value that was pushed. */
    method PopValue(t: S.ValType) returns (v: S.Value)
      requires Valid() && stackPtr >= S.Width(t)
      modifies this`stackPtr
      ensures Valid() && v.ty == t && old(Contents()) == Contents() + Layout.FlatValue(v)
    {
      if S.Wide(t) {
        var n := PopI64();
        v := S.Val(t, n);
      } else {
        var x := Pop();
        v := S.Val(t, x);
      }
    }

    // ----- opcodes -----

    /** Runs a stack opcode in place. Under the room that the machine model asks for, the words end up as the
        model says, and none is written beyond the entries. */
    method Execute(op: Opcode)
      requires Valid() && StackOpcode(op) && M.Straight(op, Contents()).Ok?
      requires |M.Straight(op, Contents()).stack| <= Capacity()
      modifies this`stackPtr, entries
      ensures Valid() && M.Straight(op, old(Contents())) == M.Ok(Contents()) && Capacity() == old(Capacity())
    {
      match op
      case LocalGet(d) =>
        var x := NthBack(d);
        Push(x);
      case LocalSet(d) =>
        var x := Pop();
        SetNthBack(d, x);
      case LocalTee(d) =>
        var x := NthBack(1);
        SetNthBack(d, x);
      case I32Const(x) => Push(x);
      case Drop => DropN(1);
      case Select => ExecuteSelect();
      case BulkConst(k) => PushZeros(k);
      case BulkDrop(k) => DropN(k);
    }

    method ExecuteSelect()
      requires Valid() && stackPtr >= 3
      modifies this`stackPtr, entries
      ensures Valid() && M.Straight(Select, old(Contents())) == M.Ok(Contents())
    {
      ghost var w := Contents();
      var e3 := Pop();
      var e2 := Pop();
      var e1 := NthBack(1);
      SetNthBack(1, if e3 != 0 then e1 else e2);
      assert w == w[..|w| - 3] + [e1, e2, e3];
    }

    method PushZeros(k: nat)
      requires Valid() && stackPtr + k <= Capacity()
      modifies this`stackPtr, entries
      ensures Valid() && Contents() == old(Contents()) + seq(k, _ => 0)
    {
      for i := 0 to k
        invariant Valid() && stackPtr == old(stackPtr) + i && Contents() == old(Contents()) + seq(i, _ => 0)
      {
        Push(0);
      }
    }
  }

  /** The opcodes that only move words. */
  predicate StackOpcode(op: Opcode) {
    op.LocalGet? || op.LocalSet? || op.LocalTee? || op.I32Const? || op.Drop? || op.Select? || op.BulkConst?
        || op.BulkDrop?
  }
}
