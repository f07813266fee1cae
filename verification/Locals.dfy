/** The sequences emitted for locals, `select`, `drop` and constants, on one-word and two-word values. */
module Locals {
  import opened Words
  import opened Opcodes
  import opened Machine
  import opened Blocks
  import S = Source
  import opened Layout
  import Sequences

  function GetCode(width: nat, d: Word): seq<Opcode> {
    if width == 2 then [LocalGet(d), LocalGet(d)] else [LocalGet(d)]
  }

  function SetCode(width: nat, d: Word): seq<Opcode> {
    if width == 2 then [LocalSet(d), LocalSet(d)] else [LocalSet(d)]
  }

  function TeeCode(width: nat, d: Word): seq<Opcode>
    requires d > 0
  {
    if width == 2 then [LocalTee(d - 1), LocalGet(2), LocalSet(d)] else [LocalTee(d)]
  }

  function DropCode(width: nat): seq<Opcode> { if width == 2 then [Drop, Drop] else [Drop] }

  function ConstCode(ws: seq<Word>): seq<Opcode>
    requires |ws| == 1 || |ws| == 2
  {
    if |ws| == 2 then [I32Const(ws[0]), I32Const(ws[1])] else [I32Const(ws[0])]
  }

  function SelectCode(width: nat): seq<Opcode> {
    if width == 2 then [Branch(IfEqz, 4), Drop, Drop, Branch(Always, 3), LocalSet(2), LocalSet(2)] else [Select]
  }

  // ----- on words: `x` is the local, `a` lies below it and `b` above it -----

  /** Reading pushes exactly the words of the local. */
  lemma GetWords(a: seq<Word>, x: seq<Word>, b: seq<Word>, d: Word, room: nat)
    requires (|x| == 1 || |x| == 2) && d == |x| + |b| && |a| + |x| + |b| + |x| <= room
    ensures RunBlock(GetCode(|x|, d), 0, a + x + b, room, 16) == Leaves(a + x + b + x)
  {
    hide RunBlock;
    var ops, w := GetCode(|x|, d), a + x + b;
    Sequences.Get(ops, 0, w, room, 16, d, x[0]);
    if |x| == 2 {
      Sequences.Get(ops, 1, w + [x[0]], room, 15, d, x[1]);
      assert w + [x[0]] + [x[1]] == w + x;
      Sequences.BlockEnd(ops, w + x, room, 14);
    } else {
      assert w + [x[0]] == w + x;
      Sequences.BlockEnd(ops, w + x, room, 15);
    }
  }

  /** Writing pops the words on top and replaces exactly those of the local. */
  lemma SetWords(a: seq<Word>, x: seq<Word>, b: seq<Word>, v: seq<Word>, d: Word, room: nat)
    requires (|x| == 1 || |x| == 2) && |v| == |x| && d == |x| + |b| && |a| + |x| + |b| + |x| <= room
    ensures RunBlock(SetCode(|x|, d), 0, a + x + b + v, room, 16) == Leaves(a + v + b)
  {
    hide RunBlock;
    var ops, w := SetCode(|x|, d), a + x + b;
    if |x| == 2 {
      assert w + v == w + [v[0]] + [v[1]];
      Sequences.Set(ops, 0, w + [v[0]], v[1], room, 16, d);
      var u := a + [x[0], v[1]] + b;
      assert Put(w + [v[0]], d, v[1]) == u + [v[0]];
      Sequences.Set(ops, 1, u, v[0], room, 15, d);
      assert Put(u, d, v[0]) == a + v + b;
      Sequences.BlockEnd(ops, a + v + b, room, 14);
    } else {
      assert w + v == w + [v[0]];
      Sequences.Set(ops, 0, w, v[0], room, 16, d);
      assert Put(w, d, v[0]) == a + v + b;
      Sequences.BlockEnd(ops, a + v + b, room, 15);
    }
  }

  lemma Tee(ops: seq<Opcode>, pc: nat, w: seq<Word>, room: nat, n: nat, d: Word)
    requires pc < |ops| && ops[pc] == LocalTee(d) && 1 <= d <= |w| <= room && n > 0
    ensures RunBlock(ops, pc, w, room, n) == RunBlock(ops, pc + 1, Put(w, d, w[|w| - 1]), room, n - 1)
  {
  }

  /** Teeing replaces the words of the local and leaves the ones on top. */
  lemma TeeWords(a: seq<Word>, x: seq<Word>, b: seq<Word>, v: seq<Word>, d: Word, room: nat)
    requires (|x| == 1 || |x| == 2) && |v| == |x| && d == |x| + |b| + |v| && |a| + |x| + |b| + |v| + |x| - 1 <= room
    ensures RunBlock(TeeCode(|x|, d), 0, a + x + b + v, room, 16) == Leaves(a + v + b + v)
  {
    hide RunBlock;
    var ops, w := TeeCode(|x|, d), a + x + b + v;
    if |x| == 2 {
      Tee(ops, 0, w, room, 16, d - 1);
      var u := a + [x[0], v[1]] + b + v;
      assert Put(w, d - 1, w[|w| - 1]) == u;
      Sequences.Get(ops, 1, u, room, 15, 2, v[0]);
      Sequences.Set(ops, 2, u, v[0], room, 14, d);
      assert Put(u, d, v[0]) == a + v + b + v;
      Sequences.BlockEnd(ops, a + v + b + v, room, 13);
    } else {
      Tee(ops, 0, w, room, 16, d);
      assert Put(w, d, w[|w| - 1]) == a + v + b + v;
      Sequences.BlockEnd(ops, a + v + b + v, room, 15);
    }
  }

  lemma DropWords(a: seq<Word>, v: seq<Word>, room: nat)
    requires (|v| == 1 || |v| == 2) && |a| + |v| <= room
    ensures RunBlock(DropCode(|v|), 0, a + v, room, 16) == Leaves(a)
  {
    hide RunBlock;
    var ops := DropCode(|v|);
    Sequences.Pop(ops, 0, a + v, room, 16);
    if |v| == 2 {
      assert (a + v)[..|a| + 1] == a + [v[0]];
      Sequences.Pop(ops, 1, a + [v[0]], room, 15);
      assert (a + [v[0]])[..|a|] == a;
      Sequences.BlockEnd(ops, a, room, 14);
    } else {
      assert (a + v)[..|a|] == a;
      Sequences.BlockEnd(ops, a, room, 15);
    }
  }

  lemma ConstWords(a: seq<Word>, v: seq<Word>, room: nat)
    requires (|v| == 1 || |v| == 2) && |a| + |v| <= room
    ensures RunBlock(ConstCode(v), 0, a, room, 16) == Leaves(a + v)
  {
    hide RunBlock;
    var ops := ConstCode(v);
    Sequences.Push(ops, 0, a, room, 16, v[0]);
    if |v| == 2 {
      Sequences.Push(ops, 1, a + [v[0]], room, 15, v[1]);
      assert a + [v[0]] + [v[1]] == a + v;
      Sequences.BlockEnd(ops, a + v, room, 14);
    } else {
      assert a + [v[0]] == a + v;
      Sequences.BlockEnd(ops, a + v, room, 15);
    }
  }

  function Chosen<T>(z: nat, x: T, y: T): T { if z != 0 then x else y }

  /** `select` keeps the first operand if the condition is not zero and the second one otherwise. */
  lemma SelectWords(a: seq<Word>, x: seq<Word>, y: seq<Word>, z: Word, room: nat)
    requires (|x| == 1 || |x| == 2) && |x| == |y| && |a| + 2 * |x| + 1 <= room
    ensures RunBlock(SelectCode(|x|), 0, a + x + y + [z], room, 16) == Leaves(a + Chosen(z, x, y))
  {
    hide RunBlock;
    if |x| == 2 {
      SelectWide(a, x, y, z, room);
    } else {
      var ops, r := SelectCode(|x|), Chosen(z, x, y);
      SelectNarrow(ops, a, x[0], y[0], z, room);
      assert a + x + y + [z] == a + [x[0], y[0], z];
      assert a + [r[0]] == a + r;
      Sequences.BlockEnd(ops, a + r, room, 15);
    }
  }

  lemma SelectNarrow(ops: seq<Opcode>, a: seq<Word>, x: Word, y: Word, z: Word, room: nat)
    requires ops == [Select] && |a| + 3 <= room
    ensures RunBlock(ops, 0, a + [x, y, z], room, 16) == RunBlock(ops, 1, a + [Chosen(z, x, y)], room, 15)
  {
    var w := a + [x, y, z];
    assert w[|w| - 3..] == [x, y, z] && w[..|w| - 3] == a;
    hide RunBlock;
    NextMove(ops, 0, w, room, 16, 1, a + [Chosen(z, x, y)]);
  }

  lemma SelectWide(a: seq<Word>, x: seq<Word>, y: seq<Word>, z: Word, room: nat)
    requires |x| == |y| == 2 && |a| + 5 <= room
    ensures RunBlock(SelectCode(2), 0, a + x + y + [z], room, 16) == Leaves(a + Chosen(z, x, y))
  {
    hide RunBlock;
    var ops, w := SelectCode(2), a + x + y;
    Sequences.JumpIf(ops, 0, w, z, room, 16, 4);
    if z != 0 {
      Sequences.Pop(ops, 1, w, room, 15);
      assert w[..|w| - 1] == a + x + [y[0]];
      Sequences.Pop(ops, 2, a + x + [y[0]], room, 14);
      assert (a + x + [y[0]])[..|a| + 2] == a + x;
      Sequences.Jump(ops, 3, a + x, room, 13, 6);
      Sequences.BlockEnd(ops, a + x, room, 12);
    } else {
      assert w == a + [x[0], x[1], y[0]] + [y[1]];
      Sequences.Set(ops, 4, a + [x[0], x[1], y[0]], y[1], room, 15, 2);
      assert Put(a + [x[0], x[1], y[0]], 2, y[1]) == a + [x[0], y[1]] + [y[0]];
      Sequences.Set(ops, 5, a + [x[0], y[1]], y[0], room, 14, 2);
      assert Put(a + [x[0], y[1]], 2, y[0]) == a + y;
      Sequences.BlockEnd(ops, a + y, room, 13);
    }
  }

  // ----- on typed values: the frame is the locals, `hidden` words of outer blocks, and the operands -----

  /** The words of one activation, as far as they belong to this function. */
  function Window(ls: seq<S.Value>, hidden: seq<Word>, st: seq<S.Value>): (ws: seq<Word>)
    ensures |ws| == WordsOf(S.TypesOf(ls)) + |hidden| + WordsOf(S.TypesOf(st))
  {
    Flat(ls) + hidden + Flat(st)
  }

  /** The words above local `k`. */
  function Above(ls: seq<S.Value>, hidden: seq<Word>, st: seq<S.Value>, k: nat): seq<Word>
    requires k < |ls|
  {
    Flat(ls[k + 1..]) + hidden + Flat(st)
  }

  lemma WindowAt(ls: seq<S.Value>, hidden: seq<Word>, st: seq<S.Value>, k: nat)
    requires k < |ls|
    ensures Window(ls, hidden, st) == Flat(ls[..k]) + FlatValue(ls[k]) + Above(ls, hidden, st, k)
  {
    hide Flat;
    hide FlatValue;
    FlatAt(ls, k);
    Regroup(Flat(ls[..k]), FlatValue(ls[k]), Flat(ls[k + 1..]), hidden, Flat(st));
  }

  lemma Regroup(a: seq<Word>, b: seq<Word>, c: seq<Word>, d: seq<Word>, e: seq<Word>)
    ensures a + b + c + d + e == a + b + (c + d + e)
  {
  }

  lemma WindowPush(ls: seq<S.Value>, hidden: seq<Word>, st: seq<S.Value>, v: S.Value)
    ensures Window(ls, hidden, st + [v]) == Window(ls, hidden, st) + FlatValue(v)
  {
    hide Flat;
    hide FlatValue;
    FlatAppend(st, [v]);
    FlatOne(v);
    Associate(Flat(ls) + hidden, Flat(st), FlatValue(v));
  }

  lemma AbovePush(ls: seq<S.Value>, hidden: seq<Word>, st: seq<S.Value>, k: nat, v: S.Value)
    requires k < |ls|
    ensures Above(ls, hidden, st + [v], k) == Above(ls, hidden, st, k) + FlatValue(v)
  {
    hide Flat;
    hide FlatValue;
    FlatAppend(st, [v]);
    FlatOne(v);
    Associate(Flat(ls[k + 1..]) + hidden, Flat(st), FlatValue(v));
  }

  lemma LastOperand(st: seq<S.Value>)
    requires st != []
    ensures st == S.Below(st, 1) + [st[|st| - 1]]
  {
  }

  /** `local.get` commutes with flattening: it pushes exactly local `k`. */
  lemma GetRuns(ls: seq<S.Value>, hidden: seq<Word>, st: seq<S.Value>, k: nat, d: Word, room: nat)
    requires k < |ls| && d == S.Width(ls[k].ty) + |Above(ls, hidden, st, k)|
    requires |Window(ls, hidden, st)| + S.Width(ls[k].ty) <= room
    ensures RunBlock(GetCode(S.Width(ls[k].ty), d), 0, Window(ls, hidden, st), room, 16)
            == Leaves(Window(ls, hidden, st + [ls[k]]))
  {
    hide RunBlock;
    hide Above;
    WindowAt(ls, hidden, st, k);
    WindowPush(ls, hidden, st, ls[k]);
    GetWords(Flat(ls[..k]), FlatValue(ls[k]), Above(ls, hidden, st, k), d, room);
    hide Window;
  }

  /** `local.set` commutes with flattening: it changes exactly local `k`. */
  lemma SetRuns(ls: seq<S.Value>, hidden: seq<Word>, st: seq<S.Value>, k: nat, d: Word, room: nat)
    requires k < |ls| && st != [] && st[|st| - 1].ty == ls[k].ty
    requires d == S.Width(ls[k].ty) + |Above(ls, hidden, S.Below(st, 1), k)|
    requires |Window(ls, hidden, st)| <= room
    ensures RunBlock(SetCode(S.Width(ls[k].ty), d), 0, Window(ls, hidden, st), room, 16)
         == Leaves(Window(ls[k := st[|st| - 1]], hidden, S.Below(st, 1)))
  {
    hide RunBlock;
    hide Above;
    var v, rest := st[|st| - 1], S.Below(st, 1);
    LastOperand(st);
    WindowPush(ls, hidden, rest, v);
    WindowAt(ls, hidden, rest, k);
    SameAround(ls, hidden, rest, k, v);
    WindowAt(ls[k := v], hidden, rest, k);
    hide Window;
    SetWords(Flat(ls[..k]), FlatValue(ls[k]), Above(ls, hidden, rest, k), FlatValue(v), d, room);
  }

  lemma SameAround(ls: seq<S.Value>, hidden: seq<Word>, st: seq<S.Value>, k: nat, v: S.Value)
    requires k < |ls|
    ensures var us := ls[k := v];
            us[k] == v && us[..k] == ls[..k]
            && Above(us, hidden, st, k) == Above(ls, hidden, st, k)
  {
    assert ls[k := v][k + 1..] == ls[k + 1..];
  }

  /** `local.tee` commutes with flattening: it changes exactly local `k` and leaves the operands. */
  lemma TeeRuns(ls: seq<S.Value>, hidden: seq<Word>, st: seq<S.Value>, k: nat, d: Word, room: nat)
    requires k < |ls| && st != [] && st[|st| - 1].ty == ls[k].ty
    requires d == S.Width(ls[k].ty) + |Above(ls, hidden, st, k)|
    requires |Window(ls, hidden, st)| + S.Width(ls[k].ty) - 1 <= room
    ensures RunBlock(TeeCode(S.Width(ls[k].ty), d), 0, Window(ls, hidden, st), room, 16)
         == Leaves(Window(ls[k := st[|st| - 1]], hidden, st))
  {
    hide RunBlock;
    hide Above;
    var v, rest := st[|st| - 1], S.Below(st, 1);
    LastOperand(st);
    WindowPush(ls, hidden, rest, v);
    WindowPush(ls[k := v], hidden, rest, v);
    AbovePush(ls, hidden, rest, k, v);
    WindowAt(ls, hidden, rest, k);
    SameAround(ls, hidden, rest, k, v);
    WindowAt(ls[k := v], hidden, rest, k);
    hide Window;
    TeeWords(Flat(ls[..k]), FlatValue(ls[k]), Above(ls, hidden, rest, k), FlatValue(v), d, room);
  }

  lemma ConstRuns(ls: seq<S.Value>, hidden: seq<Word>, st: seq<S.Value>, v: S.Value, room: nat)
    requires |Window(ls, hidden, st)| + S.Width(v.ty) <= room
    ensures RunBlock(ConstCode(FlatValue(v)), 0, Window(ls, hidden, st), room, 16)
            == Leaves(Window(ls, hidden, st + [v]))
  {
    hide RunBlock;
    WindowPush(ls, hidden, st, v);
    ConstWords(Window(ls, hidden, st), FlatValue(v), room);
  }

  lemma DropRuns(ls: seq<S.Value>, hidden: seq<Word>, st: seq<S.Value>, room: nat)
    requires st != [] && |Window(ls, hidden, st)| <= room
    ensures RunBlock(DropCode(S.Width(st[|st| - 1].ty)), 0, Window(ls, hidden, st), room, 16)
         == Leaves(Window(ls, hidden, S.Below(st, 1)))
  {
    hide RunBlock;
    var v, rest := st[|st| - 1], S.Below(st, 1);
    LastOperand(st);
    WindowPush(ls, hidden, rest, v);
    DropWords(Window(ls, hidden, rest), FlatValue(v), room);
  }

  /** `select` commutes with flattening. */
  lemma SelectRuns(ls: seq<S.Value>, hidden: seq<Word>, st: seq<S.Value>, room: nat)
    requires |st| >= 3 && st[|st| - 3].ty == st[|st| - 2].ty && !S.Wide(st[|st| - 1].ty)
    requires |Window(ls, hidden, st)| <= room
    ensures RunBlock(SelectCode(S.Width(st[|st| - 3].ty)), 0, Window(ls, hidden, st), room, 16)
         == Leaves(Window(ls, hidden, S.Below(st, 3) + [Chosen(st[|st| - 1].bits, st[|st| - 3], st[|st| - 2])]))
  {
    hide RunBlock;
    hide Flat;
    var n := |st|;
    var x, y, z, rest := st[n - 3], st[n - 2], st[n - 1], S.Below(st, 3);
    var r := Chosen(z.bits, x, y);
    assert st == rest + [x] + [y] + [z];
    WindowPush(ls, hidden, rest + [x] + [y], z);
    WindowPush(ls, hidden, rest + [x], y);
    WindowPush(ls, hidden, rest, x);
    WindowPush(ls, hidden, rest, r);
    hide Window;
    SelectWords(Window(ls, hidden, rest), FlatValue(x), FlatValue(y), z.bits, room);
  }
}
