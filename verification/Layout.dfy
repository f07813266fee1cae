/** How typed values are laid out on the word stack: wide values take two words, low word first. */
module Layout {
  import opened Words
  import opened Source

  function WordsOf(ts: seq<ValType>): nat {
    if ts == [] then 0 else WordsOf(ts[..|ts| - 1]) + Width(ts[|ts| - 1])
  }

  function FlatValue(v: Value): (ws: seq<Word>)
    ensures |ws| == Width(v.ty)
  {
    if Wide(v.ty) then [Lo(v.bits), Hi(v.bits)] else [v.bits]
  }

  function Flat(vs: seq<Value>): (ws: seq<Word>)
    ensures |ws| == WordsOf(TypesOf(vs))
  {
    if vs == [] then []
    else
      assert TypesOf(vs)[..|vs| - 1] == TypesOf(vs[..|vs| - 1]);
      Flat(vs[..|vs| - 1]) + FlatValue(vs[|vs| - 1])
  }

  lemma {:induction false} WordsAppend(a: seq<ValType>, b: seq<ValType>)
    ensures WordsOf(a + b) == WordsOf(a) + WordsOf(b)
    decreases |b|
  {
    if b == [] {
      assert a + b == a;
    } else {
      assert (a + b)[..|a + b| - 1] == a + b[..|b| - 1];
      WordsAppend(a, b[..|b| - 1]);
    }
  }

  lemma {:induction false} FlatAppend(a: seq<Value>, b: seq<Value>)
    ensures Flat(a + b) == Flat(a) + Flat(b)
    decreases |b|
  {
    if b == [] {
      assert a + b == a;
    } else {
      assert (a + b)[..|a + b| - 1] == a + b[..|b| - 1];
      FlatAppend(a, b[..|b| - 1]);
    }
  }

  lemma FlatOne(v: Value)
    ensures Flat([v]) == FlatValue(v) && WordsOf([v.ty]) == Width(v.ty)
  {
    assert [v][..0] == [];
    assert [v.ty][..0] == [];
  }

  /** Splitting a value stack splits the word stack at the same place. */
  lemma FlatSplit(vs: seq<Value>, n: nat)
    requires n <= |vs|
    ensures Flat(vs) == Flat(Below(vs, n)) + Flat(Top(vs, n))
    ensures |Flat(Top(vs, n))| == WordsOf(TypesOf(vs)[|vs| - n..])
    ensures |Flat(Below(vs, n))| == WordsOf(TypesOf(vs)[..|vs| - n])
  {
    hide Flat;
    hide WordsOf;
    assert vs == Below(vs, n) + Top(vs, n);
    FlatAppend(Below(vs, n), Top(vs, n));
    assert TypesOf(vs)[|vs| - n..] == TypesOf(Top(vs, n));
    assert TypesOf(vs)[..|vs| - n] == TypesOf(Below(vs, n));
  }

  /** The words of value `k` and what lies around them. */
  lemma FlatAt(vs: seq<Value>, k: nat)
    requires k < |vs|
    ensures Flat(vs) == Flat(vs[..k]) + FlatValue(vs[k]) + Flat(vs[k + 1..])
  {
    hide Flat;
    hide WordsOf;
    hide TypesOf;
    var tail := vs[k..];
    FlatSplit(vs, |vs| - k);
    FlatSplit(tail, |tail| - 1);
    assert Below(vs, |vs| - k) == vs[..k] && Top(vs, |vs| - k) == tail;
    assert Below(tail, |tail| - 1) == [vs[k]] && Top(tail, |tail| - 1) == vs[k + 1..];
    FlatOne(vs[k]);
    Associate(Flat(vs[..k]), FlatValue(vs[k]), Flat(vs[k + 1..]));
  }
}
