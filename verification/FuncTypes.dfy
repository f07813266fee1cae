/** Function types in two forms: as declared, and with every two-word type split into words. */
module FuncTypes {
  import opened Words
  import opened Opcodes
  import opened Source
  import opened Layout

  datatype FuncType = FuncType(params: seq<ValType>, results: seq<ValType>)

  /** The types of the words that hold values of the given types. */
  function Words32(ts: seq<ValType>): (r: seq<ValType>)
    ensures |r| == WordsOf(ts) && forall i :: 0 <= i < |r| ==> !Wide(r[i])
  {
    if ts == [] then []
    else Words32(ts[..|ts| - 1]) + (if Wide(ts[|ts| - 1]) then [I32, I32] else [ts[|ts| - 1]])
  }

  /** Every wide type gives two words and every other type itself, in order. */
  lemma {:induction false} Words32At(ts: seq<ValType>, i: nat)
    requires i < |ts|
    ensures WordsOf(ts[..i]) + Width(ts[i]) <= |Words32(ts)|
    ensures ts[i] == I64 || ts[i] == F64 ==>
              WordsOf(ts[..i]) + 2 <= |Words32(ts)|
              && Words32(ts)[WordsOf(ts[..i])..WordsOf(ts[..i]) + 2] == [I32, I32]
    ensures ts[i] != I64 && ts[i] != F64 ==>
              WordsOf(ts[..i]) < |Words32(ts)| && Words32(ts)[WordsOf(ts[..i])] == ts[i]
    decreases |ts|
  {
    var n := |ts| - 1;
    if i < n {
      Words32At(ts[..n], i);
      assert ts[..n][..i] == ts[..i];
      var w := WordsOf(ts[..i]);
      assert Words32(ts)[..|Words32(ts[..n])|] == Words32(ts[..n]);
      assert w + 2 <= |Words32(ts[..n])| ==> Words32(ts)[w..w + 2] == Words32(ts[..n])[w..w + 2];
    }
  }

  /** The first type equal to type `i`. */
  ghost predicate FirstEqual(types: seq<FuncType>, i: nat, first: nat)
    requires i < |types|
  {
    first <= i && types[first] == types[i] && forall j :: 0 <= j < first ==> types[j] != types[i]
  }

  class FuncTypeRegistry {
    var originalFuncTypes: seq<FuncType>
    var funcTypes: seq<FuncType>
    var originalSignatures: seq<nat>

    ghost predicate Valid()
      reads this
    {
      && |funcTypes| == |originalSignatures| == |originalFuncTypes|
      && (forall i :: 0 <= i < |funcTypes| ==>
            funcTypes[i] == FuncType(Words32(originalFuncTypes[i].params), Words32(originalFuncTypes[i].results)))
      && (forall i :: 0 <= i < |funcTypes| ==> FirstEqual(originalFuncTypes, i, originalSignatures[i]))
    }

    constructor ()
      ensures Valid() && originalFuncTypes == []
    {
      originalFuncTypes, funcTypes, originalSignatures := [], [], [];
    }

    static method Flatten(ts: seq<ValType>) returns (r: seq<ValType>)
      ensures r == Words32(ts)
    {
      r := [];
      for i := 0 to |ts|
        invariant r == Words32(ts[..i])
      {
        r := r + (if ts[i] == I64 || ts[i] == F64 then [I32, I32] else [ts[i]]);
        assert ts[..i + 1][..i] == ts[..i];
      }
      assert ts[..|ts|] == ts;
    }

    /** Registers a type; equal types share the signature of the first of them. */
    method AllocFuncType(t: FuncType) returns (index: nat)
      requires Valid()
      modifies this
      ensures Valid() && index == |old(originalFuncTypes)| && originalFuncTypes == old(originalFuncTypes) + [t]
      ensures originalSignatures[..index] == old(originalSignatures)
    {
      var params := Flatten(t.params);
      var results := Flatten(t.results);
      index := |originalFuncTypes|;
      var first := 0;
      while first < index && originalFuncTypes[first] != t
        invariant first <= index && forall j :: 0 <= j < first ==> originalFuncTypes[j] != t
      {
        first := first + 1;
      }
      originalFuncTypes := originalFuncTypes + [t];
      funcTypes := funcTypes + [FuncType(params, results)];
      originalSignatures := originalSignatures + [first];
      assert forall i :: 0 <= i < index ==> FirstEqual(old(originalFuncTypes), i, old(originalSignatures)[i]);
    }

    /** Signatures tell types apart, and nothing else. */
    lemma SignaturesIdentify(i: nat, j: nat)
      requires Valid() && i < |funcTypes| && j < |funcTypes|
      ensures originalSignatures[i] == originalSignatures[j] <==> originalFuncTypes[i] == originalFuncTypes[j]
    {
      assert FirstEqual(originalFuncTypes, i, originalSignatures[i]);
      assert FirstEqual(originalFuncTypes, j, originalSignatures[j]);
    }
  }
}
