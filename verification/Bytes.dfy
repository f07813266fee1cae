/** Little-endian binary encodings: decoders that return the value and the bytes they left. */
module Bytes {

  type Byte = x: nat | x < 256

  datatype DecodeError =
    | UnexpectedEnd(additional: nat)
    | InvalidOpcode
    | InvalidTrapCode
    | InvalidMagic
    | UnsupportedVersion
    | TrailingBytes

  datatype Decoded<+T> = Got(value: T, rest: seq<Byte>) | Failed(error: DecodeError)

  type Decoder<!T> = seq<Byte> -> Decoded<T>

  function Pure<T>(v: T): Decoder<T> { (s: seq<Byte>) => Got(v, s) }

  function Reject<T>(e: DecodeError): Decoder<T> { (s: seq<Byte>) => Failed(e) }

  /** One decoder after another; the second may depend on the value of the first. */
  function Then<T, U>(d: Decoder<T>, f: T -> Decoder<U>): Decoder<U> {
    (s: seq<Byte>) => match d(s) case Got(v, rest) => f(v)(rest) case Failed(e) => Failed(e)
  }

  /** `bytes` is an encoding of `v` for decoder `d`: it is decoded whatever follows it, and none of its
      proper prefixes is a complete input. */
  ghost predicate Encodes<T(!new)>(d: Decoder<T>, bytes: seq<Byte>, v: T) {
    && (forall tail :: d(bytes + tail) == Got(v, tail))
    && (forall n :: 0 <= n < |bytes| ==> CutOff(d, bytes[..n]))
  }

  ghost predicate CutOff<T(!new)>(d: Decoder<T>, s: seq<Byte>) {
    d(s).Failed? && d(s).error.UnexpectedEnd?
  }

  lemma PureEncodes<T(!new)>(v: T)
    ensures Encodes(Pure(v), [], v)
  {
    forall tail ensures Pure(v)([] + tail) == Got(v, tail) {
      assert [] + tail == tail;
    }
  }

  /** Encodings compose. */
  lemma ThenEncodes<T(!new), U(!new)>(d: Decoder<T>, a: seq<Byte>, v: T, f: T -> Decoder<U>, b: seq<Byte>, w: U)
    requires Encodes(d, a, v) && Encodes(f(v), b, w)
    ensures Encodes(Then(d, f), a + b, w)
  {
    forall tail ensures Then(d, f)(a + b + tail) == Got(w, tail) {
      assert a + b + tail == a + (b + tail);
      assert d(a + (b + tail)) == Got(v, b + tail);
    }
    forall n | 0 <= n < |a + b| ensures CutOff(Then(d, f), (a + b)[..n]) {
      if n < |a| {
        assert (a + b)[..n] == a[..n];
        assert CutOff(d, a[..n]);
      } else {
        assert (a + b)[..n] == a + b[..n - |a|];
        assert d(a + b[..n - |a|]) == Got(v, b[..n - |a|]);
        assert CutOff(f(v), b[..n - |a|]);
      }
    }
  }

  /** A decoder that maps the value of another one. */
  lemma MapEncodes<T(!new), U(!new)>(d: Decoder<T>, a: seq<Byte>, v: T, f: T -> Decoder<U>, w: U)
    requires Encodes(d, a, v) && f(v) == Pure(w)
    ensures Encodes(Then(d, f), a, w)
  {
    PureEncodes(w);
    ThenEncodes(d, a, v, f, [], w);
    assert a + [] == a;
  }

  // ----- fixed-width integers -----

  function Le(n: nat, v: nat): (s: seq<Byte>)
    ensures |s| == n
  {
    if n == 0 then [] else [v % 256] + Le(n - 1, v / 256)
  }

  function Value(s: seq<Byte>): nat { if s == [] then 0 else s[0] + 256 * Value(s[1..]) }

  function Limit(n: nat): nat { if n == 0 then 1 else 256 * Limit(n - 1) }

  lemma {:induction false} ValueLe(n: nat, v: nat)
    requires v < Limit(n)
    ensures Value(Le(n, v)) == v
  {
    if n > 0 {
      ValueLe(n - 1, v / 256);
      assert Le(n, v)[1..] == Le(n - 1, v / 256);
    }
  }

  lemma {:induction false} ValueFits(s: seq<Byte>)
    ensures Value(s) < Limit(|s|)
  {
    if s != [] {
      ValueFits(s[1..]);
    }
  }

  /** Reads exactly `n` bytes; at the end of the input it reports how many are missing. */
  function Take(n: nat): Decoder<seq<Byte>> {
    (s: seq<Byte>) => if |s| < n then Failed(UnexpectedEnd(n - |s|)) else Got(s[..n], s[n..])
  }

  function Unsigned(n: nat): Decoder<nat> {
    (s: seq<Byte>) => if |s| < n then Failed(UnexpectedEnd(n - |s|)) else Got(Value(s[..n]), s[n..])
  }

  lemma TakeEncodes(s: seq<Byte>)
    ensures Encodes(Take(|s|), s, s)
  {
    forall tail ensures Take(|s|)(s + tail) == Got(s, tail) {
      assert (s + tail)[..|s|] == s && (s + tail)[|s|..] == tail;
    }
  }

  lemma UnsignedEncodes(n: nat, v: nat)
    requires v < Limit(n)
    ensures Encodes(Unsigned(n), Le(n, v), v)
  {
    ValueLe(n, v);
    var s := Le(n, v);
    forall tail ensures Unsigned(n)(s + tail) == Got(v, tail) {
      assert (s + tail)[..n] == s && (s + tail)[n..] == tail;
    }
  }

  lemma {:induction false} LeValue(s: seq<Byte>)
    ensures Le(|s|, Value(s)) == s
  {
    if s != [] {
      LeValue(s[1..]);
      assert Value(s) % 256 == s[0] && Value(s) / 256 == Value(s[1..]);
    }
  }

  /** Whatever an unsigned decoder accepts is the encoding of its value. */
  lemma UnsignedInverts(n: nat, s: seq<Byte>)
    requires Unsigned(n)(s).Got?
    ensures s == Le(n, Unsigned(n)(s).value) + Unsigned(n)(s).rest && Unsigned(n)(s).value < Limit(n)
  {
    LeValue(s[..n]);
    ValueFits(s[..n]);
    assert s == s[..n] + s[n..];
  }
}
