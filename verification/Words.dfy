/** 32-bit machine words, their two-word (lo, hi) pairs, and the bit-level operators of the VM. */
module Words {

  const B16: int := 0x1_0000
  const B31: int := 0x8000_0000
  const B32: int := 0x1_0000_0000
  const B63: int := 0x8000_0000_0000_0000
  const B64: int := 0x1_0000_0000_0000_0000

  type Word = x: nat | x < 0x1_0000_0000
  type DWord = x: nat | x < 0x1_0000_0000_0000_0000

  /** The 64-bit number held by two limbs, low limb first. */
  function Join(lo: Word, hi: Word): (n: DWord) {
    lo + hi * B32
  }

  function Lo(n: DWord): Word { n % B32 }

  function Hi(n: DWord): Word { n / B32 }

  lemma JoinSplit(n: DWord)
    ensures Join(Lo(n), Hi(n)) == n
  {
  }

  lemma SplitJoin(lo: Word, hi: Word)
    ensures Lo(Join(lo, hi)) == lo && Hi(Join(lo, hi)) == hi
  {
    assert (lo + hi * B32) % B32 == lo;
    assert (lo + hi * B32) / B32 == hi;
  }

  /** Two's-complement readings of a word and of a double word. */
  function Signed32(x: Word): int { if x < B31 then x else x - B32 }

  function Signed64(x: DWord): int { if x < B63 then x else x - B64 }

  function ToWord(x: int): Word { x % B32 }

  function ToDWord(x: int): DWord { x % B64 }

  function Bool(b: bool): Word { if b then 1 else 0 }

  /** `lhs / rhs` rounded toward zero, and the remainder that goes with it. */
  function TruncDiv(a: int, b: int): int
    requires b != 0
  {
    var q := Abs(a) / Abs(b);
    if (a < 0) == (b < 0) then q else -q
  }

  function TruncRem(a: int, b: int): int
    requires b != 0
  {
    var r := Abs(a) % Abs(b);
    if a < 0 then -r else r
  }

  function Abs(a: int): nat { if a < 0 then -a else a }

  function Pow2(n: nat): (p: nat)
    ensures p > 0
  {
    if n == 0 then 1 else 2 * Pow2(n - 1)
  }

  lemma {:induction false} Pow2Add(m: nat, n: nat)
    ensures Pow2(m + n) == Pow2(m) * Pow2(n)
  {
    if m > 0 {
      Pow2Add(m - 1, n);
      assert Pow2(m + n) == 2 * Pow2((m - 1) + n);
    }
  }

  lemma Pow2Values()
    ensures Pow2(16) == B16 && Pow2(31) == B31 && Pow2(32) == B32 && Pow2(63) == B63 && Pow2(64) == B64
  {
    assert Pow2(8) == 256;
    Pow2Add(8, 8);
    Pow2Add(16, 16);
    Pow2Add(32, 32);
    assert Pow2(32) == 2 * Pow2(31);
    assert Pow2(64) == 2 * Pow2(63);
  }

  // ----- bit operators, least significant bit first -----

  datatype BitOp = And | Or | Xor

  function Bit(op: BitOp, x: nat, y: nat): nat {
    var a, b := x % 2 == 1, y % 2 == 1;
    if (match op case And => a && b case Or => a || b case Xor => a != b) then 1 else 0
  }

  function Bitwise(op: BitOp, n: nat, x: nat, y: nat): (r: nat)
    ensures r < Pow2(n)
  {
    if n == 0 then 0 else Bit(op, x, y) + 2 * Bitwise(op, n - 1, x / 2, y / 2)
  }

  function Popcount(n: nat, x: nat): (r: nat)
    ensures r <= n
  {
    if n == 0 then 0 else x % 2 + Popcount(n - 1, x / 2)
  }

  function TrailingZeros(n: nat, x: nat): (r: nat)
    ensures r <= n
  {
    if n == 0 || x % 2 == 1 then 0 else 1 + TrailingZeros(n - 1, x / 2)
  }

  function LeadingZeros(n: nat, x: nat): (r: nat)
    ensures r <= n
  {
    if n == 0 || x >= Pow2(n - 1) then 0 else 1 + LeadingZeros(n - 1, x)
  }

  /** Sequences may be regrouped. */
  lemma Associate<T>(a: seq<T>, b: seq<T>, c: seq<T>)
    ensures a + (b + c) == a + b + c
  {
  }
}
