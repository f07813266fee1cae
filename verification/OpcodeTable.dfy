/** The bytes of the binary format, spelled out: the opcode table in the order of its declaration, operands, header
    and sections. */
module OpcodeTable {
  import opened Words
  import opened Opcodes
  import opened Bytes
  import opened Codec

  /** Operands for the entries of the table. */
  datatype Operands = Operands(trap: TrapCode, word: Word, offset: I32, index: U16, other: U16)

  function StackEntries(p: Operands): seq<Opcode> {
    var x := p.word;
    [Unreachable, Trap(p.trap), LocalGet(x), LocalSet(x), LocalTee(x),
     Branch(Always, p.offset), Branch(IfEqz, p.offset), Branch(IfNez, p.offset), BrTable(x), ConsumeFuel(x),
     ConsumeFuelStack, Return, ReturnCallInternal(x), ReturnCall(x), ReturnCallIndirect(x),
     CallInternal(x), Call(x), CallIndirect(x), SignatureCheck(x), StackCheck(x),
     RefFunc(x), I32Const(x), Drop, Select, GlobalGet(x), GlobalSet(x)]
  }

  function MemoryEntries(p: Operands): seq<Opcode> {
    var x := p.word;
    [Memory(Load, x), Memory(Load8S, x), Memory(Load8U, x), Memory(Load16S, x), Memory(Load16U, x),
     Memory(Store, x), Memory(Store8, x), Memory(Store16, x),
     Bulk(MemorySize), Bulk(MemoryGrow), Bulk(MemoryFill), Bulk(MemoryCopy),
     Segment(MemoryInit, x), Segment(DataDrop, x)]
  }

  function TableEntries(p: Operands): seq<Opcode> {
    [Table(TableSize, p.index), Table(TableGrow, p.index), Table(TableFill, p.index), Table(TableGet, p.index),
     Table(TableSet, p.index), TableCopy(p.index, p.other), Segment(TableInit, p.word), Segment(ElemDrop, p.word)]
  }

  function CompareEntries(): seq<Opcode> {
    [Unary(Eqz), Binary(Rel(Eq)), Binary(Rel(Ne)), Binary(Rel(LtS)), Binary(Rel(LtU)), Binary(Rel(GtS)),
     Binary(Rel(GtU)), Binary(Rel(LeS)), Binary(Rel(LeU)), Binary(Rel(GeS)), Binary(Rel(GeU)),
     Unary(Count(Clz)), Unary(Count(Ctz)), Unary(Count(Popcnt)), Binary(Add), Binary(Sub), Binary(Mul),
     Division(DivS), Division(DivU), Division(RemS), Division(RemU)]
  }

  function BitEntries(p: Operands): seq<Opcode> {
    [Binary(Logic(And)), Binary(Logic(Or)), Binary(Logic(Xor)),
     Binary(Shl), Binary(ShrS), Binary(ShrU), Binary(Rotl), Binary(Rotr),
     WrapI64, Unary(Extend8S), Unary(Extend16S), Mul64, Add64, BulkConst(p.word), BulkDrop(p.word)]
  }

  /** The opcode table. */
  function Entries(p: Operands): seq<Opcode> {
    StackEntries(p) + MemoryEntries(p) + TableEntries(p) + CompareEntries() + BitEntries(p)
  }

  /** The floating-point part of the table: four memory accesses and sixty-six operators. */
  function FpuEntries(p: Operands): seq<Opcode> {
    seq(70, i requires 0 <= i < 70 => if i < 4 then FpuMemory(i, p.word) else Fpu(i))
  }

  // ----- little-endian bytes -----

  function Bytes2(x: nat): seq<Byte>
    requires x < 0x1_0000
  {
    [x % 256, x / 256]
  }

  function Bytes4(x: nat): seq<Byte>
    requires x < 0x1_0000_0000
  {
    [x % 256, x / 256 % 256, x / 0x1_0000 % 256, x / 0x100_0000]
  }

  lemma LeIs(x: nat)
    ensures x < 0x1_0000 ==> Le(2, x) == Bytes2(x)
    ensures x < 0x1_0000_0000 ==> Le(4, x) == Bytes4(x)
  {
    assert Le(2, x) == [x % 256] + ([x / 256 % 256] + Le(0, x / 256 / 256));
    assert Le(3, x / 256) == [x / 256 % 256] + Le(2, x / 256 / 256);
    assert Le(2, x / 256 / 256)
        == [x / 256 / 256 % 256] + ([x / 256 / 256 / 256 % 256] + Le(0, x / 256 / 256 / 256 / 256));
    assert Le(4, x) == [x % 256] + Le(3, x / 256);
    assert x / 256 / 256 == x / 0x1_0000 && x / 256 / 256 / 256 == x / 0x100_0000;
  }

  /** The byte of a trap code. */
  function TrapByte(t: TrapCode): Byte {
    match t
    case UnreachableCodeReached => 0x00
    case MemoryOutOfBounds => 0x01
    case TableOutOfBounds => 0x02
    case IndirectCallToNull => 0x03
    case IntegerDivisionByZero => 0x04
    case IntegerOverflow => 0x05
    case BadConversionToInteger => 0x06
    case StackOverflow => 0x07
    case BadSignature => 0x08
    case OutOfFuel => 0x09
    case UnknownExternalFunction => 0x0a
    case IllegalOpcode => 0x0b
    case InterruptionCalled => 0x0c
    case ExecutionHalted => 0xff
  }

  /** The bytes behind the number of an opcode: its operands in order, branch offsets in two's complement. */
  function OperandBytes(op: Opcode): seq<Byte> {
    match op
    case Trap(t) => [TrapByte(t), 0, 0, 0]
    case Branch(_, offset) => Bytes4(if offset < 0 then offset + 0x1_0000_0000 else offset)
    case Table(_, index) => Bytes2(index)
    case TableCopy(dst, src) => Bytes2(dst) + Bytes2(src)
    case LocalGet(x) => Bytes4(x)
    case LocalSet(x) => Bytes4(x)
    case LocalTee(x) => Bytes4(x)
    case BrTable(x) => Bytes4(x)
    case ConsumeFuel(x) => Bytes4(x)
    case ReturnCallInternal(x) => Bytes4(x)
    case ReturnCall(x) => Bytes4(x)
    case ReturnCallIndirect(x) => Bytes4(x)
    case CallInternal(x) => Bytes4(x)
    case Call(x) => Bytes4(x)
    case CallIndirect(x) => Bytes4(x)
    case SignatureCheck(x) => Bytes4(x)
    case StackCheck(x) => Bytes4(x)
    case RefFunc(x) => Bytes4(x)
    case I32Const(x) => Bytes4(x)
    case GlobalGet(x) => Bytes4(x)
    case GlobalSet(x) => Bytes4(x)
    case Memory(_, x) => Bytes4(x)
    case Segment(_, x) => Bytes4(x)
    case BulkConst(x) => Bytes4(x)
    case BulkDrop(x) => Bytes4(x)
    case FpuMemory(_, x) => Bytes4(x)
    case _ => []
  }

  lemma PayloadIs(op: Opcode)
    ensures EncodePayload(PayloadOf(op)) == OperandBytes(op)
  {
    hide Le;
    hide Bytes2;
    hide Bytes4;
    match op
    case Trap(t) => TrapIs(t);
    case Branch(_, offset) => OffsetIs(offset);
    case Table(_, i) => LeIs(i);
    case TableCopy(i, j) => LeIs(i); LeIs(j);
    case _ => WordIs(op);
  }

  lemma TrapIs(t: TrapCode)
    ensures Le(4, TrapNumber(t)) == [TrapByte(t), 0, 0, 0]
  {
    hide Le;
    LeIs(TrapNumber(t));
  }

  lemma OffsetIs(offset: I32)
    ensures Le(4, ToWord(offset)) == Bytes4(if offset < 0 then offset + 0x1_0000_0000 else offset)
  {
    hide Le;
    hide Bytes4;
    assert ToWord(offset) == if offset < 0 then offset + 0x1_0000_0000 else offset;
    LeIs(ToWord(offset));
  }

  lemma WordIs(op: Opcode)
    requires !op.Trap? && !op.Branch? && !op.Table? && !op.TableCopy?
    ensures EncodePayload(PayloadOf(op)) == OperandBytes(op)
  {
    hide Le;
    hide Bytes4;
    var p := PayloadOf(op);
    if p.Long? {
      LeIs(p.word);
    }
  }

  // ----- numbers -----

  lemma StackNumbers(p: Operands, i: nat)
    requires i < 26
    ensures |StackEntries(p)| == 26 && Code(StackEntries(p)[i]) == i
  {
  }

  lemma MemoryNumbers(p: Operands, i: nat)
    requires i < 14
    ensures |MemoryEntries(p)| == 14 && Code(MemoryEntries(p)[i]) == 26 + i
  {
  }

  lemma TableNumbers(p: Operands, i: nat)
    requires i < 8
    ensures |TableEntries(p)| == 8 && Code(TableEntries(p)[i]) == 40 + i
  {
  }

  lemma CompareNumbers(i: nat)
    requires i < 21
    ensures |CompareEntries()| == 21 && Code(CompareEntries()[i]) == 48 + i
  {
  }

  lemma BitNumbers(p: Operands, i: nat)
    requires i < 15
    ensures |BitEntries(p)| == 15 && Code(BitEntries(p)[i]) == 69 + i
  {
  }

  lemma Numbers(p: Operands, i: nat)
    requires i < 84
    ensures |Entries(p)| == 84 && Code(Entries(p)[i]) == i
  {
    StackNumbers(p, if i < 26 then i else 0);
    MemoryNumbers(p, if 26 <= i < 40 then i - 26 else 0);
    TableNumbers(p, if 40 <= i < 48 then i - 40 else 0);
    CompareNumbers(if 48 <= i < 69 then i - 48 else 0);
    BitNumbers(p, if 69 <= i then i - 69 else 0);
    hide StackEntries;
    hide MemoryEntries;
    hide TableEntries;
    hide CompareEntries;
    hide BitEntries;
    hide Code;
  }

  /** Entry `i` of the table is written as `i` and its operands, least significant byte first. */
  lemma EntryBytes(p: Operands, i: nat)
    requires i < 84
    ensures |Entries(p)| == 84
    ensures EncodeOpcode(Entries(p)[i]) == [i, 0, 0, 0] + OperandBytes(Entries(p)[i])
  {
    hide Entries;
    hide Code;
    hide EncodePayload;
    hide OperandBytes;
    hide Le;
    hide Bytes4;
    Numbers(p, i);
    PayloadIs(Entries(p)[i]);
    LeIs(i);
    SmallBytes(i);
  }

  lemma SmallBytes(i: nat)
    requires i < 0x1_0000
    ensures Bytes4(i) == [i % 256, i / 256, 0, 0]
    ensures i < 256 ==> Bytes4(i) == [i, 0, 0, 0]
  {
  }

  /** Entry `i` of the floating-point part is written as 1000 + `i` and its operand. */
  lemma FpuEntryBytes(p: Operands, i: nat)
    requires i < 70
    ensures |FpuEntries(p)| == 70
    ensures EncodeOpcode(FpuEntries(p)[i])
            == [(1000 + i) % 256, (1000 + i) / 256, 0, 0] + OperandBytes(FpuEntries(p)[i])
  {
    hide EncodePayload;
    hide OperandBytes;
    hide Le;
    hide Bytes4;
    var op := FpuEntries(p)[i];
    assert Code(op) == 1000 + i;
    PayloadIs(op);
    LeIs(1000 + i);
    SmallBytes(1000 + i);
  }

  // ----- nothing is missing -----

  /** The operands that turn an entry into the opcode. */
  function OperandsOf(op: Opcode): Operands {
    var p := Operands(UnreachableCodeReached, 0, 0, 0, 0);
    match op
    case Trap(t) => p.(trap := t)
    case Branch(_, offset) => p.(offset := offset)
    case Table(_, index) => p.(index := index)
    case TableCopy(dst, src) => p.(index := dst, other := src)
    case _ => if PayloadOf(op).Long? then p.(word := PayloadOf(op).word) else p
  }

  predicate InTable(op: Opcode) { op in Entries(OperandsOf(op)) || op in FpuEntries(OperandsOf(op)) }

  lemma StackListed(op: Opcode)
    requires Code(op) < 26
    ensures op in StackEntries(OperandsOf(op))
  {
    hide StackEntries;
    hide OperandsOf;
    hide Code;
    if Code(op) < 5 {
      LocalsListed(op);
    } else if Code(op) < 10 {
      BranchesListed(op);
    } else if Code(op) < 15 {
      ReturnsListed(op);
    } else if Code(op) < 20 {
      CallsListed(op);
    } else {
      ValuesListed(op);
    }
  }

  lemma LocalsListed(op: Opcode)
    requires Code(op) < 5
    ensures op in StackEntries(OperandsOf(op))
  {
    assert StackEntries(OperandsOf(op))[Code(op)] == op;
  }

  lemma BranchesListed(op: Opcode)
    requires 5 <= Code(op) < 10
    ensures op in StackEntries(OperandsOf(op))
  {
    assert StackEntries(OperandsOf(op))[Code(op)] == op;
  }

  lemma ReturnsListed(op: Opcode)
    requires 10 <= Code(op) < 15
    ensures op in StackEntries(OperandsOf(op))
  {
    assert StackEntries(OperandsOf(op))[Code(op)] == op;
  }

  lemma CallsListed(op: Opcode)
    requires 15 <= Code(op) < 20
    ensures op in StackEntries(OperandsOf(op))
  {
    assert StackEntries(OperandsOf(op))[Code(op)] == op;
  }

  lemma ValuesListed(op: Opcode)
    requires 20 <= Code(op) < 26
    ensures op in StackEntries(OperandsOf(op))
  {
    assert StackEntries(OperandsOf(op))[Code(op)] == op;
  }

  lemma MemoryListed(op: Opcode)
    requires 26 <= Code(op) < 40
    ensures op in MemoryEntries(OperandsOf(op))
  {
    assert MemoryEntries(OperandsOf(op))[Code(op) - 26] == op;
  }

  lemma TableListed(op: Opcode)
    requires 40 <= Code(op) < 48
    ensures op in TableEntries(OperandsOf(op))
  {
    assert TableEntries(OperandsOf(op))[Code(op) - 40] == op;
  }

  lemma CompareListed(op: Opcode)
    requires 48 <= Code(op) < 69
    ensures op in CompareEntries()
  {
    hide Code;
    hide CompareEntries;
    if Code(op) < 59 {
      RelListed(op);
    } else {
      ArithListed(op);
    }
  }

  lemma RelListed(op: Opcode)
    requires 48 <= Code(op) < 59
    ensures op in CompareEntries()
  {
    assert CompareEntries()[Code(op) - 48] == op;
  }

  lemma ArithListed(op: Opcode)
    requires 59 <= Code(op) < 69
    ensures op in CompareEntries()
  {
    assert CompareEntries()[Code(op) - 48] == op;
  }

  lemma BitListed(op: Opcode)
    requires 69 <= Code(op) < 84
    ensures op in BitEntries(OperandsOf(op))
  {
    assert BitEntries(OperandsOf(op))[Code(op) - 69] == op;
  }

  /** Every opcode is an entry of the table, with its own operands. */
  lemma AllListed(op: Opcode)
    ensures InTable(op)
  {
    var c, p := Code(op), OperandsOf(op);
    if c < 84 {
      assert op in Entries(p) by {
        hide OperandsOf;
        hide Code;
        if c < 26 {
          StackListed(op);
        } else if c < 40 {
          MemoryListed(op);
        } else if c < 48 {
          TableListed(op);
        } else if c < 69 {
          CompareListed(op);
        } else {
          BitListed(op);
        }
        hide StackEntries;
        hide MemoryEntries;
        hide TableEntries;
        hide CompareEntries;
        hide BitEntries;
      }
    } else {
      FpuListed(op);
    }
  }

  lemma FpuListed(op: Opcode)
    requires Code(op) >= 84
    ensures op in FpuEntries(OperandsOf(op))
  {
    var i := Code(op) - 1000;
    assert FpuEntries(OperandsOf(op))[i] == op;
  }

  // ----- modules -----

  /** A module starts with two magic bytes and its version. */
  lemma HeaderBytes()
    ensures EncodeHeader() == [0xef, 0x52, 0x01]
  {
    assert Le(1, 0xef) == [0xef] + Le(0, 0) && Le(1, 0x52) == [0x52] + Le(0, 0) && Le(1, 0x01) == [0x01] + Le(0, 0);
  }

  function Bytes8(x: nat): seq<Byte>
    requires x < 0x1_0000_0000_0000_0000
  {
    [x % 256, x / 0x100 % 256, x / 0x1_0000 % 256, x / 0x100_0000 % 256,
     x / 0x1_0000_0000 % 256, x / 0x100_0000_0000 % 256, x / 0x1_0000_0000_0000 % 256, x / 0x100_0000_0000_0000]
  }

  lemma Le8Is(x: nat)
    requires x < 0x1_0000_0000_0000_0000
    ensures Le(8, x) == Bytes8(x)
  {
    var y := x / 256 / 256 / 256 / 256;
    LowFour(4, x);
    LowFour(0, y);
    hide Le;
    Shifts(x);
    Shifts(y);
    var a := [x % 256, x / 256 % 256, x / 256 / 256 % 256, x / 256 / 256 / 256 % 256];
    var b := [y % 256, y / 256 % 256, y / 256 / 256 % 256, y / 256 / 256 / 256 % 256];
    assert Le(0, y / 256 / 256 / 256 / 256) == [];
    assert a + (b + []) == Bytes8(x);
  }

  lemma Shifts(x: nat)
    ensures x / 256 / 256 == x / 0x1_0000 && x / 256 / 256 / 256 == x / 0x100_0000
    ensures x / 256 / 256 / 256 / 256 == x / 0x1_0000_0000
    ensures var y := x / 0x1_0000_0000;
            && y / 0x100 == x / 0x100_0000_0000 && y / 0x1_0000 == x / 0x1_0000_0000_0000
            && y / 0x100_0000 == x / 0x100_0000_0000_0000
  {
  }

  /** The four lowest bytes of a number come first. */
  lemma LowFour(n: nat, x: nat)
    ensures Le(4 + n, x) == [x % 256, x / 256 % 256, x / 256 / 256 % 256, x / 256 / 256 / 256 % 256]
                            + Le(n, x / 256 / 256 / 256 / 256)
  {
    var a, b, c := x / 256, x / 256 / 256, x / 256 / 256 / 256;
    assert Le(4 + n, x) == [x % 256] + Le(3 + n, a);
    assert Le(3 + n, a) == [a % 256] + Le(2 + n, b);
    assert Le(2 + n, b) == [b % 256] + Le(1 + n, c);
    assert Le(1 + n, c) == [c % 256] + Le(n, c / 256);
    hide Le;
  }

  /** The bytes of all opcodes, one behind the other. */
  function Joined(code: seq<Opcode>): seq<Byte> {
    if code == [] then [] else EncodeOpcode(code[0]) + Joined(code[1..])
  }

  function JoinedWords(words: seq<Word>): seq<Byte> {
    if words == [] then [] else Bytes4(words[0]) + JoinedWords(words[1..])
  }

  lemma {:induction false} JoinedIs(code: seq<Opcode>)
    ensures EncodeAll((op: Opcode) => EncodeOpcode(op), code) == Joined(code)
    decreases |code|
  {
    hide EncodeOpcode;
    if code != [] {
      JoinedIs(code[1..]);
    }
  }

  lemma {:induction false} JoinedWordsIs(words: seq<Word>)
    ensures EncodeAll((x: Word) => EncodeWord(x), words) == JoinedWords(words)
    decreases |words|
  {
    if words != [] {
      LeIs(words[0]);
      hide Le;
      hide Bytes4;
      JoinedWordsIs(words[1..]);
    }
  }

  /** A module byte by byte: magic, version, the sections with their lengths in eight bytes, the program counter. */
  lemma ModuleBytes(m: Module)
    requires Sized(m.sections)
    ensures var Sections(code, data, elems, hint) := m.sections;
            EncodeModule(m) == [0xef, 0x52, 0x01]
              + (Bytes8(|code|) + Joined(code)
                 + (Bytes8(|data|) + data + (Bytes8(|elems|) + JoinedWords(elems) + (Bytes8(|hint|) + hint))))
              + Bytes4(m.sourcePc)
  {
    var Sections(code, data, elems, hint) := m.sections;
    HeaderBytes();
    Le8Is(|code|);
    Le8Is(|data|);
    Le8Is(|elems|);
    Le8Is(|hint|);
    LeIs(m.sourcePc);
    JoinedIs(code);
    JoinedWordsIs(elems);
    hide Le;
    hide Bytes8;
    hide Bytes4;
    hide EncodeHeader;
    hide Joined;
    hide JoinedWords;
    hide EncodeAll;
  }
}
