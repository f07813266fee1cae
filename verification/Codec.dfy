/** The binary format of opcodes, instruction sets and modules. */
module Codec {
  import opened Words
  import opened Opcodes
  import opened Bytes

  // ----- opcode numbers -----

  function MemIndex(m: MemOp): nat {
    match m
    case Load => 0 case Load8S => 1 case Load8U => 2 case Load16S => 3 case Load16U => 4
    case Store => 5 case Store8 => 6 case Store16 => 7
  }

  function MemOf(i: nat): MemOp
    requires i < 8
  {
    if i == 0 then Load else if i == 1 then Load8S else if i == 2 then Load8U else if i == 3 then Load16S
    else if i == 4 then Load16U else if i == 5 then Store else if i == 6 then Store8 else Store16
  }

  function BulkIndex(b: BulkOp): nat {
    match b case MemorySize => 0 case MemoryGrow => 1 case MemoryFill => 2 case MemoryCopy => 3
  }

  function BulkOf(i: nat): BulkOp
    requires i < 4
  {
    if i == 0 then MemorySize else if i == 1 then MemoryGrow else if i == 2 then MemoryFill else MemoryCopy
  }

  function TableIndex(t: TableOp): nat {
    match t case TableSize => 0 case TableGrow => 1 case TableFill => 2 case TableGet => 3 case TableSet => 4
  }

  function TableOf(i: nat): TableOp
    requires i < 5
  {
    if i == 0 then TableSize else if i == 1 then TableGrow else if i == 2 then TableFill
    else if i == 3 then TableGet else TableSet
  }

  function RelIndex(r: RelOp): nat {
    match r
    case Eq => 0 case Ne => 1 case LtS => 2 case LtU => 3 case GtS => 4 case GtU => 5
    case LeS => 6 case LeU => 7 case GeS => 8 case GeU => 9
  }

  function RelOf(i: nat): RelOp
    requires i < 10
  {
    if i == 0 then Eq else if i == 1 then Ne else if i == 2 then LtS else if i == 3 then LtU
    else if i == 4 then GtS else if i == 5 then GtU else if i == 6 then LeS else if i == 7 then LeU
    else if i == 8 then GeS else GeU
  }

  function CountIndex(c: CountOp): nat { match c case Clz => 0 case Ctz => 1 case Popcnt => 2 }

  function CountOf(i: nat): CountOp
    requires i < 3
  {
    if i == 0 then Clz else if i == 1 then Ctz else Popcnt
  }

  function DivIndex(d: DivOp): nat { match d case DivS => 0 case DivU => 1 case RemS => 2 case RemU => 3 }

  function DivOf(i: nat): DivOp
    requires i < 4
  {
    if i == 0 then DivS else if i == 1 then DivU else if i == 2 then RemS else RemU
  }

  function BinCode(b: BinOp): nat {
    match b
    case Rel(r) => 49 + RelIndex(r)
    case Add => 62 case Sub => 63 case Mul => 64
    case Logic(l) => (match l case And => 69 case Or => 70 case Xor => 71)
    case Shl => 72 case ShrS => 73 case ShrU => 74 case Rotl => 75 case Rotr => 76
  }

  function UnCode(u: UnOp): nat {
    match u case Eqz => 48 case Count(c) => 59 + CountIndex(c) case Extend8S => 78 case Extend16S => 79
  }

  function KindCode(k: JumpKind): nat { match k case Always => 5 case IfEqz => 6 case IfNez => 7 }

  function SegmentCode(s: SegmentOp): nat {
    match s case MemoryInit => 38 case DataDrop => 39 case TableInit => 46 case ElemDrop => 47
  }

  const FPU_OPCODE_OFFSET: nat := 1000

  function Code(op: Opcode): nat {
    match op
    case Unreachable => 0
    case Trap(_) => 1
    case LocalGet(_) => 2
    case LocalSet(_) => 3
    case LocalTee(_) => 4
    case Branch(k, _) => KindCode(k)
    case BrTable(_) => 8
    case ConsumeFuel(_) => 9
    case ConsumeFuelStack => 10
    case Return => 11
    case ReturnCallInternal(_) => 12
    case ReturnCall(_) => 13
    case ReturnCallIndirect(_) => 14
    case CallInternal(_) => 15
    case Call(_) => 16
    case CallIndirect(_) => 17
    case SignatureCheck(_) => 18
    case StackCheck(_) => 19
    case RefFunc(_) => 20
    case I32Const(_) => 21
    case Drop => 22
    case Select => 23
    case GlobalGet(_) => 24
    case GlobalSet(_) => 25
    case Memory(m, _) => 26 + MemIndex(m)
    case Bulk(b) => 34 + BulkIndex(b)
    case Segment(s, _) => SegmentCode(s)
    case Table(t, _) => 40 + TableIndex(t)
    case TableCopy(_, _) => 45
    case Unary(u) => UnCode(u)
    case Binary(b) => BinCode(b)
    case Division(d) => 65 + DivIndex(d)
    case WrapI64 => 77
    case Mul64 => 80
    case Add64 => 81
    case BulkConst(_) => 82
    case BulkDrop(_) => 83
    case FpuMemory(m, _) => FPU_OPCODE_OFFSET + m
    case Fpu(f) => FPU_OPCODE_OFFSET + f
  }

  function TrapNumber(t: TrapCode): nat {
    match t
    case UnreachableCodeReached => 0
    case MemoryOutOfBounds => 1
    case TableOutOfBounds => 2
    case IndirectCallToNull => 3
    case IntegerDivisionByZero => 4
    case IntegerOverflow => 5
    case BadConversionToInteger => 6
    case StackOverflow => 7
    case BadSignature => 8
    case OutOfFuel => 9
    case UnknownExternalFunction => 10
    case IllegalOpcode => 11
    case InterruptionCalled => 12
    case ExecutionHalted => 0xff
  }

  function TrapOf(x: nat): Option<TrapCode> {
    if x == 0 then Some(UnreachableCodeReached)
    else if x == 1 then Some(MemoryOutOfBounds)
    else if x == 2 then Some(TableOutOfBounds)
    else if x == 3 then Some(IndirectCallToNull)
    else if x == 4 then Some(IntegerDivisionByZero)
    else if x == 5 then Some(IntegerOverflow)
    else if x == 6 then Some(BadConversionToInteger)
    else if x == 7 then Some(StackOverflow)
    else if x == 8 then Some(BadSignature)
    else if x == 9 then Some(OutOfFuel)
    else if x == 10 then Some(UnknownExternalFunction)
    else if x == 11 then Some(IllegalOpcode)
    else if x == 12 then Some(InterruptionCalled)
    else if x == 0xff then Some(ExecutionHalted)
    else None
  }

  // ----- payloads -----

  /** What follows an opcode number. */
  datatype Payload =
    | Nothing
    | Short(index: U16)
    | Long(word: Word)
    | TwoShorts(dst: U16, src: U16)

  function PayloadOf(op: Opcode): Payload {
    match op
    case Trap(t) => Long(TrapNumber(t))
    case LocalGet(x) => Long(x)
    case LocalSet(x) => Long(x)
    case LocalTee(x) => Long(x)
    case Branch(_, off) => Long(ToWord(off))
    case BrTable(x) => Long(x)
    case ConsumeFuel(x) => Long(x)
    case ReturnCallInternal(x) => Long(x)
    case ReturnCall(x) => Long(x)
    case ReturnCallIndirect(x) => Long(x)
    case CallInternal(x) => Long(x)
    case Call(x) => Long(x)
    case CallIndirect(x) => Long(x)
    case SignatureCheck(x) => Long(x)
    case StackCheck(x) => Long(x)
    case RefFunc(x) => Long(x)
    case I32Const(x) => Long(x)
    case GlobalGet(x) => Long(x)
    case GlobalSet(x) => Long(x)
    case Memory(_, x) => Long(x)
    case Segment(_, x) => Long(x)
    case Table(_, i) => Short(i)
    case TableCopy(d, s) => TwoShorts(d, s)
    case BulkConst(x) => Long(x)
    case BulkDrop(x) => Long(x)
    case FpuMemory(_, x) => Long(x)
    case _ => Nothing
  }

  datatype Shape = ShapeNothing | ShapeShort | ShapeLong | ShapeTwoShorts | ShapeInvalid

  function ShapeOf(p: Payload): Shape {
    match p
    case Nothing => ShapeNothing
    case Short(_) => ShapeShort
    case Long(_) => ShapeLong
    case TwoShorts(_, _) => ShapeTwoShorts
  }

  /** What must follow an opcode number. */
  function ShapeFor(code: nat): Shape {
    if code == 0 || code == 10 || code == 11 || code == 22 || code == 23 then ShapeNothing
    else if code < 34 then ShapeLong
    else if code < 38 then ShapeNothing
    else if code < 40 then ShapeLong
    else if code < 45 then ShapeShort
    else if code == 45 then ShapeTwoShorts
    else if code < 48 then ShapeLong
    else if code < 82 then ShapeNothing
    else if code < 84 then ShapeLong
    else if code < FPU_OPCODE_OFFSET then ShapeInvalid
    else if code < FPU_OPCODE_OFFSET + 4 then ShapeLong
    else if code < FPU_OPCODE_OFFSET + 70 then ShapeNothing
    else ShapeInvalid
  }

  /** The opcode with a given number and payload; only the trap number of `Trap` can be wrong. */
  function Build(code: nat, p: Payload): Option<Opcode>
    requires ShapeFor(code) == ShapeOf(p)
  {
    match p
    case Nothing => Some(BuildNothing(code))
    case Short(i) => Some(Table(TableOf(code - 40), i))
    case Long(x) => BuildLong(code, x)
    case TwoShorts(d, s) => Some(TableCopy(d, s))
  }

  function BuildNothing(code: nat): Opcode
    requires ShapeFor(code) == ShapeNothing
  {
    if code == 0 then Unreachable
    else if code == 10 then ConsumeFuelStack
    else if code == 11 then Return
    else if code == 22 then Drop
    else if code == 23 then Select
    else if code < 38 then Bulk(BulkOf(code - 34))
    else if code >= FPU_OPCODE_OFFSET then Fpu(code - FPU_OPCODE_OFFSET)
    else BuildAlu(code)
  }

  function BuildAlu(code: nat): Opcode
    requires 48 <= code < 82
  {
    if code == 48 then Unary(Eqz)
    else if code < 59 then Binary(Rel(RelOf(code - 49)))
    else if code < 62 then Unary(Count(CountOf(code - 59)))
    else if code == 62 then Binary(Add)
    else if code == 63 then Binary(Sub)
    else if code == 64 then Binary(Mul)
    else if code < 69 then Division(DivOf(code - 65))
    else if code == 69 then Binary(Logic(And))
    else if code == 70 then Binary(Logic(Or))
    else if code == 71 then Binary(Logic(Xor))
    else if code == 72 then Binary(Shl)
    else if code == 73 then Binary(ShrS)
    else if code == 74 then Binary(ShrU)
    else if code == 75 then Binary(Rotl)
    else if code == 76 then Binary(Rotr)
    else if code == 77 then WrapI64
    else if code == 78 then Unary(Extend8S)
    else if code == 79 then Unary(Extend16S)
    else if code == 80 then Mul64
    else Add64
  }

  function BuildLong(code: nat, x: Word): Option<Opcode>
    requires ShapeFor(code) == ShapeLong
  {
    if code == 1 then (if TrapOf(x).Some? then Some(Trap(TrapOf(x).value)) else None)
    else Some(
      if code == 2 then LocalGet(x)
      else if code == 3 then LocalSet(x)
      else if code == 4 then LocalTee(x)
      else if code == 5 then Branch(Always, Signed32(x))
      else if code == 6 then Branch(IfEqz, Signed32(x))
      else if code == 7 then Branch(IfNez, Signed32(x))
      else if code == 8 then BrTable(x)
      else if code == 9 then ConsumeFuel(x)
      else if code == 12 then ReturnCallInternal(x)
      else if code == 13 then ReturnCall(x)
      else if code == 14 then ReturnCallIndirect(x)
      else if code == 15 then CallInternal(x)
      else if code == 16 then Call(x)
      else if code == 17 then CallIndirect(x)
      else if code == 18 then SignatureCheck(x)
      else if code == 19 then StackCheck(x)
      else if code == 20 then RefFunc(x)
      else if code == 21 then I32Const(x)
      else if code == 24 then GlobalGet(x)
      else if code == 25 then GlobalSet(x)
      else if code < 34 then Memory(MemOf(code - 26), x)
      else if code == 38 then Segment(MemoryInit, x)
      else if code == 39 then Segment(DataDrop, x)
      else if code == 46 then Segment(TableInit, x)
      else if code == 47 then Segment(ElemDrop, x)
      else if code == 82 then BulkConst(x)
      else if code == 83 then BulkDrop(x)
      else FpuMemory(code - FPU_OPCODE_OFFSET, x))
  }

  /** Number and payload determine the opcode. */
  predicate Built(op: Opcode) {
    && Code(op) < B32 && ShapeFor(Code(op)) == ShapeOf(PayloadOf(op))
    && Build(Code(op), PayloadOf(op)) == Some(op)
  }

  lemma BuiltUnary(u: UnOp)
    ensures Built(Unary(u))
  {
    UnaryBuild(u);
  }

  lemma BuiltBinary(b: BinOp)
    ensures Built(Binary(b))
  {
    BinaryBuild(b);
  }

  lemma BuiltDivision(d: DivOp)
    ensures Built(Division(d))
  {
  }

  lemma BuiltMemory(m: MemOp, x: Word)
    ensures Built(Memory(m, x))
  {
    MemoryBuild(m, x);
  }

  lemma BuiltTrap(t: TrapCode)
    ensures Built(Trap(t))
  {
  }

  lemma BuildCode(op: Opcode)
    ensures Code(op) < Limit(4) && ShapeFor(Code(op)) == ShapeOf(PayloadOf(op))
    ensures Build(Code(op), PayloadOf(op)) == Some(op)
  {
    hide Code;
    hide Build;
    hide PayloadOf;
    hide ShapeFor;
    hide ShapeOf;
    assert Limit(4) == B32;
    match op
    case Unary(u) => BuiltUnary(u);
    case Binary(b) => BuiltBinary(b);
    case Division(d) => BuiltDivision(d);
    case Memory(m, x) => BuiltMemory(m, x);
    case Trap(t) => BuiltTrap(t);
    case _ => OtherBuild(op);
  }

  lemma UnaryBuild(u: UnOp)
    ensures ShapeFor(UnCode(u)) == ShapeNothing && BuildNothing(UnCode(u)) == Unary(u)
  {
  }

  lemma BinaryBuild(b: BinOp)
    ensures ShapeFor(BinCode(b)) == ShapeNothing && BuildNothing(BinCode(b)) == Binary(b)
  {
  }

  lemma MemoryBuild(m: MemOp, x: Word)
    ensures ShapeFor(26 + MemIndex(m)) == ShapeLong && BuildLong(26 + MemIndex(m), x) == Some(Memory(m, x))
  {
  }

  lemma OtherBuild(op: Opcode)
    requires !op.Unary? && !op.Binary? && !op.Division? && !op.Memory? && !op.Trap?
    ensures Code(op) < B32 && ShapeFor(Code(op)) == ShapeOf(PayloadOf(op))
    ensures Build(Code(op), PayloadOf(op)) == Some(op)
  {
  }

  /** Every number and payload that build an opcode are its own. */
  lemma CodeBuild(code: nat, p: Payload)
    requires ShapeFor(code) == ShapeOf(p) && Build(code, p).Some?
    ensures Code(Build(code, p).value) == code && PayloadOf(Build(code, p).value) == p
  {
    match p
    case Nothing => NothingBuild(code);
    case Long(x) => LongBuild(code, x);
    case _ =>
  }

  lemma NothingBuild(code: nat)
    requires ShapeFor(code) == ShapeNothing
    ensures Code(BuildNothing(code)) == code && PayloadOf(BuildNothing(code)) == Nothing
  {
    if 48 <= code < 82 {
      AluBuild(code);
    }
    hide BuildAlu;
  }

  lemma AluBuild(code: nat)
    requires 48 <= code < 82
    ensures Code(BuildAlu(code)) == code && PayloadOf(BuildAlu(code)) == Nothing
  {
    if code < 69 {
      LowAluBuild(code);
    } else {
      HighAluBuild(code);
    }
    hide BuildAlu;
  }

  lemma LowAluBuild(code: nat)
    requires 48 <= code < 69
    ensures Code(BuildAlu(code)) == code && PayloadOf(BuildAlu(code)) == Nothing
  {
  }

  lemma HighAluBuild(code: nat)
    requires 69 <= code < 82
    ensures Code(BuildAlu(code)) == code && PayloadOf(BuildAlu(code)) == Nothing
  {
  }

  lemma LongBuild(code: nat, x: Word)
    requires ShapeFor(code) == ShapeLong && BuildLong(code, x).Some?
    ensures Code(BuildLong(code, x).value) == code && PayloadOf(BuildLong(code, x).value) == Long(x)
  {
  }

  // ----- opcodes -----

  function EncodePayload(p: Payload): seq<Byte> {
    match p
    case Nothing => []
    case Short(i) => Le(2, i)
    case Long(x) => Le(4, x)
    case TwoShorts(d, s) => Le(2, d) + Le(2, s)
  }

  function EncodeOpcode(op: Opcode): seq<Byte> { Le(4, Code(op)) + EncodePayload(PayloadOf(op)) }

  function WordDecoder(): Decoder<Word> {
    Then(Unsigned(4), (x: nat) => if x < B32 then Pure(x as Word) else Reject<Word>(InvalidOpcode))
  }

  function ShortDecoder(): Decoder<U16> {
    Then(Unsigned(2), (x: nat) => if x < B16 then Pure(x as U16) else Reject<U16>(InvalidOpcode))
  }

  function PayloadDecoder(shape: Shape): Decoder<Payload> {
    match shape
    case ShapeNothing => Pure(Nothing)
    case ShapeShort => Then(ShortDecoder(), (i: U16) => Pure(Short(i)))
    case ShapeLong => Then(WordDecoder(), (x: Word) => Pure(Long(x)))
    case ShapeTwoShorts => Then(ShortDecoder(), (d: U16) => Then(ShortDecoder(), (s: U16) => Pure(TwoShorts(d, s))))
    case ShapeInvalid => Reject(InvalidOpcode)
  }

  function Finish(code: nat, p: Payload): Decoder<Opcode> {
    if ShapeFor(code) != ShapeOf(p) then Reject(InvalidOpcode)
    else if Build(code, p).None? then Reject(InvalidTrapCode)
    else Pure(Build(code, p).value)
  }

  function OpcodeBody(code: nat): Decoder<Opcode> {
    Then(PayloadDecoder(ShapeFor(code)), (p: Payload) => Finish(code, p))
  }

  function OpcodeDecoder(): Decoder<Opcode> {
    Then(Unsigned(4), (code: nat) => OpcodeBody(code))
  }

  lemma WordEncodes(x: Word)
    ensures Encodes(WordDecoder(), Le(4, x), x)
  {
    assert Limit(4) == B32;
    UnsignedEncodes(4, x);
    var f := (x: nat) => if x < B32 then Pure(x as Word) else Reject<Word>(InvalidOpcode);
    assert f(x) == Pure(x);
    MapEncodes(Unsigned(4), Le(4, x), x, f, x);
  }

  lemma ShortEncodes(x: U16)
    ensures Encodes(ShortDecoder(), Le(2, x), x)
  {
    assert Limit(2) == B16;
    UnsignedEncodes(2, x);
    var f := (x: nat) => if x < B16 then Pure(x as U16) else Reject<U16>(InvalidOpcode);
    assert f(x) == Pure(x);
    MapEncodes(Unsigned(2), Le(2, x), x, f, x);
  }

  lemma PayloadEncodes(p: Payload)
    ensures Encodes(PayloadDecoder(ShapeOf(p)), EncodePayload(p), p)
  {
    hide Encodes;
    match p
    case Nothing => PureEncodes(p);
    case Short(i) =>
      ShortEncodes(i);
      MapEncodes(ShortDecoder(), Le(2, i), i, (i: U16) => Pure(Short(i)), p);
    case Long(x) =>
      WordEncodes(x);
      MapEncodes(WordDecoder(), Le(4, x), x, (x: Word) => Pure(Long(x)), p);
    case TwoShorts(d, s) => TwoShortsEncodes(d, s);
  }

  lemma TwoShortsEncodes(d: U16, s: U16)
    ensures Encodes(PayloadDecoder(ShapeTwoShorts), Le(2, d) + Le(2, s), TwoShorts(d, s))
  {
    hide Encodes;
    ShortEncodes(d);
    ShortEncodes(s);
    var g := (s: U16) => Pure(TwoShorts(d, s));
    MapEncodes(ShortDecoder(), Le(2, s), s, g, TwoShorts(d, s));
    var f := (d: U16) => Then(ShortDecoder(), (s: U16) => Pure(TwoShorts(d, s)));
    assert f(d) == Then(ShortDecoder(), g);
    ThenEncodes(ShortDecoder(), Le(2, d), d, f, Le(2, s), TwoShorts(d, s));
  }

  lemma OpcodeEncodes(op: Opcode)
    ensures Encodes(OpcodeDecoder(), EncodeOpcode(op), op)
  {
    var code, p := Code(op), PayloadOf(op);
    BuildCode(op);
    PayloadEncodes(p);
    UnsignedEncodes(4, code);
    hide Encodes;
    hide Code;
    hide PayloadOf;
    hide ShapeFor;
    hide Build;
    var f := (p: Payload) => Finish(code, p);
    assert f(p) == Pure(op);
    MapEncodes(PayloadDecoder(ShapeFor(code)), EncodePayload(p), p, f, op);
    assert OpcodeBody(code) == Then(PayloadDecoder(ShapeFor(code)), f);
    var g := (code: nat) => OpcodeBody(code);
    assert g(code) == OpcodeBody(code);
    ThenEncodes(Unsigned(4), Le(4, code), code, g, EncodePayload(p), op);
  }

  // ----- sections -----

  /** The length of a vector is encoded in 64 bits. */
  predicate Countable<T>(s: seq<T>) { |s| < B64 }

  function Repeat<T>(n: nat, d: Decoder<T>): Decoder<seq<T>> {
    if n == 0 then Pure([])
    else Then(d, (v: T) => Then(Repeat(n - 1, d), (rest: seq<T>) => Pure([v] + rest)))
  }

  function EncodeAll<T>(enc: T -> seq<Byte>, vs: seq<T>): seq<Byte> {
    if vs == [] then [] else enc(vs[0]) + EncodeAll(enc, vs[1..])
  }

  lemma {:induction false} RepeatEncodes<T(!new)>(d: Decoder<T>, enc: T -> seq<Byte>, vs: seq<T>)
    requires forall v: T :: Encodes(d, enc(v), v)
    ensures Encodes(Repeat(|vs|, d), EncodeAll(enc, vs), vs)
    decreases |vs|
  {
    hide Encodes;
    if vs == [] {
      PureEncodes<seq<T>>([]);
    } else {
      var v, rest := vs[0], vs[1..];
      RepeatEncodes(d, enc, rest);
      var g := (rest: seq<T>) => Pure([v] + rest);
      assert [v] + rest == vs;
      MapEncodes(Repeat(|rest|, d), EncodeAll(enc, rest), rest, g, vs);
      var f := (v: T) => Then(Repeat(|vs| - 1, d), (rest: seq<T>) => Pure([v] + rest));
      assert f(v) == Then(Repeat(|rest|, d), g);
      ThenEncodes(d, enc(v), v, f, EncodeAll(enc, rest), vs);
    }
  }

  /** A 64-bit length and then that many items. */
  function Counted<T>(items: nat -> Decoder<seq<T>>): Decoder<seq<T>> { Then<nat, seq<T>>(Unsigned(8), items) }

  lemma CountedEncodes<T(!new)>(items: nat -> Decoder<seq<T>>, bytes: seq<Byte>, vs: seq<T>)
    requires Countable(vs) && Encodes(items(|vs|), bytes, vs)
    ensures Encodes(Counted(items), Le(8, |vs|) + bytes, vs)
  {
    hide Encodes;
    assert Limit(8) == B64;
    UnsignedEncodes(8, |vs|);
    ThenEncodes<nat, seq<T>>(Unsigned(8), Le(8, |vs|), |vs|, items, bytes, vs);
  }

  function CodeSection(): Decoder<seq<Opcode>> { Counted((n: nat) => Repeat(n, OpcodeDecoder())) }

  function ByteSection(): Decoder<seq<Byte>> { Counted((n: nat) => Take(n)) }

  function WordSection(): Decoder<seq<Word>> { Counted((n: nat) => Repeat(n, WordDecoder())) }

  function EncodeCode(code: seq<Opcode>): seq<Byte> {
    Le(8, |code|) + EncodeAll((op: Opcode) => EncodeOpcode(op), code)
  }

  function EncodeBytes(bytes: seq<Byte>): seq<Byte> { Le(8, |bytes|) + bytes }

  function EncodeWord(x: Word): seq<Byte> { Le(4, x) }

  function EncodeWords(words: seq<Word>): seq<Byte> {
    Le(8, |words|) + EncodeAll((x: Word) => EncodeWord(x), words)
  }

  lemma CodeEncodes(code: seq<Opcode>)
    requires Countable(code)
    ensures Encodes(CodeSection(), EncodeCode(code), code)
  {
    hide Encodes;
    var enc := (op: Opcode) => EncodeOpcode(op);
    forall op: Opcode ensures Encodes(OpcodeDecoder(), enc(op), op) {
      OpcodeEncodes(op);
    }
    RepeatEncodes(OpcodeDecoder(), enc, code);
    var items := (n: nat) => Repeat(n, OpcodeDecoder());
    assert items(|code|) == Repeat(|code|, OpcodeDecoder());
    CountedEncodes(items, EncodeAll(enc, code), code);
  }

  lemma BytesEncode(bytes: seq<Byte>)
    requires Countable(bytes)
    ensures Encodes(ByteSection(), EncodeBytes(bytes), bytes)
  {
    hide Encodes;
    TakeEncodes(bytes);
    var items := (n: nat) => Take(n);
    assert items(|bytes|) == Take(|bytes|);
    CountedEncodes(items, bytes, bytes);
  }

  lemma WordsEncode(words: seq<Word>)
    requires Countable(words)
    ensures Encodes(WordSection(), EncodeWords(words), words)
  {
    hide Encodes;
    var enc := (x: Word) => EncodeWord(x);
    forall x: Word ensures Encodes(WordDecoder(), enc(x), x) {
      WordEncodes(x);
    }
    RepeatEncodes(WordDecoder(), enc, words);
    var items := (n: nat) => Repeat(n, WordDecoder());
    assert items(|words|) == Repeat(|words|, WordDecoder());
    CountedEncodes(items, EncodeAll(enc, words), words);
  }

  // ----- modules -----

  datatype Sections = Sections(code: seq<Opcode>, data: seq<Byte>, elems: seq<Word>, hint: seq<Byte>)

  datatype Module = Module(sections: Sections, sourcePc: Word)

  predicate Sized(s: Sections) {
    Countable(s.code) && Countable(s.data) && Countable(s.elems) && Countable(s.hint)
  }

  const MAGIC_0: Byte := 0xef
  const MAGIC_1: Byte := 0x52
  const VERSION: Byte := 0x01

  function VersionDecoder(): Decoder<nat> {
    Then<nat, nat>(Unsigned(1), (v: nat) => if v != VERSION then Reject<nat>(UnsupportedVersion) else Pure<nat>(v))
  }

  /** Both signature bytes are read before they are looked at. */
  function SecondMagic(a: nat): Decoder<nat> {
    Then<nat, nat>(Unsigned(1), (b: nat) => AfterMagic(a, b))
  }

  function AfterMagic(a: nat, b: nat): Decoder<nat> {
    if a != MAGIC_0 || b != MAGIC_1 then Reject<nat>(InvalidMagic) else VersionDecoder()
  }

  function HeaderDecoder(): Decoder<nat> { Then<nat, nat>(Unsigned(1), (a: nat) => SecondMagic(a)) }

  function SectionsDecoder(): Decoder<Sections> {
    Then(HeaderDecoder(), (h: nat) => AfterHeader())
  }

  function AfterHeader(): Decoder<Sections> { Then(CodeSection(), (code: seq<Opcode>) => AfterCode(code)) }

  function AfterCode(code: seq<Opcode>): Decoder<Sections> {
    Then(ByteSection(), (data: seq<Byte>) => AfterData(code, data))
  }

  function AfterData(code: seq<Opcode>, data: seq<Byte>): Decoder<Sections> {
    Then(WordSection(), (elems: seq<Word>) => AfterElems(code, data, elems))
  }

  function AfterElems(code: seq<Opcode>, data: seq<Byte>, elems: seq<Word>): Decoder<Sections> {
    Then(ByteSection(), (hint: seq<Byte>) => Pure(Sections(code, data, elems, hint)))
  }

  /** The program counter is optional: if exactly its four bytes are missing, it is zero. */
  function SourcePcDecoder(s: Sections): Decoder<Module> {
    (bytes: seq<Byte>) =>
      match WordDecoder()(bytes)
      case Got(pc, rest) => Got(Module(s, pc), rest)
      case Failed(e) => if e == UnexpectedEnd(4) then Got(Module(s, 0), bytes) else Failed(e)
  }

  function ModuleDecoder(): Decoder<Module> { Then(SectionsDecoder(), (s: Sections) => SourcePcDecoder(s)) }

  /** Rejects bytes behind the module. */
  function DecodeExact(bytes: seq<Byte>): Decoded<Module> {
    match ModuleDecoder()(bytes)
    case Got(m, rest) => if rest == [] then Got(m, []) else Failed(TrailingBytes)
    case Failed(e) => Failed(e)
  }

  function EncodeHeader(): seq<Byte> { Le(1, MAGIC_0) + (Le(1, MAGIC_1) + Le(1, VERSION)) }

  function EncodeSections(s: Sections): seq<Byte> {
    EncodeHeader() + (EncodeCode(s.code) + (EncodeBytes(s.data) + (EncodeWords(s.elems) + EncodeBytes(s.hint))))
  }

  function EncodeModule(m: Module): seq<Byte> { EncodeSections(m.sections) + Le(4, m.sourcePc) }

  lemma HeaderEncodes()
    ensures Encodes(HeaderDecoder(), EncodeHeader(), VERSION as nat)
  {
    hide Encodes;
    assert Limit(1) == 256;
    UnsignedEncodes(1, MAGIC_0);
    UnsignedEncodes(1, MAGIC_1);
    UnsignedEncodes(1, VERSION);
    var h := (v: nat) => if v != VERSION then Reject<nat>(UnsupportedVersion) else Pure<nat>(v);
    assert h(VERSION) == Pure<nat>(VERSION);
    MapEncodes<nat, nat>(Unsigned(1), Le(1, VERSION), VERSION, h, VERSION);
    var g := (b: nat) => AfterMagic(MAGIC_0, b);
    assert g(MAGIC_1) == VersionDecoder();
    ThenEncodes<nat, nat>(Unsigned(1), Le(1, MAGIC_1), MAGIC_1, g, Le(1, VERSION), VERSION);
    var f := (a: nat) => SecondMagic(a);
    assert f(MAGIC_0) == SecondMagic(MAGIC_0);
    assert Encodes(SecondMagic(MAGIC_0), Le(1, MAGIC_1) + Le(1, VERSION), VERSION as nat);
    ThenEncodes<nat, nat>(Unsigned(1), Le(1, MAGIC_0), MAGIC_0, f, Le(1, MAGIC_1) + Le(1, VERSION), VERSION);
  }

  lemma SectionsEncode(s: Sections)
    requires Sized(s)
    ensures Encodes(SectionsDecoder(), EncodeSections(s), s)
  {
    hide Encodes;
    hide EncodeCode;
    hide EncodeBytes;
    hide EncodeWords;
    var Sections(code, data, elems, hint) := s;
    BytesEncode(hint);
    var f4 := (hint: seq<Byte>) => Pure(Sections(code, data, elems, hint));
    assert f4(hint) == Pure(s);
    MapEncodes(ByteSection(), EncodeBytes(hint), hint, f4, s);
    assert AfterElems(code, data, elems) == Then(ByteSection(), f4);
    WordsEncode(elems);
    var f3 := (elems: seq<Word>) => AfterElems(code, data, elems);
    assert f3(elems) == AfterElems(code, data, elems);
    ThenEncodes(WordSection(), EncodeWords(elems), elems, f3, EncodeBytes(hint), s);
    assert AfterData(code, data) == Then(WordSection(), f3);
    BytesEncode(data);
    var f2 := (data: seq<Byte>) => AfterData(code, data);
    assert f2(data) == AfterData(code, data);
    var tail2 := EncodeWords(elems) + EncodeBytes(hint);
    ThenEncodes(ByteSection(), EncodeBytes(data), data, f2, tail2, s);
    assert AfterCode(code) == Then(ByteSection(), f2);
    CodeEncodes(code);
    var f1 := (code: seq<Opcode>) => AfterCode(code);
    assert f1(code) == AfterCode(code);
    var tail1 := EncodeBytes(data) + tail2;
    ThenEncodes(CodeSection(), EncodeCode(code), code, f1, tail1, s);
    assert AfterHeader() == Then(CodeSection(), f1);
    HeaderEncodes();
    var f0 := (h: nat) => AfterHeader();
    assert f0(VERSION) == AfterHeader();
    ThenEncodes<nat, Sections>(HeaderDecoder(), EncodeHeader(), VERSION, f0, EncodeCode(code) + tail1, s);
    assert SectionsDecoder() == Then<nat, Sections>(HeaderDecoder(), f0);
  }

  /** Decoding the encoding of a module, whatever bytes follow, gives back the module and those bytes. */
  lemma RoundTrip(m: Module, tail: seq<Byte>)
    requires Sized(m.sections)
    ensures ModuleDecoder()(EncodeModule(m) + tail) == Got(m, tail)
    ensures DecodeExact(EncodeModule(m)) == Got(m, [])
    ensures tail != [] ==> DecodeExact(EncodeModule(m) + tail) == Failed(TrailingBytes)
  {
    RoundTripWith(m, tail);
    RoundTripWith(m, []);
    assert EncodeModule(m) + [] == EncodeModule(m);
  }

  lemma RoundTripWith(m: Module, tail: seq<Byte>)
    requires Sized(m.sections)
    ensures ModuleDecoder()(EncodeModule(m) + tail) == Got(m, tail)
  {
    var a, b := EncodeSections(m.sections), Le(4, m.sourcePc);
    hide EncodeSections;
    hide SectionsDecoder;
    hide WordDecoder;
    hide ModuleDecoder;
    hide Encodes;
    SectionsEncode(m.sections);
    WordEncodes(m.sourcePc);
    DecodesWith(SectionsDecoder(), a, m.sections, b + tail);
    DecodesWith(WordDecoder(), b, m.sourcePc, tail);
    hide Le;
    Associate(a, b, tail);
    ModuleDecodes(m, a, b + tail, tail);
  }

  lemma DecodesWith<T(!new)>(d: Decoder<T>, bytes: seq<Byte>, v: T, tail: seq<Byte>)
    requires Encodes(d, bytes, v)
    ensures d(bytes + tail) == Got(v, tail)
  {
  }

  lemma ModuleDecodes(m: Module, a: seq<Byte>, rest: seq<Byte>, tail: seq<Byte>)
    requires SectionsDecoder()(a + rest) == Got(m.sections, rest) && WordDecoder()(rest) == Got(m.sourcePc, tail)
    ensures ModuleDecoder()(a + rest) == Got(m, tail)
  {
    hide SectionsDecoder;
    hide WordDecoder;
  }

  /** Of the proper prefixes of an encoding only the one without the last four bytes is accepted, with a
      program counter of zero; all others are reported as incomplete. */
  lemma PrefixesRejected(m: Module, n: nat)
    requires Sized(m.sections) && n < |EncodeModule(m)|
    ensures var r := ModuleDecoder()(EncodeModule(m)[..n]);
            if n == |EncodeModule(m)| - 4 then r == Got(m.(sourcePc := 0), [])
            else r.Failed? && r.error.UnexpectedEnd?
  {
    hide Encodes;
    hide EncodeSections;
    hide ModuleDecoder;
    hide SectionsDecoder;
    var a, b := EncodeSections(m.sections), Le(4, m.sourcePc);
    SectionsEncode(m.sections);
    if n < |a| {
      assert (a + b)[..n] == a[..n];
      CutInSections(m.sections, a, n);
    } else {
      CutInWord(m, a, b, n);
    }
  }

  lemma CutInSections(s: Sections, a: seq<Byte>, n: nat)
    requires Encodes(SectionsDecoder(), a, s) && n < |a|
    ensures var r := ModuleDecoder()(a[..n]); r.Failed? && r.error.UnexpectedEnd?
  {
    assert CutOff(SectionsDecoder(), a[..n]);
    hide SectionsDecoder;
    hide SourcePcDecoder;
  }

  lemma CutInWord(m: Module, a: seq<Byte>, b: seq<Byte>, n: nat)
    requires Encodes(SectionsDecoder(), a, m.sections) && |b| == 4 && |a| <= n < |a| + 4
    ensures var r := ModuleDecoder()((a + b)[..n]);
            if n == |a| then r == Got(m.(sourcePc := 0), []) else r.Failed? && r.error.UnexpectedEnd?
  {
    hide WordDecoder;
    hide SectionsDecoder;
    var c := b[..n - |a|];
    assert (a + b)[..n] == a + c;
    assert SectionsDecoder()(a + c) == Got(m.sections, c);
    ShortWord(c);
  }

  lemma ShortWord(c: seq<Byte>)
    requires |c| < 4
    ensures WordDecoder()(c) == Failed(UnexpectedEnd(4 - |c|))
    ensures |c| == 0 ==> c == []
  {
  }

  // ----- what is accepted -----

  lemma WordInverts(s: seq<Byte>)
    requires WordDecoder()(s).Got?
    ensures s == Le(4, WordDecoder()(s).value) + WordDecoder()(s).rest
  {
    UnsignedInverts(4, s);
  }

  lemma ShortInverts(s: seq<Byte>)
    requires ShortDecoder()(s).Got?
    ensures s == Le(2, ShortDecoder()(s).value) + ShortDecoder()(s).rest
  {
    UnsignedInverts(2, s);
  }

  lemma PayloadInverts(shape: Shape, s: seq<Byte>)
    requires PayloadDecoder(shape)(s).Got?
    ensures var r := PayloadDecoder(shape)(s); ShapeOf(r.value) == shape && s == EncodePayload(r.value) + r.rest
  {
    match shape
    case ShapeNothing => assert s == [] + s;
    case ShapeShort => ShortInverts(s); hide ShortDecoder;
    case ShapeLong => WordInverts(s); hide WordDecoder;
    case ShapeTwoShorts =>
      ShortInverts(s);
      var first := ShortDecoder()(s);
      ShortInverts(first.rest);
      var second := ShortDecoder()(first.rest);
      hide ShortDecoder;
      assert Le(2, first.value) + (Le(2, second.value) + second.rest)
          == Le(2, first.value) + Le(2, second.value) + second.rest;
  }

  lemma OpcodeInverts(s: seq<Byte>)
    requires OpcodeDecoder()(s).Got?
    ensures var r := OpcodeDecoder()(s); s == EncodeOpcode(r.value) + r.rest
  {
    hide PayloadDecoder;
    hide EncodePayload;
    hide Build;
    hide ShapeFor;
    hide Code;
    hide PayloadOf;
    UnsignedInverts(4, s);
    var c := Unsigned(4)(s);
    hide Unsigned;
    var p := PayloadDecoder(ShapeFor(c.value))(c.rest);
    assert OpcodeDecoder()(s) == OpcodeBody(c.value)(c.rest);
    PayloadInverts(ShapeFor(c.value), c.rest);
    var op := Build(c.value, p.value).value;
    CodeBuild(c.value, p.value);
    assert OpcodeDecoder()(s) == Got(op, p.rest);
    assert Le(4, c.value) + (EncodePayload(p.value) + p.rest) == Le(4, c.value) + EncodePayload(p.value) + p.rest;
  }

  lemma {:induction false} RepeatInverts<T(!new)>(n: nat, d: Decoder<T>, enc: T -> seq<Byte>, s: seq<Byte>)
    requires forall b: seq<Byte> :: d(b).Got? ==> b == enc(d(b).value) + d(b).rest
    requires Repeat(n, d)(s).Got?
    ensures var r := Repeat(n, d)(s); |r.value| == n && s == EncodeAll(enc, r.value) + r.rest
    decreases n
  {
    if n == 0 {
      assert s == [] + s;
    } else {
      var first := d(s);
      RepeatInverts(n - 1, d, enc, first.rest);
      var others := Repeat(n - 1, d)(first.rest);
      var all := [first.value] + others.value;
      assert Repeat(n, d)(s) == Got(all, others.rest);
      assert all[1..] == others.value;
      assert enc(first.value) + (EncodeAll(enc, others.value) + others.rest)
          == enc(first.value) + EncodeAll(enc, others.value) + others.rest;
    }
  }

  lemma CodeInverts(s: seq<Byte>)
    requires CodeSection()(s).Got?
    ensures var r := CodeSection()(s); s == EncodeCode(r.value) + r.rest && Countable(r.value)
  {
    hide EncodeOpcode;
    hide OpcodeDecoder;
    hide Repeat;
    hide EncodeAll;
    UnsignedInverts(8, s);
    assert Limit(8) == B64;
    var c := Unsigned(8)(s);
    hide Unsigned;
    var enc := (op: Opcode) => EncodeOpcode(op);
    forall b: seq<Byte> | OpcodeDecoder()(b).Got? ensures b == enc(OpcodeDecoder()(b).value) + OpcodeDecoder()(b).rest {
      OpcodeInverts(b);
    }
    RepeatInverts(c.value, OpcodeDecoder(), enc, c.rest);
    var r := Repeat(c.value, OpcodeDecoder())(c.rest);
    assert CodeSection()(s) == r;
    assert Le(8, c.value) + (EncodeAll(enc, r.value) + r.rest) == Le(8, c.value) + EncodeAll(enc, r.value) + r.rest;
  }

  lemma WordsInvert(s: seq<Byte>)
    requires WordSection()(s).Got?
    ensures var r := WordSection()(s); s == EncodeWords(r.value) + r.rest && Countable(r.value)
  {
    hide WordDecoder;
    hide Repeat;
    hide EncodeAll;
    UnsignedInverts(8, s);
    assert Limit(8) == B64;
    var c := Unsigned(8)(s);
    hide Unsigned;
    var enc := (x: Word) => EncodeWord(x);
    forall b: seq<Byte> | WordDecoder()(b).Got? ensures b == enc(WordDecoder()(b).value) + WordDecoder()(b).rest {
      WordInverts(b);
    }
    RepeatInverts(c.value, WordDecoder(), enc, c.rest);
    var r := Repeat(c.value, WordDecoder())(c.rest);
    assert WordSection()(s) == r;
    assert Le(8, c.value) + (EncodeAll(enc, r.value) + r.rest) == Le(8, c.value) + EncodeAll(enc, r.value) + r.rest;
  }

  lemma BytesInvert(s: seq<Byte>)
    requires ByteSection()(s).Got?
    ensures var r := ByteSection()(s); s == EncodeBytes(r.value) + r.rest && Countable(r.value)
  {
    hide Unsigned;
    hide ByteSection;
    hide Take;
    hide Le;
    UnsignedFirst(s);
    UnsignedInverts(8, s);
    var c := Unsigned(8)(s);
    TakeInverts(c.value, c.rest);
    var r := ByteSection()(s);
    Associate(Le(8, c.value), r.value, r.rest);
    assert Limit(8) == B64;
  }

  lemma UnsignedFirst(s: seq<Byte>)
    requires ByteSection()(s).Got?
    ensures Unsigned(8)(s).Got? && ByteSection()(s) == Take(Unsigned(8)(s).value)(Unsigned(8)(s).rest)
  {
    hide Unsigned;
    hide Take;
  }

  lemma TakeInverts(n: nat, s: seq<Byte>)
    requires Take(n)(s).Got?
    ensures |Take(n)(s).value| == n && s == Take(n)(s).value + Take(n)(s).rest
  {
  }

  lemma HeaderInverts(s: seq<Byte>)
    requires HeaderDecoder()(s).Got?
    ensures s == EncodeHeader() + HeaderDecoder()(s).rest
  {
    hide Le;
    UnsignedInverts(1, s);
    var a := Unsigned(1)(s);
    UnsignedInverts(1, a.rest);
    var b := Unsigned(1)(a.rest);
    UnsignedInverts(1, b.rest);
    var v := Unsigned(1)(b.rest);
    hide Unsigned;
    HeaderParts(s, a, b, v);
    hide HeaderDecoder;
    var x, y, z := Le(1, MAGIC_0), Le(1, MAGIC_1), Le(1, VERSION);
    Associate(y, z, v.rest);
    Associate(x, y + z, v.rest);
    Associate(x, y, z);
    assert x + (y + (z + v.rest)) == EncodeHeader() + v.rest;
  }

  lemma HeaderParts(s: seq<Byte>, a: Decoded<nat>, b: Decoded<nat>, v: Decoded<nat>)
    requires HeaderDecoder()(s).Got? && a == Unsigned(1)(s)
    requires a.Got? ==> b == Unsigned(1)(a.rest)
    requires a.Got? && b.Got? ==> v == Unsigned(1)(b.rest)
    ensures a.Got? && b.Got? && v.Got? && a.value == MAGIC_0 && b.value == MAGIC_1 && v.value == VERSION
    ensures HeaderDecoder()(s).rest == v.rest
  {
    hide Unsigned;
  }

  lemma SectionsInvert(s: seq<Byte>)
    requires SectionsDecoder()(s).Got?
    ensures var r := SectionsDecoder()(s); s == EncodeSections(r.value) + r.rest && Sized(r.value)
  {
    hide HeaderDecoder;
    hide CodeSection;
    hide ByteSection;
    hide WordSection;
    hide EncodeCode;
    hide EncodeBytes;
    hide EncodeWords;
    hide EncodeHeader;
    var h := HeaderDecoder()(s);
    HeaderInverts(s);
    var code := CodeSection()(h.rest);
    assert SectionsDecoder()(s) == AfterHeader()(h.rest);
    CodeInverts(h.rest);
    var data := ByteSection()(code.rest);
    assert AfterHeader()(h.rest) == AfterCode(code.value)(code.rest);
    BytesInvert(code.rest);
    var elems := WordSection()(data.rest);
    assert AfterCode(code.value)(code.rest) == AfterData(code.value, data.value)(data.rest);
    WordsInvert(data.rest);
    var hint := ByteSection()(elems.rest);
    assert AfterData(code.value, data.value)(data.rest) == AfterElems(code.value, data.value, elems.value)(elems.rest);
    BytesInvert(elems.rest);
    Nested(EncodeHeader(), EncodeCode(code.value), EncodeBytes(data.value), EncodeWords(elems.value),
           EncodeBytes(hint.value), hint.rest);
  }

  lemma Nested(a: seq<Byte>, b: seq<Byte>, c: seq<Byte>, d: seq<Byte>, e: seq<Byte>, r: seq<Byte>)
    ensures a + (b + (c + (d + (e + r)))) == a + (b + (c + (d + e))) + r
  {
  }

  /** Nothing else is accepted: an input that decodes is an encoding followed by the remaining bytes, or an
      encoding of a module with program counter zero that lacks exactly its last four bytes. */
  lemma OnlyEncodings(s: seq<Byte>)
    requires ModuleDecoder()(s).Got?
    ensures var r := ModuleDecoder()(s);
            && Sized(r.value.sections)
            && (s == EncodeModule(r.value) + r.rest
                || (s == EncodeSections(r.value.sections) && r.value.sourcePc == 0 && r.rest == []))
  {
    hide SectionsDecoder;
    hide EncodeSections;
    var a := SectionsDecoder()(s);
    SectionsInvert(s);
    assert ModuleDecoder()(s) == SourcePcDecoder(a.value)(a.rest);
    var w := WordDecoder()(a.rest);
    if w.Got? {
      WordInverts(a.rest);
      assert EncodeSections(a.value) + (Le(4, w.value) + w.rest) == EncodeSections(a.value) + Le(4, w.value) + w.rest;
    } else {
      assert w.error == UnexpectedEnd(4 - |a.rest|);
      assert EncodeSections(a.value) + [] == EncodeSections(a.value);
    }
    hide WordDecoder;
  }
}
