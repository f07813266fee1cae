/** The rWasm opcode table. Opcodes without special control flow are grouped by payload shape. */
module Opcodes {
  import opened Words

  datatype Option<+T> = None | Some(value: T)

  datatype TrapCode =
    | UnreachableCodeReached
    | MemoryOutOfBounds
    | TableOutOfBounds
    | IndirectCallToNull
    | IntegerDivisionByZero
    | IntegerOverflow
    | BadConversionToInteger
    | StackOverflow
    | BadSignature
    | OutOfFuel
    | UnknownExternalFunction
    | IllegalOpcode
    | InterruptionCalled
    | ExecutionHalted

  type I32 = x: int | -0x8000_0000 <= x < 0x8000_0000
  type U16 = x: nat | x < 0x1_0000

  datatype CountOp = Clz | Ctz | Popcnt

  datatype UnOp = Eqz | Count(count: CountOp) | Extend8S | Extend16S

  datatype RelOp = Eq | Ne | LtS | LtU | GtS | GtU | LeS | LeU | GeS | GeU

  datatype BinOp =
    | Rel(rel: RelOp)
    | Logic(logic: BitOp)
    | Add | Sub | Mul | Shl | ShrS | ShrU | Rotl | Rotr

  datatype DivOp = DivS | DivU | RemS | RemU

  datatype MemOp = Load | Load8S | Load8U | Load16S | Load16U | Store | Store8 | Store16

  datatype BulkOp = MemorySize | MemoryGrow | MemoryFill | MemoryCopy

  datatype SegmentOp = MemoryInit | DataDrop | TableInit | ElemDrop

  datatype TableOp = TableSize | TableGrow | TableFill | TableGet | TableSet

  datatype JumpKind = Always | IfEqz | IfNez

  type FpuMem = x: nat | x < 4
  type FpuCode = x: nat | 4 <= x < 70 witness 4

  datatype Opcode =
    | Unreachable
    | Trap(trap: TrapCode)
    | LocalGet(depth: Word)
    | LocalSet(depth: Word)
    | LocalTee(depth: Word)
    | Branch(kind: JumpKind, offset: I32)
    | BrTable(targets: Word)
    | ConsumeFuel(fuel: Word)
    | ConsumeFuelStack
    | Return
    | ReturnCallInternal(func: Word)
    | ReturnCall(sysFunc: Word)
    | ReturnCallIndirect(signature: Word)
    | CallInternal(func: Word)
    | Call(sysFunc: Word)
    | CallIndirect(signature: Word)
    | SignatureCheck(signature: Word)
    | StackCheck(height: Word)
    | RefFunc(func: Word)
    | I32Const(imm: Word)
    | Drop
    | Select
    | GlobalGet(global: Word)
    | GlobalSet(global: Word)
    | Memory(mem: MemOp, address: Word)
    | Bulk(bulk: BulkOp)
    | Segment(seg: SegmentOp, segment: Word)
    | Table(table: TableOp, index: U16)
    | TableCopy(dst: U16, src: U16)
    | Unary(un: UnOp)
    | Binary(bin: BinOp)
    | Division(div: DivOp)
    | WrapI64
    | Mul64
    | Add64
    | BulkConst(count: Word)
    | BulkDrop(count: Word)
    | FpuMemory(fpuMem: FpuMem, address: Word)
    | Fpu(fpu: FpuCode)
}
