/** Structured WebAssembly code: typed values, validation and a step-indexed big-step semantics. */
module Source {
  import opened Words
  import opened Opcodes
  import M = Machine

  datatype ValType = I32 | I64 | F32 | F64 | FuncRef | ExternRef

  predicate Wide(t: ValType) { t == I64 || t == F64 }

  function Width(t: ValType): nat { if Wide(t) then 2 else 1 }

  datatype Val = Val(ty: ValType, bits: nat)

  type Value = v: Val | v.bits < (if Wide(v.ty) then 0x1_0000_0000_0000_0000 else 0x1_0000_0000)
    witness Val(I32, 0)

  function TypesOf(vs: seq<Value>): seq<ValType> { seq(|vs|, i requires 0 <= i < |vs| => vs[i].ty) }

  // ----- numeric operators -----

  datatype Snippet = Rel64(rel: RelOp) | AddWide | SubWide | MulWide

  datatype NumOp =
    | I32Unary(un: UnOp)
    | I32Binary(bin: BinOp)
    | I32Division(div: DivOp)
    | I64Eqz
    | I64Count(count: CountOp)
    | I64Logic(logic: BitOp)
    | I64Snippet(snippet: Snippet)
    | WrapI64
    | ExtendS
    | ExtendU

  function NumParams(op: NumOp): seq<ValType> {
    match op
    case I32Unary(_) => [I32]
    case I32Binary(_) => [I32, I32]
    case I32Division(_) => [I32, I32]
    case I64Eqz => [I64]
    case I64Count(_) => [I64]
    case I64Logic(_) => [I64, I64]
    case I64Snippet(_) => [I64, I64]
    case WrapI64 => [I64]
    case ExtendS => [I32]
    case ExtendU => [I32]
  }

  function NumResult(op: NumOp): ValType {
    match op
    case I64Count(_) => I64
    case I64Logic(_) => I64
    case I64Snippet(s) => if s.Rel64? then I32 else I64
    case ExtendS => I64
    case ExtendU => I64
    case _ => I32
  }

  function SnippetEval(s: Snippet, x: DWord, y: DWord): DWord {
    match s
    case Rel64(r) => Bool(M.Compare(r, x, y, Signed64(x), Signed64(y)))
    case AddWide => ToDWord(x + y)
    case SubWide => ToDWord(x - y)
    case MulWide => ToDWord(x * y)
  }

  datatype NumOutcome = Number(bits: nat) | NumTrap(trap: TrapCode)

  function NumEval(op: NumOp, args: seq<Value>): (r: NumOutcome)
    requires TypesOf(args) == NumParams(op)
    ensures r.Number? ==> r.bits < if Wide(NumResult(op)) then B64 else B32
  {
    assert forall i :: 0 <= i < |args| ==> args[i].ty == TypesOf(args)[i];
    assert |args| == |NumParams(op)|;
    match op
    case I32Unary(u) => Number(M.EvalUnary(u, args[0].bits))
    case I32Binary(b) => Number(M.EvalBinary(b, args[0].bits, args[1].bits))
    case I32Division(d) =>
      (match M.EvalDivision(d, args[0].bits, args[1].bits)
       case Value(x) => Number(x)
       case Fault(t) => NumTrap(t))
    case I64Eqz => Number(Bool(args[0].bits == 0))
    case I64Count(c) => Number(ToDWord(M.EvalCount(c, 64, args[0].bits)))
    case I64Logic(l) => Number(ToDWord(Bitwise(l, 64, args[0].bits, args[1].bits)))
    case I64Snippet(s) => Number(SnippetEval(s, args[0].bits, args[1].bits))
    case WrapI64 => Number(Lo(args[0].bits))
    case ExtendS => Number(ToDWord(Signed32(args[0].bits)))
    case ExtendU => Number(args[0].bits)
  }

  // ----- instructions -----

  datatype BlockType = Empty | Single(ty: ValType) | Func(params: seq<ValType>, results: seq<ValType>)

  function Params(bt: BlockType): seq<ValType> { if bt.Func? then bt.params else [] }

  function Results(bt: BlockType): seq<ValType> {
    match bt case Empty => [] case Single(t) => [t] case Func(_, rs) => rs
  }

  datatype Instr =
    | Nop
    | Unreachable
    | Drop
    | Select
    | Return
    | Const(v: Value)
    | LocalGet(i: nat)
    | LocalSet(i: nat)
    | LocalTee(i: nat)
    | Num(op: NumOp)
    | Br(depth: nat)
    | BrIf(depth: nat)
    | BrTable(depths: seq<nat>, default: nat)
    | Block(bt: BlockType, body: seq<Instr>)
    | Loop(bt: BlockType, body: seq<Instr>)
    | If(bt: BlockType, thn: seq<Instr>)
    | IfElse(bt: BlockType, thn: seq<Instr>, els: seq<Instr>)

  /** The fuel charged for one operator when the basic cost is `base`. */
  function Cost(base: nat, i: Instr): nat {
    match i
    case Nop => 0
    case Unreachable => 0
    case Drop => 0
    case Return => 0
    case Block(_, _) => 0
    case Loop(_, _) => 0
    case _ => base
  }

  // ----- semantics -----

  /** Branches carry the innermost operand stack; the target label takes its arguments off the top. A run that is
      given up has been around a loop at least `rounds` times. */
  datatype Result =
    | Normal(locals: seq<Value>, stack: seq<Value>)
    | Branching(depth: nat, locals: seq<Value>, stack: seq<Value>)
    | Returned(stack: seq<Value>)
    | Trapped(trap: TrapCode)
    | Timeout(rounds: nat)
    | Invalid

  datatype Run = Run(result: Result, cost: nat)

  function After(cost: nat, r: Run): Run { Run(r.result, cost + r.cost) }

  /** One more round before a run is given up. */
  function Later(r: Result): Result { if r.Timeout? then Timeout(r.rounds + 1) else r }

  function Top(vs: seq<Value>, n: nat): seq<Value>
    requires n <= |vs|
  {
    vs[|vs| - n..]
  }

  function Below(vs: seq<Value>, n: nat): seq<Value>
    requires n <= |vs|
  {
    vs[..|vs| - n]
  }

  function Plain(i: Instr, ls: seq<Value>, st: seq<Value>): Result {
    var n := |st|;
    match i
    case Nop => Normal(ls, st)
    case Unreachable => Trapped(UnreachableCodeReached)
    case Drop => if n >= 1 then Normal(ls, Below(st, 1)) else Invalid
    case Select =>
      if n >= 3 then Normal(ls, Below(st, 3) + [if st[n - 1].bits != 0 then st[n - 3] else st[n - 2]]) else Invalid
    case Return => Returned(st)
    case Const(v) => Normal(ls, st + [v])
    case LocalGet(k) => if k < |ls| then Normal(ls, st + [ls[k]]) else Invalid
    case LocalSet(k) => if k < |ls| && n >= 1 then Normal(ls[k := st[n - 1]], Below(st, 1)) else Invalid
    case LocalTee(k) => if k < |ls| && n >= 1 then Normal(ls[k := st[n - 1]], st) else Invalid
    case Num(op) => Numeric(op, ls, st)
    case Br(k) => Branching(k, ls, st)
    case BrIf(k) =>
      if n == 0 then Invalid
      else if st[n - 1].bits != 0 then Branching(k, ls, Below(st, 1))
      else Normal(ls, Below(st, 1))
    case BrTable(ks, d) =>
      if n == 0 then Invalid
      else Branching(if st[n - 1].bits < |ks| then ks[st[n - 1].bits] else d, ls, Below(st, 1))
    case _ => Invalid
  }

  function Numeric(op: NumOp, ls: seq<Value>, st: seq<Value>): Result {
    var k := |NumParams(op)|;
    if |st| < k || TypesOf(Top(st, k)) != NumParams(op) then Invalid
    else match NumEval(op, Top(st, k))
      case Number(bits) => Normal(ls, Below(st, k) + [Val(NumResult(op), bits)])
      case NumTrap(t) => Trapped(t)
  }

  /** Leaves a label of the given arity; `under` are the operands below the block. */
  function Unlabel(r: Result, under: seq<Value>, arity: nat): Result {
    match r
    case Normal(ls, st) => Normal(ls, under + st)
    case Branching(k, ls, st) =>
      if k > 0 then Branching(k - 1, ls, st)
      else if |st| < arity then Invalid
      else Normal(ls, under + Top(st, arity))
    case _ => r
  }

  function Exec(base: nat, n: nat, code: seq<Instr>, ls: seq<Value>, st: seq<Value>): Run
    decreases n, code, 0
  {
    if code == [] then Run(Normal(ls, st), 0)
    else
      var r := ExecInstr(base, n, code[0], ls, st);
      if r.result.Normal? then After(r.cost, Exec(base, n, code[1..], r.result.locals, r.result.stack)) else r
  }

  function ExecInstr(base: nat, n: nat, i: Instr, ls: seq<Value>, st: seq<Value>): Run
    decreases n, i, 1
  {
    match i
    case Block(bt, body) => ExecBlock(base, n, bt, body, ls, st)
    case Loop(bt, body) =>
      if |st| < |Params(bt)| then Run(Invalid, 0)
      else
        var r := ExecLoop(base, n, bt, body, ls, Top(st, |Params(bt)|));
        Run(Unlabel(r.result, Below(st, |Params(bt)|), 0), r.cost)
    case If(bt, thn) =>
      if st == [] then Run(Invalid, 0)
      else if st[|st| - 1].bits != 0 then After(base, ExecBlock(base, n, bt, thn, ls, Below(st, 1)))
      else After(base, Run(Normal(ls, Below(st, 1)), 0))
    case IfElse(bt, thn, els) =>
      if st == [] then Run(Invalid, 0)
      else After(base, ExecBlock(base, n, bt, if st[|st| - 1].bits != 0 then thn else els, ls, Below(st, 1)))
    case _ => Run(Plain(i, ls, st), Cost(base, i))
  }

  function ExecBlock(base: nat, n: nat, bt: BlockType, body: seq<Instr>, ls: seq<Value>, st: seq<Value>): Run
    decreases n, body, 1
  {
    if |st| < |Params(bt)| then Run(Invalid, 0)
    else
      var r := Exec(base, n, body, ls, Top(st, |Params(bt)|));
      Run(Unlabel(r.result, Below(st, |Params(bt)|), |Results(bt)|), r.cost)
  }

  /** Runs a loop body on its arguments; a branch to the loop's own label starts it again. */
  function ExecLoop(base: nat, n: nat, bt: BlockType, body: seq<Instr>, ls: seq<Value>, args: seq<Value>): Run
    decreases n, body, 1
  {
    var r := Exec(base, n, body, ls, args);
    if !r.result.Branching? || r.result.depth > 0 then r
    else if |r.result.stack| < |Params(bt)| then Run(Invalid, r.cost)
    else if n == 0 then Run(Timeout(0), r.cost)
    else
      var q := ExecLoop(base, n - 1, bt, body, r.result.locals, Top(r.result.stack, |Params(bt)|));
      Run(Later(q.result), r.cost + q.cost)
  }
}
