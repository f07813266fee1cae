/** The flat rWasm machine: program counter, word stack, call stack and fuel counter. */
module Machine {
  import opened Words
  import opened Opcodes
  import Store

  const MAX_RECURSION_DEPTH: nat := 1024

  /** A device for proofs: the activation with these return addresses must neither hold more than `room` words
      nor return. */
  datatype Watch = Watch(calls: seq<int>, room: nat)

  /** The machine proper has `maxCalls == MAX_RECURSION_DEPTH` and watches nothing. */
  datatype Config = Config(code: seq<Opcode>, limit: Option<nat>, maxLen: nat, maxCalls: nat, watch: Option<Watch>)

  /** `cap` is the number of stack entries allocated so far; writing beyond them is `Stuck`. */
  datatype State = State(pc: int, stack: seq<Word>, cap: nat, calls: seq<int>, fuel: nat, signature: Option<Word>)

  datatype Outcome =
    | Next(state: State)
    | Done(state: State)
    | Trapped(trap: TrapCode)
    | Stuck

  // ----- operators on words -----

  function EvalCount(op: CountOp, width: nat, x: nat): nat {
    match op
    case Clz => LeadingZeros(width, x)
    case Ctz => TrailingZeros(width, x)
    case Popcnt => Popcount(width, x)
  }

  function EvalUnary(op: UnOp, x: Word): Word {
    match op
    case Eqz => Bool(x == 0)
    case Count(c) => ToWord(EvalCount(c, 32, x))
    case Extend8S => ToWord(if x % 0x100 < 0x80 then x % 0x100 else x % 0x100 - 0x100)
    case Extend16S => ToWord(if x % B16 < 0x8000 then x % B16 else x % B16 - B16)
  }

  /** A comparison, given the unsigned and the signed readings of its operands. */
  function Compare(op: RelOp, x: int, y: int, signedX: int, signedY: int): bool {
    match op
    case Eq => x == y
    case Ne => x != y
    case LtS => signedX < signedY
    case LtU => x < y
    case GtS => signedX > signedY
    case GtU => x > y
    case LeS => signedX <= signedY
    case LeU => x <= y
    case GeS => signedX >= signedY
    case GeU => x >= y
  }

  function EvalBinary(op: BinOp, x: Word, y: Word): Word {
    match op
    case Rel(r) => Bool(Compare(r, x, y, Signed32(x), Signed32(y)))
    case Logic(l) => ToWord(Bitwise(l, 32, x, y))
    case Add => ToWord(x + y)
    case Sub => ToWord(x - y)
    case Mul => ToWord(x * y)
    case Shl => ToWord(x * Pow2(y % 32))
    case ShrS => ToWord(Signed32(x) / Pow2(y % 32))
    case ShrU => ToWord(x / Pow2(y % 32))
    case Rotl => RotateLeft(x, y % 32)
    case Rotr => RotateLeft(x, (32 - y % 32) % 32)
  }

  function RotateLeft(x: Word, k: nat): Word
    requires k < 32
  {
    ToWord(x * Pow2(k) + x / Pow2(32 - k))
  }

  datatype WordResult = Value(word: Word) | Fault(trap: TrapCode)

  function EvalDivision(op: DivOp, x: Word, y: Word): WordResult {
    if y == 0 then Fault(IntegerDivisionByZero)
    else match op
      case DivS =>
        if Signed32(x) == -B31 && Signed32(y) == -1 then Fault(IntegerOverflow)
        else Value(ToWord(TruncDiv(Signed32(x), Signed32(y))))
      case DivU => Value(ToWord(x / y))
      case RemS => Value(ToWord(TruncRem(Signed32(x), Signed32(y))))
      case RemU => Value(ToWord(x % y))
  }

  // ----- straight-line opcodes: an effect on the stack, then pc + 1 -----

  datatype Effect = Ok(stack: seq<Word>) | Fails(trap: TrapCode) | Underflow | NotStraight

  function Put(w: seq<Word>, depth: nat, x: Word): seq<Word>
    requires 1 <= depth <= |w|
  {
    w[|w| - depth := x]
  }

  /** Local-variable opcodes reach into the stack; all others only replace its topmost words. */
  function Straight(op: Opcode, w: seq<Word>): Effect {
    var n := |w|;
    match op
    case LocalGet(d) => if 1 <= d <= n then Ok(w + [w[n - d]]) else Underflow
    case LocalSet(d) => if 1 <= d < n then Ok(Put(w[..n - 1], d, w[n - 1])) else Underflow
    case LocalTee(d) => if 1 <= d <= n then Ok(Put(w, d, w[n - 1])) else Underflow
    case _ => Topmost(op, w)
  }

  function Topmost(op: Opcode, w: seq<Word>): Effect {
    if Arity(op).None? then NotStraight
    else if Arity(op).value > |w| then Underflow
    else OnTop(w[..|w| - Arity(op).value], Compute(op, w[|w| - Arity(op).value..]))
  }

  /** How many words the opcode takes off the top of the stack. */
  function Arity(op: Opcode): Option<nat> {
    match op
    case I32Const(_) => Some(0)
    case BulkConst(_) => Some(0)
    case BulkDrop(k) => Some(k)
    case Drop => Some(1)
    case Unary(_) => Some(1)
    case WrapI64 => Some(1)
    case Binary(_) => Some(2)
    case Division(_) => Some(2)
    case Mul64 => Some(2)
    case Add64 => Some(2)
    case Select => Some(3)
    case _ => None
  }

  /** The words put back in their place. */
  function Compute(op: Opcode, args: seq<Word>): Effect
    requires Arity(op) == Some(|args|)
  {
    match op
    case I32Const(x) => Ok([x])
    case BulkConst(k) => Ok(seq(k, _ => 0))
    case Unary(u) => Ok([EvalUnary(u, args[0])])
    case WrapI64 => Ok([args[0]])
    case Binary(b) => Ok([EvalBinary(b, args[0], args[1])])
    case Division(d) =>
      (match EvalDivision(d, args[0], args[1])
       case Value(x) => Ok([x])
       case Fault(t) => Fails(t))
    case Mul64 => Ok(Product(args[0], args[1]))
    case Add64 => Ok(Sum(args[0], args[1]))
    case Select => Ok([if args[2] != 0 then args[0] else args[1]])
    case _ => Ok([])
  }

  function OnTop(rest: seq<Word>, top: Effect): Effect {
    if top.Ok? then Ok(rest + top.stack) else top
  }

  function TwoWords(n: DWord): seq<Word> { [Lo(n), Hi(n)] }

  /** The full 64-bit product and sum of two zero-extended words, low limb first. */
  function Product(x: Word, y: Word): seq<Word> { TwoWords(ToDWord(x * y)) }

  function Sum(x: Word, y: Word): seq<Word> { TwoWords(ToDWord(x + y)) }

  // ----- one step -----

  function Goto(s: State, pc: int): State { s.(pc := pc) }

  function Advance(s: State): State { s.(pc := s.pc + 1) }

  function Taken(kind: JumpKind, x: Word): bool {
    match kind case Always => true case IfEqz => x == 0 case IfNez => x != 0
  }

  function Step(c: Config, s: State): Outcome {
    if !(0 <= s.pc < |c.code|) then Stuck else Execute(c, s, c.code[s.pc])
  }

  function Execute(c: Config, s: State, op: Opcode): Outcome {
    var n := |s.stack|;
    match op
    case Unreachable => Trapped(UnreachableCodeReached)
    case Trap(t) => Trapped(t)
    case Branch(kind, offset) =>
      if kind.Always? then Next(Goto(s, s.pc + offset))
      else if n == 0 then Stuck
      else
        var s' := s.(stack := s.stack[..n - 1]);
        Next(Goto(s', if Taken(kind, s.stack[n - 1]) then s.pc + offset else s.pc + 1))
    case BrTable(targets) =>
      if n == 0 || targets == 0 then Stuck
      else
        var i := if s.stack[n - 1] < targets - 1 then s.stack[n - 1] else targets - 1;
        Next(s.(stack := s.stack[..n - 1], pc := s.pc + 2 * i + 1))
    case ConsumeFuel(k) =>
      (match Store.TryConsume(s.fuel, c.limit, k)
       case None => Trapped(OutOfFuel)
       case Some(total) => Next(Advance(s.(fuel := total))))
    case SignatureCheck(k) =>
      if s.signature.Some? && s.signature.value != k then Trapped(BadSignature)
      else Next(Advance(s.(signature := None)))
    case StackCheck(h) =>
      if n + h > c.maxLen then Trapped(StackOverflow)
      else Next(Advance(s.(cap := if n + h > s.cap then s.cap + (n + h) else s.cap)))
    case CallInternal(func) =>
      if |s.calls| >= c.maxCalls then Trapped(StackOverflow)
      else Next(s.(calls := s.calls + [s.pc + 1], pc := func))
    case Return =>
      if Watched(c, s) then Stuck
      else if s.calls == [] then Done(s)
      else Resume(c, s.(calls := s.calls[..|s.calls| - 1], pc := s.calls[|s.calls| - 1]))
    case _ => Commit(c, s, Straight(op, s.stack))
  }

  /** The running activation is the watched one. */
  predicate Watched(c: Config, s: State) { c.watch.Some? && c.watch.value.calls == s.calls }

  /** Entries the running activation may use. */
  function Room(c: Config, s: State): nat {
    if Watched(c, s) && c.watch.value.room < s.cap then c.watch.value.room else s.cap
  }

  /** A watched activation holds more than it may. */
  predicate Over(c: Config, s: State) { Watched(c, s) && |s.stack| > c.watch.value.room }

  function Resume(c: Config, s: State): Outcome { if Over(c, s) then Stuck else Next(s) }

  /** Takes over the new stack if it fits into the allocated entries. */
  function Commit(c: Config, s: State, e: Effect): Outcome {
    match e
    case Ok(w) => if |w| <= Room(c, s) then Next(Advance(s.(stack := w))) else Stuck
    case Fails(t) => Trapped(t)
    case _ => Stuck
  }

  lemma StepStraight(c: Config, s: State)
    requires 0 <= s.pc < |c.code| && !Straight(c.code[s.pc], s.stack).NotStraight?
    ensures Step(c, s) == Commit(c, s, Straight(c.code[s.pc], s.stack))
  {
  }

  // ----- runs -----

  function Steps(c: Config, s: State, n: nat): Outcome
    decreases n
  {
    if n == 0 then Next(s)
    else match Step(c, s)
      case Next(t) => Steps(c, t, n - 1)
      case o => o
  }

  ghost predicate Reaches(c: Config, s: State, o: Outcome) {
    exists n: nat :: Steps(c, s, n) == o
  }

  lemma {:induction false} StepsThen(c: Config, s: State, n: nat, t: State, m: nat)
    requires Steps(c, s, n) == Next(t)
    ensures Steps(c, s, n + m) == Steps(c, t, m)
    decreases n
  {
    if n > 0 {
      StepsThen(c, Step(c, s).state, n - 1, t, m);
    }
  }

  lemma ReachesThen(c: Config, s: State, t: State, o: Outcome)
    requires Reaches(c, s, Next(t)) && Reaches(c, t, o)
    ensures Reaches(c, s, o)
  {
    var n: nat :| Steps(c, s, n) == Next(t);
    var m: nat :| Steps(c, t, m) == o;
    StepsThen(c, s, n, t, m);
  }

  lemma ReachesStep(c: Config, s: State)
    ensures Reaches(c, s, Step(c, s))
    ensures Reaches(c, s, Next(s))
  {
    assert Steps(c, s, 0) == Next(s);
    if Step(c, s).Next? {
      assert Steps(c, Step(c, s).state, 0) == Step(c, s);
    }
    assert Steps(c, s, 1) == Step(c, s);
  }

  /** At least `k` steps lead from `s` to `t`. */
  ghost predicate Takes(c: Config, s: State, k: nat, t: State) {
    exists n: nat :: n >= k && Steps(c, s, n) == Next(t)
  }

  lemma TakesReaches(c: Config, s: State, k: nat, t: State)
    ensures Takes(c, s, k, t) ==> Reaches(c, s, Next(t))
    ensures Reaches(c, s, Next(t)) ==> Takes(c, s, 0, t)
  {
  }

  lemma TakesStep(c: Config, s: State, t: State)
    requires Step(c, s) == Next(t)
    ensures Takes(c, s, 1, t)
  {
    assert Steps(c, t, 0) == Next(t);
    assert Steps(c, s, 1) == Next(t);
  }

  lemma TakesThen(c: Config, s: State, k: nat, t: State, j: nat, u: State)
    requires Takes(c, s, k, t) && Takes(c, t, j, u)
    ensures Takes(c, s, k + j, u)
  {
    var n: nat :| n >= k && Steps(c, s, n) == Next(t);
    var m: nat :| m >= j && Steps(c, t, m) == Next(u);
    StepsThen(c, s, n, t, m);
  }

  lemma ReachesTakes(c: Config, s: State, t: State, k: nat, u: State)
    requires Reaches(c, s, Next(t)) && Takes(c, t, k, u)
    ensures Takes(c, s, k, u)
  {
    TakesReaches(c, s, 0, t);
    TakesThen(c, s, 0, t, k, u);
  }

  /** One step followed by a run. */
  lemma StepThen(c: Config, s: State, t: State, o: Outcome)
    requires Step(c, s) == Next(t) && Reaches(c, t, o)
    ensures Reaches(c, s, o)
  {
    ReachesStep(c, s);
    ReachesThen(c, s, t, o);
  }
}
