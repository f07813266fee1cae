/** The static verifier of modules, and the control flow it keeps inside the code. */
module Verifier {
  import opened Words
  import opened Opcodes
  import Codec
  import M = Machine

  const N_MAX_DATA_SEGMENTS: nat := 100_000
  const N_MAX_ELEM_SEGMENTS: nat := 100_000
  const N_MAX_TABLES: nat := 100

  datatype Error =
    | EmptyCodeSection
    | SourcePcOutOfBounds(sourcePc: Word)
    | BranchTargetOutOfBounds(pc: nat, offset: int)
    | ZeroBranchOffset(pc: nat)
    | BranchTableTargetsOutOfBounds(pc: nat, targets: Word)
    | CallTargetOutOfBounds(pc: nat, target: Word)
    | ElementTargetOutOfBounds(index: nat, target: Word)
    | LocalDepthOutOfBounds(pc: nat, depth: Word)
    | DataSegmentOutOfBounds(pc: nat, segment: Word)
    | ElementSegmentOutOfBounds(pc: nat, segment: Word)
    | TableIndexOutOfBounds(pc: nat, table: U16)
    | MissingTableIndexPayload(pc: nat)
    | InvalidTableIndexPayload(pc: nat)

  function VerifyBranch(n: nat, pc: nat, offset: int): Option<Error> {
    if offset == 0 then Some(ZeroBranchOffset(pc))
    else if pc + offset < 0 || pc + offset >= n then Some(BranchTargetOutOfBounds(pc, offset))
    else None
  }

  function VerifyTable(pc: nat, table: U16): Option<Error> {
    if table >= N_MAX_TABLES then Some(TableIndexOutOfBounds(pc, table)) else None
  }

  function VerifyPayload(code: seq<Opcode>, pc: nat): Option<Error> {
    if pc + 1 >= |code| then Some(MissingTableIndexPayload(pc))
    else match code[pc + 1]
      case Table(op, table) => if op.TableGet? then VerifyTable(pc, table) else Some(InvalidTableIndexPayload(pc))
      case _ => Some(InvalidTableIndexPayload(pc))
  }

  function VerifyCall(n: nat, pc: nat, target: Word): Option<Error> {
    if target >= n then Some(CallTargetOutOfBounds(pc, target)) else None
  }

  function VerifySegment(code: seq<Opcode>, pc: nat, op: SegmentOp, segment: Word): Option<Error> {
    match op
    case MemoryInit => if segment >= N_MAX_DATA_SEGMENTS then Some(DataSegmentOutOfBounds(pc, segment)) else None
    case DataDrop => if segment >= N_MAX_DATA_SEGMENTS then Some(DataSegmentOutOfBounds(pc, segment)) else None
    case TableInit =>
      if segment >= N_MAX_ELEM_SEGMENTS then Some(ElementSegmentOutOfBounds(pc, segment)) else VerifyPayload(code, pc)
    case ElemDrop => if segment >= N_MAX_ELEM_SEGMENTS then Some(ElementSegmentOutOfBounds(pc, segment)) else None
  }

  function VerifyOpcode(code: seq<Opcode>, pc: nat): Option<Error>
    requires pc < |code|
  {
    match code[pc]
    case Branch(_, offset) => VerifyBranch(|code|, pc, offset)
    case BrTable(targets) =>
      if targets == 0 || pc + 2 * targets >= |code| then Some(BranchTableTargetsOutOfBounds(pc, targets)) else None
    case CallInternal(target) => VerifyCall(|code|, pc, target)
    case ReturnCallInternal(target) => VerifyCall(|code|, pc, target)
    case RefFunc(target) => if target == 0 then None else VerifyCall(|code|, pc, target)
    case CallIndirect(_) => VerifyPayload(code, pc)
    case ReturnCallIndirect(_) => VerifyPayload(code, pc)
    case LocalGet(depth) => if depth == 0 then Some(LocalDepthOutOfBounds(pc, depth)) else None
    case LocalSet(depth) => if depth == 0 then Some(LocalDepthOutOfBounds(pc, depth)) else None
    case LocalTee(depth) => if depth == 0 then Some(LocalDepthOutOfBounds(pc, depth)) else None
    case Segment(op, segment) => VerifySegment(code, pc, op, segment)
    case Table(_, table) => VerifyTable(pc, table)
    case TableCopy(dst, src) => if VerifyTable(pc, dst).Some? then VerifyTable(pc, dst) else VerifyTable(pc, src)
    case _ => None
  }

  /** The first opcode from `pc` on that is refused. */
  function VerifyCode(code: seq<Opcode>, pc: nat): Option<Error>
    requires pc <= |code|
    decreases |code| - pc
  {
    if pc == |code| then None
    else if VerifyOpcode(code, pc).Some? then VerifyOpcode(code, pc)
    else VerifyCode(code, pc + 1)
  }

  function VerifyElements(elems: seq<Word>, n: nat, i: nat): Option<Error>
    requires i <= |elems|
    decreases |elems| - i
  {
    if i == |elems| then None
    else if elems[i] != 0 && elems[i] >= n then Some(ElementTargetOutOfBounds(i, elems[i]))
    else VerifyElements(elems, n, i + 1)
  }

  function Verify(m: Codec.Module): Option<Error> {
    var code := m.sections.code;
    if code == [] then Some(EmptyCodeSection)
    else if m.sourcePc >= |code| then Some(SourcePcOutOfBounds(m.sourcePc))
    else if VerifyElements(m.sections.elems, |code|, 0).Some? then VerifyElements(m.sections.elems, |code|, 0)
    else VerifyCode(code, 0)
  }

  // ----- what acceptance means -----

  lemma {:induction false} CodeAccepted(code: seq<Opcode>, pc: nat)
    requires pc <= |code|
    ensures VerifyCode(code, pc).None? <==> forall i :: pc <= i < |code| ==> VerifyOpcode(code, i).None?
    decreases |code| - pc
  {
    if pc < |code| {
      hide VerifyOpcode;
      CodeAccepted(code, pc + 1);
    }
  }

  lemma {:induction false} ElementsAccepted(elems: seq<Word>, n: nat, i: nat)
    requires i <= |elems|
    ensures VerifyElements(elems, n, i).None? <==> forall j :: i <= j < |elems| ==> elems[j] == 0 || elems[j] < n
    decreases |elems| - i
  {
    if i < |elems| {
      ElementsAccepted(elems, n, i + 1);
    }
  }

  /** Where branches, tables of branches and calls may lead, which depths, tables and segments exist, and what must
      follow the opcodes that read a payload. */
  ghost predicate InOrder(code: seq<Opcode>, i: nat)
    requires i < |code|
  {
    var n := |code|;
    match code[i]
    case Branch(_, offset) => offset != 0 && 0 <= i + offset < n
    case BrTable(targets) => targets > 0 && i + 2 * targets < n
    case CallInternal(func) => func < n
    case ReturnCallInternal(func) => func < n
    case RefFunc(func) => func == 0 || func < n
    case LocalGet(depth) => depth > 0
    case LocalSet(depth) => depth > 0
    case LocalTee(depth) => depth > 0
    case CallIndirect(_) => PayloadFollows(code, i)
    case ReturnCallIndirect(_) => PayloadFollows(code, i)
    case Segment(seg, segment) => segment < 100_000 && (seg.TableInit? ==> PayloadFollows(code, i))
    case Table(_, index) => index < 100
    case TableCopy(dst, src) => dst < 100 && src < 100
    case _ => true
  }

  ghost predicate PayloadFollows(code: seq<Opcode>, i: nat) {
    i + 1 < |code| && code[i + 1].Table? && code[i + 1].table.TableGet? && code[i + 1].index < 100
  }

  ghost predicate AllInOrder(code: seq<Opcode>) { forall i :: 0 <= i < |code| ==> InOrder(code, i) }

  lemma VerifiedInOrder(code: seq<Opcode>, i: nat)
    requires i < |code|
    ensures VerifyOpcode(code, i).None? <==> InOrder(code, i)
  {
  }

  /** A module is accepted exactly if its entry and its elements lie inside the code and all its opcodes are in
      order. */
  lemma Accepted(m: Codec.Module)
    ensures Verify(m).None? <==>
              && m.sourcePc < |m.sections.code|
              && (forall j :: 0 <= j < |m.sections.elems| ==>
                  m.sections.elems[j] == 0 || m.sections.elems[j] < |m.sections.code|)
              && AllInOrder(m.sections.code)
  {
    hide VerifyOpcode;
    hide InOrder;
    CodeAccepted(m.sections.code, 0);
    ElementsAccepted(m.sections.elems, |m.sections.code|, 0);
    forall i | 0 <= i < |m.sections.code|
      ensures VerifyOpcode(m.sections.code, i).None? <==> InOrder(m.sections.code, i)
    {
      VerifiedInOrder(m.sections.code, i);
    }
  }

  /** What each error says of the code. */
  ghost predicate Blames(code: seq<Opcode>, pc: nat, e: Error)
    requires pc < |code|
  {
    var n := |code|;
    match code[pc]
    case Branch(_, offset) =>
      e == if offset == 0 then ZeroBranchOffset(pc) else BranchTargetOutOfBounds(pc, offset)
    case BrTable(targets) => e == BranchTableTargetsOutOfBounds(pc, targets)
    case CallInternal(func) => e == CallTargetOutOfBounds(pc, func)
    case ReturnCallInternal(func) => e == CallTargetOutOfBounds(pc, func)
    case RefFunc(func) => e == CallTargetOutOfBounds(pc, func)
    case LocalGet(depth) => e == LocalDepthOutOfBounds(pc, 0)
    case LocalSet(depth) => e == LocalDepthOutOfBounds(pc, 0)
    case LocalTee(depth) => e == LocalDepthOutOfBounds(pc, 0)
    case CallIndirect(_) => BlamesPayload(code, pc, e)
    case ReturnCallIndirect(_) => BlamesPayload(code, pc, e)
    case Segment(seg, segment) =>
      if segment < 100_000 then BlamesPayload(code, pc, e)
      else if seg.MemoryInit? || seg.DataDrop? then e == DataSegmentOutOfBounds(pc, segment)
      else e == ElementSegmentOutOfBounds(pc, segment)
    case Table(_, index) => e == TableIndexOutOfBounds(pc, index)
    case TableCopy(dst, src) => e == TableIndexOutOfBounds(pc, if dst < 100 then src else dst)
    case _ => false
  }

  ghost predicate BlamesPayload(code: seq<Opcode>, pc: nat, e: Error) {
    if pc + 1 >= |code| then e == MissingTableIndexPayload(pc)
    else if code[pc + 1].Table? && code[pc + 1].table.TableGet? then e == TableIndexOutOfBounds(pc, code[pc + 1].index)
    else e == InvalidTableIndexPayload(pc)
  }

  lemma OpcodeBlamed(code: seq<Opcode>, pc: nat)
    requires pc < |code| && VerifyOpcode(code, pc).Some?
    ensures !InOrder(code, pc) && Blames(code, pc, VerifyOpcode(code, pc).value)
  {
  }

  /** A refused module is refused for the first thing that is wrong with it: no code, the entry, the first element
      outside, the first opcode that is not in order. */
  lemma Refused(m: Codec.Module)
    requires Verify(m).Some?
    ensures var code, elems, e := m.sections.code, m.sections.elems, Verify(m).value;
            || (code == [] && e == EmptyCodeSection)
            || (code != [] && m.sourcePc >= |code| && e == SourcePcOutOfBounds(m.sourcePc))
            || (m.sourcePc < |code| && ElementRefused(elems, |code|, e))
            || (m.sourcePc < |code| && (forall j :: 0 <= j < |elems| ==> elems[j] == 0 || elems[j] < |code|)
                && OpcodeRefused(code, e))
  {
    hide VerifyOpcode;
    hide InOrder;
    hide Blames;
    var code, elems := m.sections.code, m.sections.elems;
    ElementsAccepted(elems, |code|, 0);
    if code != [] && m.sourcePc < |code| {
      if VerifyElements(elems, |code|, 0).Some? {
        ElementsRefused(elems, |code|, 0);
      } else {
        CodeRefused(code, 0);
      }
    }
  }

  ghost predicate FirstOutside(elems: seq<Word>, n: nat, j: nat)
    requires j < |elems|
  {
    elems[j] != 0 && elems[j] >= n && forall k :: 0 <= k < j ==> elems[k] == 0 || elems[k] < n
  }

  ghost predicate FirstFault(code: seq<Opcode>, pc: nat)
    requires pc < |code|
  {
    !InOrder(code, pc) && forall i :: 0 <= i < pc ==> InOrder(code, i)
  }

  ghost predicate ElementRefused(elems: seq<Word>, n: nat, e: Error) {
    exists j: nat | j < |elems| :: FirstOutside(elems, n, j) && e == ElementTargetOutOfBounds(j, elems[j])
  }

  ghost predicate OpcodeRefused(code: seq<Opcode>, e: Error) {
    exists pc: nat | pc < |code| :: FirstFault(code, pc) && Blames(code, pc, e)
  }

  lemma {:induction false} ElementsRefused(elems: seq<Word>, n: nat, i: nat)
    requires i <= |elems| && VerifyElements(elems, n, i).Some?
    requires forall k :: 0 <= k < i ==> elems[k] == 0 || elems[k] < n
    ensures ElementRefused(elems, n, VerifyElements(elems, n, i).value)
    decreases |elems| - i
  {
    if elems[i] != 0 && elems[i] >= n {
      assert FirstOutside(elems, n, i);
    } else {
      ElementsRefused(elems, n, i + 1);
    }
  }

  lemma {:induction false} CodeRefused(code: seq<Opcode>, i: nat)
    requires i <= |code| && VerifyCode(code, i).Some?
    requires forall k :: 0 <= k < i ==> InOrder(code, k)
    ensures OpcodeRefused(code, VerifyCode(code, i).value)
    decreases |code| - i
  {
    hide VerifyOpcode;
    hide InOrder;
    hide Blames;
    VerifiedInOrder(code, i);
    if VerifyOpcode(code, i).Some? {
      OpcodeBlamed(code, i);
      assert FirstFault(code, i);
    } else {
      CodeRefused(code, i + 1);
    }
  }

  // ----- control flow, whatever the stack and the memory hold -----

  datatype Control = Control(pc: int, calls: seq<int>)

  predicate Indirect(op: Opcode) { op.CallIndirect? || op.ReturnCallIndirect? }

  predicate Traps(op: Opcode) { op.Unreachable? || op.Trap? }

  /** The states an opcode at the program counter can lead to. */
  ghost predicate Successor(code: seq<Opcode>, s: Control, t: Control) {
    0 <= s.pc < |code| &&
    match code[s.pc]
    case Branch(kind, offset) => t.calls == s.calls && (t.pc == s.pc + offset || (!kind.Always? && t.pc == s.pc + 1))
    case BrTable(targets) => t.calls == s.calls && exists i :: 0 <= i < targets && t.pc == Slot(s.pc, i)
    case Return => s.calls != [] && t == Control(s.calls[|s.calls| - 1], s.calls[..|s.calls| - 1])
    case CallInternal(f) => |s.calls| < M.MAX_RECURSION_DEPTH && t == Control(f, s.calls + [s.pc + 1])
    case ReturnCallInternal(f) => t == Control(f, s.calls)
    case Segment(op, _) => t == Control(s.pc + (if op.TableInit? then 2 else 1), s.calls)
    case _ => !Indirect(code[s.pc]) && !Traps(code[s.pc]) && t == Control(s.pc + 1, s.calls)
  }

  /** The first word of slot `i` of the branch table at `pc`. */
  function Slot(pc: int, i: nat): int { pc + 1 + 2 * i }

  /** A run from one state to another. */
  ghost predicate Run(code: seq<Opcode>, states: seq<Control>) {
    states != [] && forall i :: 0 < i < |states| ==> Successor(code, states[i - 1], states[i])
  }

  /** Everything the machine reads code through points into the code. */
  ghost predicate Safe(code: seq<Opcode>, s: Control) {
    && 0 <= s.pc < |code|
    && (forall i :: 0 <= i < |s.calls| ==> 0 <= s.calls[i] < |code|)
    && (code[s.pc].BrTable? ==> forall i :: 0 <= i < code[s.pc].targets ==> Slot(s.pc, i) + 1 < |code|)
    && (code[s.pc].Segment? && code[s.pc].seg.TableInit? ==>
        s.pc + 1 < |code| && code[s.pc + 1].Table? && code[s.pc + 1].table.TableGet?)
  }

  /** Opcodes after which the next one runs, now or when a call returns. */
  predicate FallsThrough(op: Opcode) {
    !op.Return? && !op.Unreachable? && !op.Trap? && !op.ReturnCallInternal? && !Indirect(op)
    && !(op.Branch? && op.kind.Always?)
  }

  predicate Direct(code: seq<Opcode>) { forall i :: 0 <= i < |code| ==> !Indirect(code[i]) }

  /** No run can go past the last opcode; compiled modules end with `return`. */
  predicate Sealed(code: seq<Opcode>) { code != [] && !FallsThrough(code[|code| - 1]) && Direct(code) }

  lemma Reads(code: seq<Opcode>, s: Control)
    requires 0 <= s.pc < |code| && InOrder(code, s.pc)
    requires forall i :: 0 <= i < |s.calls| ==> 0 <= s.calls[i] < |code|
    ensures Safe(code, s)
  {
  }

  /** Opcodes followed by a payload take two places. */
  function Size(op: Opcode): nat { if op.Segment? && op.seg.TableInit? then 2 else 1 }

  /** The last opcode of the code is about to run, and what is behind it comes next, now or when a call returns. */
  predicate RunsOff(code: seq<Opcode>, s: Control) {
    && 0 <= s.pc < |code| && s.pc + Size(code[s.pc]) == |code|
    && FallsThrough(code[s.pc]) && (code[s.pc].CallInternal? ==> |s.calls| < M.MAX_RECURSION_DEPTH)
  }

  /** One step keeps a verified module safe, unless it runs off the end. */
  lemma StepSafe(code: seq<Opcode>, s: Control, t: Control)
    requires Direct(code) && AllInOrder(code)
    requires Safe(code, s) && !RunsOff(code, s) && Successor(code, s, t)
    ensures Safe(code, t)
  {
    assert 0 <= t.pc < |code| by { TargetInside(code, s, t); }
    hide InOrder;
    Reads(code, t);
  }

  lemma TargetInside(code: seq<Opcode>, s: Control, t: Control)
    requires Direct(code) && Safe(code, s) && !RunsOff(code, s) && Successor(code, s, t)
    requires InOrder(code, s.pc)
    ensures 0 <= t.pc < |code| && forall i :: 0 <= i < |t.calls| ==> 0 <= t.calls[i] < |code|
  {
  }

  /** Running off the end is not safe. */
  lemma LeavesCode(code: seq<Opcode>, s: Control) returns (t: Control)
    requires Direct(code) && RunsOff(code, s) && InOrder(code, s.pc)
    ensures Successor(code, s, t) && !Safe(code, t)
  {
    var n := |code|;
    match code[s.pc]
    case CallInternal(f) =>
      t := Control(f, s.calls + [n]);
      assert t.calls[|s.calls|] == n;
    case BrTable(targets) =>
      assert false;
    case _ => t := Control(n, s.calls);
  }

  /** In a sealed module nothing runs off the end. */
  lemma SealedEnds(code: seq<Opcode>, s: Control)
    requires Sealed(code) && 0 <= s.pc < |code| && InOrder(code, s.pc)
    ensures !RunsOff(code, s)
  {
  }

  /** A run of the module from its start or from its source entry. */
  ghost predicate FromEntry(m: Codec.Module, states: seq<Control>) {
    Run(m.sections.code, states) && states[0] in {Control(0, []), Control(m.sourcePc, [])}
  }

  ghost predicate AllSafe(code: seq<Opcode>, states: seq<Control>) {
    forall i :: 0 <= i < |states| ==> Safe(code, states[i])
  }

  lemma {:induction false} SafeUntilEnd(m: Codec.Module, states: seq<Control>)
    requires Verify(m).None? && Direct(m.sections.code) && FromEntry(m, states)
    requires forall i :: 0 <= i < |states| - 1 ==> !RunsOff(m.sections.code, states[i])
    ensures AllSafe(m.sections.code, states)
    decreases |states|
  {
    var code, n := m.sections.code, |states| - 1;
    Accepted(m);
    hide Verify;
    hide InOrder;
    hide Successor;
    hide Safe;
    hide RunsOff;
    if n == 0 {
      Reads(code, states[0]);
    } else {
      SafeUntilEnd(m, states[..n]);
      assert Safe(code, states[..n][n - 1]);
      assert Successor(code, states[n - 1], states[n]);
      StepSafe(code, states[n - 1], states[n]);
      forall i | 0 <= i <= n ensures Safe(code, states[i]) {
        if i < n {
          assert states[..n][i] == states[i];
        }
      }
    }
  }

  /** Verifier safety: in an accepted module whose last opcode does not fall through and that makes no indirect
      calls, every run from the start or from the source entry keeps the program counter, all return addresses, all
      slots of branch tables and all payloads inside the code, whatever the stack holds. */
  lemma RunsStaySafe(m: Codec.Module, states: seq<Control>)
    requires Verify(m).None? && Sealed(m.sections.code) && FromEntry(m, states)
    ensures AllSafe(m.sections.code, states)
  {
    var code := m.sections.code;
    Accepted(m);
    hide Verify;
    hide InOrder;
    hide RunsOff;
    hide AllSafe;
    hide Successor;
    forall i | 0 <= i < |states| - 1 ensures !RunsOff(code, states[i]) {
      assert Successor(code, states[i + 1 - 1], states[i + 1]);
      Standing(code, states[i], states[i + 1]);
      SealedEnds(code, states[i]);
    }
    SafeUntilEnd(m, states);
  }

  lemma Standing(code: seq<Opcode>, s: Control, t: Control)
    requires Successor(code, s, t)
    ensures 0 <= s.pc < |code|
  {
  }

  ghost predicate NeverRunsOff(m: Codec.Module) {
    forall states :: FromEntry(m, states) ==> !RunsOff(m.sections.code, states[|states| - 1])
  }

  /** The exact condition: all runs of an accepted module without indirect calls stay safe if and only if its last
      opcode does not fall through, or none of them gets there. */
  lemma SafetyNeedsSealing(m: Codec.Module)
    requires Verify(m).None? && Direct(m.sections.code)
    ensures (forall states :: FromEntry(m, states) ==> AllSafe(m.sections.code, states)) <==> NeverRunsOff(m)
    ensures Sealed(m.sections.code) ==> NeverRunsOff(m)
  {
    var code := m.sections.code;
    hide Verify;
    hide InOrder;
    hide RunsOff;
    hide AllSafe;
    hide Successor;
    hide Sealed;
    if NeverRunsOff(m) {
      forall states | FromEntry(m, states) ensures AllSafe(code, states) {
        forall i | 0 <= i < |states| - 1 ensures !RunsOff(code, states[i]) {
          assert FromEntry(m, states[..i + 1]);
        }
        SafeUntilEnd(m, states);
      }
    } else {
      var states :| FromEntry(m, states) && RunsOff(code, states[|states| - 1]);
      EndsUnsafe(m, states);
    }
    if Sealed(code) {
      forall states | FromEntry(m, states) ensures !RunsOff(code, states[|states| - 1]) {
        RunsStaySafe(m, states);
        SealedAtEnd(m, states);
      }
    }
  }

  lemma SealedAtEnd(m: Codec.Module, states: seq<Control>)
    requires Verify(m).None? && Sealed(m.sections.code) && states != [] && AllSafe(m.sections.code, states)
    ensures !RunsOff(m.sections.code, states[|states| - 1])
  {
    Accepted(m);
    hide Verify;
    assert Safe(m.sections.code, states[|states| - 1]);
    SealedEnds(m.sections.code, states[|states| - 1]);
  }

  lemma EndsUnsafe(m: Codec.Module, states: seq<Control>)
    requires Verify(m).None? && Direct(m.sections.code) && FromEntry(m, states)
    requires RunsOff(m.sections.code, states[|states| - 1])
    ensures exists more :: FromEntry(m, more) && !AllSafe(m.sections.code, more)
  {
    var code := m.sections.code;
    Accepted(m);
    hide Verify;
    hide InOrder;
    var t := LeavesCode(code, states[|states| - 1]);
    hide Successor;
    hide Safe;
    var more := states + [t];
    assert FromEntry(m, more);
    assert !Safe(code, more[|states|]);
  }

  /** The machine takes only such steps. */
  lemma StepIsSuccessor(c: M.Config, s: M.State, t: M.State)
    requires M.Step(c, s) == M.Next(t) && c.maxCalls <= M.MAX_RECURSION_DEPTH
    ensures Successor(c.code, Control(s.pc, s.calls), Control(t.pc, t.calls))
  {
    hide M.Straight;
    var op := c.code[s.pc];
    if op.BrTable? {
      var x := s.stack[|s.stack| - 1];
      var i := if x < op.targets - 1 then x else op.targets - 1;
      assert t.pc == Slot(s.pc, i);
    } else if op.Segment? || Indirect(op) || op.ReturnCallInternal? {
      NotStraight(op, s.stack);
    }
  }

  lemma NotStraight(op: Opcode, w: seq<Word>)
    requires op.Segment? || Indirect(op) || op.ReturnCallInternal?
    ensures M.Straight(op, w).NotStraight?
  {
  }

  /** A smallest accepted module whose first step leaves the code. */
  lemma MayFallOff()
    ensures var m := Codec.Module(Codec.Sections([Drop], [], [], []), 0);
            && Verify(m).None?
            && Successor(m.sections.code, Control(0, []), Control(1, []))
            && !Safe(m.sections.code, Control(1, []))
  {
    var m := Codec.Module(Codec.Sections([Drop], [], [], []), 0);
    Accepted(m);
  }
}
