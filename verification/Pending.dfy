/** What emitted opcodes stand for while labels, snippet calls and the stack height are still pending. */
module Pending {
  import opened Words
  import opened Opcodes
  import opened Labels
  import opened Source
  import opened Translator

  /** Operand of a snippet call or stack check that is filled in later. */
  const UNRESOLVED: Word := 0xFFFF_FFFF

  /** A call whose callee is emitted once the whole module is translated. */
  datatype SnippetCall = SnippetCall(loc: nat, snippet: Snippet)

  /** The opcode at `at` stands for the symbolic one: its branch offset is right or has a user to fill it in. */
  ghost predicate Stands(op: Opcode, at: nat, sym: SymOp, labels: seq<Option<nat>>, users: seq<LabelUser>,
                         calls: seq<SnippetCall>) {
    match sym
    case Op(o) => op == o
    case Jump(kind, l) =>
      && op.Branch? && op.kind == kind && l < |labels|
      && (LabelUser(l, at) in users || (labels[l].Some? && op.offset == labels[l].value - at))
    case CallSnippet(sn) => op == CallInternal(UNRESOLVED) && SnippetCall(at, sn) in calls
    case ReserveStack => op == StackCheck(UNRESOLVED)
  }

  ghost predicate StandsAt(ops: seq<Opcode>, sym: seq<SymOp>, i: nat, from: nat, labels: seq<Option<nat>>,
                           users: seq<LabelUser>, calls: seq<SnippetCall>)
    requires i < |ops| && i < |sym|
  {
    Stands(ops[i], from + i, sym[i], labels, users, calls)
  }

  /** Consecutive opcodes, the first of them at position `from`. */
  ghost predicate Segment(ops: seq<Opcode>, sym: seq<SymOp>, from: nat, labels: seq<Option<nat>>, users: seq<LabelUser>,
                          calls: seq<SnippetCall>) {
    |ops| == |sym| && forall i :: 0 <= i < |ops| ==> StandsAt(ops, sym, i, from, labels, users, calls)
  }

  /** Opcode `at` of code that starts at `from` is a jump to the label. */
  ghost predicate Uses(code: seq<SymOp>, from: nat, u: LabelUser) {
    from <= u.user < from + |code| && code[u.user - from].Jump? && code[u.user - from].target == u.lab
  }

  ghost predicate UsersFine(code: seq<SymOp>, users: seq<LabelUser>) {
    forall j :: 0 <= j < |users| ==> Uses(code, 0, users[j])
  }

  /** Snippet calls are recorded in the order of their positions. */
  ghost predicate CallsFine(code: seq<SymOp>, calls: seq<SnippetCall>) {
    && (forall j :: 0 <= j < |calls| ==> calls[j].loc < |code| && code[calls[j].loc] == CallSnippet(calls[j].snippet))
    && (forall j, k :: 0 <= j < k < |calls| ==> calls[j].loc < calls[k].loc)
  }

  ghost predicate Represents(ops: seq<Opcode>, code: seq<SymOp>, labels: seq<Option<nat>>, users: seq<LabelUser>,
                             calls: seq<SnippetCall>) {
    Segment(ops, code, 0, labels, users, calls) && UsersFine(code, users) && CallsFine(code, calls)
  }

  /** Registrations are only added, and pinned labels stay where they are. */
  lemma SegmentLater(ops: seq<Opcode>, sym: seq<SymOp>, from: nat, labels: seq<Option<nat>>, users: seq<LabelUser>,
                     calls: seq<SnippetCall>, labels': seq<Option<nat>>, users': seq<LabelUser>,
                     calls': seq<SnippetCall>)
    requires Segment(ops, sym, from, labels, users, calls)
    requires StillPinned(labels, labels') && users <= users' && calls <= calls'
    ensures Segment(ops, sym, from, labels', users', calls')
  {
    forall i | 0 <= i < |ops| ensures StandsAt(ops, sym, i, from, labels', users', calls') {
      assert StandsAt(ops, sym, i, from, labels, users, calls);
    }
  }

  lemma SegmentAppend(a: seq<Opcode>, x: seq<SymOp>, b: seq<Opcode>, y: seq<SymOp>, from: nat, labels: seq<Option<nat>>,
                      users: seq<LabelUser>, calls: seq<SnippetCall>)
    requires Segment(a, x, from, labels, users, calls) && Segment(b, y, from + |a|, labels, users, calls)
    ensures Segment(a + b, x + y, from, labels, users, calls)
  {
    forall i | 0 <= i < |a + b| ensures StandsAt(a + b, x + y, i, from, labels, users, calls) {
      if i < |a| {
        assert StandsAt(a, x, i, from, labels, users, calls);
      } else {
        assert StandsAt(b, y, i - |a|, from + |a|, labels, users, calls);
      }
    }
  }

  lemma SegmentOps(ops: seq<Opcode>, from: nat, labels: seq<Option<nat>>, users: seq<LabelUser>,
                   calls: seq<SnippetCall>)
    ensures Segment(ops, Ops(ops), from, labels, users, calls)
  {
  }

  lemma UsersLater(code: seq<SymOp>, more: seq<SymOp>, users: seq<LabelUser>)
    requires UsersFine(code, users)
    ensures UsersFine(code + more, users)
  {
    forall j | 0 <= j < |users| ensures Uses(code + more, 0, users[j]) {
      assert Uses(code, 0, users[j]);
    }
  }

  /** Concrete opcodes are appended as they are. */
  lemma EmitsOps(instr: seq<Opcode>, code: seq<SymOp>, ops: seq<Opcode>, labels: seq<Option<nat>>,
                 users: seq<LabelUser>, calls: seq<SnippetCall>)
    requires Represents(instr, code, labels, users, calls)
    ensures Represents(instr + ops, code + Ops(ops), labels, users, calls)
  {
    SegmentOps(ops, |instr|, labels, users, calls);
    SegmentAppend(instr, code, ops, Ops(ops), 0, labels, users, calls);
    UsersLater(code, Ops(ops), users);
    hide Segment;
    hide UsersFine;
  }

  /** A jump is appended with the offset to its label, or with a user for it. */
  lemma EmitsJump(instr: seq<Opcode>, code: seq<SymOp>, op: Opcode, kind: JumpKind, l: nat,
                  labels: seq<Option<nat>>, users: seq<LabelUser>, users': seq<LabelUser>, calls: seq<SnippetCall>)
    requires Represents(instr, code, labels, users, calls)
    requires l < |labels| && users' == users + UserFor(labels, l, |instr|)
    requires op.Branch? && op.kind == kind && (labels[l].Some? ==> op.offset == labels[l].value - |instr|)
    ensures Represents(instr + [op], code + [Jump(kind, l)], labels, users', calls)
  {
    SegmentLater(instr, code, 0, labels, users, calls, labels, users', calls);
    if labels[l].None? {
      assert users'[|users|] == LabelUser(l, |instr|);
    }
    assert StandsAt([op], [Jump(kind, l)], 0, |instr|, labels, users', calls);
    SegmentAppend(instr, code, [op], [Jump(kind, l)], 0, labels, users', calls);
    UsersLater(code, [Jump(kind, l)], users);
    forall j | 0 <= j < |users'| ensures Uses(code + [Jump(kind, l)], 0, users'[j]) {
      if j < |users| {
        assert Uses(code + [Jump(kind, l)], 0, users[j]);
      }
    }
    hide Segment;
  }

  lemma EmitsCall(instr: seq<Opcode>, code: seq<SymOp>, sn: Snippet, labels: seq<Option<nat>>, users: seq<LabelUser>,
                  calls: seq<SnippetCall>)
    requires Represents(instr, code, labels, users, calls)
    ensures Represents(instr + [CallInternal(UNRESOLVED)], code + [CallSnippet(sn)], labels, users,
                       calls + [SnippetCall(|instr|, sn)])
  {
    var op, sym, calls' := CallInternal(UNRESOLVED), CallSnippet(sn), calls + [SnippetCall(|instr|, sn)];
    SegmentLater(instr, code, 0, labels, users, calls, labels, users, calls');
    assert calls'[|calls|] == SnippetCall(|instr|, sn);
    assert StandsAt([op], [sym], 0, |instr|, labels, users, calls');
    SegmentAppend(instr, code, [op], [sym], 0, labels, users, calls');
    UsersLater(code, [sym], users);
  }

  lemma EmitsReserve(instr: seq<Opcode>, code: seq<SymOp>, labels: seq<Option<nat>>, users: seq<LabelUser>,
                     calls: seq<SnippetCall>)
    requires Represents(instr, code, labels, users, calls)
    ensures Represents(instr + [StackCheck(UNRESOLVED)], code + [ReserveStack], labels, users, calls)
  {
    assert StandsAt([StackCheck(UNRESOLVED)], [ReserveStack], 0, |instr|, labels, users, calls);
    SegmentAppend(instr, code, [StackCheck(UNRESOLVED)], [ReserveStack], 0, labels, users, calls);
    UsersLater(code, [ReserveStack], users);
  }

  /** Concrete opcodes may be replaced in place. */
  lemma Replaces(instr: seq<Opcode>, code: seq<SymOp>, at: nat, op: Opcode, labels: seq<Option<nat>>,
                 users: seq<LabelUser>, calls: seq<SnippetCall>)
    requires Represents(instr, code, labels, users, calls) && at < |code| && code[at].Op?
    ensures Represents(instr[at := op], code[at := Op(op)], labels, users, calls)
  {
    var instr', code' := instr[at := op], code[at := Op(op)];
    forall i | 0 <= i < |instr'| ensures StandsAt(instr', code', i, 0, labels, users, calls) {
      assert StandsAt(instr, code, i, 0, labels, users, calls);
    }
    forall j | 0 <= j < |users| ensures Uses(code', 0, users[j]) {
      assert Uses(code, 0, users[j]);
    }
  }

  lemma Relabels(instr: seq<Opcode>, code: seq<SymOp>, labels: seq<Option<nat>>, users: seq<LabelUser>,
                 calls: seq<SnippetCall>, labels': seq<Option<nat>>)
    requires Represents(instr, code, labels, users, calls) && StillPinned(labels, labels')
    ensures Represents(instr, code, labels', users, calls)
  {
    SegmentLater(instr, code, 0, labels, users, calls, labels', users, calls);
  }

  /** The opcode that a concrete symbolic one is. */
  lemma ConcreteAt(instr: seq<Opcode>, code: seq<SymOp>, at: nat, labels: seq<Option<nat>>, users: seq<LabelUser>,
                   calls: seq<SnippetCall>)
    requires Represents(instr, code, labels, users, calls) && at < |code|
    ensures |instr| == |code| && (code[at].Op? ==> instr[at] == code[at].op)
    ensures instr[at].ConsumeFuel? ==> code[at].Op?
  {
    assert StandsAt(instr, code, at, 0, labels, users, calls);
  }

  // ----- branch tables -----

  /** The user that a jump to `l` at `pos` needs. */
  function UserFor(labels: seq<Option<nat>>, l: nat, pos: nat): seq<LabelUser>
    requires l < |labels|
  {
    if labels[l].Some? then [] else [LabelUser(l, pos)]
  }

  /** While a branch table is built, its slots and trampolines are not part of the code yet. */
  ghost predicate Staged(code: seq<SymOp>, slots: seq<SymOp>, trampolines: seq<SymOp>, size: nat,
                         users: seq<LabelUser>) {
    forall j :: 0 <= j < |users| ==> StagedUser(code, slots, trampolines, size, users[j])
  }

  ghost predicate StagedUser(code: seq<SymOp>, slots: seq<SymOp>, trampolines: seq<SymOp>, size: nat, u: LabelUser) {
    Uses(code, 0, u) || Uses(slots, |code| + 1, u) || Uses(trampolines, |code| + 1 + size, u)
  }

  lemma StagedLater(code: seq<SymOp>, slots: seq<SymOp>, trampolines: seq<SymOp>, size: nat, users: seq<LabelUser>,
                    moreSlots: seq<SymOp>, moreTrampolines: seq<SymOp>, u: seq<LabelUser>)
    requires Staged(code, slots, trampolines, size, users)
    requires |u| <= 1
    requires |u| == 1 ==> StagedUser(code, slots + moreSlots, trampolines + moreTrampolines, size, u[0])
    ensures Staged(code, slots + moreSlots, trampolines + moreTrampolines, size, users + u)
  {
    forall j | 0 <= j < |users + u| ensures StagedUser(code, slots + moreSlots, trampolines + moreTrampolines, size,
                                                       (users + u)[j]) {
      if j < |users| {
        assert StagedUser(code, slots, trampolines, size, users[j]);
      }
    }
  }

  /** A table jump at the end of a segment. */
  lemma JumpJoins(ops: seq<Opcode>, sym: seq<SymOp>, from: nat, op: Opcode, kind: JumpKind, l: nat,
                  labels: seq<Option<nat>>, users: seq<LabelUser>, calls: seq<SnippetCall>)
    requires Segment(ops, sym, from, labels, users, calls) && l < |labels|
    requires op.Branch? && op.kind == kind && (labels[l].Some? ==> op.offset == labels[l].value - (from + |ops|))
    ensures Segment(ops + [op], sym + [Jump(kind, l)], from, labels, users + UserFor(labels, l, from + |ops|), calls)
  {
    var users' := users + UserFor(labels, l, from + |ops|);
    SegmentLater(ops, sym, from, labels, users, calls, labels, users', calls);
    if labels[l].None? {
      assert users'[|users|] == LabelUser(l, from + |ops|);
    }
    assert StandsAt([op], [Jump(kind, l)], 0, from + |ops|, labels, users', calls);
    SegmentAppend(ops, sym, [op], [Jump(kind, l)], from, labels, users', calls);
  }

  lemma OpsJoin(ops: seq<Opcode>, sym: seq<SymOp>, from: nat, more: seq<Opcode>, labels: seq<Option<nat>>,
                users: seq<LabelUser>, calls: seq<SnippetCall>)
    requires Segment(ops, sym, from, labels, users, calls)
    ensures Segment(ops + more, sym + Ops(more), from, labels, users, calls)
  {
    SegmentOps(more, from + |ops|, labels, users, calls);
    SegmentAppend(ops, sym, more, Ops(more), from, labels, users, calls);
  }

  /** A complete table joins the code. */
  lemma TableJoins(instr: seq<Opcode>, code: seq<SymOp>, op: Opcode, slotOps: seq<Opcode>, slots: seq<SymOp>,
                   trampolineOps: seq<Opcode>, trampolines: seq<SymOp>, labels: seq<Option<nat>>, users: seq<LabelUser>,
                   calls: seq<SnippetCall>)
    requires Segment(instr, code, 0, labels, users, calls) && CallsFine(code, calls)
    requires Segment(slotOps, slots, |code| + 1, labels, users, calls)
    requires Segment(trampolineOps, trampolines, |code| + 1 + |slots|, labels, users, calls)
    requires Staged(code, slots, trampolines, |slots|, users)
    ensures Represents(instr + [op] + slotOps + trampolineOps, code + [Op(op)] + slots + trampolines, labels, users,
                       calls)
  {
    OpsJoin(instr, code, 0, [op], labels, users, calls);
    assert Ops([op]) == [Op(op)];
    SegmentAppend(instr + [op], code + [Op(op)], slotOps, slots, 0, labels, users, calls);
    SegmentAppend(instr + [op] + slotOps, code + [Op(op)] + slots, trampolineOps, trampolines, 0, labels, users, calls);
    hide Segment;
    var all := code + [Op(op)] + slots + trampolines;
    forall j | 0 <= j < |users| ensures Uses(all, 0, users[j]) {
      assert StagedUser(code, slots, trampolines, |slots|, users[j]);
      var u := users[j].user;
      if Uses(code, 0, users[j]) {
        assert all[u] == code[u];
      } else if Uses(slots, |code| + 1, users[j]) {
        assert all[u] == slots[u - (|code| + 1)];
      } else {
        assert all[u] == trampolines[u - (|code| + 1 + |slots|)];
      }
    }
    forall j | 0 <= j < |calls| ensures calls[j].loc < |all| && all[calls[j].loc] == CallSnippet(calls[j].snippet) {
      assert all[calls[j].loc] == code[calls[j].loc];
    }
  }

  // ----- back-patching -----

  /** Every jump goes to a pinned label. */
  ghost predicate AllPinned(code: seq<SymOp>, labels: seq<Option<nat>>) {
    forall i :: 0 <= i < |code| && code[i].Jump? ==> code[i].target < |labels| && labels[code[i].target].Some?
  }

  /** Every jump is near enough to its label. */
  ghost predicate AllFit(code: seq<SymOp>, labels: seq<Option<nat>>) {
    forall i :: 0 <= i < |code| ==> FitsAt(code, labels, i)
  }

  ghost predicate FitsAt(code: seq<SymOp>, labels: seq<Option<nat>>, i: nat)
    requires i < |code|
  {
    code[i].Jump? && code[i].target < |labels| && labels[code[i].target].Some? ==>
        FitsOffset(labels[code[i].target].value - i)
  }

  /** What keeps a translated function from being finished: a branch too far from its label, or too high a stack. */
  ghost function FinishFailure(code: seq<SymOp>, labels: seq<Option<nat>>, maxHeight: nat): Option<Failure> {
    if !AllFit(code, labels) then Some(BranchOffsetOutOfBounds)
    else if maxHeight >= B32 then Some(TooLarge)
    else None
  }

  /** A finished opcode: its branch goes to its label; snippet calls stay pending until the module is complete. */
  ghost predicate Settled(op: Opcode, at: nat, sym: SymOp, labels: seq<Option<nat>>, maxHeight: nat) {
    match sym
    case Op(o) => op == o
    case Jump(kind, l) =>
      l < |labels| && labels[l].Some? && op.Branch? && op.kind == kind && at + op.offset == labels[l].value
    case CallSnippet(_) => op == CallInternal(UNRESOLVED)
    case ReserveStack => op.StackCheck? && op.height == maxHeight
  }

  /** Filling in the first user leaves the others to be filled in. */
  lemma PatchesUser(instr: seq<Opcode>, code: seq<SymOp>, labels: seq<Option<nat>>, users: seq<LabelUser>,
                    calls: seq<SnippetCall>, kind: JumpKind, offset: I32)
    requires Segment(instr, code, 0, labels, users, calls) && users != [] && Uses(code, 0, users[0])
    requires instr[users[0].user].Branch? && instr[users[0].user].kind == kind
    requires users[0].lab < |labels| && labels[users[0].lab].Some?
    requires users[0].user + offset == labels[users[0].lab].value
    ensures Segment(instr[users[0].user := Branch(kind, offset)], code, 0, labels, users[1..], calls)
  {
    var instr' := instr[users[0].user := Branch(kind, offset)];
    forall i | 0 <= i < |instr'| ensures StandsAt(instr', code, i, 0, labels, users[1..], calls) {
      assert StandsAt(instr, code, i, 0, labels, users, calls);
      if i != users[0].user && code[i].Jump? && LabelUser(code[i].target, i) in users {
        assert users == [users[0]] + users[1..];
      }
    }
  }

  lemma UserIsBranch(instr: seq<Opcode>, code: seq<SymOp>, labels: seq<Option<nat>>, users: seq<LabelUser>,
                     calls: seq<SnippetCall>)
    requires Segment(instr, code, 0, labels, users, calls) && users != [] && Uses(code, 0, users[0])
    requires AllPinned(code, labels)
    ensures users[0].user < |instr| && instr[users[0].user].Branch?
    ensures instr[users[0].user].kind == code[users[0].user].kind
    ensures users[0].lab < |labels| && labels[users[0].lab].Some?
  {
    assert StandsAt(instr, code, users[0].user, 0, labels, users, calls);
  }

  /** Once no user is left, every opcode but the stack check is settled. */
  lemma AllPatched(instr: seq<Opcode>, code: seq<SymOp>, labels: seq<Option<nat>>, calls: seq<SnippetCall>, at: nat,
                   height: Word)
    requires Segment(instr, code, 0, labels, [], calls) && at < |code| && code[at].ReserveStack?
    requires forall i :: 0 <= i < |code| && code[i].ReserveStack? ==> i == at
    ensures forall i :: 0 <= i < |code| ==> Settled(instr[at := StackCheck(height)][i], i, code[i], labels, height)
    ensures AllFit(code, labels)
  {
    var instr' := instr[at := StackCheck(height)];
    forall i | 0 <= i < |code| ensures Settled(instr'[i], i, code[i], labels, height) && FitsAt(code, labels, i) {
      assert StandsAt(instr, code, i, 0, labels, [], calls);
    }
  }
}
