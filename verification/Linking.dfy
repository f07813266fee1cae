/** Completing a module: snippets behind the functions, the entrypoint in front of them, callees resolved. */
module Linking {
  import opened Words
  import O = Opcodes
  import opened Source
  import opened Pending
  import opened Metering
  import B = Builders
  import Sequences
  import Images

  /** The function a call or function reference names: 0 for none, k + 1 for function k. */
  function Callee(op: O.Opcode): nat {
    match op
    case CallInternal(k) => k
    case ReturnCallInternal(k) => k
    case RefFunc(k) => k
    case _ => 0
  }

  function WithCallee(op: O.Opcode, k: Word): O.Opcode {
    match op
    case CallInternal(_) => O.CallInternal(k)
    case ReturnCallInternal(_) => O.ReturnCallInternal(k)
    case RefFunc(_) => O.RefFunc(k)
    case _ => op
  }

  /** Calls of snippets that have not been emitted yet. */
  ghost predicate CallsPending(instr: seq<O.Opcode>, calls: seq<SnippetCall>) {
    && (forall j :: 0 <= j < |calls| ==> calls[j].loc < |instr| && instr[calls[j].loc] == O.CallInternal(UNRESOLVED))
    && (forall j, k :: 0 <= j < k < |calls| ==> calls[j].loc != calls[k].loc)
  }

  ghost predicate BodyAt(instr: seq<O.Opcode>, at: nat, body: seq<O.Opcode>) {
    at + |body| <= |instr| && instr[at..at + |body|] == body
  }

  /** The opcodes and function offsets of a module. */
  datatype Image = Image(instr: seq<O.Opcode>, offsets: seq<nat>)

  /** Every snippet kind has one function of its own behind the others, whose code is the snippet's. */
  ghost predicate Emitted(before: Image, now: Image, emitted: map<Snippet, nat>) {
    && before.offsets <= now.offsets && |now.offsets| == |before.offsets| + |emitted|
    && (forall sn :: sn in emitted ==> EmittedAt(before, now, emitted, sn))
    && (forall k :: |before.offsets| <= k < |now.offsets| ==> now.offsets[k] <= |now.instr|)
    && (forall a, b :: a in emitted && b in emitted && a != b ==> emitted[a] != emitted[b])
  }

  ghost predicate EmittedAt(before: Image, now: Image, emitted: map<Snippet, nat>, sn: Snippet)
    requires sn in emitted
  {
    && |before.offsets| <= emitted[sn] < |now.offsets| && |before.instr| <= now.offsets[emitted[sn]]
    && BodyAt(now.instr, now.offsets[emitted[sn]], Images.SnippetBody(sn))
  }

  ghost predicate CallPatched(instr: seq<O.Opcode>, call: SnippetCall, emitted: map<Snippet, nat>) {
    && call.loc < |instr| && call.snippet in emitted
    && instr[call.loc].CallInternal? && instr[call.loc].func == emitted[call.snippet] + 1
  }

  /** The first `n` calls go to their snippets; no other opcode of the functions has changed. */
  ghost predicate CallsPatched(before: Image, now: Image, calls: seq<SnippetCall>, n: nat, emitted: map<Snippet, nat>)
    requires n <= |calls|
  {
    && |before.instr| <= |now.instr|
    && (forall j :: 0 <= j < n ==> CallPatched(now.instr, calls[j], emitted))
    && (forall i :: 0 <= i < |before.instr| ==> now.instr[i] == before.instr[i] || Called(calls, n, i))
  }

  ghost predicate Called(calls: seq<SnippetCall>, n: nat, i: nat)
    requires n <= |calls|
  {
    exists j :: 0 <= j < n && calls[j].loc == i
  }

  /** Snippets call nothing. */
  ghost predicate NoCallsFrom(instr: seq<O.Opcode>, from: nat) {
    forall i :: from <= i < |instr| ==> !NamesFunction(instr[i])
  }

  /** The opcodes that snippets take: one function for every kind that is called. */
  function SnippetRoom(calls: seq<SnippetCall>): nat {
    if calls == [] then 0
    else
      var n := |calls| - 1;
      var sn := calls[n].snippet;
      SnippetRoom(calls[..n]) + (if sn in KindsOf(calls[..n]) then 0 else |Images.SnippetBody(sn)|)
  }

  lemma RoomStep(calls: seq<SnippetCall>, n: nat)
    requires n < |calls|
    ensures SnippetRoom(calls[..n + 1]) == SnippetRoom(calls[..n])
              + (if calls[n].snippet in KindsOf(calls[..n]) then 0 else |Images.SnippetBody(calls[n].snippet)|)
  {
    hide Images.SnippetBody;
    hide KindsOf;
    assert calls[..n + 1][..n] == calls[..n];
  }

  /** Position `p` lies in the code of the snippet. */
  ghost predicate InRoutine(now: Image, emitted: map<Snippet, nat>, sn: Snippet, p: nat)
    requires sn in emitted
  {
    emitted[sn] < |now.offsets|
    && now.offsets[emitted[sn]] <= p < now.offsets[emitted[sn]] + |Images.SnippetBody(sn)|
  }

  ghost predicate InSome(now: Image, emitted: map<Snippet, nat>, p: nat) {
    exists sn :: sn in emitted && InRoutine(now, emitted, sn, p)
  }

  /** Behind the functions there is nothing but snippets. */
  ghost predicate Covered(before: Image, now: Image, emitted: map<Snippet, nat>) {
    forall p: nat :: |before.instr| <= p < |now.instr| ==> InSome(now, emitted, p)
  }

  /** Emission after the first `n` calls. */
  ghost predicate AfterCalls(before: Image, now: Image, calls: seq<SnippetCall>, n: nat, emitted: map<Snippet, nat>) {
    && n <= |calls| && |emitted| <= n && emitted.Keys == KindsOf(calls[..n])
    && |now.instr| == |before.instr| + SnippetRoom(calls[..n])
    && Emitted(before, now, emitted) && CallsPatched(before, now, calls, n, emitted)
    && NoCallsFrom(now.instr, |before.instr|) && Covered(before, now, emitted)
  }

  lemma NothingEmitted(before: Image, calls: seq<SnippetCall>)
    ensures AfterCalls(before, before, calls, 0, map[])
  {
  }

  /** Like `AfterCalls`, with the kind of the next call already emitted. */
  ghost predicate KindReady(before: Image, now: Image, calls: seq<SnippetCall>, n: nat, emitted: map<Snippet, nat>) {
    && n < |calls| && |emitted| <= n + 1 && emitted.Keys == KindsOf(calls[..n + 1])
    && |now.instr| == |before.instr| + SnippetRoom(calls[..n + 1])
    && Emitted(before, now, emitted) && CallsPatched(before, now, calls, n, emitted)
    && NoCallsFrom(now.instr, |before.instr|) && Covered(before, now, emitted)
  }

  lemma KindsStep(calls: seq<SnippetCall>, n: nat)
    requires n < |calls|
    ensures KindsOf(calls[..n + 1]) == KindsOf(calls[..n]) + {calls[n].snippet}
  {
    assert calls[..n + 1] == calls[..n] + [calls[n]];
  }

  lemma ComparisonCallsNothing(r: O.RelOp)
    ensures NoCallsFrom(Sequences.SnippetCode(Rel64(r)), 0)
  {
  }

  lemma SnippetCodeCallsNothing(sn: Snippet)
    ensures NoCallsFrom(Sequences.SnippetCode(sn), 0)
  {
    match sn
    case Rel64(r) => ComparisonCallsNothing(r);
    case AddWide =>
    case SubWide =>
    case MulWide =>
  }

  lemma SnippetsCallNothing(sn: Snippet)
    ensures NoCallsFrom(Images.SnippetBody(sn), 0)
  {
    hide Sequences.SnippetCode;
    SnippetCodeCallsNothing(sn);
    var body := Images.SnippetBody(sn);
    forall i | 0 <= i < |body| ensures !NamesFunction(body[i]) {
      assert 0 < i < |body| - 1 ==> body[i] == Sequences.SnippetCode(sn)[i - 1];
    }
  }

  lemma KnownKind(before: Image, now: Image, calls: seq<SnippetCall>, n: nat, emitted: map<Snippet, nat>)
    requires AfterCalls(before, now, calls, n, emitted) && n < |calls| && calls[n].snippet in emitted
    ensures KindReady(before, now, calls, n, emitted)
  {
    KindsStep(calls, n);
    RoomStep(calls, n);
  }

  function WithSnippet(now: Image, sn: Snippet): Image {
    Image(now.instr + Images.SnippetBody(sn), now.offsets + [|now.instr|])
  }

  /** Emitting one more kind keeps the others in place. */
  lemma NewKindEmitted(before: Image, now: Image, emitted: map<Snippet, nat>, sn: Snippet)
    requires Emitted(before, now, emitted) && sn !in emitted && |before.instr| <= |now.instr|
    ensures Emitted(before, WithSnippet(now, sn), emitted[sn := |now.offsets|])
  {
    hide Images.SnippetBody;
    var now', emitted' := WithSnippet(now, sn), emitted[sn := |now.offsets|];
    forall a | a in emitted' ensures EmittedAt(before, now', emitted', a) {
      if a == sn {
        assert BodyAt(now'.instr, |now.instr|, Images.SnippetBody(sn));
      } else {
        assert EmittedAt(before, now, emitted, a);
        BodyStays(now.instr, now'.instr, now.offsets[emitted[a]], Images.SnippetBody(a));
      }
    }
    forall a, b | a in emitted' && b in emitted' && a != b ensures emitted'[a] != emitted'[b] {
      assert a in emitted ==> EmittedAt(before, now, emitted, a);
      assert b in emitted ==> EmittedAt(before, now, emitted, b);
    }
  }

  lemma BodyStays(a: seq<O.Opcode>, b: seq<O.Opcode>, at: nat, body: seq<O.Opcode>)
    requires BodyAt(a, at, body) && a <= b
    ensures BodyAt(b, at, body)
  {
    assert b[..|a|] == a;
    assert b[at..at + |body|] == a[at..at + |body|];
  }

  lemma NewKindCovered(before: Image, now: Image, emitted: map<Snippet, nat>, sn: Snippet)
    requires Emitted(before, now, emitted) && Covered(before, now, emitted) && sn !in emitted
    ensures Covered(before, WithSnippet(now, sn), emitted[sn := |now.offsets|])
  {
    hide Images.SnippetBody;
    hide EmittedAt;
    var now', emitted' := WithSnippet(now, sn), emitted[sn := |now.offsets|];
    forall p: nat | |before.instr| <= p < |now'.instr| ensures InSome(now', emitted', p) {
      if p < |now.instr| {
        assert InSome(now, emitted, p);
        var a :| a in emitted && InRoutine(now, emitted, a, p);
        assert InRoutine(now', emitted', a, p);
      } else {
        assert InRoutine(now', emitted', sn, p);
      }
    }
  }

  lemma NewKindPatched(before: Image, now: Image, calls: seq<SnippetCall>, n: nat, emitted: map<Snippet, nat>,
                       sn: Snippet, k: nat)
    requires n <= |calls| && CallsPatched(before, now, calls, n, emitted) && sn !in emitted
    requires NoCallsFrom(now.instr, |before.instr|)
    ensures CallsPatched(before, WithSnippet(now, sn), calls, n, emitted[sn := k])
    ensures NoCallsFrom(WithSnippet(now, sn).instr, |before.instr|)
  {
    hide Images.SnippetBody;
    SnippetsCallNothing(sn);
    var now', emitted' := WithSnippet(now, sn), emitted[sn := k];
    forall i | |before.instr| <= i < |now'.instr| ensures !NamesFunction(now'.instr[i]) {
      assert i < |now.instr| ==> now'.instr[i] == now.instr[i];
      assert i >= |now.instr| ==> now'.instr[i] == Images.SnippetBody(sn)[i - |now.instr|];
    }
    forall j | 0 <= j < n ensures CallPatched(now'.instr, calls[j], emitted') {
      assert CallPatched(now.instr, calls[j], emitted);
    }
  }

  lemma NewKey(emitted: map<Snippet, nat>, sn: Snippet, k: nat)
    requires sn !in emitted
    ensures emitted[sn := k].Keys == emitted.Keys + {sn} && |emitted[sn := k]| == |emitted| + 1
  {
  }

  lemma NewKind(before: Image, now: Image, calls: seq<SnippetCall>, n: nat, emitted: map<Snippet, nat>, sn: Snippet)
    requires AfterCalls(before, now, calls, n, emitted) && n < |calls| && sn == calls[n].snippet && sn !in emitted
    ensures KindReady(before, WithSnippet(now, sn), calls, n, emitted[sn := |now.offsets|])
  {
    KindsStep(calls, n);
    RoomStep(calls, n);
    hide SnippetRoom;
    hide Images.SnippetBody;
    assert |WithSnippet(now, sn).instr| == |now.instr| + |Images.SnippetBody(sn)|;
    hide WithSnippet;
    hide KindsOf;
    NewKindEmitted(before, now, emitted, sn);
    NewKindCovered(before, now, emitted, sn);
    hide Covered;
    hide Emitted;
    NewKindPatched(before, now, calls, n, emitted, sn, |now.offsets|);
    hide CallsPatched;
    hide NoCallsFrom;
    NewKey(emitted, sn, |now.offsets|);
  }

  /** Opcodes of the functions may change without touching any snippet. */
  lemma SnippetsStay(before: Image, now: Image, emitted: map<Snippet, nat>, loc: nat, op: O.Opcode)
    requires Emitted(before, now, emitted) && loc < |before.instr| <= |now.instr|
    ensures Emitted(before, now.(instr := now.instr[loc := op]), emitted)
  {
    hide Images.SnippetBody;
    var now' := now.(instr := now.instr[loc := op]);
    forall sn | sn in emitted ensures EmittedAt(before, now', emitted, sn) {
      assert EmittedAt(before, now, emitted, sn);
      var at := now.offsets[emitted[sn]];
      assert now'.instr[at..] == now.instr[at..];
      BodyKeeps(now.instr, now'.instr, at, Images.SnippetBody(sn));
    }
  }

  lemma NextCall(before: Image, now: Image, calls: seq<SnippetCall>, n: nat, emitted: map<Snippet, nat>, callee: Word)
    requires n < |calls| && CallsPatched(before, now, calls, n, emitted) && CallsPending(before.instr, calls)
    requires calls[n].snippet in emitted && callee == emitted[calls[n].snippet] + 1
    ensures calls[n].loc < |before.instr|
    ensures CallsPatched(before, now.(instr := now.instr[calls[n].loc := O.CallInternal(callee)]), calls, n + 1,
                         emitted)
  {
    var loc := calls[n].loc;
    var now' := now.(instr := now.instr[loc := O.CallInternal(callee)]);
    forall j | 0 <= j < n + 1 ensures CallPatched(now'.instr, calls[j], emitted) {
      assert j < n ==> CallPatched(now.instr, calls[j], emitted);
    }
    forall i | 0 <= i < |before.instr| ensures now'.instr[i] == before.instr[i] || Called(calls, n + 1, i) {
      if i == loc {
        assert calls[n].loc == i;
      } else if now.instr[i] != before.instr[i] {
        var j :| 0 <= j < n && calls[j].loc == i;
      }
    }
  }

  lemma CoveredStays(before: Image, now: Image, emitted: map<Snippet, nat>, loc: nat, op: O.Opcode)
    requires Covered(before, now, emitted) && loc < |now.instr|
    ensures Covered(before, now.(instr := now.instr[loc := op]), emitted)
  {
    hide Images.SnippetBody;
    var now' := now.(instr := now.instr[loc := op]);
    forall p: nat | |before.instr| <= p < |now'.instr| ensures InSome(now', emitted, p) {
      assert InSome(now, emitted, p);
      var a :| a in emitted && InRoutine(now, emitted, a, p);
      assert InRoutine(now', emitted, a, p);
    }
  }

  /** Resolving a call touches no snippet, and no other call. */
  lemma NewCallee(before: Image, now: Image, calls: seq<SnippetCall>, n: nat, emitted: map<Snippet, nat>, callee: Word)
    requires KindReady(before, now, calls, n, emitted) && CallsPending(before.instr, calls)
    requires calls[n].snippet in emitted && callee == emitted[calls[n].snippet] + 1
    ensures calls[n].loc < |now.instr|
    ensures AfterCalls(before, now.(instr := now.instr[calls[n].loc := O.CallInternal(callee)]), calls, n + 1, emitted)
  {
    hide KindsOf;
    hide SnippetRoom;
    hide Emitted;
    CoveredStays(before, now, emitted, calls[n].loc, O.CallInternal(callee));
    hide Covered;
    NextCall(before, now, calls, n, emitted, callee);
    SnippetsStay(before, now, emitted, calls[n].loc, O.CallInternal(callee));
  }

  lemma CalleeFits(before: Image, now: Image, calls: seq<SnippetCall>, n: nat, emitted: map<Snippet, nat>)
    requires KindReady(before, now, calls, n, emitted) && |before.offsets| + |calls| < B32
    ensures calls[n].snippet in emitted && emitted[calls[n].snippet] + 1 < B32
  {
    KindsStep(calls, n);
    assert EmittedAt(before, now, emitted, calls[n].snippet);
  }

  lemma BodyKeeps(a: seq<O.Opcode>, b: seq<O.Opcode>, at: nat, body: seq<O.Opcode>)
    requires BodyAt(a, at, body) && at <= |b| && b[at..] == a[at..]
    ensures BodyAt(b, at, body)
  {
    assert |b| == |a|;
    assert b[at..at + |body|] == b[at..][..|body|] == a[at..][..|body|] == a[at..at + |body|];
  }

  function KindsOf(calls: seq<SnippetCall>): set<Snippet> { set c | c in calls :: c.snippet }

  // ----- relocation -----

  /** Functions start inside the code. */
  ghost predicate OffsetsInside(m: Image) {
    forall k :: 0 <= k < |m.offsets| ==> m.offsets[k] <= |m.instr|
  }

  ghost predicate AllNamed(instr: seq<O.Opcode>, functions: nat) {
    forall i :: 0 <= i < |instr| ==> Callee(instr[i]) <= functions
  }

  /** Where a named function starts in the module; 0 names none. */
  function Address(k: nat, offsets: seq<nat>, base: nat): (a: nat)
    requires k <= |offsets|
    ensures k > 0 ==> a == base + offsets[k - 1]
  {
    if k > 0 then offsets[k - 1] + base else 0
  }

  /** The opcode with its callee replaced by an address; all others, relative branches among them, stay. */
  ghost predicate IsRelocated(op: O.Opcode, moved: O.Opcode, offsets: seq<nat>, base: nat)
    requires Callee(op) <= |offsets|
  {
    if Callee(op) == 0 then moved == op
    else Callee(moved) == Address(Callee(op), offsets, base) && moved == WithCallee(op, Callee(moved))
  }

  ghost predicate Relocates(before: seq<O.Opcode>, after: seq<O.Opcode>, offsets: seq<nat>, base: nat)
    requires AllNamed(before, |offsets|)
  {
    |after| == |before| && forall i :: 0 <= i < |before| ==> IsRelocated(before[i], after[i], offsets, base)
  }

  ghost predicate ElementsRelocated(before: seq<Word>, after: seq<Word>, offsets: seq<nat>, base: nat)
    requires forall i :: 0 <= i < |before| ==> before[i] <= |offsets|
  {
    |after| == |before| && forall i :: 0 <= i < |before| ==> after[i] == Address(before[i], offsets, base)
  }

  class ModuleLinker {
    const instructionSet: B.InstructionSet
    const entrypoint: B.InstructionSet
    var funcOffsets: seq<nat>
    var snippetCalls: seq<SnippetCall>
    var elements: seq<Word>
    var compiledFuncs: nat

    ghost predicate Valid()
      reads this
    {
      instructionSet != entrypoint && compiledFuncs == |funcOffsets|
    }

    constructor (entry: B.InstructionSet, elems: seq<Word>)
      ensures Valid() && fresh(instructionSet) && entrypoint == entry && elements == elems
      ensures instructionSet.instr == [] && funcOffsets == [] && snippetCalls == []
    {
      instructionSet := new B.InstructionSet();
      entrypoint, elements := entry, elems;
      funcOffsets, snippetCalls, compiledFuncs := [], [], 0;
    }

    method NextFunc() returns (k: nat)
      modifies this`compiledFuncs
      ensures k == old(compiledFuncs) && compiledFuncs == k + 1
    {
      k := compiledFuncs;
      compiledFuncs := compiledFuncs + 1;
    }

    /** A snippet becomes a function behind all others. */
    method EmitSnippet(sn: Snippet) returns (k: nat)
      requires Valid()
      modifies this`compiledFuncs, this`funcOffsets, instructionSet
      ensures Valid() && k == |old(funcOffsets)|
      ensures funcOffsets == old(funcOffsets) + [|old(instructionSet.instr)|]
      ensures instructionSet.instr == old(instructionSet.instr) + Images.SnippetBody(sn)
    {
      hide Sequences.SnippetCode;
      k := NextFunc();
      funcOffsets := funcOffsets + [|instructionSet.instr|];
      instructionSet.Push(O.StackCheck(Sequences.SnippetHeadroom(sn)));
      instructionSet.PushAll(Sequences.SnippetCode(sn));
      instructionSet.Push(O.Return);
      assert instructionSet.instr == old(instructionSet.instr) + Images.SnippetBody(sn);
    }

    function View(): Image
      reads this, instructionSet
    {
      Image(instructionSet.instr, funcOffsets)
    }

    /** Emits each snippet kind that is called, once, and resolves the recorded calls. */
    method EmitSnippets() returns (emitted: map<Snippet, nat>)
      requires Valid() && CallsPending(instructionSet.instr, snippetCalls)
      requires |funcOffsets| + |snippetCalls| < B32
      modifies this`compiledFuncs, this`funcOffsets, instructionSet
      ensures Valid() && AfterCalls(old(View()), View(), snippetCalls, |snippetCalls|, emitted)
    {
      hide Images.SnippetBody;
      hide CallsPending;
      hide AfterCalls;
      hide KindReady;
      emitted := map[];
      ghost var before := View();
      var calls := snippetCalls;
      NothingEmitted(before, calls);
      for j := 0 to |calls|
        invariant Valid() && AfterCalls(before, View(), calls, j, emitted)
      {
        ghost var now := View();
        var call := calls[j];
        if call.snippet !in emitted {
          NewKind(before, now, calls, j, emitted, call.snippet);
          var k := EmitSnippet(call.snippet);
          emitted := emitted[call.snippet := k];
        } else {
          KnownKind(before, now, calls, j, emitted);
        }
        CalleeFits(before, View(), calls, j, emitted);
        var callee := emitted[call.snippet] + 1;
        NewCallee(before, View(), calls, j, emitted, callee);
        instructionSet.UpdateCallee(call.loc, O.CallInternal(callee));
      }
    }

    /** Puts the entrypoint in front of the functions and resolves every callee. */
    method RelocateCode()
      requires Valid()
      requires |entrypoint.instr| + |instructionSet.instr| < B32 && OffsetsInside(View())
      requires AllNamed(entrypoint.instr + instructionSet.instr, |funcOffsets|)
      modifies entrypoint
      ensures Relocates(old(entrypoint.instr) + instructionSet.instr, entrypoint.instr, funcOffsets,
                        |old(entrypoint.instr)|)
    {
      var base := |entrypoint.instr|;
      ghost var before := entrypoint.instr + instructionSet.instr;
      entrypoint.PushAll(instructionSet.instr);
      for i := 0 to |entrypoint.instr|
        invariant |entrypoint.instr| == |before|
        invariant forall j :: 0 <= j < i ==> IsRelocated(before[j], entrypoint.instr[j], funcOffsets, base)
        invariant forall j :: i <= j < |before| ==> entrypoint.instr[j] == before[j]
      {
        var op := entrypoint.instr[i];
        var k := Callee(op);
        if k > 0 {
          entrypoint.UpdateCallee(i, WithCallee(op, funcOffsets[k - 1] + base));
        }
      }
    }

    method RelocateElements(base: nat)
      requires Valid() && OffsetsInside(View()) && base + |instructionSet.instr| < B32
      requires forall i :: 0 <= i < |elements| ==> elements[i] <= |funcOffsets|
      modifies this`elements
      ensures ElementsRelocated(old(elements), elements, funcOffsets, base)
    {
      ghost var was := elements;
      for i := 0 to |elements|
        invariant |elements| == |was|
        invariant forall j :: 0 <= j < i ==> elements[j] == Address(was[j], funcOffsets, base)
        invariant forall j :: i <= j < |was| ==> elements[j] == was[j]
      {
        var k: nat := elements[i];
        if k > 0 {
          elements := elements[i := funcOffsets[k - 1] + base];
        }
      }
    }

    method Finalize()
      requires Valid()
      requires |entrypoint.instr| + |instructionSet.instr| < B32 && OffsetsInside(View())
      requires AllNamed(entrypoint.instr + instructionSet.instr, |funcOffsets|)
      requires forall i :: 0 <= i < |elements| ==> elements[i] <= |funcOffsets|
      modifies this`elements, entrypoint
      ensures Relocates(old(entrypoint.instr) + instructionSet.instr, entrypoint.instr, funcOffsets,
                        |old(entrypoint.instr)|)
      ensures ElementsRelocated(old(elements), elements, funcOffsets, |old(entrypoint.instr)|)
    {
      var base := |entrypoint.instr|;
      RelocateCode();
      RelocateElements(base);
    }
  }
}
