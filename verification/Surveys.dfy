/** The outline of a body is what translating it comes to: the same size and height, the same charges, the same
    branch offsets, and a failure exactly where a demand is not met. */
module Surveys {
  import opened Words
  import O = Opcodes
  import opened Source
  import opened Validation
  import opened Layout
  import opened Translator
  import opened Invariants
  import opened Frames
  import opened Branches
  import DK = DropKeeps
  import Linking
  import U = Outlines

  // ----- what an outline says of a state -----

  /** The places of jumps in code that starts at `start`, and the labels they name. */
  function Places(code: seq<SymOp>, start: int): set<(int, nat)> {
    set i | 0 <= i < |code| && code[i].Jump? :: (start + i, code[i].target)
  }

  function Kinds(code: seq<SymOp>): set<Snippet> {
    set i | 0 <= i < |code| && code[i].CallSnippet? :: code[i].snippet
  }

  /** The jumps since the function began. */
  function JumpsFrom(code: seq<SymOp>, from: nat): set<(int, nat)>
    requires from <= |code|
  {
    Places(code[from..], 0)
  }

  function ExitsOf(jumps: set<(int, nat)>, l: nat): set<int> { set j | j in jumps && j.1 == l :: j.0 }

  predicate Settles(labels: seq<O.Option<nat>>, l: nat) { l < |labels| && labels[l].Some? }

  /** The offsets of the jumps whose labels are pinned. */
  function SpansOf(jumps: set<(int, nat)>, labels: seq<O.Option<nat>>, from: nat): set<int> {
    set j | j in jumps && Settles(labels, j.1) :: labels[j.1].value - from - j.0
  }

  ghost predicate Sized(s: Translation, o: U.Outline, from: nat) {
    && |s.code| == from + o.size
    && s.maxHeight + s.paramWords == o.peak
    && s.height + s.paramWords == o.words
  }

  ghost predicate Paid(s: Translation, charge: nat) {
    s.metered && s.reachable && s.frames != [] ==>
      var at := LiveCharge(s);
      at.Some? && IsCharge(s.code, at.value) && s.code[at.value].op.fuel == charge
  }

  /** A mark describes a frame; `outer` says that it is the frame of the function. */
  ghost predicate MarkFits(jumps: set<(int, nat)>, s: Translation, f: Frame, m: U.Mark, outer: bool, from: nat) {
    && !f.DeadFrame?
    && m.base == (if outer then 0 else s.paramWords + f.height)
    && (f.LoopFrame? <==> m.head.Some?)
    && (f.LoopFrame? ==> m.exits == {} && f.head < |s.labels| && s.labels[f.head] == O.Some(from + m.head.value))
    && (!f.LoopFrame? ==> m.exits == ExitsOf(jumps, f.end))
    && (outer ==> m.exits == {})
    && m.skips == (if f.IfFrame? && f.thenReachable.None? then ExitsOf(jumps, f.els) else {})
  }

  ghost predicate Marked(jumps: set<(int, nat)>, s: Translation, marks: seq<U.Mark>, from: nat) {
    && |s.frames| == |marks|
    && forall j :: 0 <= j < |marks| ==> MarkFits(jumps, s, s.frames[j], marks[j], j == 0, from)
  }

  /** Opcodes that lead or point nowhere beyond the `ahead` opcodes from here on. */
  predicate TidyOp(op: SymOp, ahead: int) {
    match op
    case Op(o) =>
      (match o
       case Branch(_, offset) => 1 <= offset < ahead
       case BrTable(n) => n >= 1 && 2 * n < ahead
       case LocalGet(d) => d >= 1
       case LocalSet(d) => d >= 1
       case LocalTee(d) => d >= 1
       case _ => Plainest(o))
    case _ => true
  }

  /** Opcodes without an operand that has to be checked. */
  predicate Plainest(o: O.Opcode) {
    && !o.CallInternal? && !o.ReturnCallInternal? && !o.RefFunc? && !o.CallIndirect? && !o.ReturnCallIndirect?
    && !o.Segment? && !o.Table? && !o.TableCopy?
  }

  function Slack(open: bool): int { if open then 1 else 0 }

  ghost predicate Tidy(code: seq<SymOp>, from: nat, open: bool) {
    forall i :: from <= i < |code| ==> TidyOp(code[i], |code| - i + Slack(open))
  }

  /** Pinned labels lie inside the function, or where its next opcode will be. */
  ghost predicate Landed(s: Translation, from: nat) {
    forall l :: 0 <= l < |s.labels| && s.labels[l].Some? ==> from <= s.labels[l].value < |s.code| + Slack(s.reachable)
  }

  /** Everything but the charge. */
  ghost predicate Shaped(s: Translation, o: U.Outline, from: nat) {
    && Sized(s, o, from)
    && Marked(JumpsFrom(s.code, from), s, o.marks, from)
    && o.offsets == SpansOf(JumpsFrom(s.code, from), s.labels, from)
    && o.kinds == Kinds(s.code[from..])
    && Tidy(s.code, from, s.reachable) && Landed(s, from)
  }

  ghost predicate Tracks(s: Translation, o: U.Outline, from: nat) { Shaped(s, o, from) && Paid(s, o.charge) }

  /** A translation step that ends as its outline says. */
  ghost predicate Keeps(r: Translator.Result<Translation>, o: U.Outline, from: nat) {
    match r
    case Ok(t) => U.Verdict(o.demands).None? && Tracks(t, o, from)
    case Err(e) => U.Verdict(o.demands) == O.Some(e)
  }

  // ----- demands -----

  lemma {:induction false} VerdictAppend(a: seq<U.Demand>, b: seq<U.Demand>)
    ensures U.Verdict(a + b) == if U.Verdict(a).Some? then U.Verdict(a) else U.Verdict(b)
    decreases |a|
  {
    if a == [] {
      assert a + b == b;
    } else {
      assert (a + b)[1..] == a[1..] + b;
      VerdictAppend(a[1..], b);
    }
  }

  lemma Asked(o: U.Outline, d: U.Demand)
    ensures U.Verdict(U.Ask(o, d).demands)
         == if U.Verdict(o.demands).Some? then U.Verdict(o.demands)
            else if U.Met(d) then O.None else O.Some(U.Complaint(d))
  {
    VerdictAppend(o.demands, [d]);
  }

  // ----- sets of jumps -----

  lemma PlacesAppend(a: seq<SymOp>, b: seq<SymOp>, start: int)
    ensures Places(a + b, start) == Places(a, start) + Places(b, start + |a|)
  {
    var c := a + b;
    forall j | j in Places(c, start) ensures j in Places(a, start) + Places(b, start + |a|) {
      var i :| 0 <= i < |c| && c[i].Jump? && j == (start + i, c[i].target);
      if i < |a| { assert a[i] == c[i]; } else { assert b[i - |a|] == c[i]; }
    }
    forall j | j in Places(a, start) ensures j in Places(c, start) {
      var i :| 0 <= i < |a| && a[i].Jump? && j == (start + i, a[i].target);
      assert c[i] == a[i];
    }
    forall j | j in Places(b, start + |a|) ensures j in Places(c, start) {
      var i :| 0 <= i < |b| && b[i].Jump? && j == (start + |a| + i, b[i].target);
      assert c[|a| + i] == b[i];
    }
  }

  lemma NoPlaces(code: seq<SymOp>, start: int)
    requires forall i :: 0 <= i < |code| ==> !code[i].Jump?
    ensures Places(code, start) == {}
  {
  }

  lemma OnePlace(kind: O.JumpKind, l: nat, start: int)
    ensures Places([SymOp.Jump(kind, l)], start) == {(start, l)}
  {
    assert [SymOp.Jump(kind, l)][0].Jump?;
  }

  lemma JumpsAppend(a: seq<SymOp>, b: seq<SymOp>, from: nat)
    requires from <= |a|
    ensures JumpsFrom(a + b, from) == JumpsFrom(a, from) + Places(b, |a| - from)
  {
    assert (a + b)[from..] == a[from..] + b;
    PlacesAppend(a[from..], b, 0);
  }

  lemma KindsAppend(a: seq<SymOp>, b: seq<SymOp>)
    ensures Kinds(a + b) == Kinds(a) + Kinds(b)
  {
    var c := a + b;
    forall sn | sn in Kinds(a) ensures sn in Kinds(c) {
      var i :| 0 <= i < |a| && a[i].CallSnippet? && sn == a[i].snippet;
      assert c[i] == a[i];
    }
    forall sn | sn in Kinds(b) ensures sn in Kinds(c) {
      var i :| 0 <= i < |b| && b[i].CallSnippet? && sn == b[i].snippet;
      assert c[|a| + i] == b[i];
    }
    forall sn | sn in Kinds(c) ensures sn in Kinds(a) + Kinds(b) {
      var i :| 0 <= i < |c| && c[i].CallSnippet? && sn == c[i].snippet;
      if i < |a| { assert a[i] == c[i]; } else { assert b[i - |a|] == c[i]; }
    }
  }

  /** A charge that grows is still no jump and no call. */
  lemma ChargeGrows(code: seq<SymOp>, from: nat, at: nat, fuel: Word)
    requires from <= |code| && IsCharge(code, at)
    ensures var code' := code[at := Op(O.ConsumeFuel(fuel))];
            && JumpsFrom(code', from) == JumpsFrom(code, from) && Kinds(code'[from..]) == Kinds(code[from..])
            && (forall open :: Tidy(code, from, open) ==> Tidy(code', from, open))
  {
    var code' := code[at := Op(O.ConsumeFuel(fuel))];
    var a, b := code[from..], code'[from..];
    assert forall i :: 0 <= i < |a| ==> b[i] == a[i] || (from + i == at && !a[i].Jump? && !b[i].Jump?);
    forall j | j in Places(a, 0) ensures j in Places(b, 0) {
      var i :| 0 <= i < |a| && a[i].Jump? && j == (0 + i, a[i].target);
      assert b[i] == a[i];
    }
    forall sn | sn in Kinds(a) ensures sn in Kinds(b) {
      var i :| 0 <= i < |a| && a[i].CallSnippet? && sn == a[i].snippet;
      assert b[i] == a[i];
    }
    forall open | Tidy(code, from, open) ensures Tidy(code', from, open) {
      forall i | from <= i < |code'| ensures TidyOp(code'[i], |code'| - i + Slack(open)) {
        assert TidyOp(code[i], |code| - i + Slack(open));
      }
    }
  }

  lemma ExitsAdd(jumps: set<(int, nat)>, at: int, l: nat, m: nat)
    ensures ExitsOf(jumps + {(at, l)}, m) == ExitsOf(jumps, m) + if l == m then {at} else {}
  {
    var more := jumps + {(at, l)};
    forall e | e in ExitsOf(jumps, m) ensures e in ExitsOf(more, m) {
      assert (e, m) in more;
    }
    if l == m { assert (at, l) in more; }
  }

  lemma SpansAdd(jumps: set<(int, nat)>, at: int, l: nat, labels: seq<O.Option<nat>>, from: nat)
    ensures SpansOf(jumps + {(at, l)}, labels, from)
         == SpansOf(jumps, labels, from) + if Settles(labels, l) then {labels[l].value - from - at} else {}
  {
    var more := jumps + {(at, l)};
    forall d | d in SpansOf(jumps, labels, from) ensures d in SpansOf(more, labels, from) {
      var j :| j in jumps && Settles(labels, j.1) && d == labels[j.1].value - from - j.0;
      assert j in more;
    }
    assert (at, l) in more;
  }

  /** Pinning a label settles the jumps to it. */
  lemma SpansPin(jumps: set<(int, nat)>, labels: seq<O.Option<nat>>, from: nat, l: nat, at: nat)
    requires l < |labels| && labels[l].None?
    ensures SpansOf(jumps, labels[l := O.Some(at)], from)
         == SpansOf(jumps, labels, from) + U.Ends(ExitsOf(jumps, l), at - from)
  {
    var pinned := labels[l := O.Some(at)];
    forall d | d in SpansOf(jumps, pinned, from)
      ensures d in SpansOf(jumps, labels, from) + U.Ends(ExitsOf(jumps, l), at - from)
    {
      var j :| j in jumps && Settles(pinned, j.1) && d == pinned[j.1].value - from - j.0;
      if j.1 == l {
        assert j.0 in ExitsOf(jumps, l);
      } else {
        assert Settles(labels, j.1);
      }
    }
    forall d | d in SpansOf(jumps, labels, from) ensures d in SpansOf(jumps, pinned, from) {
      var j :| j in jumps && Settles(labels, j.1) && d == labels[j.1].value - from - j.0;
      assert Settles(pinned, j.1);
    }
    forall d | d in U.Ends(ExitsOf(jumps, l), at - from) ensures d in SpansOf(jumps, pinned, from) {
      var e :| e in ExitsOf(jumps, l) && d == at - from - e;
      assert (e, l) in jumps && Settles(pinned, l);
    }
  }

  lemma NoEnds(at: int)
    ensures U.Ends({}, at) == {}
  {
  }

  /** New labels that no jump names settle nothing. */
  lemma SpansMore(jumps: set<(int, nat)>, labels: seq<O.Option<nat>>, more: seq<O.Option<nat>>, from: nat)
    requires labels <= more && forall j :: j in jumps ==> j.1 < |labels|
    ensures SpansOf(jumps, more, from) == SpansOf(jumps, labels, from)
  {
    forall d | d in SpansOf(jumps, labels, from) ensures d in SpansOf(jumps, more, from) {
      var j :| j in jumps && Settles(labels, j.1) && d == labels[j.1].value - from - j.0;
      assert Settles(more, j.1);
    }
    forall d | d in SpansOf(jumps, more, from) ensures d in SpansOf(jumps, labels, from) {
      var j :| j in jumps && Settles(more, j.1) && d == more[j.1].value - from - j.0;
      assert Settles(labels, j.1);
    }
  }

  /** Jumps name labels that exist. */
  lemma JumpsKnown(s: Translation, from: nat)
    requires JumpsOK(s) && from <= |s.code|
    ensures forall j :: j in JumpsFrom(s.code, from) ==> j.1 < |s.labels|
  {
    forall j | j in JumpsFrom(s.code, from) ensures j.1 < |s.labels| {
      var code := s.code[from..];
      var i :| 0 <= i < |code| && code[i].Jump? && j == (0 + i, code[i].target);
      assert s.code[from + i] == code[i];
      assert Known(s, s.code[from + i].target);
    }
  }

  // ----- tidiness -----

  lemma TidyAppend(a: seq<SymOp>, b: seq<SymOp>, from: nat, before: bool, after: bool)
    requires Tidy(a, from, before) && Tidy(b, 0, after) && (after || b != [] || !before)
    ensures Tidy(a + b, from, after)
  {
    var c := a + b;
    forall i | from <= i < |c| ensures TidyOp(c[i], |c| - i + Slack(after)) {
      if i < |a| {
        assert TidyOp(a[i], |a| - i + Slack(before));
      } else {
        assert TidyOp(b[i - |a|], |b| - (i - |a|) + Slack(after));
      }
    }
  }
}
