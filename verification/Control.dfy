/** Translating control operators of validated code: no panic, and the invariants go on. */
module Control {
  import opened Words
  import O = Opcodes
  import opened Source
  import opened Validation
  import opened Layout
  import opened Translator
  import opened Invariants
  import opened Frames
  import opened Progress
  import DK = DropKeeps

  // ----- ending a frame -----

  ghost predicate Closed(s: Translation, t: Translation) {
    && |s.frames| == |t.frames| + 1 >= 2
    && t.frames[..|t.frames| - 1] == s.frames[..|t.frames| - 1]
    && SameFrame(s.frames[|t.frames| - 1], t.frames[|t.frames| - 1])
  }

  /** The state after an inner `end`: its labels are pinned here, and a fresh charge follows. */
  ghost predicate Ended(s: Translation, below: seq<ValType>, t: Translation)
    requires s.frames != []
  {
    var f := s.frames[|s.frames| - 1];
    && WF(t) && Extends(s, t) && Closed(s, t)
    && t.reachable == !f.DeadFrame?
    && t.types == (if f.DeadFrame? then s.types else below) + Results(f.bt)
    && t.code == NewCharge(s).code
    && LiveCharge(t) == (if s.metered && !f.DeadFrame? then O.Some(|s.code|) else O.None)
    && (forall l :: l in Opens(f) ==> l < |t.labels| && t.labels[l] == O.Some(|s.code|))
  }

  /** The type stack after popping the operands of the frame and pushing its results. */
  function Retyped(s: Translation, types: seq<ValType>, height: nat, results: seq<ValType>): Translation {
    PushTypes(s.(types := types, height := height), results)
  }

  /** What an ending frame must leave behind on the type stack. */
  ghost predicate Endable(s: Translation, below: seq<ValType>) {
    && WF(s) && |s.frames| >= 2
    && var f := s.frames[|s.frames| - 1];
       !f.DeadFrame? ==> below <= s.types && WordsOf(below) == s.paramWords + f.height
  }

  /** The state of an inner `end` just before the fresh charge. */
  function BeforeCharge(s: Translation, u: Translation, below: seq<ValType>): Translation
    requires s.frames != []
  {
    var f := s.frames[|s.frames| - 1];
    var v := u.(frames := s.frames[..|s.frames| - 1], reachable := !f.DeadFrame?);
    if f.DeadFrame? then Retyped(v, s.types, s.height, Results(f.bt)) else Retyped(v, below, f.height, Results(f.bt))
  }

  lemma BeforeChargeKeeps(s: Translation, u: Translation, below: seq<ValType>)
    requires Endable(s, below) && Pinned(s, s.frames[|s.frames| - 1], u)
    ensures WF(BeforeCharge(s, u, below)) && LabelsExtend(s, BeforeCharge(s, u, below))
  {
    hide WordsOf;
    var f := s.frames[|s.frames| - 1];
    PopKeeps(s, u, !f.DeadFrame?);
    var v := u.(frames := s.frames[..|s.frames| - 1], reachable := !f.DeadFrame?);
    if f.DeadFrame? {
      RetypedKeeps(v, s.types, s.height, Results(f.bt));
    } else {
      WordsPrefix(below, s.types);
      RetypedKeeps(v, below, f.height, Results(f.bt));
    }
  }

  lemma EndKeeps(s: Translation, below: seq<ValType>)
    requires Endable(s, below)
    ensures VisitEnd(s).Ok? && Ended(s, below, VisitEnd(s).value)
  {
    hide WordsOf;
    hide VisitEnd;
    hide PinEnd;
    hide Recharge;
    hide WF;
    hide BeforeCharge;
    hide Extends;
    PinEndPins(s);
    var u := PinEnd(s, s.frames[|s.frames| - 1]).value;
    BeforeChargeKeeps(s, u, below);
    BeforeChargeIs(s, u, below);
    var w := BeforeCharge(s, u, below);
    RechargeKeeps(w);
    EndUnfolds(s, u, below);
    EndExtends(s, w, Recharge(w).value);
  }

  lemma BeforeChargeIs(s: Translation, u: Translation, below: seq<ValType>)
    requires s.frames != [] && Pinned(s, s.frames[|s.frames| - 1], u)
    ensures var f, w := s.frames[|s.frames| - 1], BeforeCharge(s, u, below);
            && w.labels == u.labels && w.code == s.code && w.frames == s.frames[..|s.frames| - 1]
            && w.reachable == !f.DeadFrame?
            && w.types == (if f.DeadFrame? then s.types else below) + Results(f.bt)
            && w.metered == s.metered && w.base == s.base && w.paramWords == s.paramWords
            && s.maxHeight <= w.maxHeight
  {
  }

  lemma WordsPrefix(below: seq<ValType>, types: seq<ValType>)
    requires below <= types
    ensures WordsOf(below) <= WordsOf(types)
  {
    hide WordsOf;
    WordsAppend(below, types[|below|..]);
    assert types == below + types[|below|..];
  }

  lemma EndUnfolds(s: Translation, u: Translation, below: seq<ValType>)
    requires Endable(s, below)
    requires PinEnd(s, s.frames[|s.frames| - 1]) == Ok(u) && u == s.(labels := u.labels)
    ensures VisitEnd(s) == Recharge(BeforeCharge(s, u, below))
  {
    hide WordsOf;
    hide PinEnd;
    hide Recharge;
    var f := s.frames[|s.frames| - 1];
    if !f.DeadFrame? {
      ShrinkToExact(u.(reachable := true), below, f.height);
    }
    hide ShrinkTo;
  }

  lemma RetypedKeeps(v: Translation, types: seq<ValType>, height: nat, results: seq<ValType>)
    requires FramesOK(v) && LabelsOK(v) && JumpsOK(v)
    requires WordsOf(types) == v.paramWords + height && height <= v.maxHeight
    ensures WF(Retyped(v, types, height, results))
  {
    hide WordsOf;
    var w := Retyped(v, types, height, results);
    WordsAppend(types, results);
    assert forall j :: 0 <= j < |w.frames| ==> FrameOK(v, v.frames[j]);
    forall i | 0 <= i < |w.code| && w.code[i].Jump? ensures Known(w, w.code[i].target) {
      assert Known(v, v.code[i].target);
    }
  }

  lemma EndExtends(s: Translation, w: Translation, t: Translation)
    requires w.code == s.code && LabelsExtend(s, w) && s.maxHeight <= w.maxHeight
    requires w.metered == s.metered && w.base == s.base && w.paramWords == s.paramWords
    requires t == w.(code := NewCharge(w).code, frames := t.frames)
    requires LiveCharge(t) == if w.metered && w.reachable then O.Some(|w.code|) else O.None
    ensures Extends(s, t)
  {
  }

  // ----- code that is never reached -----

  ghost predicate DeadResult(s: Translation, r: Translator.Result<Translation>) {
    match r
    case Err(_) => false
    case Ok(t) => WF(t) && Extends(s, t) && Kept(s, t) && !t.reachable && s.types <= t.types
  }

  lemma DeadChain(s: Translation, t: Translation, r: Translator.Result<Translation>)
    requires WF(t) && Extends(s, t) && Kept(s, t) && s.types <= t.types && DeadResult(t, r)
    ensures DeadResult(s, r)
  {
    hide WF;
    ExtendsTransitive(s, t, r.value);
    hide Extends;
    KeptTransitive(s, t, r.value);
  }

  lemma DeadNothing(s: Translation)
    requires WF(s) && !s.reachable && s.frames != []
    ensures DeadResult(s, Ok(s))
  {
    hide WF;
    ExtendsReflexive(s);
    KeptSame(s, s);
  }

  /** Unreachable code is skipped: nothing but empty charges is emitted, and nothing can fail. */
  lemma {:induction false} DeadTranslate(s: Translation, code: seq<Instr>)
    requires WF(s) && !s.reachable && s.frames != []
    ensures DeadResult(s, Translate(s, code))
    decreases code, 0
  {
    hide WF;
    hide Extends;
    if code == [] {
      DeadNothing(s);
    } else {
      DeadInstr(s, code[0]);
      var t := TranslateInstr(s, code[0]).value;
      DeadTranslate(t, code[1..]);
      hide TranslateInstr;
      DeadChain(s, t, Translate(t, code[1..]));
    }
  }

  lemma {:induction false} DeadInstr(s: Translation, i: Instr)
    requires WF(s) && !s.reachable && s.frames != []
    ensures DeadResult(s, TranslateInstr(s, i))
    decreases i, 1
  {
    hide WF;
    hide DeadResult;
    DeadNothing(s);
    match i
    case Block(bt, body) => DeadBody(s, BlockKind, bt, body);
    case Loop(bt, body) => DeadBody(s, LoopKind, bt, body);
    case If(bt, thn) => DeadBody(s, IfKind, bt, thn);
    case IfElse(bt, thn, els) => DeadIf(s, bt, thn, els);
    case _ =>
  }

  lemma {:induction false} DeadBody(s: Translation, kind: Kind, bt: BlockType, body: seq<Instr>)
    requires WF(s) && !s.reachable && s.frames != []
    ensures var r := Translate(PushFrame(s, DeadFrame(kind, bt)), body);
            r.Ok? && DeadResult(s, VisitEnd(r.value))
    decreases body, 1
  {
    var u := PushFrame(s, DeadFrame(kind, bt));
    DeadPushKeeps(s, kind, bt);
    DeadTranslate(u, body);
    DeadClose(s, u, Translate(u, body).value);
  }

  lemma {:induction false} DeadIf(s: Translation, bt: BlockType, thn: seq<Instr>, els: seq<Instr>)
    requires WF(s) && !s.reachable && s.frames != []
    ensures DeadResult(s, TranslateInstr(s, IfElse(bt, thn, els)))
    decreases IfElse(bt, thn, els), 0
  {
    hide Extends;
    hide WF;
    var u := PushFrame(s, DeadFrame(IfKind, bt));
    DeadPushKeeps(s, IfKind, bt);
    DeadTranslate(u, thn);
    var t := Translate(u, thn).value;
    assert VisitElse(t) == Ok(t);
    DeadTranslate(t, els);
    DeadChain(u, t, Translate(t, els));
    DeadClose(s, u, Translate(t, els).value);
    DeadIfUnfolds(s, bt, thn, els);
    hide TranslateInstr;
  }

  lemma DeadIfUnfolds(s: Translation, bt: BlockType, thn: seq<Instr>, els: seq<Instr>)
    requires !s.reachable
    ensures TranslateInstr(s, IfElse(bt, thn, els)) ==
      var t :- Translate(PushFrame(s, DeadFrame(IfKind, bt)), thn);
      var t :- VisitElse(t);
      var t :- Translate(t, els);
      VisitEnd(t)
  {
    hide Translate;
    hide VisitElse;
    hide VisitEnd;
  }

  lemma DeadClose(s: Translation, u: Translation, t: Translation)
    requires s.frames != [] && !s.reachable && Extends(s, u) && s.types <= u.types
    requires |u.frames| == |s.frames| + 1 && u.frames[..|s.frames|] == s.frames && u.frames[|s.frames|].DeadFrame?
    requires WF(t) && Extends(u, t) && Kept(u, t) && !t.reachable && u.types <= t.types
    ensures DeadResult(s, VisitEnd(t))
  {
    EndKeeps(t, []);
    var v := VisitEnd(t).value;
    hide VisitEnd;
    hide WF;
    ExtendsTransitive(s, u, t);
    ExtendsTransitive(s, t, v);
  }
}
