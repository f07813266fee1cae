/** A run is given up only after many rounds of a loop, and every round costs something. */
module SourceCosts {
  import opened Source
  import T = Translator
  import opened Calls
  import Functions

  /** A branch has been paid for, and a run is given up after `n` or more rounds of a loop, each of which has been
      paid for. */
  ghost predicate Pays(base: nat, n: nat, r: Run) {
    && (r.result.Branching? ==> r.cost >= base)
    && (r.result.Timeout? ==> r.result.rounds >= n && (base >= 1 ==> r.cost >= n))
  }

  lemma {:induction false} CodePays(base: nat, n: nat, code: seq<Instr>, ls: seq<Value>, st: seq<Value>)
    ensures Pays(base, n, Exec(base, n, code, ls, st))
    decreases n, code, 0
  {
    hide ExecInstr;
    if code != [] {
      InstrPays(base, n, code[0], ls, st);
      var r := ExecInstr(base, n, code[0], ls, st);
      if r.result.Normal? {
        CodePays(base, n, code[1..], r.result.locals, r.result.stack);
      }
    }
  }

  lemma {:induction false} InstrPays(base: nat, n: nat, i: Instr, ls: seq<Value>, st: seq<Value>)
    ensures Pays(base, n, ExecInstr(base, n, i, ls, st))
    decreases n, i, 1
  {
    hide ExecBlock;
    hide ExecLoop;
    hide Plain;
    hide Cost;
    match i
    case Block(bt, body) => BlockPays(base, n, bt, body, ls, st);
    case Loop(bt, body) =>
      if |st| >= |Params(bt)| {
        LoopPays(base, n, bt, body, ls, Top(st, |Params(bt)|));
      }
    case If(bt, thn) =>
      if st != [] {
        BlockPays(base, n, bt, thn, ls, Below(st, 1));
      }
    case IfElse(bt, thn, els) =>
      if st != [] {
        BlockPays(base, n, bt, thn, ls, Below(st, 1));
        BlockPays(base, n, bt, els, ls, Below(st, 1));
      }
    case _ => PlainPays(base, i, ls, st);
  }

  lemma PlainPays(base: nat, i: Instr, ls: seq<Value>, st: seq<Value>)
    ensures Plain(i, ls, st).Branching? ==> Cost(base, i) >= base
    ensures !Plain(i, ls, st).Timeout?
  {
    hide Numeric;
    if i.Num? {
      NumericPays(i.op, ls, st);
    }
  }

  lemma NumericPays(op: NumOp, ls: seq<Value>, st: seq<Value>)
    ensures !Numeric(op, ls, st).Branching? && !Numeric(op, ls, st).Timeout?
  {
    hide NumEval;
  }

  lemma {:induction false} BlockPays(base: nat, n: nat, bt: BlockType, body: seq<Instr>, ls: seq<Value>, st: seq<Value>)
    ensures Pays(base, n, ExecBlock(base, n, bt, body, ls, st))
    decreases n, body, 1
  {
    hide Exec;
    if |st| >= |Params(bt)| {
      CodePays(base, n, body, ls, Top(st, |Params(bt)|));
    }
  }

  lemma {:induction false} LoopPays(base: nat, n: nat, bt: BlockType, body: seq<Instr>, ls: seq<Value>,
                                    args: seq<Value>)
    ensures Pays(base, n, ExecLoop(base, n, bt, body, ls, args))
    decreases n, body, 1
  {
    hide Exec;
    CodePays(base, n, body, ls, args);
    var r := Exec(base, n, body, ls, args);
    if r.result.Branching? && r.result.depth == 0 && |r.result.stack| >= |Params(bt)| && n > 0 {
      LoopPays(base, n - 1, bt, body, r.result.locals, Top(r.result.stack, |Params(bt)|));
    }
  }

  lemma CallPays(base: nat, n: nat, f: T.Function, args: seq<Value>)
    ensures Pays(base, n, Invoke(base, n, f, args))
  {
    hide Exec;
    CodePays(base, n, f.body, args + Zeros(Functions.LocalTypes(f.locals)), []);
  }
}
