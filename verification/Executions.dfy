/** Calls of the functions of a compiled module, under any fuel, stack and call limit. */
module Executions {
  import opened Words
  import O = Opcodes
  import M = Machine
  import Store
  import opened Source
  import opened Layout
  import opened Translator
  import opened Functions
  import Images
  import Simulation
  import Limits
  import SourceCosts
  import opened Calls
  import opened Modules
  import opened Configs

  /** A call of a function of a module: the function and where it is linked, the words of its caller, its
      arguments, and the machine and its state in front of the function. */
  datatype Call = Call(
    c: M.Config,
    entry: nat,
    unit: Unit,
    piece: Piece,
    snippets: map<Snippet, Word>,
    caller: seq<Word>,
    args: seq<Value>,
    start: M.State)

  /** The function is linked, and the machine stands at its start with the arguments on top of the caller's words. */
  ghost predicate Valid(x: Call) {
    var m, f := x.start, x.unit.definition;
    && LinkedPiece(x.c.code, x.entry, x.unit, x.piece, x.snippets) && x.c.watch.None?
    && m.pc == x.entry + |x.piece.earlier| && m.stack == x.caller + Flat(x.args) && TypesOf(x.args) == f.params
    && (m.signature.None? || m.signature == O.Some(f.signature))
    && m.fuel <= Store.U64_MAX && (x.c.limit.Some? ==> m.fuel <= x.c.limit.value)
  }

  /** The words the function may hold together with its callers: their own, its parameters, and the room its stack
      check asks for. */
  function Need(x: Call): nat { |x.caller| + x.piece.final.paramWords + x.piece.final.maxHeight }

  /** The stack limit leaves room for the function and the snippets it calls, and the call limit for one more call. */
  predicate Ample(x: Call) { Need(x) + Images.SNIPPET_ROOM <= x.c.maxLen && |x.start.calls| < x.c.maxCalls }

  predicate Affords(c: M.Config, fuel: nat) { c.limit.None? || Store.Saturate(fuel) <= c.limit.value }

  /** The source semantics of the call. */
  function Meaning(x: Call, n: nat): Run { Invoke(x.unit.costs.base, n, x.unit.definition, x.args) }

  /** The fuel counter of a call of this cost. */
  function Charged(x: Call, cost: nat): nat {
    x.start.fuel + (if x.unit.costs.metered then EntryCost(x.unit.costs) + cost else 0)
  }

  /** The machine with ample room, watching the call. */
  function Wide(x: Call): M.Config {
    var len, calls := Need(x) + Images.SNIPPET_ROOM, |x.start.calls| + 1;
    x.c.(limit := O.None,
         maxLen := if len <= x.c.maxLen then x.c.maxLen else len,
         maxCalls := if calls <= x.c.maxCalls then x.c.maxCalls else calls,
         watch := O.Some(M.Watch(x.start.calls, Need(x))))
  }

  function Activation(x: Call): Images.World {
    Images.World(Wide(x), x.entry, |x.piece.earlier|, x.piece.final, x.snippets, x.unit.definition.results, x.caller,
                 x.start.calls)
  }

  lemma ActivationFine(x: Call)
    requires Valid(x)
    ensures Images.Fine(Activation(x)) && Widens(x.c, Wide(x), x.start)
    ensures Compiled(Activation(x), x.unit.costs, x.unit.definition, x.piece.earlier)
    ensures Entering(Activation(x), x.unit.definition, x.args, x.start)
    ensures Tighter(x.c, Wide(x)) <==> !Ample(x)
  {
    hide Images.Linked;
    hide TranslateFunction;
    hide ValidFunction;
    var w := Activation(x);
    assert Images.Linked(w.c, x.entry, |x.piece.earlier|, x.piece.final, x.snippets);
    Holds(x);
  }

  /** On entry the stack holds no more than the callers' words and the parameters. */
  lemma Holds(x: Call)
    requires Valid(x)
    ensures |x.start.stack| <= Need(x)
  {
    hide Images.Linked;
    var w := Activation(x);
    assert Images.Linked(w.c, x.entry, |x.piece.earlier|, x.piece.final, x.snippets);
    var t, dk := Parts(w, x.unit.costs, x.unit.definition, x.piece.earlier);
    hide TranslateFunction;
    hide ValidFunction;
    OpenedSizes(w, x.unit.costs, x.unit.definition, x.piece.earlier);
  }

  lemma WideRuns(x: Call, n: nat) returns (m2: M.State)
    requires Valid(x)
    ensures Completes(Activation(x), x.start, m2, Meaning(x, n), Charged(x, Meaning(x, n).cost))
  {
    hide Valid;
    hide Completes;
    hide Compiled;
    hide Entering;
    hide Images.Fine;
    hide Invoke;
    ActivationFine(x);
    m2 := FunctionRuns(Activation(x), x.unit.costs, x.unit.definition, x.piece.earlier, n, x.args, x.start);
  }

  // ----- what a call does -----

  /** The call does what the source means: it returns exactly the results on top of the caller's words, charged
      `fuel`, or takes the trap; or it overflows the stack, or runs out of fuel. */
  ghost predicate Answers(x: Call, m2: M.State, r: Source.Result, fuel: nat) {
    || (!Ample(x) && M.Reaches(x.c, x.start, M.Trapped(O.StackOverflow)))
    || match r
       case Returned(st) =>
         if Affords(x.c, fuel)
         then M.Reaches(x.c, x.start, M.Next(m2)) && Simulation.AtReturn(Activation(x), m2, st, fuel)
         else M.Reaches(x.c, x.start, M.Trapped(O.OutOfFuel))
       case Trapped(trap) =>
         || (Affords(x.c, fuel) && M.Reaches(x.c, x.start, M.Trapped(trap)))
         || (x.c.limit.Some? && M.Reaches(x.c, x.start, M.Trapped(O.OutOfFuel)))
       case Timeout(_) => Affords(x.c, fuel) || M.Reaches(x.c, x.start, M.Trapped(O.OutOfFuel))
       case _ => false
  }

  /** A state of the ample run: it is met unless the stack overflows or the fuel does not suffice. */
  lemma Met(x: Call, t: M.State)
    requires Valid(x) && M.Reaches(Wide(x), x.start, M.Next(t))
    ensures || (!Ample(x) && M.Reaches(x.c, x.start, M.Trapped(O.StackOverflow)))
            || (x.c.limit.Some? && t.fuel > x.c.limit.value && M.Reaches(x.c, x.start, M.Trapped(O.OutOfFuel)))
            || (!(x.c.limit.Some? && t.fuel > x.c.limit.value) && M.Reaches(x.c, x.start, M.Next(t)))
  {
    ActivationFine(x);
    hide Valid;
    hide Wide;
    var n: nat :| M.Steps(Wide(x), x.start, n) == M.Next(t);
    CutSteps(x.c, Wide(x), x.start, n);
  }

  lemma TrapMet(x: Call, t: M.State, trap: O.TrapCode)
    requires Valid(x) && M.Reaches(Wide(x), x.start, M.Next(t)) && M.Reaches(Wide(x), t, M.Trapped(trap))
    ensures || (!Ample(x) && M.Reaches(x.c, x.start, M.Trapped(O.StackOverflow)))
            || (x.c.limit.Some? && M.Reaches(x.c, x.start, M.Trapped(O.OutOfFuel)))
            || M.Reaches(x.c, x.start, M.Trapped(trap))
  {
    ActivationFine(x);
    hide Valid;
    hide Wide;
    M.ReachesThen(Wide(x), x.start, t, M.Trapped(trap));
    var n: nat :| M.Steps(Wide(x), x.start, n) == M.Trapped(trap);
    CutSteps(x.c, Wide(x), x.start, n);
  }

  /** Every function of a compiled module, called under any limits, does what the source semantics says. */
  lemma CallRuns(x: Call, n: nat) returns (m2: M.State)
    requires Valid(x)
    ensures Answers(x, m2, Meaning(x, n).result, Charged(x, Meaning(x, n).cost))
  {
    m2 := WideRuns(x, n);
    var r := Meaning(x, n).result;
    hide Valid;
    hide Wide;
    hide Ample;
    hide Charged;
    hide Meaning;
    hide M.Reaches;
    match r
    case Returned(_) => Met(x, m2);
    case Trapped(trap) => Met(x, m2); TrapMet(x, m2, trap);
    case Timeout(rounds) => M.TakesReaches(Wide(x), x.start, rounds, m2); Met(x, m2);
  }

  /** Metered calls always end. Under a limit below the largest counter value, a call of any function of a compiled
      module returns the source results, takes the source trap, overflows the stack or runs out of fuel. */
  lemma MeteredCallEnds(x: Call) returns (m2: M.State)
    requires Valid(x) && x.unit.costs.metered && x.unit.costs.base >= 1
    requires x.c.limit.Some? && x.c.limit.value < Store.U64_MAX
    ensures var r := Meaning(x, x.c.limit.value + 1);
            var fuel := Charged(x, r.cost);
            || (!Ample(x) && M.Reaches(x.c, x.start, M.Trapped(O.StackOverflow)))
            || M.Reaches(x.c, x.start, M.Trapped(O.OutOfFuel))
            || (r.result.Trapped? && M.Reaches(x.c, x.start, M.Trapped(r.result.trap)))
            || (r.result.Returned? && fuel <= x.c.limit.value && M.Reaches(x.c, x.start, M.Next(m2))
                && Simulation.AtReturn(Activation(x), m2, r.result.stack, fuel))
  {
    hide Valid;
    hide Ample;
    hide M.Reaches;
    hide Simulation.AtReturn;
    m2 := CallRuns(x, x.c.limit.value + 1);
    hide Invoke;
    SourceCosts.CallPays(x.unit.costs.base, x.c.limit.value + 1, x.unit.definition, x.args);
  }

  // ----- every step of a call -----

  ghost predicate AboutToReturn(x: Call, o: M.Outcome) {
    o.Next? && o.state.calls == x.start.calls && 0 <= o.state.pc < |x.c.code| && x.c.code[o.state.pc] == O.Return
  }

  /** After `i` steps the called function is about to return. */
  ghost predicate Returning(x: Call, i: nat) { AboutToReturn(x, M.Steps(x.c, x.start, i)) }

  /** What the ample run of the call looks like after `j` steps: it goes on or has trapped, or the function was about
      to return before. If the source goes on for more than `j` rounds of a loop, it goes on. */
  lemma WideSteps(x: Call, j: nat) returns (i: nat)
    requires Valid(x)
    ensures || M.Steps(Wide(x), x.start, j).Next? || M.Steps(Wide(x), x.start, j).Trapped?
            || (i < j && AboutToReturn(x, M.Steps(Wide(x), x.start, i)))
    ensures Meaning(x, j).result.Timeout? ==> M.Steps(Wide(x), x.start, j).Next?
  {
    hide Valid;
    hide Charged;
    hide M.Steps;
    hide Invoke;
    assert Wide(x).code == x.c.code;
    hide Wide;
    var m2 := WideRuns(x, j);
    SourceCosts.CallPays(x.unit.costs.base, j, x.unit.definition, x.args);
    i := 0;
    var r := Meaning(x, j).result;
    match r
    case Returned(_) =>
      i :| M.Steps(Wide(x), x.start, i) == M.Next(m2);
      if j <= i {
        NotStuckBefore(Wide(x), x.start, i, j);
      }
    case Trapped(trap) =>
      M.ReachesThen(Wide(x), x.start, m2, M.Trapped(trap));
      var n: nat :| M.Steps(Wide(x), x.start, n) == M.Trapped(trap);
      TrappedAround(Wide(x), x.start, n, j, trap);
    case Timeout(rounds) =>
      var n: nat :| n >= rounds && M.Steps(Wide(x), x.start, n) == M.Next(m2);
      NotStuckBefore(Wide(x), x.start, n, j);
  }

  /** The word stack of a call: its callers' return addresses are still there, and as long as the function itself
      is running it holds no more words than its stack check has asked for. */
  ghost predicate Bounded(x: Call, s: M.State) {
    x.start.calls <= s.calls && (s.calls == x.start.calls ==> |s.stack| <= Need(x))
  }

  /** Stack-bound soundness. Metered or not, whether it ends or not, and under any limits, a call of a compiled
      function is never stuck before it returns: it writes no word outside the reserved stack, no jump leaves the
      code, and no instruction of the function raises the stack above the height on entry plus the operand of its
      stack check. */
  lemma NeverStuck(x: Call, j: nat)
    requires Valid(x) && forall i: nat :: i < j ==> !Returning(x, i)
    ensures var o := M.Steps(x.c, x.start, j); o.Trapped? || (o.Next? && Bounded(x, o.state))
  {
    hide M.Steps;
    hide Meaning;
    hide Bounded;
    hide Returning;
    ActivationFine(x);
    var i := WideSteps(x, j);
    hide Valid;
    if M.Steps(Wide(x), x.start, j).Next? || M.Steps(Wide(x), x.start, j).Trapped? {
      StaysBounded(x, j);
    } else {
      EndsBefore(x, i, j);
    }
  }

  lemma StaysBounded(x: Call, j: nat)
    requires Widens(x.c, Wide(x), x.start)
    requires M.Steps(Wide(x), x.start, j).Next? || M.Steps(Wide(x), x.start, j).Trapped?
    ensures var o := M.Steps(x.c, x.start, j); o.Trapped? || (o.Next? && Bounded(x, o.state))
  {
    hide M.Steps;
    WatchedSteps(Wide(x), x.start, j);
    CutSteps(x.c, Wide(x), x.start, j);
  }

  lemma EndsBefore(x: Call, i: nat, j: nat)
    requires Widens(x.c, Wide(x), x.start) && i < j && AboutToReturn(x, M.Steps(Wide(x), x.start, i))
    requires !Returning(x, i)
    ensures M.Steps(x.c, x.start, j).Trapped?
  {
    hide M.Steps;
    CutSteps(x.c, Wide(x), x.start, i);
    EndedStays(x.c, x.start, i, j);
  }

  // ----- calls that do not end -----

  /** The source never ends. */
  ghost predicate Diverging(x: Call) { forall n: nat :: Meaning(x, n).result.Timeout? }

  /** A call of a function that never ends goes on forever without returning, but for the limits of the machine. */
  lemma DivergesToo(x: Call, j: nat)
    requires Valid(x) && Diverging(x)
    ensures !Returning(x, j)
    ensures var o := M.Steps(x.c, x.start, j);
            || (o.Next? && Bounded(x, o.state))
            || (o == M.Trapped(O.StackOverflow) && !Ample(x))
            || (o == M.Trapped(O.OutOfFuel) && x.c.limit.Some? && x.c.limit.value < Store.U64_MAX)
  {
    ActivationFine(x);
    assert Meaning(x, j + 1).result.Timeout? && Meaning(x, j).result.Timeout?;
    hide Diverging;
    hide Meaning;
    var _ := WideSteps(x, j);
    var _ := WideSteps(x, j + 1);
    hide Valid;
    hide M.Step;
    NotStuckBefore(Wide(x), x.start, j + 1, j);
    var w := M.Steps(Wide(x), x.start, j).state;
    hide M.Steps;
    WatchedSteps(Wide(x), x.start, j);
    CutSteps(x.c, Wide(x), x.start, j);
    Limits.SpentGrows(Wide(x), x.start, j);
    StaysInside(x, w);
  }

  /** The watched function does not return. */
  lemma StaysInside(x: Call, s: M.State)
    requires M.Step(Wide(x), s).Next?
    ensures !AboutToReturn(x, M.Next(s))
  {
  }

  /** The call has ended after `j` steps. */
  ghost predicate Ended(x: Call, j: nat) { !M.Steps(x.c, x.start, j).Next? || Returning(x, j) }

  /** With ample room, and no fuel limit or one that the counter cannot pass, a call ends if and only if the source
      does. */
  lemma EndsAlike(x: Call)
    requires Valid(x) && Ample(x) && (x.c.limit.None? || x.c.limit.value >= Store.U64_MAX)
    ensures (exists j: nat :: Ended(x, j)) <==> (exists n: nat :: !Meaning(x, n).result.Timeout?)
  {
    hide Valid;
    hide Ample;
    hide Meaning;
    if n: nat :| !Meaning(x, n).result.Timeout? {
      var m2 := CallRuns(x, n);
      var r, fuel := Meaning(x, n).result, Charged(x, Meaning(x, n).cost);
      hide Charged;
      assert Affords(x.c, fuel);
      hide M.Steps;
      if r.Returned? {
        var j: nat :| M.Steps(x.c, x.start, j) == M.Next(m2);
        assert Ended(x, j);
      } else {
        NotNextEnds(x, r);
      }
    } else {
      assert Diverging(x);
      forall j: nat ensures !Ended(x, j) {
        DivergesToo(x, j);
      }
    }
  }

  lemma NotNextEnds(x: Call, r: Source.Result)
    requires r.Trapped?
    requires M.Reaches(x.c, x.start, M.Trapped(r.trap)) || M.Reaches(x.c, x.start, M.Trapped(O.OutOfFuel))
    ensures exists j: nat :: Ended(x, j)
  {
    var j: nat :| M.Steps(x.c, x.start, j).Trapped?;
    assert Ended(x, j);
  }
}
