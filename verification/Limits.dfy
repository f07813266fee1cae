/** Runs under a fuel limit, compared with the unlimited run. */
module Limits {
  import opened Words
  import opened Opcodes
  import opened Machine
  import Store
  import T = Translator
  import Source
  import Layout
  import Images
  import Simulation
  import Calls

  function Limited(c: Config, limit: nat): Config { c.(limit := Some(limit)) }

  /** The fuel counter of the last state within `n` steps. */
  function Spent(c: Config, s: State, n: nat): nat
    decreases n
  {
    if n == 0 then s.fuel
    else match Step(c, s)
      case Next(t) => Spent(c, t, n - 1)
      case _ => s.fuel
  }

  predicate Charges(c: Config, s: State) { 0 <= s.pc < |c.code| && c.code[s.pc].ConsumeFuel? }

  /** Only charges look at the limit or change the counter. */
  lemma StepFuel(c: Config, s: State, limit: nat)
    requires c.limit.None? && s.fuel <= U64()
    ensures !Charges(c, s) ==> Step(Limited(c, limit), s) == Step(c, s)
    ensures !Charges(c, s) && Step(c, s).Next? ==> Step(c, s).state.fuel == s.fuel
    ensures Charges(c, s) ==>
              var total := Store.Saturate(s.fuel + c.code[s.pc].fuel);
              && Step(c, s) == Next(s.(pc := s.pc + 1, fuel := total)) && s.fuel <= total <= U64()
              && Step(Limited(c, limit), s) == if total > limit then Trapped(OutOfFuel) else Step(c, s)
  {
    hide Straight;
  }

  function U64(): nat { Store.U64_MAX }

  lemma {:induction false} SpentGrows(c: Config, s: State, n: nat)
    requires c.limit.None? && s.fuel <= U64()
    ensures s.fuel <= Spent(c, s, n) <= U64()
    ensures Steps(c, s, n).Next? ==> Spent(c, s, n) == Steps(c, s, n).state.fuel
    decreases n
  {
    if n > 0 {
      StepFuel(c, s, 0);
      var r := Step(c, s);
      hide Step;
      if r.Next? {
        SpentGrows(c, r.state, n - 1);
      }
    }
  }

  /** A limited run is the unlimited one until the counter would exceed the limit, and then out of fuel. */
  lemma {:induction false} UnderLimit(c: Config, s: State, n: nat, limit: nat)
    requires c.limit.None? && s.fuel <= limit && s.fuel <= U64()
    ensures Steps(Limited(c, limit), s, n) == if Spent(c, s, n) <= limit then Steps(c, s, n) else Trapped(OutOfFuel)
    decreases n
  {
    hide Step;
    hide Limited;
    hide Store.Saturate;
    if n > 0 {
      StepFuel(c, s, limit);
      var r := Step(c, s);
      if r.Next? {
        SpentGrows(c, r.state, n - 1);
        if r.state.fuel <= limit {
          UnderLimit(c, r.state, n - 1, limit);
        }
      }
    }
  }

  /** Consumed fuel never exceeds the limit. */
  lemma {:induction false} NeverExceeds(c: Config, s: State, n: nat)
    requires c.limit.Some? && s.fuel <= c.limit.value
    ensures Steps(c, s, n).Next? ==> Steps(c, s, n).state.fuel <= c.limit.value
    decreases n
  {
    if n > 0 {
      StepWithin(c, s);
      var r := Step(c, s);
      hide Step;
      if r.Next? {
        NeverExceeds(c, r.state, n - 1);
      }
    }
  }

  lemma StepWithin(c: Config, s: State)
    requires c.limit.Some? && s.fuel <= c.limit.value
    ensures Step(c, s).Next? ==> Step(c, s).state.fuel <= c.limit.value
  {
    hide Straight;
  }

  /** A state of the unlimited run is reached under the limit exactly if its counter is within it. */
  lemma ReachedWithin(c: Config, s: State, t: State, limit: nat)
    requires c.limit.None? && s.fuel <= limit && s.fuel <= U64() && Reaches(c, s, Next(t))
    ensures Reaches(Limited(c, limit), s, if t.fuel <= limit then Next(t) else Trapped(OutOfFuel))
    ensures t.fuel <= U64()
  {
    var n: nat :| Steps(c, s, n) == Next(t);
    SpentGrows(c, s, n);
    UnderLimit(c, s, n, limit);
  }

  lemma TrappedWithin(c: Config, s: State, trap: TrapCode, limit: nat)
    requires c.limit.None? && s.fuel <= limit && s.fuel <= U64() && Reaches(c, s, Trapped(trap))
    ensures Reaches(Limited(c, limit), s, Trapped(trap)) || Reaches(Limited(c, limit), s, Trapped(OutOfFuel))
  {
    var n: nat :| Steps(c, s, n) == Trapped(trap);
    UnderLimit(c, s, n, limit);
  }

  lemma TrapAfter(c: Config, s: State, t: State, trap: TrapCode)
    requires Reaches(c, s, Next(t)) && Reaches(c, t, Trapped(trap))
    ensures Reaches(c, s, Trapped(trap))
  {
    ReachesThen(c, s, t, Trapped(trap));
  }

  /** Metered calls: with enough fuel for the entry charge and all executed operators a call returns its
      results, and otherwise it runs out of fuel; a call that traps may also run out of fuel before, and one that
      goes on beyond what the fuel pays for does. */
  lemma MeteredCall(k: Images.World, m: State, n: State, r: Source.Run, fuel: nat, limit: nat)
    requires k.c.limit.None? && m.fuel <= limit && m.fuel <= U64() && Calls.Completes(k, m, n, r, fuel)
    ensures r.result.Returned? ==>
              if Store.Saturate(fuel) <= limit
              then Reaches(Limited(k.c, limit), m, Next(n)) && Simulation.AtReturn(k, n, r.result.stack, fuel)
              else Reaches(Limited(k.c, limit), m, Trapped(OutOfFuel))
    ensures r.result.Trapped? ==>
              var trapped := Reaches(Limited(k.c, limit), m, Trapped(r.result.trap));
              (trapped || Reaches(Limited(k.c, limit), m, Trapped(OutOfFuel)))
              && (Store.Saturate(fuel) > limit ==> Reaches(Limited(k.c, limit), m, Trapped(OutOfFuel)))
    ensures r.result.Timeout? && Store.Saturate(fuel) > limit ==> Reaches(Limited(k.c, limit), m, Trapped(OutOfFuel))
  {
    hide Reaches;
    if r.result.Returned? {
      ReachedWithin(k.c, m, n, limit);
    } else if r.result.Trapped? {
      ReachedWithin(k.c, m, n, limit);
      TrapAfter(k.c, m, n, r.result.trap);
      TrappedWithin(k.c, m, r.result.trap, limit);
    } else if r.result.Timeout? {
      TakesReaches(k.c, m, r.result.rounds, n);
      ReachedWithin(k.c, m, n, limit);
    }
  }
}
