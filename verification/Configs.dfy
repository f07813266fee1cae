/** The same machine under different restrictions: watched or not, and with a tighter or wider stack and call limit. */
module Configs {
  import opened Opcodes
  import opened Machine
  import Store
  import Limits

  // ----- watching an activation -----

  function Unwatched(c: Config): Config { c.(watch := None) }

  /** The watched activation, and whatever it calls, is running; it holds no more than it may. */
  ghost predicate Guarded(c: Config, s: State) {
    c.watch.Some? && c.watch.value.calls <= s.calls && !Over(c, s)
  }

  /** As long as it is not stuck, the watched machine does what the machine does. */
  lemma WatchedStep(c: Config, s: State)
    requires Guarded(c, s) && Step(c, s) != Stuck
    ensures Step(Unwatched(c), s) == Step(c, s)
    ensures Step(c, s).Next? ==> Guarded(c, Step(c, s).state)
  {
    hide Straight;
  }

  lemma {:induction false} WatchedSteps(c: Config, s: State, n: nat)
    requires Guarded(c, s) && Steps(c, s, n) != Stuck
    ensures Steps(Unwatched(c), s, n) == Steps(c, s, n)
    ensures Steps(c, s, n).Next? ==> Guarded(c, Steps(c, s, n).state)
    decreases n
  {
    if n > 0 {
      WatchedStep(c, s);
      hide Guarded;
      hide Step;
      if Step(c, s).Next? {
        WatchedSteps(c, Step(c, s).state, n - 1);
      }
    }
  }

  /** What has not got stuck after `n` steps has not been stuck, nor left the watched activation, before. */
  lemma {:induction false} NotStuckBefore(c: Config, s: State, n: nat, i: nat)
    requires Steps(c, s, n) != Stuck && i <= n
    ensures Steps(c, s, i) != Stuck
    ensures Steps(c, s, n).Next? ==> Steps(c, s, i).Next?
    ensures Steps(c, s, n).Next? && i < n ==> Step(c, Steps(c, s, i).state).Next?
    decreases n
  {
    hide Step;
    if 0 < i {
      if Step(c, s).Next? {
        NotStuckBefore(c, Step(c, s).state, n - 1, i - 1);
      }
    }
  }

  lemma {:induction false} EndedStays(c: Config, s: State, i: nat, j: nat)
    requires !Steps(c, s, i).Next? && i <= j
    ensures Steps(c, s, j) == Steps(c, s, i)
    decreases i
  {
    hide Step;
    if Step(c, s).Next? {
      EndedStays(c, Step(c, s).state, i - 1, j - 1);
    }
  }

  /** A run that traps goes on until it does. */
  lemma TrappedAround(c: Config, s: State, n: nat, j: nat, trap: TrapCode)
    requires Steps(c, s, n) == Trapped(trap)
    ensures Steps(c, s, j).Next? || Steps(c, s, j) == Trapped(trap)
  {
    hide Steps;
    if n <= j {
      EndedStays(c, s, n, j);
    } else if !Steps(c, s, j).Next? {
      EndedStays(c, s, j, n);
    }
  }

  // ----- a tighter stack and call limit -----

  function Narrow(c: Config, maxLen: nat, maxCalls: nat): Config { c.(maxLen := maxLen, maxCalls := maxCalls) }

  lemma NarrowStep(c: Config, s: State, maxLen: nat, maxCalls: nat)
    requires maxLen <= c.maxLen && maxCalls <= c.maxCalls
    ensures Step(Narrow(c, maxLen, maxCalls), s) in {Step(c, s), Trapped(StackOverflow)}
    ensures maxLen == c.maxLen && maxCalls == c.maxCalls ==> Step(Narrow(c, maxLen, maxCalls), s) == Step(c, s)
  {
    hide Straight;
  }

  /** With less room a run is the same until it overflows. */
  lemma {:induction false} NarrowSteps(c: Config, s: State, n: nat, maxLen: nat, maxCalls: nat)
    requires maxLen <= c.maxLen && maxCalls <= c.maxCalls
    ensures Steps(Narrow(c, maxLen, maxCalls), s, n) in {Steps(c, s, n), Trapped(StackOverflow)}
    ensures maxLen == c.maxLen && maxCalls == c.maxCalls ==> Steps(Narrow(c, maxLen, maxCalls), s, n) == Steps(c, s, n)
    decreases n
  {
    if n > 0 {
      NarrowStep(c, s, maxLen, maxCalls);
      hide Step;
      hide Narrow;
      if Step(c, s).Next? {
        NarrowSteps(c, Step(c, s).state, n - 1, maxLen, maxCalls);
      }
    }
  }

  // ----- both, and a fuel limit -----

  /** `wide` has no fuel limit and at least as much room as `c`, and watches the running activation. */
  ghost predicate Widens(c: Config, wide: Config, s: State) {
    && wide == c.(limit := None, maxLen := wide.maxLen, maxCalls := wide.maxCalls, watch := wide.watch)
    && c.watch.None? && c.maxLen <= wide.maxLen && c.maxCalls <= wide.maxCalls
    && Guarded(wide, s) && s.fuel <= Store.U64_MAX && (c.limit.Some? ==> s.fuel <= c.limit.value)
  }

  /** `c` leaves less room than `wide`. */
  predicate Tighter(c: Config, wide: Config) { c.maxLen < wide.maxLen || c.maxCalls < wide.maxCalls }

  /** What becomes of an outcome under the limits of `c`: it stays, unless the stack overflows or the fuel does not
      suffice. */
  ghost predicate Cut(c: Config, wide: Config, o: Outcome, p: Outcome) {
    || (p == Trapped(StackOverflow) && Tighter(c, wide))
    || (p == o && !(c.limit.Some? && o.Next? && o.state.fuel > c.limit.value))
    || (p == Trapped(OutOfFuel) && c.limit.Some? && !(o.Next? && o.state.fuel <= c.limit.value))
  }

  lemma WatchedUnderLimit(c: Config, wide: Config, s: State, n: nat) returns (mid: Config)
    requires Widens(c, wide, s) && Steps(wide, s, n) != Stuck
    ensures mid == wide.(limit := c.limit) && Guarded(mid, s)
    ensures var o, p := Steps(wide, s, n), Steps(mid, s, n);
            || (p == o && !(c.limit.Some? && o.Next? && o.state.fuel > c.limit.value))
            || (p == Trapped(OutOfFuel) && c.limit.Some? && !(o.Next? && o.state.fuel <= c.limit.value))
  {
    mid := wide.(limit := c.limit);
    if c.limit.Some? {
      Limits.UnderLimit(wide, s, n, c.limit.value);
      Limits.SpentGrows(wide, s, n);
    } else {
      assert mid == wide;
    }
  }

  lemma CutSteps(c: Config, wide: Config, s: State, n: nat)
    requires Widens(c, wide, s) && Steps(wide, s, n) != Stuck
    ensures Cut(c, wide, Steps(wide, s, n), Steps(c, s, n))
  {
    hide Steps;
    var mid := WatchedUnderLimit(c, wide, s, n);
    WatchedSteps(mid, s, n);
    NarrowSteps(Unwatched(mid), s, n, c.maxLen, c.maxCalls);
    assert Narrow(Unwatched(mid), c.maxLen, c.maxCalls) == c;
  }
}
