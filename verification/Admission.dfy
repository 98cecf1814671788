/**
 * Admission as the interleaving of its critical sections. A call increments the counter and
 * compares; a call over the limit later rolls its increment back. Any number of calls for one
 * user interleave with the clock, with expiries and with rollbacks asked for from outside.
 */
module Admission {
  import opened Prelude
  import opened Velocity

  /**
   * `gen` numbers the lives of the cell: it grows when an increment finds the cell dead.
   * Calls are tallied under the generation they incremented: `passed` went on past the
   * velocity stage, `over` exceeded the limit and still owe a rollback. `foreign` tallies, per
   * generation, the rollbacks that lowered it without belonging to one of its own calls. `log`
   * is the history of the calls that passed, with their times.
   */
  datatype State = State(cell: Cell, now: int, gen: nat, passed: multiset<nat>, over: multiset<nat>,
                         foreign: multiset<nat>, log: seq<Pass>)

  datatype Pass = Pass(at: int, gen: nat)

  datatype Step =
    | Tick(dt: nat)           // the clock advances
    | Enter                   // some call increments and compares
    | Compensate(gen: nat)    // some over-limit call performs its rollback
    | Outside                 // a rollback that no pending call owes

  const START := State(None, 0, 0, multiset{}, multiset{}, multiset{}, [])

  function Next(cap: int, w: int, s: State, step: Step): State {
    match step
    case Tick(dt) => s.(now := s.now + dt)
    case Enter =>
      var e := Bump(s.cell, w, s.now);
      var g := if Live(s.cell, s.now) then s.gen else s.gen + 1;
      var t := s.(cell := Some(e), gen := g);
      if e.value > cap then t.(over := s.over + multiset{g})
      else t.(passed := s.passed + multiset{g}, log := s.log + [Pass(s.now, g)])
    case Compensate(g) =>
      if g !in s.over then s  // no such call is pending
      else
        var t := s.(cell := Undo(s.cell, s.now), over := s.over - multiset{g});
        if 0 < Reading(s.cell, s.now) && g != s.gen then t.(foreign := s.foreign + multiset{s.gen}) else t
    case Outside =>
      var t := s.(cell := Undo(s.cell, s.now));
      if 0 < Reading(s.cell, s.now) then t.(foreign := s.foreign + multiset{s.gen}) else t
  }

  /** The state after any interleaving of steps. */
  function Run(cap: int, w: int, steps: seq<Step>): State {
    if steps == [] then START
    else Next(cap, w, Run(cap, w, steps[..|steps| - 1]), steps[|steps| - 1])
  }

  /** The counter is bounded by the limit plus the rollbacks still owed. */
  ghost predicate Bounded(cap: int, s: State) {
    Reading(s.cell, s.now) <= Max(cap, 0) + |s.over|
  }

  /** In a live generation the counter is its own calls, short by at most the foreign rollbacks. */
  ghost predicate Accounted(s: State) {
    Live(s.cell, s.now) ==>
      && 0 <= s.cell.value.value
      && s.passed[s.gen] + s.over[s.gen] - s.foreign[s.gen] <= s.cell.value.value
      && s.cell.value.value <= s.passed[s.gen] + s.over[s.gen]
  }

  /** No generation, past or present, lets more than the limit through, up to foreign rollbacks. */
  ghost predicate Capped(cap: int, s: State) {
    && (forall g: nat :: s.passed[g] <= Max(cap, 0) + s.foreign[g])
    && (forall g: nat :: s.gen < g ==> s.passed[g] == 0 && s.over[g] == 0 && s.foreign[g] == 0)
  }

  ghost predicate Inv(cap: int, s: State) {
    Bounded(cap, s) && Accounted(s) && Capped(cap, s)
  }

  lemma StepKeepsInv(cap: int, w: int, s: State, step: Step)
    requires Inv(cap, s)
    ensures Inv(cap, Next(cap, w, s, step))
  {
    match step {
      case Tick(_) =>
      case Enter => EnterKeepsCapped(cap, w, s);
      case Compensate(g) => CompensateKeepsInv(cap, w, s, g);
      case Outside =>
    }
  }

  lemma CompensateKeepsInv(cap: int, w: int, s: State, g: nat)
    requires Inv(cap, s)
    ensures Inv(cap, Next(cap, w, s, Compensate(g)))
  {}

  lemma EnterKeepsCapped(cap: int, w: int, s: State)
    requires Inv(cap, s)
    ensures Capped(cap, Next(cap, w, s, Enter)) && Accounted(Next(cap, w, s, Enter))
  {
    var t := Next(cap, w, s, Enter);
    forall g: nat ensures t.passed[g] <= Max(cap, 0) + t.foreign[g] {
      assert g != t.gen ==> t.passed[g] == s.passed[g];
    }
  }

  /**
   * Concurrent admission, over every interleaving: the counter never exceeds the limit plus the
   * rollbacks owed, and each generation passes at most the limit plus its foreign rollbacks.
   */
  lemma {:induction false} AdmissionIsBounded(cap: int, w: int, steps: seq<Step>)
    ensures Inv(cap, Run(cap, w, steps))
  {
    if steps != [] {
      AdmissionIsBounded(cap, w, steps[..|steps| - 1]);
      StepKeepsInv(cap, w, Run(cap, w, steps[..|steps| - 1]), steps[|steps| - 1]);
    }
  }

  /**
   * Within a live generation that no foreign rollback has touched the counter is exact, at most
   * `cap` calls have passed, and the next call passes if and only if there is room for it.
   */
  lemma ExactWithoutForeignRollbacks(cap: int, w: int, steps: seq<Step>)
    requires var s := Run(cap, w, steps); Live(s.cell, s.now) && s.foreign[s.gen] == 0
    ensures var s := Run(cap, w, steps);
            && s.cell.value.value == s.passed[s.gen] + s.over[s.gen]
            && s.passed[s.gen] <= Max(cap, 0)
            && (Next(cap, w, s, Enter).passed == s.passed + multiset{s.gen}
                <==> s.passed[s.gen] + s.over[s.gen] < cap)
  {
    AdmissionIsBounded(cap, w, steps);
    var s := Run(cap, w, steps);
    assert (s.passed + multiset{s.gen})[s.gen] == s.passed[s.gen] + 1;
  }

  // ---- The rolling window ------------------------------------------------

  function PassesIn(log: seq<Pass>, lo: int, hi: int): nat {
    if log == [] then 0
    else PassesIn(log[..|log| - 1], lo, hi) + if lo <= log[|log| - 1].at <= hi then 1 else 0
  }

  function PassesOf(log: seq<Pass>, g: nat): nat {
    if log == [] then 0
    else PassesOf(log[..|log| - 1], g) + if log[|log| - 1].gen == g then 1 else 0
  }

  /** Calls of the current generation keep its cell alive; those of earlier ones are out of reach. */
  ghost predicate Spaced(w: int, s: State) {
    && (forall i :: 0 <= i < |s.log| ==> s.log[i].gen <= s.gen)
    && (forall i :: 0 <= i < |s.log| && s.log[i].gen == s.gen ==>
          s.cell.Some? && s.log[i].at + w <= s.cell.value.expiresAt)
    && (forall i :: 0 <= i < |s.log| && s.log[i].gen < s.gen ==> s.log[i].at + w < s.now)
    && (forall i, j :: 0 <= i < |s.log| && 0 <= j < |s.log| && s.log[i].gen < s.log[j].gen ==>
          s.log[i].at + w < s.log[j].at)
    && (s.cell.Some? ==> s.cell.value.expiresAt <= s.now + w)
  }

  /** The log tells the same story as the tallies. */
  ghost predicate Logged(s: State) {
    forall g: nat :: PassesOf(s.log, g) == s.passed[g]
  }

  lemma StepKeepsSpaced(cap: int, w: int, s: State, step: Step)
    requires Spaced(w, s)
    ensures Spaced(w, Next(cap, w, s, step))
  {
    if step.Enter? {
      EnterKeepsSpaced(cap, w, s);
    } else {
      assert Next(cap, w, s, step).log == s.log && Next(cap, w, s, step).gen == s.gen;
    }
  }

  lemma EnterKeepsSpaced(cap: int, w: int, s: State)
    requires Spaced(w, s)
    ensures Spaced(w, Next(cap, w, s, Enter))
  {
    var t, n := Next(cap, w, s, Enter), |s.log|;
    forall i | 0 <= i < n && s.log[i].gen < t.gen ensures s.log[i].at + w < s.now {}
    assert forall i :: 0 <= i < n ==> t.log[i] == s.log[i];
    assert |t.log| > n ==> t.log[n] == Pass(s.now, t.gen);
  }

  lemma StepKeepsLogged(cap: int, w: int, s: State, step: Step)
    requires Logged(s)
    ensures Logged(Next(cap, w, s, step))
  {
    var t := Next(cap, w, s, step);
    if t.log != s.log {
      assert t.log[..|s.log|] == s.log;
    }
  }

  lemma {:induction false} RunIsSpaced(cap: int, w: int, steps: seq<Step>)
    ensures Spaced(w, Run(cap, w, steps)) && Logged(Run(cap, w, steps))
  {
    if steps != [] {
      var s := Run(cap, w, steps[..|steps| - 1]);
      RunIsSpaced(cap, w, steps[..|steps| - 1]);
      StepKeepsSpaced(cap, w, s, steps[|steps| - 1]);
      StepKeepsLogged(cap, w, s, steps[|steps| - 1]);
    }
  }

  lemma {:induction false} OneGenerationCovers(log: seq<Pass>, lo: int, hi: int, g: nat)
    requires forall i :: 0 <= i < |log| && lo <= log[i].at <= hi ==> log[i].gen == g
    ensures PassesIn(log, lo, hi) <= PassesOf(log, g)
  {
    if log != [] {
      OneGenerationCovers(log[..|log| - 1], lo, hi, g);
    }
  }

  lemma {:induction false} EmptyWindow(log: seq<Pass>, lo: int, hi: int)
    requires forall i :: 0 <= i < |log| ==> !(lo <= log[i].at <= hi)
    ensures PassesIn(log, lo, hi) == 0
  {
    if log != [] {
      EmptyWindow(log[..|log| - 1], lo, hi);
    }
  }

  /**
   * The limit holds over true rolling windows: in every interleaving, the calls that passed within
   * any stretch of time no longer than the window all belong to one generation, so they number at
   * most the limit plus the rollbacks foreign to that generation.
   */
  lemma RollingWindowIsRespected(cap: int, w: int, steps: seq<Step>, lo: int, hi: int)
    requires hi - lo <= w
    ensures var s := Run(cap, w, steps);
            forall i :: 0 <= i < |s.log| && lo <= s.log[i].at <= hi ==>
              PassesIn(s.log, lo, hi) <= Max(cap, 0) + s.foreign[s.log[i].gen]
    ensures Run(cap, w, steps).foreign == multiset{} ==> PassesIn(Run(cap, w, steps).log, lo, hi) <= Max(cap, 0)
  {
    AdmissionIsBounded(cap, w, steps);
    RunIsSpaced(cap, w, steps);
    var s := Run(cap, w, steps);
    forall i | 0 <= i < |s.log| && lo <= s.log[i].at <= hi
      ensures PassesIn(s.log, lo, hi) <= Max(cap, 0) + s.foreign[s.log[i].gen]
    {
      OneGenerationCovers(s.log, lo, hi, s.log[i].gen);
    }
    if forall i :: 0 <= i < |s.log| ==> !(lo <= s.log[i].at <= hi) {
      EmptyWindow(s.log, lo, hi);
    }
  }
}
