/**
 * How far the limit can be overrun. The bound on admitted calls allows for rollbacks that hit a
 * generation from outside it; here that allowance is shown to be exactly what can be used.
 */
module AdmissionOverrun {
  import opened Prelude
  import opened Velocity
  import opened Admission

  /** The state after any steps taken from `s`. */
  function From(cap: int, w: int, s: State, more: seq<Step>): State
    decreases |more|
  {
    if more == [] then s else From(cap, w, Next(cap, w, s, more[0]), more[1..])
  }

  lemma RunSnoc(cap: int, w: int, steps: seq<Step>, step: Step)
    ensures Run(cap, w, steps + [step]) == Next(cap, w, Run(cap, w, steps), step)
  {}

  lemma {:induction false} RunThenFrom(cap: int, w: int, steps: seq<Step>, more: seq<Step>)
    ensures Run(cap, w, steps + more) == From(cap, w, Run(cap, w, steps), more)
    decreases |more|
  {
    if more == [] {
      assert steps + more == steps;
    } else {
      var p := steps + [more[0]];
      assert p + more[1..] == steps + more;
      RunThenFrom(cap, w, p, more[1..]);
      assert Run(cap, w, p) == Next(cap, w, Run(cap, w, steps), more[0]) by {
        RunSnoc(cap, w, steps, more[0]);
      }
    }
  }

  /** No rollback but those that over-limit calls owe. */
  ghost predicate OwnRollbacksOnly(more: seq<Step>) {
    forall i :: 0 <= i < |more| ==> !more[i].Outside?
  }

  /** All at one instant: calls entering and calls rolling back. */
  ghost predicate Instant(more: seq<Step>) {
    forall i :: 0 <= i < |more| ==> more[i].Enter? || more[i].Compensate?
  }

  /** By how much the counter falls short of the calls of its generation. */
  function Shortfall(s: State): int {
    s.passed[s.gen] + s.over[s.gen] - Reading(s.cell, s.now)
  }

  /** How many calls of earlier generations still owe a rollback. */
  function Late(s: State): int {
    |s.over| - s.over[s.gen]
  }

  /** A live counter is above the limit only by calls of its own generation that owe a rollback. */
  ghost predicate OwnExcess(cap: int, s: State) {
    Live(s.cell, s.now) ==> 0 <= s.cell.value.value <= Max(cap, 0) + s.over[s.gen]
  }

  lemma StepKeepsOwnExcess(cap: int, w: int, s: State, step: Step)
    requires OwnExcess(cap, s) && Inv(cap, s)
    ensures OwnExcess(cap, Next(cap, w, s, step))
  {}

  lemma {:induction false} RunOwnExcess(cap: int, w: int, steps: seq<Step>)
    ensures OwnExcess(cap, Run(cap, w, steps))
  {
    if steps != [] {
      var p := steps[..|steps| - 1];
      RunOwnExcess(cap, w, p);
      AdmissionIsBounded(cap, w, p);
      StepKeepsOwnExcess(cap, w, Run(cap, w, p), steps[|steps| - 1]);
    }
  }

  // ---- No more than this -------------------------------------------------

  /** Generation `g` cannot go beyond `limit` any more. */
  ghost predicate Ceiling(cap: int, s: State, g: nat, limit: int) {
    && g <= s.gen && s.passed[g] <= limit && OwnExcess(cap, s)
    && (s.gen == g && Live(s.cell, s.now) ==> Max(cap, 0) + Shortfall(s) + Late(s) <= limit)
  }

  lemma LateIsNonNegative(s: State)
    ensures 0 <= Late(s)
  {
    assert s.over == (s.over - multiset{}[s.gen := s.over[s.gen]]) + multiset{}[s.gen := s.over[s.gen]];
  }

  lemma EnterKeepsCeiling(cap: int, w: int, s: State, g: nat, limit: int)
    requires Ceiling(cap, s, g, limit)
    ensures Ceiling(cap, Next(cap, w, s, Enter), g, limit)
  {
    LateIsNonNegative(s);
  }

  lemma CompensateKeepsCeiling(cap: int, w: int, s: State, g: nat, limit: int, owed: nat)
    requires Ceiling(cap, s, g, limit)
    ensures Ceiling(cap, Next(cap, w, s, Compensate(owed)), g, limit)
  {}

  lemma {:induction false} CeilingHolds(cap: int, w: int, s: State, more: seq<Step>, g: nat, limit: int)
    requires Ceiling(cap, s, g, limit) && OwnRollbacksOnly(more)
    ensures From(cap, w, s, more).passed[g] <= limit
    decreases |more|
  {
    if more != [] {
      match more[0] {
        case Enter => EnterKeepsCeiling(cap, w, s, g, limit);
        case Compensate(owed) => CompensateKeepsCeiling(cap, w, s, g, limit, owed);
        case Tick(_) =>
      }
      CeilingHolds(cap, w, Next(cap, w, s, more[0]), more[1..], g, limit);
    }
  }

  // ---- And no less -------------------------------------------------------

  /** A live counter under a positive limit, as every live reachable state is. */
  ghost predicate Ready(cap: int, w: int, s: State) {
    1 <= cap && 0 <= w && Live(s.cell, s.now) && OwnExcess(cap, s)
  }

  lemma EnterWhenReady(cap: int, w: int, s: State)
    requires Ready(cap, w, s)
    ensures var t := Next(cap, w, s, Enter);
            && Ready(cap, w, t) && t.gen == s.gen && t.cell.value.value == s.cell.value.value + 1
            && Shortfall(t) == Shortfall(s) && Late(t) == Late(s)
            && (s.cell.value.value < cap ==> t.over == s.over)
  {}

  lemma CompensateWhenReady(cap: int, w: int, s: State, owed: nat)
    requires Ready(cap, w, s) && 0 < s.cell.value.value && owed in s.over
    ensures var t := Next(cap, w, s, Compensate(owed));
            && Ready(cap, w, t) && t.gen == s.gen && t.cell.value.value == s.cell.value.value - 1
            && Shortfall(t) + Late(t) == Shortfall(s) + Late(s)
            && |t.over| == |s.over| - 1
  {}

  /** Calls enter until the counter is full and every owed rollback has made room for one more. */
  lemma {:induction false} Squeeze(cap: int, w: int, s: State) returns (more: seq<Step>)
    requires Ready(cap, w, s)
    ensures Instant(more) && From(cap, w, s, more).gen == s.gen
    ensures From(cap, w, s, more).passed[s.gen] == cap + Shortfall(s) + Late(s)
    decreases |s.over|, Max(cap - s.cell.value.value, 0)
  {
    if s.cell.value.value < cap {
      EnterWhenReady(cap, w, s);
      var rest := Squeeze(cap, w, Next(cap, w, s, Enter));
      more := [Enter] + rest;
    } else if |s.over| > 0 {
      var owed :| owed in s.over;
      CompensateWhenReady(cap, w, s, owed);
      var rest := Squeeze(cap, w, Next(cap, w, s, Compensate(owed)));
      more := [Compensate(owed)] + rest;
    } else {
      more := [];
    }
  }

  // ---- The exact condition -----------------------------------------------

  lemma LiveNeedsAWindow(cap: int, w: int, steps: seq<Step>)
    requires Live(Run(cap, w, steps).cell, Run(cap, w, steps).now)
    ensures 0 <= w
  {
    RunIsSpaced(cap, w, steps);
  }

  /**
   * The most calls a live generation can still come to admit, from any reachable state and without
   * outside rollbacks: the limit, plus what the counter already falls short by, plus the rollbacks
   * earlier generations still owe. No continuation admits more, and one within the instant admits
   * that many.
   */
  lemma MostAdmitted(cap: int, w: int, steps: seq<Step>, n: int)
    requires 1 <= cap && var s := Run(cap, w, steps); Live(s.cell, s.now)
    ensures var s := Run(cap, w, steps);
            (exists more :: OwnRollbacksOnly(more) && n <= Run(cap, w, steps + more).passed[s.gen])
            <==> n <= cap + Shortfall(s) + Late(s)
    ensures var s := Run(cap, w, steps);
            (exists more :: Instant(more) && n <= Run(cap, w, steps + more).passed[s.gen])
            <==> n <= cap + Shortfall(s) + Late(s)
  {
    var s := Run(cap, w, steps);
    RunOwnExcess(cap, w, steps);
    LiveNeedsAWindow(cap, w, steps);
    LateIsNonNegative(s);
    var limit := cap + Shortfall(s) + Late(s);
    forall more | OwnRollbacksOnly(more) ensures Run(cap, w, steps + more).passed[s.gen] <= limit {
      RunThenFrom(cap, w, steps, more);
      CeilingHolds(cap, w, s, more, s.gen, limit);
    }
    var most := Squeeze(cap, w, s);
    RunThenFrom(cap, w, steps, most);
    assert OwnRollbacksOnly(most) && Run(cap, w, steps + most).passed[s.gen] == limit;
  }

  lemma LateMeansEarlierGeneration(s: State)
    ensures 0 < Late(s) <==> exists g :: g in s.over && g != s.gen
  {
    var own := multiset{}[s.gen := s.over[s.gen]];
    var others := s.over - own;
    assert s.over == others + own;
    assert |others| == Late(s);
    if 0 < |others| {
      var g :| g in others;
      assert g in s.over && g != s.gen;
    }
    if g :| g in s.over && g != s.gen {
      assert g in others;
    }
  }

  /**
   * The limit breaks exactly when a rollback is late: a live generation that no foreign rollback
   * has lowered can come to admit more than the limit if and only if the limit is positive and a
   * call of an earlier generation still owes its rollback.
   */
  lemma OverrunExactlyWhenARollbackIsLate(cap: int, w: int, steps: seq<Step>)
    requires var s := Run(cap, w, steps); Live(s.cell, s.now) && s.foreign[s.gen] == 0
    ensures var s := Run(cap, w, steps);
            (exists more :: OwnRollbacksOnly(more) && Run(cap, w, steps + more).passed[s.gen] > Max(cap, 0))
            <==> 1 <= cap && exists g :: g in s.over && g != s.gen
    ensures var s := Run(cap, w, steps);
            (exists more :: Instant(more) && Run(cap, w, steps + more).passed[s.gen] > Max(cap, 0))
            <==> 1 <= cap && exists g :: g in s.over && g != s.gen
  {
    var s := Run(cap, w, steps);
    AdmissionIsBounded(cap, w, steps);
    LateMeansEarlierGeneration(s);
    if 1 <= cap {
      MostAdmitted(cap, w, steps, cap + 1);
    } else {
      forall more: seq<Step> ensures Run(cap, w, steps + more).passed[s.gen] == 0 {
        NothingPassesWithoutALimit(cap, w, steps + more);
      }
    }
  }

  lemma {:induction false} NothingPassesWithoutALimit(cap: int, w: int, steps: seq<Step>)
    requires cap <= 0
    ensures Run(cap, w, steps).passed == multiset{}
  {
    if steps != [] {
      NothingPassesWithoutALimit(cap, w, steps[..|steps| - 1]);
      AdmissionIsBounded(cap, w, steps[..|steps| - 1]);
    }
  }

  // ---- A late rollback is always reachable -------------------------------

  /** After `n` calls at time zero, of which the first `cap` pass. */
  ghost predicate Filled(cap: int, w: int, s: State, n: int) {
    && s.cell == Some(Entry(n, w)) && s.now == 0 && s.gen == 1 && s.foreign == multiset{}
    && s.over == if n <= cap then multiset{} else multiset{1}
  }

  lemma OneMoreCall(cap: int, w: int, s: State, n: int)
    requires 0 <= w && n <= cap && Filled(cap, w, s, n)
    ensures Filled(cap, w, Next(cap, w, s, Enter), n + 1)
  {}

  lemma {:induction false} FillUp(cap: int, w: int, s: State, n: int) returns (more: seq<Step>)
    requires 0 <= w && n <= cap + 1 && Filled(cap, w, s, n)
    ensures Instant(more) && Filled(cap, w, From(cap, w, s, more), cap + 1)
    decreases cap + 1 - n
  {
    if n == cap + 1 {
      more := [];
    } else {
      OneMoreCall(cap, w, s, n);
      var rest := FillUp(cap, w, Next(cap, w, s, Enter), n + 1);
      more := [Enter] + rest;
    }
  }

  /** A generation has just opened while a call of the one before still owes its rollback. */
  ghost predicate Reopened(w: int, s: State) {
    && s.cell == Some(Entry(1, w + 1 + w)) && s.now == w + 1 && s.gen == 2
    && s.over == multiset{1} && s.foreign == multiset{}
    && PassesIn(s.log, w + 1, w + 1) == s.passed[2] == 1
  }

  lemma NextGenerationOpens(cap: int, w: int, s: State)
    requires 1 <= cap && 0 <= w && Filled(cap, w, s, cap + 1) && Inv(cap, s)
    requires forall i :: 0 <= i < |s.log| ==> s.log[i].at <= 0
    ensures Reopened(w, Next(cap, w, Next(cap, w, s, Tick(w + 1)), Enter))
  {
    var t := Next(cap, w, Next(cap, w, s, Tick(w + 1)), Enter);
    EmptyWindow(s.log, w + 1, w + 1);
    assert t.log[..|s.log|] == s.log;
  }

  lemma ReachFilled(cap: int, w: int) returns (steps: seq<Step>)
    requires 1 <= cap && 0 <= w
    ensures Instant(steps) && Filled(cap, w, Run(cap, w, steps), cap + 1)
  {
    var one := [Enter];
    assert one[..0] == [];
    assert Run(cap, w, one) == Next(cap, w, START, Enter);
    var more := FillUp(cap, w, Run(cap, w, one), 1);
    RunThenFrom(cap, w, one, more);
    steps := one + more;
  }

  lemma ReachReopened(cap: int, w: int) returns (steps: seq<Step>)
    requires 1 <= cap && 0 <= w
    ensures OwnRollbacksOnly(steps) && Reopened(w, Run(cap, w, steps))
  {
    var p := ReachFilled(cap, w);
    RunSnoc(cap, w, p, Tick(w + 1));
    RunSnoc(cap, w, p + [Tick(w + 1)], Enter);
    AdmissionIsBounded(cap, w, p);
    RunIsSpaced(cap, w, p);
    NextGenerationOpens(cap, w, Run(cap, w, p));
    steps := p + [Tick(w + 1)] + [Enter];
  }

  /** Within an instant and a generation, the log grows by the calls that pass. */
  lemma {:induction false} InstantPasses(cap: int, w: int, s: State, more: seq<Step>)
    requires Instant(more) && 0 <= w && Live(s.cell, s.now)
    ensures var t := From(cap, w, s, more);
            PassesIn(t.log, s.now, s.now) - t.passed[s.gen] == PassesIn(s.log, s.now, s.now) - s.passed[s.gen]
    decreases |more|
  {
    if more != [] {
      var t := Next(cap, w, s, more[0]);
      assert t.log != s.log ==> t.log[..|s.log|] == s.log;
      InstantPasses(cap, w, t, more[1..]);
    }
  }

  /**
   * The overrun is reachable whatever the limit and the window: without any outside rollback, one
   * call more than the limit is admitted within a single instant.
   */
  lemma LateRollbackAdmitsOneMore(cap: int, w: int)
    requires 1 <= cap && 0 <= w
    ensures exists steps :: OwnRollbacksOnly(steps)
              && PassesIn(Run(cap, w, steps).log, w + 1, w + 1) == Run(cap, w, steps).passed[2] == cap + 1
  {
    var p := ReachReopened(cap, w);
    var s := Run(cap, w, p);
    var more := Squeeze(cap, w, s);
    RunThenFrom(cap, w, p, more);
    InstantPasses(cap, w, s, more);
    assert OwnRollbacksOnly(p + more);
  }
}
