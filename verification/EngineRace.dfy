/**
 * One Evaluate call racing with swaps. The call takes its snapshot under the engine's read lock,
 * then reads the version again for each applied rule, and once more when it is finalised.
 */
module EngineRace {
  import opened Prelude
  import opened Rego
  import opened Engine

  /** Reads of the version are recorded as positions in the swap history. */
  datatype Call =
    | Ready
    | Stamping(seen: State, seenAt: nat, todo: nat, rules: seq<nat>)
    | Finished(seen: State, seenAt: nat, rules: seq<nat>, stamp: nat)

  datatype World = World(engine: State, history: seq<Bundle>, call: Call)

  datatype Step = Swap(b: Bundle) | Advance

  function RuleCount(opa: Opa, s: State, i: Input): nat {
    var a := Answered(opa, s, i);
    if a.Some? then |a.value.rules| else 0
  }

  function Next(opa: Opa, i: Input, w: World, step: Step): World
    requires w.history != []
  {
    match step
    case Swap(b) => w.(engine := Swapped(opa, w.engine, b), history := w.history + [b])
    case Advance =>
      var here := |w.history| - 1;
      match w.call
      case Ready => w.(call := Stamping(w.engine, here, RuleCount(opa, w.engine, i), []))
      case Stamping(s, at, todo, rules) =>
        if todo > 0 then w.(call := Stamping(s, at, todo - 1, rules + [here]))
        else w.(call := Finished(s, at, rules, here))
      case Finished(_, _, _, _) => w
  }

  function Run(opa: Opa, i: Input, start: seq<Bundle>, steps: seq<Step>): (w: World)
    requires start != []
    ensures |start| <= |w.history|
  {
    if steps == [] then World(After(opa, start), start, Ready)
    else Next(opa, i, Run(opa, i, start, steps[..|steps| - 1]), steps[|steps| - 1])
  }

  ghost predicate Climbs(lo: nat, rules: seq<nat>, hi: nat) {
    && lo <= hi
    && (forall k :: 0 <= k < |rules| ==> lo <= rules[k] <= hi)
    && (forall j, k :: 0 <= j <= k < |rules| ==> rules[j] <= rules[k])
  }

  ghost predicate Snapshot(opa: Opa, history: seq<Bundle>, seen: State, at: nat) {
    at < |history| && seen == After(opa, history[..at + 1])
  }

  ghost predicate Inv(opa: Opa, i: Input, first: nat, w: World) {
    && w.history != [] && w.engine == After(opa, w.history)
    && match w.call
       case Ready => true
       case Stamping(s, at, todo, rules) =>
         first <= at && Snapshot(opa, w.history, s, at) && Climbs(at, rules, |w.history| - 1)
         && todo + |rules| == RuleCount(opa, s, i)
       case Finished(s, at, rules, stamp) =>
         first <= at && Snapshot(opa, w.history, s, at) && Climbs(at, rules, stamp) && stamp < |w.history|
         && |rules| == RuleCount(opa, s, i)
  }

  lemma SwapKeeps(opa: Opa, i: Input, first: nat, w: World, b: Bundle)
    requires Inv(opa, i, first, w)
    ensures Inv(opa, i, first, Next(opa, i, w, Swap(b)))
  {
    var h := w.history + [b];
    assert h[..|h| - 1] == w.history;
    if !w.call.Ready? {
      assert h[..w.call.seenAt + 1] == w.history[..w.call.seenAt + 1];
    }
  }

  lemma AdvanceKeeps(opa: Opa, i: Input, first: nat, w: World)
    requires Inv(opa, i, first, w) && first < |w.history|
    ensures Inv(opa, i, first, Next(opa, i, w, Advance))
  {
    assert w.history[..|w.history|] == w.history;
  }

  /**
   * With swaps interleaved anywhere: the evaluation used the engine state of a single instant, and
   * in history order evaluated <= rule versions (non-decreasing) <= stamped version.
   */
  lemma {:induction false} SnapshotAndVersionOrder(opa: Opa, i: Input, start: seq<Bundle>, steps: seq<Step>)
    requires start != []
    ensures Inv(opa, i, |start| - 1, Run(opa, i, start, steps))
  {
    if steps != [] {
      var p, step := steps[..|steps| - 1], steps[|steps| - 1];
      SnapshotAndVersionOrder(opa, i, start, p);
      match step {
        case Swap(b) => SwapKeeps(opa, i, |start| - 1, Run(opa, i, start, p), b);
        case Advance => AdvanceKeeps(opa, i, |start| - 1, Run(opa, i, start, p));
      }
    } else {
      assert start[..|start|] == start;
    }
  }

  /** When no swap intervenes every version read is the one evaluated. */
  lemma NoSwapNoSkew(opa: Opa, i: Input, start: seq<Bundle>, steps: seq<Step>)
    requires start != []
    requires var w := Run(opa, i, start, steps); w.call.Finished? && |w.history| == |start|
    ensures var c := Run(opa, i, start, steps).call;
            c.seenAt == c.stamp == |start| - 1 && forall k :: 0 <= k < |c.rules| ==> c.rules[k] == c.stamp
  {
    SnapshotAndVersionOrder(opa, i, start, steps);
  }

  // ---- Every read is of its own moment -----------------------------------

  lemma RunSnoc(opa: Opa, i: Input, start: seq<Bundle>, steps: seq<Step>, step: Step)
    requires start != []
    ensures Run(opa, i, start, steps + [step]) == Next(opa, i, Run(opa, i, start, steps), step)
  {}

  /** All that is left to stamp is stamped with the version reported now. */
  lemma {:induction false} StampOut(opa: Opa, i: Input, start: seq<Bundle>, steps: seq<Step>) returns (all: seq<Step>)
    requires start != [] && Run(opa, i, start, steps).call.Stamping?
    requires var w := Run(opa, i, start, steps);
             forall k :: 0 <= k < |w.call.rules| ==> w.call.rules[k] == |w.history| - 1
    ensures var w, v := Run(opa, i, start, steps), Run(opa, i, start, all);
            && v.engine == w.engine && v.history == w.history && v.call.Stamping? && v.call.todo == 0
            && v.call.seenAt == w.call.seenAt && |v.call.rules| == |w.call.rules| + w.call.todo
            && forall k :: 0 <= k < |v.call.rules| ==> v.call.rules[k] == |v.history| - 1
    decreases Run(opa, i, start, steps).call.todo
  {
    if Run(opa, i, start, steps).call.todo == 0 {
      all := steps;
    } else {
      RunSnoc(opa, i, start, steps, Advance);
      all := StampOut(opa, i, start, steps + [Advance]);
    }
  }

  /** A swap after the snapshot shows in every rule's version, and one before the end in the stamp. */
  lemma VersionsCanSkew(opa: Opa, i: Input, start: seq<Bundle>, b: Bundle, c: Bundle) returns (steps: seq<Step>)
    requires start != []
    ensures var w := Run(opa, i, start, steps);
            && w.call.Finished? && w.call.seenAt == |start| - 1 && w.history == start + [b, c]
            && |w.call.rules| == RuleCount(opa, After(opa, start), i)
            && (forall k :: 0 <= k < |w.call.rules| ==> w.call.rules[k] == |start|) && w.call.stamp == |start| + 1
  {
    var begun := [] + [Advance];
    RunSnoc(opa, i, start, [], Advance);
    RunSnoc(opa, i, start, begun, Swap(b));
    var stamped := StampOut(opa, i, start, begun + [Swap(b)]);
    RunSnoc(opa, i, start, stamped, Swap(c));
    RunSnoc(opa, i, start, stamped + [Swap(c)], Advance);
    steps := stamped + [Swap(c)] + [Advance];
    assert start + [b] + [c] == start + [b, c];
  }
}
