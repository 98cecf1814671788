/**
 * Whole runs of the whitelist, with Verify split at its unlocked gap between reading the entry
 * and writing it back.
 */
module WhitelistRuns {
  import opened Prelude
  import opened Whitelist

  datatype Fact = Added(id: Triple) | Confirmed(id: Triple)

  /** A Verify between its two halves: the triple it was asked about and the entry it will write. */
  datatype Ticket = Ticket(asked: Triple, entry: Entry)

  /** `log` records the successful operations in order. */
  datatype State = State(mem: Table, inflight: map<nat, Ticket>, log: seq<Fact>)

  datatype Step =
    | Add(id: Triple, note: string, now: int)
    | Check(call: nat, id: Triple, now: int)
    | Commit(call: nat)

  function Next(s: State, step: Step): State {
    match step
    case Add(t, note, now) =>
      var (m, r) := Adding(s.mem, t, note, now);
      if r.Ok? then s.(mem := m, log := s.log + [Added(t)]) else s
    case Check(call, t, now) =>
      var r := Checked(s.mem, t, now);
      if r.Ok? && call !in s.inflight then s.(inflight := s.inflight[call := Ticket(t, r.entry)]) else s
    case Commit(call) =>
      if call !in s.inflight then s
      else
        var p := s.inflight[call];
        var (m, r) := Updated(s.mem, p.entry);
        var log := if r.Ok? then s.log + [Confirmed(p.asked)] else s.log;
        State(m, s.inflight - {call}, log)
  }

  function Run(steps: seq<Step>): State {
    if steps == [] then State(map[], map[], [])
    else Next(Run(steps[..|steps| - 1]), steps[|steps| - 1])
  }

  /** The triples an interleaving names, in `Add` and in `Verify`. */
  function Named(steps: seq<Step>): set<Triple> {
    set i | 0 <= i < |steps| && !steps[i].Commit? :: steps[i].id
  }

  /** No two of these triples share a key. */
  ghost predicate Apart(ts: set<Triple>) {
    forall t, x :: t in ts && x in ts && Key(t) == Key(x) ==> t == x
  }

  /** A successful Add of `t` followed, later in the log, by a successful Verify of `t`. */
  ghost predicate AddedThenConfirmed(log: seq<Fact>, t: Triple) {
    exists i, j :: 0 <= i < j < |log| && log[i] == Added(t) && log[j] == Confirmed(t)
  }

  ghost predicate WellKeyed(s: State, ts: set<Triple>) {
    && (forall k :: k in s.mem ==> Key(s.mem[k].id) == k && s.mem[k].id in ts)
    && (forall c :: c in s.inflight ==>
          var p := s.inflight[c];
          p.entry.id == p.asked && p.asked in ts && Key(p.asked) in s.mem && p.entry.status == Verified)
  }

  /** The string-keyed table says of each triple what the log says of it. */
  ghost predicate TellsHistory(s: State, ts: set<Triple>) {
    forall t :: t in ts ==>
      && (Key(t) in s.mem <==> Added(t) in s.log)
      && (IsWhitelisted(s.mem, t) <==> AddedThenConfirmed(s.log, t))
  }

  lemma AddKeeps(s: State, step: Step, ts: set<Triple>)
    requires Apart(ts) && step.Add? && step.id in ts && WellKeyed(s, ts) && TellsHistory(s, ts)
    ensures WellKeyed(Next(s, step), ts) && TellsHistory(Next(s, step), ts)
  {
    var s' := Next(s, step);
    forall t | t in ts
      ensures Key(t) in s'.mem <==> Added(t) in s'.log
      ensures IsWhitelisted(s'.mem, t) <==> AddedThenConfirmed(s'.log, t)
    {
      if s' != s {
        assert Added(t) in s'.log <==> Added(t) in s.log || t == step.id;
        NoNewPair(s.log, Added(step.id), t);
      }
    }
  }

  lemma NoNewPair(log: seq<Fact>, f: Fact, t: Triple)
    requires f != Confirmed(t)
    ensures AddedThenConfirmed(log + [f], t) <==> AddedThenConfirmed(log, t)
  {
    var l := log + [f];
    if i, j :| 0 <= i < j < |l| && l[i] == Added(t) && l[j] == Confirmed(t) {
      assert log[i] == Added(t) && log[j] == Confirmed(t);
    }
    if i, j :| 0 <= i < j < |log| && log[i] == Added(t) && log[j] == Confirmed(t) {
      assert l[i] == Added(t) && l[j] == Confirmed(t);
    }
  }

  lemma CommitTells(s: State, call: nat, t: Triple, ts: set<Triple>)
    requires Apart(ts) && WellKeyed(s, ts) && TellsHistory(s, ts) && call in s.inflight && t in ts
    ensures var s' := Next(s, Commit(call));
            && (Key(t) in s'.mem <==> Added(t) in s'.log)
            && (IsWhitelisted(s'.mem, t) <==> AddedThenConfirmed(s'.log, t))
  {
    var asked := s.inflight[call].asked;
    var log' := s.log + [Confirmed(asked)];
    assert Next(s, Commit(call)).log == log';
    assert Added(t) in log' <==> Added(t) in s.log;
    if Key(t) == Key(asked) {
      assert Added(t) in s.log;
      var i :| 0 <= i < |s.log| && s.log[i] == Added(t);
      assert log'[i] == Added(t) && log'[|s.log|] == Confirmed(t);
    } else {
      NoNewPair(s.log, Confirmed(asked), t);
    }
  }

  lemma CommitKeeps(s: State, call: nat, ts: set<Triple>)
    requires Apart(ts) && WellKeyed(s, ts) && TellsHistory(s, ts)
    ensures WellKeyed(Next(s, Commit(call)), ts) && TellsHistory(Next(s, Commit(call)), ts)
  {
    if call in s.inflight {
      forall t | t in ts
        ensures Key(t) in Next(s, Commit(call)).mem <==> Added(t) in Next(s, Commit(call)).log
        ensures IsWhitelisted(Next(s, Commit(call)).mem, t) <==> AddedThenConfirmed(Next(s, Commit(call)).log, t)
      {
        CommitTells(s, call, t, ts);
      }
    }
  }

  /** One more kept fact: whatever the keys, a verified entry stays verified. */
  lemma StaysVerified(s: State, step: Step, k: string)
    requires k in s.mem && s.mem[k].status == Verified
    requires forall c :: c in s.inflight ==> s.inflight[c].entry.status == Verified
    ensures k in Next(s, step).mem && Next(s, step).mem[k].status == Verified
    ensures forall c :: c in Next(s, step).inflight ==> Next(s, step).inflight[c].entry.status == Verified
  {}

  lemma {:induction false} RunKeeps(steps: seq<Step>, ts: set<Triple>)
    requires Apart(ts) && Named(steps) <= ts
    ensures WellKeyed(Run(steps), ts) && TellsHistory(Run(steps), ts)
  {
    if steps != [] {
      var p, step := steps[..|steps| - 1], steps[|steps| - 1];
      assert forall i :: 0 <= i < |p| ==> p[i] == steps[i];
      assert !step.Commit? ==> step.id in Named(steps);
      RunKeeps(p, ts);
      match step {
        case Add(_, _, _) => AddKeeps(Run(p), step, ts);
        case Commit(call) => CommitKeeps(Run(p), call, ts);
        case Check(_, _, _) =>
      }
    }
  }

  /**
   * Whitelist refinement over every interleaving: if no two triples of the run share a key, a
   * destination is whitelisted exactly when an Add of that very triple succeeded and a Verify of it
   * succeeded afterwards.
   */
  lemma WhitelistedExactlyWhenVerified(steps: seq<Step>, t: Triple)
    requires Apart(Named(steps) + {t})
    ensures IsWhitelisted(Run(steps).mem, t) <==> AddedThenConfirmed(Run(steps).log, t)
    ensures Key(t) in Run(steps).mem <==> Added(t) in Run(steps).log
  {
    RunKeeps(steps, Named(steps) + {t});
  }

  /** Separator-free users and chains are enough for that. */
  lemma CleanTriplesAreApart(ts: set<Triple>)
    requires forall t :: t in ts ==> Clean(t)
    ensures Apart(ts)
  {
    forall t, x | t in ts && x in ts && Key(t) == Key(x) ensures t == x {
      CleanKeysInjective(t, x);
    }
  }

  /** A run tells of each triple what the log tells. */
  ghost predicate Refines(steps: seq<Step>, t: Triple) {
    && (IsWhitelisted(Run(steps).mem, t) <==> AddedThenConfirmed(Run(steps).log, t))
    && (Key(t) in Run(steps).mem <==> Added(t) in Run(steps).log)
  }

  lemma RunSnoc(steps: seq<Step>, step: Step)
    ensures Run(steps + [step]) == Next(Run(steps), step)
  {}

  predicate Acceptable(t: Triple) {
    t.user != "" && t.chain != "" && t.address != ""
  }

  /** A run that adds one triple and verifies it under a name that shares its key. */
  lemma AddThenVerifyAs(x: Triple, y: Triple) returns (steps: seq<Step>)
    requires Acceptable(x) && Key(x) == Key(y)
    ensures Named(steps) == {x, y}
    ensures IsWhitelisted(Run(steps).mem, x) && Run(steps).log == [Added(x), Confirmed(y)]
  {
    var s1 := [] + [Add(x, "", 0)];
    var s2 := s1 + [Check(0, y, 0)];
    RunSnoc([], Add(x, "", 0));
    RunSnoc(s1, Check(0, y, 0));
    assert Run(s1).mem == map[Key(x) := Entry(x, "", Pending, None, 0)] && Run(s1).log == [Added(x)];
    assert 0 in Run(s2).inflight;
    RunSnoc(s2, Commit(0));
    steps := s2 + [Commit(0)];
    assert steps[0].id == x && steps[1].id == y;
  }

  lemma {:induction false} NothingAcceptableNothingAdded(steps: seq<Step>)
    requires forall i :: 0 <= i < |steps| && !steps[i].Commit? ==> !Acceptable(steps[i].id)
    ensures Run(steps) == State(map[], map[], [])
  {
    if steps != [] {
      NothingAcceptableNothingAdded(steps[..|steps| - 1]);
    }
  }

  /**
   * The condition is exact: every run over two triples tells the first of them right if and only if
   * they are the same triple, have different keys, or are both refused by Add.
   */
  lemma RefinesExactlyWhenApart(t: Triple, x: Triple)
    ensures (forall steps :: Named(steps) <= {t, x} ==> Refines(steps, t))
            <==> t == x || Key(t) != Key(x) || (!Acceptable(t) && !Acceptable(x))
  {
    if t == x || Key(t) != Key(x) {
      forall steps: seq<Step> | Named(steps) <= {t, x} ensures Refines(steps, t) {
        RunKeeps(steps, {t, x});
      }
    } else if Acceptable(t) {
      var steps := AddThenVerifyAs(t, x);
      assert !Refines(steps, t);
    } else if Acceptable(x) {
      var steps := AddThenVerifyAs(x, x);
      assert !Refines(steps, t);
    } else {
      forall steps: seq<Step> | Named(steps) <= {t, x} ensures Refines(steps, t) {
        assert forall i :: 0 <= i < |steps| && !steps[i].Commit? ==> steps[i].id in Named(steps);
        NothingAcceptableNothingAdded(steps);
      }
    }
  }

  lemma {:induction false} InflightVerified(steps: seq<Step>)
    ensures forall c :: c in Run(steps).inflight ==> Run(steps).inflight[c].entry.status == Verified
  {
    if steps != [] {
      InflightVerified(steps[..|steps| - 1]);
    }
  }

  /** Status never goes back to pending, for any keys and however the halves of Verify interleave. */
  lemma {:induction false} NeverBackToPending(steps: seq<Step>, n: nat, k: string)
    requires n <= |steps| && k in Run(steps[..n]).mem && Run(steps[..n]).mem[k].status == Verified
    ensures k in Run(steps).mem && Run(steps).mem[k].status == Verified
  {
    if n == |steps| {
      assert steps[..n] == steps;
    } else {
      var p := steps[..|steps| - 1];
      assert p[..n] == steps[..n];
      NeverBackToPending(p, n, k);
      InflightVerified(p);
      StaysVerified(Run(p), steps[|steps| - 1], k);
    }
  }
}
