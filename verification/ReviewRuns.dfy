/** Whole runs of the review queue, with Resolve split between its check and its write. */
module ReviewRuns {
  import opened Prelude
  import opened Review

  /** `wins` counts, per id, the Resolve calls that reported success. */
  datatype State = State(q: Queue, inflight: map<nat, Item>, wins: multiset<string>)

  datatype Step =
    | Park(id: string, txId: string, now: int)
    | Check(call: nat, id: string, assignee: string, resolution: string, now: int)
    | Commit(call: nat)

  function Next(s: State, step: Step): State {
    match step
    case Park(id, txId, now) => s.(q := Parking(s.q, id, txId, now).0)
    case Check(call, id, assignee, resolution, now) =>
      var r := Checked(s.q, id, assignee, resolution, now);
      if r.Ok? && call !in s.inflight then s.(inflight := s.inflight[call := r.item]) else s
    case Commit(call) =>
      if call !in s.inflight then s
      else
        var (q, r) := Updated(s.q, s.inflight[call]);
        State(q, s.inflight - {call}, if r.Ok? then s.wins + multiset{r.item.id} else s.wins)
  }

  function Run(steps: seq<Step>): State {
    if steps == [] then State(EMPTY, map[], multiset{})
    else Next(Run(steps[..|steps| - 1]), steps[|steps| - 1])
  }

  ghost predicate Inv(s: State) {
    && Valid(s.q)
    && (forall c :: c in s.inflight ==> s.inflight[c].status == Resolved && s.inflight[c].id in s.q.mem)
  }

  lemma {:induction false} RunInv(steps: seq<Step>)
    ensures Inv(Run(steps))
  {
    if steps != [] {
      var s, step := Run(steps[..|steps| - 1]), steps[|steps| - 1];
      RunInv(steps[..|steps| - 1]);
      if step.Park? {
        assert step.id in s.q.mem <==> step.id in s.q.order;
      }
    }
  }

  /** A Resolve gets past its check. */
  predicate Accepted(s: State, step: Step) {
    step.Check? && step.call !in s.inflight && Checked(s.q, step.id, step.assignee, step.resolution, step.now).Ok?
  }

  /** It does so while another Resolve of the same item is between its check and its write. */
  predicate Overlaps(s: State, step: Step) {
    Accepted(s, step) && exists c :: c in s.inflight && s.inflight[c].id == step.id
  }

  /** No Resolve gets past its check on an item while another Resolve of that item is pending. */
  ghost predicate Serialised(steps: seq<Step>) {
    forall i :: 0 <= i < |steps| ==> !Overlaps(Run(steps[..i]), steps[i])
  }

  lemma SerialisedPrefix(steps: seq<Step>)
    requires steps != [] && Serialised(steps)
    ensures Serialised(steps[..|steps| - 1])
    ensures !Overlaps(Run(steps[..|steps| - 1]), steps[|steps| - 1])
  {
    var p := steps[..|steps| - 1];
    forall i | 0 <= i < |p| ensures !Overlaps(Run(p[..i]), p[i]) {
      assert p[..i] == steps[..i] && p[i] == steps[i];
    }
  }

  lemma SerialisedExtends(steps: seq<Step>)
    requires steps != [] && Serialised(steps[..|steps| - 1])
    requires !Overlaps(Run(steps[..|steps| - 1]), steps[|steps| - 1])
    ensures Serialised(steps)
  {
    var p := steps[..|steps| - 1];
    forall i | 0 <= i < |steps| ensures !Overlaps(Run(steps[..i]), steps[i]) {
      if i < |p| {
        assert p[..i] == steps[..i] && p[i] == steps[i];
      }
    }
  }

  predicate IsResolved(q: Queue, id: string) {
    id in q.mem && q.mem[id].status == Resolved
  }

  /** What serialisation adds: one pending Resolve per item, none on a resolved one, one win each. */
  ghost predicate OneAtATime(s: State) {
    && (forall c, d :: c in s.inflight && d in s.inflight && s.inflight[c].id == s.inflight[d].id ==> c == d)
    && (forall c :: c in s.inflight ==> !IsResolved(s.q, s.inflight[c].id))
    && (forall id :: s.wins[id] == if IsResolved(s.q, id) then 1 else 0)
  }

  lemma SerialStep(s: State, step: Step)
    requires Inv(s) && OneAtATime(s) && !Overlaps(s, step)
    ensures OneAtATime(Next(s, step))
    ensures forall id :: IsResolved(s.q, id) ==>
              IsResolved(Next(s, step).q, id) && Next(s, step).q.mem[id] == s.q.mem[id]
  {
    if step.Commit? && step.call in s.inflight {
      CommitSerial(s, step.call);
    }
  }

  lemma CommitSerial(s: State, call: nat)
    requires Inv(s) && OneAtATime(s) && call in s.inflight
    ensures var t := Next(s, Commit(call));
            && OneAtATime(t)
            && forall id :: IsResolved(s.q, id) ==> IsResolved(t.q, id) && t.q.mem[id] == s.q.mem[id]
  {}

  lemma {:induction false} SerialRun(steps: seq<Step>)
    requires Serialised(steps)
    ensures OneAtATime(Run(steps))
  {
    if steps != [] {
      var p := steps[..|steps| - 1];
      SerialisedPrefix(steps);
      RunInv(p);
      SerialRun(p);
      SerialStep(Run(p), steps[|steps| - 1]);
    }
  }

  /**
   * With serialised Resolves an item is resolved at most once, and once resolved neither its
   * resolution, its assignee, its time nor any other field changes again.
   */
  lemma {:induction false} ResolvedOnceAndForAll(steps: seq<Step>, n: nat, id: string)
    requires Serialised(steps) && n <= |steps| && IsResolved(Run(steps[..n]).q, id)
    ensures Run(steps).wins[id] == 1
    ensures id in Run(steps).q.mem && Run(steps).q.mem[id] == Run(steps[..n]).q.mem[id]
  {
    SerialRun(steps);
    if n == |steps| {
      assert steps[..n] == steps;
    } else {
      var p := steps[..|steps| - 1];
      assert p[..n] == steps[..n];
      SerialisedPrefix(steps);
      ResolvedOnceAndForAll(p, n, id);
      RunInv(p);
      SerialRun(p);
      SerialStep(Run(p), steps[|steps| - 1]);
    }
  }

  lemma RunSnoc(steps: seq<Step>, step: Step)
    ensures Run(steps + [step]) == Next(Run(steps), step)
  {}

  // ---- Exactly when two Resolves win -------------------------------------

  /** The Resolves of an item that are between their check and their write. */
  function InFlight(s: State, id: string): set<nat> {
    CallsOn(s.inflight, id)
  }

  function CallsOn(m: map<nat, Item>, id: string): set<nat> {
    set c | c in m && m[c].id == id
  }

  lemma CallsOnAdded(m: map<nat, Item>, call: nat, item: Item, id: string)
    requires call !in m
    ensures CallsOn(m[call := item], id) == CallsOn(m, id) + if item.id == id then {call} else {}
  {}

  lemma CallsOnRemoved(m: map<nat, Item>, call: nat, id: string)
    ensures CallsOn(m - {call}, id) == CallsOn(m, id) - {call}
  {}

  /** The Resolves of an item that have succeeded or can no longer fail. */
  function Claims(s: State, id: string): nat {
    s.wins[id] + |InFlight(s, id)|
  }

  /** A step adds a claim exactly when it is an accepted check; no step takes one away. */
  lemma StepClaims(s: State, step: Step, id: string)
    requires Inv(s)
    ensures Claims(Next(s, step), id) == Claims(s, id) + if Accepted(s, step) && step.id == id then 1 else 0
  {
    match step
    case Park(_, _, _) =>
      assert InFlight(Next(s, step), id) == InFlight(s, id);
    case Check(_, _, _, _, _) =>
      CheckClaims(s, step, id);
    case Commit(call) =>
      CommitClaims(s, call, id);
  }

  lemma CheckClaims(s: State, step: Step, id: string)
    requires Inv(s) && step.Check?
    ensures Claims(Next(s, step), id) == Claims(s, id) + if Accepted(s, step) && step.id == id then 1 else 0
  {
    if Accepted(s, step) {
      var item := Checked(s.q, step.id, step.assignee, step.resolution, step.now).item;
      CallsOnAdded(s.inflight, step.call, item, id);
      assert item.id == step.id;
    } else {
      assert Next(s, step) == s;
    }
  }

  lemma CommitClaims(s: State, call: nat, id: string)
    requires Inv(s)
    ensures Claims(Next(s, Commit(call)), id) == Claims(s, id)
  {
    CallsOnRemoved(s.inflight, call, id);
  }

  /** Only writes of Resolves already past their check. */
  ghost predicate Commits(more: seq<Step>) {
    forall i :: 0 <= i < |more| ==> more[i].Commit?
  }

  lemma {:induction false} CommitsKeepClaims(steps: seq<Step>, more: seq<Step>, id: string)
    requires Commits(more)
    ensures Claims(Run(steps + more), id) == Claims(Run(steps), id)
    decreases |more|
  {
    if more == [] {
      assert steps + more == steps;
    } else {
      var most, last := more[..|more| - 1], more[|more| - 1];
      CommitsKeepClaims(steps, most, id);
      assert steps + more == steps + most + [last];
      RunSnoc(steps + most, last);
      RunInv(steps + most);
      StepClaims(Run(steps + most), last, id);
    }
  }

  /** The pending Resolves of an item can all be let through. */
  lemma {:induction false} AllCommit(steps: seq<Step>, id: string) returns (more: seq<Step>)
    ensures Commits(more) && InFlight(Run(steps + more), id) == {}
    decreases |InFlight(Run(steps), id)|
  {
    var s := Run(steps);
    if InFlight(s, id) == {} {
      more := [];
      assert steps + more == steps;
    } else {
      var c :| c in InFlight(s, id);
      RunSnoc(steps, Commit(c));
      assert InFlight(Run(steps + [Commit(c)]), id) == InFlight(s, id) - {c};
      var rest := AllCommit(steps + [Commit(c)], id);
      more := [Commit(c)] + rest;
      assert steps + more == steps + [Commit(c)] + rest;
    }
  }

  /**
   * From every reachable state, letting pending writes through can bring an item to `n` successful
   * Resolves if and only if its successes and its pending Resolves together number at least `n`.
   */
  lemma WinsInReach(steps: seq<Step>, id: string, n: nat)
    ensures (exists more :: Commits(more) && n <= Run(steps + more).wins[id])
            <==> n <= Run(steps).wins[id] + |InFlight(Run(steps), id)|
  {
    forall more | Commits(more) ensures Run(steps + more).wins[id] <= Claims(Run(steps), id) {
      CommitsKeepClaims(steps, more, id);
    }
    var all := AllCommit(steps, id);
    CommitsKeepClaims(steps, all, id);
    assert Run(steps + all).wins[id] == Claims(Run(steps), id);
  }

  lemma AtMostOneClaim(s: State, id: string)
    requires OneAtATime(s)
    ensures Claims(s, id) <= 1
  {
    if c :| c in InFlight(s, id) {
      assert InFlight(s, id) == {c};
    }
  }

  /**
   * Serialisation is exactly what is needed: a run let no Resolve overlap another on its item if
   * and only if no item has come to two successes, or to pending Resolves that would make two.
   */
  lemma {:induction false} SerialisedExactly(steps: seq<Step>)
    ensures Serialised(steps) <==> forall id :: Claims(Run(steps), id) <= 1
  {
    if Serialised(steps) {
      SerialRun(steps);
      forall id ensures Claims(Run(steps), id) <= 1 {
        AtMostOneClaim(Run(steps), id);
      }
    } else {
      var id := OverlapMakesTwo(steps);
    }
  }

  lemma {:induction false} OverlapMakesTwo(steps: seq<Step>) returns (id: string)
    requires !Serialised(steps)
    ensures Claims(Run(steps), id) >= 2
  {
    var p, last := steps[..|steps| - 1], steps[|steps| - 1];
    RunInv(p);
    if Serialised(p) {
      if !Overlaps(Run(p), last) {
        SerialisedExtends(steps);
      }
      id := last.id;
      var c :| c in Run(p).inflight && Run(p).inflight[c].id == id;
      assert c in InFlight(Run(p), id);
      StepClaims(Run(p), last, id);
    } else {
      id := OverlapMakesTwo(p);
      StepClaims(Run(p), last, id);
    }
  }

  /** Two Resolves of one pending item that both pass their check both win; the later write stands. */
  lemma OverlappingResolvesBothSucceed(steps: seq<Step>, c: nat, d: nat)
    requires var s := Run(steps);
             c != d && c in s.inflight && d in s.inflight && s.inflight[c].id == s.inflight[d].id
    ensures var s, t := Run(steps), Run(steps + [Commit(c)] + [Commit(d)]);
            var id := s.inflight[c].id;
            t.wins[id] == s.wins[id] + 2 && Lookup(t.q.mem, id) == Some(s.inflight[d])
  {
    RunInv(steps);
    RunSnoc(steps, Commit(c));
    RunSnoc(steps + [Commit(c)], Commit(d));
  }

  /** Such overlaps are reachable: one denies, the other allows. */
  lemma OverlapIsReachable()
    ensures exists steps :: var s := Run(steps).inflight;
              0 in s && 1 in s && s[0].id == s[1].id && s[0].resolution != s[1].resolution
  {
    var first, second := Check(0, "d", "ann", "DENY", 1), Check(1, "d", "bob", "ALLOW", 1);
    var s0 := [] + [Park("d", "", 0)];
    var s1 := s0 + [first];
    var s2 := s1 + [second];
    RunSnoc([], Park("d", "", 0));
    RunSnoc(s0, first);
    RunSnoc(s1, second);
    assert Run(s0).q.mem["d"].status == Pending;
    assert Run(s1).q == Run(s0).q && Run(s1).inflight.Keys == {0};
    assert Run(s2).inflight[0].resolution == "DENY" && Run(s2).inflight[1].resolution == "ALLOW";
  }
}
