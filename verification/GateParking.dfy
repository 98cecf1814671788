/** Parking among the interleaved calls of others: whose ids can keep whose item out of the queue. */
module GateParking {
  import opened Prelude
  import opened Gate
  import opened GateSteps
  import opened GateInterleaving
  import opened GateIsolation
  import GateRuns
  import Whitelist
  import Review
  import Audit

  /** Every item is filed under its own id. */
  ghost predicate ItemsFiled(q: Review.Queue) {
    forall id :: id in q.mem ==> q.mem[id].id == id
  }

  /** The ids of `ids` are used by the calls of `u`, and by no others. */
  ghost predicate OwnIds(steps: seq<Step>, u: string, ids: set<string>) {
    forall i :: 0 <= i < |steps| && steps[i].Begin? ==> (steps[i].id in ids <==> steps[i].req.userId == u)
  }

  ghost predicate CallIds(calls: map<Ticket, Call>, u: string, ids: set<string>) {
    forall t :: t in calls ==> (calls[t].id in ids <==> t.user == u)
  }

  /** Every call of `u` is the same, parked or not. */
  ghost predicate EqualCalls(u: string, a: map<Ticket, Call>, b: map<Ticket, Call>) {
    forall n :: Lookup(a, Ticket(u, n)) == Lookup(b, Ticket(u, n))
  }

  ghost predicate EqualItems(ids: set<string>, a: Review.Queue, b: Review.Queue) {
    forall id :: id in ids ==> Lookup(a.mem, id) == Lookup(b.mem, id)
  }

  /** Nothing that concerns `u` differs: signals, calls and the items under its ids. */
  ghost predicate Equal(cfg: Config, u: string, ids: set<string>, v: World, w: World) {
    && GateRuns.SameFor(cfg, u, v.shared.signals, w.shared.signals)
    && EqualCalls(u, v.calls, w.calls)
    && EqualItems(ids, v.shared.books.review, w.shared.books.review)
  }

  lemma EqualCallsAfter(u: string, a: map<Ticket, Call>, b: map<Ticket, Call>, t: Ticket, c: Call)
    requires EqualCalls(u, a, b)
    ensures EqualCalls(u, a[t := c], b[t := c])
  {}

  // ---- One access to the queue -------------------------------------------

  /** An access changes at most the item under the call's own id, and keeps items filed. */
  lemma AdvancedItems(kit: Kit, cfg: Config, mode: Audit.Setup, s: State, c: Call, now: int, fault: bool)
    ensures var q := Advanced(kit, cfg, mode, s, c, now, fault).0.books.review;
            && (forall id :: id != c.id ==> Lookup(q.mem, id) == Lookup(s.books.review.mem, id))
            && (ItemsFiled(s.books.review) ==> ItemsFiled(q))
  {}

  lemma ParkingEqual(cfg: Config, a: Books, b: Books, c: Call, j: Judgement, version: string, now: int)
    requires Lookup(a.review.mem, c.id) == Lookup(b.review.mem, c.id)
    ensures var (a', p) := ParkingStep(cfg, a, c, j, version, now);
            var (b', q) := ParkingStep(cfg, b, c, j, version, now);
            p == q && Lookup(a'.review.mem, c.id) == Lookup(b'.review.mem, c.id)
  {}

  /** Outside that one access a call neither changes the queue nor looks at it. */
  lemma QueueUntouched(kit: Kit, cfg: Config, mode: Audit.Setup, s: State, t: State, c: Call, now: int, fault: bool)
    requires s.signals.engine == t.signals.engine && !Sensing(c.phase) && !c.phase.Emitted?
    ensures Entered(kit, cfg, mode, s, c, now, fault).1 == Entered(kit, cfg, mode, t, c, now, fault).1
    ensures Entered(kit, cfg, mode, s, c, now, fault).0.review == s.books.review
    ensures Entered(kit, cfg, mode, t, c, now, fault).0.review == t.books.review
  {}

  lemma EnteredEqual(kit: Kit, cfg: Config, mode: Audit.Setup, s: State, t: State, c: Call, now: int, fault: bool)
    requires s.signals.engine == t.signals.engine && !Sensing(c.phase)
    requires Lookup(s.books.review.mem, c.id) == Lookup(t.books.review.mem, c.id)
    ensures var (b, p) := Entered(kit, cfg, mode, s, c, now, fault);
            var (d, q) := Entered(kit, cfg, mode, t, c, now, fault);
            p == q && Lookup(b.review.mem, c.id) == Lookup(d.review.mem, c.id)
  {
    if c.phase.Emitted? {
      ParkingEqual(cfg, s.books, t.books, c, c.phase.j, c.phase.version, now);
    } else {
      QueueUntouched(kit, cfg, mode, s, t, c, now, fault);
    }
  }

  lemma AdvancedEqual(kit: Kit, cfg: Config, mode: Audit.Setup, u: string, s: State, t: State, c: Call, now: int,
                      fault: bool)
    requires GateRuns.SameFor(cfg, u, s.signals, t.signals) && c.req.userId == u
    requires Lookup(s.books.review.mem, c.id) == Lookup(t.books.review.mem, c.id)
    ensures var (s', c') := Advanced(kit, cfg, mode, s, c, now, fault);
            var (t', d') := Advanced(kit, cfg, mode, t, c, now, fault);
            && c' == d' && GateRuns.SameFor(cfg, u, s'.signals, t'.signals)
            && Lookup(s'.books.review.mem, c.id) == Lookup(t'.books.review.mem, c.id)
  {
    if Sensing(c.phase) {
      SensedAlike(kit, cfg, u, s.signals, t.signals, c, now);
    } else {
      EnteredEqual(kit, cfg, mode, s, t, c, now, fault);
    }
  }

  /** Resolving acts alike on items that agree. */
  lemma ResolvingEqual(ids: set<string>, a: Review.Queue, b: Review.Queue, id: string, assignee: string,
                       resolution: string, now: int)
    requires ItemsFiled(a) && ItemsFiled(b) && EqualItems(ids, a, b)
    ensures var a', b' := Review.Resolving(a, id, assignee, resolution, now).0,
                          Review.Resolving(b, id, assignee, resolution, now).0;
            ItemsFiled(a') && ItemsFiled(b') && EqualItems(ids, a', b')
  {}

  // ---- Steps -------------------------------------------------------------

  ghost predicate Orderly(kit: Kit, cfg: Config, w: World, u: string, ids: set<string>) {
    && AllFaithful(kit, cfg, w) && GateRuns.Filed(w.shared.signals.table)
    && ItemsFiled(w.shared.books.review) && CallIds(w.calls, u, ids)
  }

  lemma ForeignStepIsInert(kit: Kit, cfg: Config, mode: Audit.Setup, u: string, ids: set<string>, w: World, step: Step)
    requires ':' !in cfg.suffix && Orderly(kit, cfg, w, u, ids)
    requires !Concerns(step, u) && (step.Other? ==> GateRuns.Harmless(step.op, u))
    ensures Equal(cfg, u, ids, w, Next(kit, cfg, mode, w, step))
  {
    ForeignStepIsInvisible(kit, cfg, mode, u, w, step);
    var v := Next(kit, cfg, mode, w, step);
    forall n ensures Lookup(w.calls, Ticket(u, n)) == Lookup(v.calls, Ticket(u, n)) {
      CallsAfter(kit, cfg, mode, w, step, Ticket(u, n));
    }
    ForeignStepKeepsItems(kit, cfg, mode, u, ids, w, step);
  }

  lemma ForeignStepKeepsItems(kit: Kit, cfg: Config, mode: Audit.Setup, u: string, ids: set<string>, w: World,
                              step: Step)
    requires CallIds(w.calls, u, ids) && !Concerns(step, u)
    ensures EqualItems(ids, w.shared.books.review, Next(kit, cfg, mode, w, step).shared.books.review)
  {
    if step.Advance? && step.ticket in w.calls {
      AdvancedItems(kit, cfg, mode, w.shared, w.calls[step.ticket], step.now, step.fault);
    }
  }

  lemma OwnAdvanceActsEqually(kit: Kit, cfg: Config, mode: Audit.Setup, u: string, ids: set<string>, v: World,
                              w: World, step: Step)
    requires Equal(cfg, u, ids, v, w) && step.Advance? && Concerns(step, u)
    requires AllFaithful(kit, cfg, v) && CallIds(v.calls, u, ids)
    ensures Equal(cfg, u, ids, Next(kit, cfg, mode, v, step), Next(kit, cfg, mode, w, step))
  {
    var t := step.ticket;
    assert t == Ticket(u, t.n);
    assert Lookup(v.calls, t) == Lookup(w.calls, t);
    if t in v.calls {
      var c := v.calls[t];
      AdvancedEqual(kit, cfg, mode, u, v.shared, w.shared, c, step.now, step.fault);
      EqualCallsAfter(u, v.calls, w.calls, t, Advanced(kit, cfg, mode, v.shared, c, step.now, step.fault).1);
      AdvancedItems(kit, cfg, mode, v.shared, c, step.now, step.fault);
      AdvancedItems(kit, cfg, mode, w.shared, c, step.now, step.fault);
    }
  }

  lemma OwnBeginActsEqually(kit: Kit, cfg: Config, mode: Audit.Setup, u: string, ids: set<string>, v: World, w: World,
                            step: Step)
    requires Equal(cfg, u, ids, v, w) && step.Begin? && Concerns(step, u)
    ensures Equal(cfg, u, ids, Next(kit, cfg, mode, v, step), Next(kit, cfg, mode, w, step))
  {
    var t := Ticket(u, step.n);
    assert Lookup(v.calls, t) == Lookup(w.calls, t);
    var x := Target(step.req);
    assert x.user == u;
    assert Lookup(v.shared.signals.table, Whitelist.Key(x)) == Lookup(w.shared.signals.table, Whitelist.Key(x));
    var c := Opened(kit, cfg, v.shared.signals, step.req, step.id, step.now);
    assert c == Opened(kit, cfg, w.shared.signals, step.req, step.id, step.now);
    EqualCallsAfter(u, v.calls, w.calls, t, c);
  }

  lemma SharedOpActsEqually(kit: Kit, cfg: Config, mode: Audit.Setup, u: string, ids: set<string>, v: World, w: World,
                            op: GateRuns.Op)
    requires Equal(cfg, u, ids, v, w) && GateRuns.Concerns(op, u) && !op.Evaluate?
    requires GateRuns.Filed(v.shared.signals.table) && GateRuns.Filed(w.shared.signals.table)
    requires ItemsFiled(v.shared.books.review) && ItemsFiled(w.shared.books.review)
    ensures Equal(cfg, u, ids, Next(kit, cfg, mode, v, Other(op)), Next(kit, cfg, mode, w, Other(op)))
  {
    GateRuns.OwnOpActsAlike(kit, cfg, u, v.shared.signals, w.shared.signals, op);
    if op.Resolve? {
      ResolvingEqual(ids, v.shared.books.review, w.shared.books.review, op.item, op.assignee, op.resolution, op.now);
    }
  }

  lemma OwnStepActsEqually(kit: Kit, cfg: Config, mode: Audit.Setup, u: string, ids: set<string>, v: World, w: World,
                           step: Step)
    requires Equal(cfg, u, ids, v, w) && Concerns(step, u) && Orderly(kit, cfg, v, u, ids)
    requires GateRuns.Filed(w.shared.signals.table) && ItemsFiled(w.shared.books.review)
    ensures Equal(cfg, u, ids, Next(kit, cfg, mode, v, step), Next(kit, cfg, mode, w, step))
  {
    match step
    case Begin(_, _, _, _) => OwnBeginActsEqually(kit, cfg, mode, u, ids, v, w, step);
    case Advance(_, _, _) => OwnAdvanceActsEqually(kit, cfg, mode, u, ids, v, w, step);
    case Other(op) =>
      if !op.Evaluate? {
        SharedOpActsEqually(kit, cfg, mode, u, ids, v, w, op);
      }
  }

  // ---- Whole runs --------------------------------------------------------

  lemma StepKeepsItemsFiled(kit: Kit, cfg: Config, mode: Audit.Setup, w: World, step: Step)
    requires ItemsFiled(w.shared.books.review)
    ensures ItemsFiled(Next(kit, cfg, mode, w, step).shared.books.review)
  {
    if step.Advance? && step.ticket in w.calls {
      AdvancedItems(kit, cfg, mode, w.shared, w.calls[step.ticket], step.now, step.fault);
    }
  }

  lemma {:induction false} RunItemsFiled(kit: Kit, cfg: Config, mode: Audit.Setup, s: State, steps: seq<Step>)
    requires ItemsFiled(s.books.review)
    ensures ItemsFiled(Run(kit, cfg, mode, s, steps).shared.books.review)
  {
    if steps != [] {
      RunItemsFiled(kit, cfg, mode, s, steps[..|steps| - 1]);
      StepKeepsItemsFiled(kit, cfg, mode, Run(kit, cfg, mode, s, steps[..|steps| - 1]), steps[|steps| - 1]);
    }
  }

  lemma {:induction false} RunCallIds(kit: Kit, cfg: Config, mode: Audit.Setup, s: State, steps: seq<Step>, u: string,
                                      ids: set<string>)
    requires OwnIds(steps, u, ids)
    ensures CallIds(Run(kit, cfg, mode, s, steps).calls, u, ids)
  {
    if steps != [] {
      var p, step := steps[..|steps| - 1], steps[|steps| - 1];
      RunCallIds(kit, cfg, mode, s, p, u, ids);
      var w, v := Run(kit, cfg, mode, s, p), Run(kit, cfg, mode, s, steps);
      forall t | t in v.calls ensures v.calls[t].id in ids <==> t.user == u {
        CallsAfter(kit, cfg, mode, w, step, t);
        if t in w.calls && step.Advance? {
          AdvancedKeepsRequest(kit, cfg, mode, w.shared, w.calls[t], step.now, step.fault);
        }
      }
    }
  }

  /**
   * Isolation with parking: if the ids of `ids` are used by the calls of `u` and by no others,
   * deleting every step of other users leaves every call of `u` exactly as it was, parked or not,
   * and every item under those ids.
   */
  lemma {:induction false} ParkingIsolation(kit: Kit, cfg: Config, mode: Audit.Setup, s: State, steps: seq<Step>,
                                            u: string, ids: set<string>)
    requires ':' !in cfg.suffix && GateRuns.Filed(s.signals.table) && ItemsFiled(s.books.review)
    requires NeighboursSeparate(steps, u) && OwnIds(steps, u, ids)
    ensures Equal(cfg, u, ids, Run(kit, cfg, mode, s, steps), Run(kit, cfg, mode, s, Keep(steps, u)))
  {
    if steps != [] {
      var p, step := steps[..|steps| - 1], steps[|steps| - 1];
      var kept := Keep(p, u);
      ParkingIsolation(kit, cfg, mode, s, p, u, ids);
      RunFiled(kit, cfg, mode, s, p);
      RunFiled(kit, cfg, mode, s, kept);
      RunItemsFiled(kit, cfg, mode, s, p);
      RunItemsFiled(kit, cfg, mode, s, kept);
      RunFaithful(kit, cfg, mode, s, p);
      RunCallIds(kit, cfg, mode, s, p, u, ids);
      var v, w := Run(kit, cfg, mode, s, p), Run(kit, cfg, mode, s, kept);
      if Concerns(step, u) {
        assert (kept + [step])[..|kept|] == kept;
        OwnStepActsEqually(kit, cfg, mode, u, ids, v, w, step);
      } else {
        assert Keep(steps, u) == kept;
        ForeignStepIsInert(kit, cfg, mode, u, ids, v, step);
      }
    }
  }
}
