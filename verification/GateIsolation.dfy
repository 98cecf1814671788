/** One user's calls among the interleaved calls of others. */
module GateIsolation {
  import opened Prelude
  import opened Gate
  import opened GateSteps
  import opened GateInterleaving
  import GateRuns
  import Velocity
  import Whitelist
  import Audit

  predicate Concerns(step: Step, u: string) {
    match step
    case Begin(_, r, _, _) => r.userId == u
    case Advance(t, _, _) => t.user == u
    case Other(op) => GateRuns.Concerns(op, u)
  }

  /** The run with every other user's steps deleted. */
  function Keep(steps: seq<Step>, u: string): seq<Step> {
    if steps == [] then []
    else Keep(steps[..|steps| - 1], u) + if Concerns(steps[|steps| - 1], u) then [steps[|steps| - 1]] else []
  }

  /** A call but for whether its item was parked, which can depend on the ids others use. */
  function Shown(c: Option<Call>): Option<Call> {
    if c.Some? && c.value.phase.Queued? then Some(c.value.(phase := c.value.phase.(parked := true))) else c
  }

  /** Two worlds that user `u` cannot tell apart: counter, whitelist, engine and every call of `u`. */
  ghost predicate SameFor(cfg: Config, u: string, v: World, w: World) {
    && GateRuns.SameFor(cfg, u, v.shared.signals, w.shared.signals)
    && SameCalls(u, v.calls, w.calls)
  }

  ghost predicate SameCalls(u: string, a: map<Ticket, Call>, b: map<Ticket, Call>) {
    forall n :: Shown(Lookup(a, Ticket(u, n))) == Shown(Lookup(b, Ticket(u, n)))
  }

  lemma SameCallsAfter(u: string, a: map<Ticket, Call>, b: map<Ticket, Call>, t: Ticket, c: Call, d: Call)
    requires SameCalls(u, a, b) && Shown(Some(c)) == Shown(Some(d))
    ensures SameCalls(u, a[t := c], b[t := d])
  {}

  /** Ids of the other users who change the whitelist do not nest with `u`. */
  ghost predicate NeighboursSeparate(steps: seq<Step>, u: string) {
    forall i :: 0 <= i < |steps| && steps[i].Other? ==> GateRuns.Harmless(steps[i].op, u)
  }

  // ---- Steps of others ---------------------------------------------------

  /** Another user's call touches, of all signals, only that user's counter. */
  lemma SensedTouchesOwnCounter(kit: Kit, cfg: Config, s: Signals, c: Call, now: int)
    requires Sensing(c.phase)
    ensures var t := Sensed(kit, cfg, s, c, now).0;
            && t.table == s.table && t.engine == s.engine
            && forall k :: k != CounterKey(cfg, c.req.userId) ==> Lookup(t.cells, k) == Lookup(s.cells, k)
  {}

  lemma ForeignAdvanceIsInvisible(kit: Kit, cfg: Config, mode: Audit.Setup, u: string, s: State, c: Call, now: int,
                                  fault: bool)
    requires ':' !in cfg.suffix && c.req.userId != u
    ensures GateRuns.SameFor(cfg, u, s.signals, Advanced(kit, cfg, mode, s, c, now, fault).0.signals)
  {
    if CounterKey(cfg, u) == CounterKey(cfg, c.req.userId) {
      Velocity.KeyInjective(u, cfg.suffix, c.req.userId, cfg.suffix);
    }
    if Sensing(c.phase) {
      SensedTouchesOwnCounter(kit, cfg, s.signals, c, now);
    }
  }

  lemma ForeignStepIsInvisible(kit: Kit, cfg: Config, mode: Audit.Setup, u: string, w: World, step: Step)
    requires ':' !in cfg.suffix && GateRuns.Filed(w.shared.signals.table) && AllFaithful(kit, cfg, w)
    requires !Concerns(step, u) && (step.Other? ==> GateRuns.Harmless(step.op, u))
    ensures SameFor(cfg, u, w, Next(kit, cfg, mode, w, step))
  {
    match step
    case Begin(_, _, _, _) =>
    case Advance(t, now, fault) =>
      if t in w.calls {
        ForeignAdvanceIsInvisible(kit, cfg, mode, u, w.shared, w.calls[t], now, fault);
      }
    case Other(op) =>
      if !op.Evaluate? {
        GateRuns.ForeignOpIsInvisible(kit, cfg, u, w.shared.signals, op);
      }
  }

  // ---- Steps of the user, and of the system ------------------------------

  lemma SensedAlike(kit: Kit, cfg: Config, u: string, s: Signals, t: Signals, c: Call, now: int)
    requires GateRuns.SameFor(cfg, u, s, t) && c.req.userId == u && Sensing(c.phase)
    ensures Sensed(kit, cfg, s, c, now).1 == Sensed(kit, cfg, t, c, now).1
    ensures GateRuns.SameFor(cfg, u, Sensed(kit, cfg, s, c, now).0, Sensed(kit, cfg, t, c, now).0)
  {
    var x := Target(c.req);
    assert x.user == u;
    assert Lookup(s.table, Whitelist.Key(x)) == Lookup(t.table, Whitelist.Key(x));
  }

  lemma EnteredAlike(kit: Kit, cfg: Config, mode: Audit.Setup, s: State, t: State, c: Call, d: Call, now: int,
                     fault: bool)
    requires s.signals.engine == t.signals.engine && Shown(Some(c)) == Shown(Some(d)) && !Sensing(c.phase)
    ensures Shown(Some(c.(phase := Entered(kit, cfg, mode, s, c, now, fault).1)))
            == Shown(Some(d.(phase := Entered(kit, cfg, mode, t, d, now, fault).1)))
  {}

  lemma AdvancedAlike(kit: Kit, cfg: Config, mode: Audit.Setup, u: string, s: State, t: State, c: Call, d: Call,
                      now: int, fault: bool)
    requires GateRuns.SameFor(cfg, u, s.signals, t.signals) && c.req.userId == u && Shown(Some(c)) == Shown(Some(d))
    ensures var (s', c') := Advanced(kit, cfg, mode, s, c, now, fault);
            var (t', d') := Advanced(kit, cfg, mode, t, d, now, fault);
            Shown(Some(c')) == Shown(Some(d')) && GateRuns.SameFor(cfg, u, s'.signals, t'.signals)
  {
    if Sensing(c.phase) {
      assert c == d;
      SensedAlike(kit, cfg, u, s.signals, t.signals, c, now);
    } else {
      EnteredAlike(kit, cfg, mode, s, t, c, d, now, fault);
    }
  }

  lemma OwnBeginActsAlike(kit: Kit, cfg: Config, mode: Audit.Setup, u: string, v: World, w: World, step: Step)
    requires SameFor(cfg, u, v, w) && step.Begin? && Concerns(step, u)
    ensures SameFor(cfg, u, Next(kit, cfg, mode, v, step), Next(kit, cfg, mode, w, step))
  {
    var t := Ticket(u, step.n);
    assert Shown(Lookup(v.calls, t)) == Shown(Lookup(w.calls, t));
    var x := Target(step.req);
    assert x.user == u;
    assert Lookup(v.shared.signals.table, Whitelist.Key(x)) == Lookup(w.shared.signals.table, Whitelist.Key(x));
    var c := Opened(kit, cfg, v.shared.signals, step.req, step.id, step.now);
    assert c == Opened(kit, cfg, w.shared.signals, step.req, step.id, step.now);
    SameCallsAfter(u, v.calls, w.calls, t, c, c);
  }

  lemma OwnAdvanceActsAlike(kit: Kit, cfg: Config, mode: Audit.Setup, u: string, v: World, w: World, step: Step)
    requires SameFor(cfg, u, v, w) && step.Advance? && Concerns(step, u) && AllFaithful(kit, cfg, v)
    ensures SameFor(cfg, u, Next(kit, cfg, mode, v, step), Next(kit, cfg, mode, w, step))
  {
    var t := step.ticket;
    assert t == Ticket(u, t.n);
    assert Shown(Lookup(v.calls, t)) == Shown(Lookup(w.calls, t));
    if t in v.calls {
      AdvancedAlike(kit, cfg, mode, u, v.shared, w.shared, v.calls[t], w.calls[t], step.now, step.fault);
      var c := Advanced(kit, cfg, mode, v.shared, v.calls[t], step.now, step.fault).1;
      var d := Advanced(kit, cfg, mode, w.shared, w.calls[t], step.now, step.fault).1;
      SameCallsAfter(u, v.calls, w.calls, t, c, d);
    }
  }

  lemma OwnStepActsAlike(kit: Kit, cfg: Config, mode: Audit.Setup, u: string, v: World, w: World, step: Step)
    requires SameFor(cfg, u, v, w) && Concerns(step, u) && AllFaithful(kit, cfg, v)
    requires GateRuns.Filed(v.shared.signals.table) && GateRuns.Filed(w.shared.signals.table)
    ensures SameFor(cfg, u, Next(kit, cfg, mode, v, step), Next(kit, cfg, mode, w, step))
  {
    match step
    case Begin(_, _, _, _) => OwnBeginActsAlike(kit, cfg, mode, u, v, w, step);
    case Advance(_, _, _) => OwnAdvanceActsAlike(kit, cfg, mode, u, v, w, step);
    case Other(op) =>
      if !op.Evaluate? {
        GateRuns.OwnOpActsAlike(kit, cfg, u, v.shared.signals, w.shared.signals, op);
      }
  }

  // ---- Whole runs --------------------------------------------------------

  lemma {:induction false} RunFiled(kit: Kit, cfg: Config, mode: Audit.Setup, s: State, steps: seq<Step>)
    requires GateRuns.Filed(s.signals.table)
    ensures GateRuns.Filed(Run(kit, cfg, mode, s, steps).shared.signals.table)
  {
    if steps != [] {
      var p, step := steps[..|steps| - 1], steps[|steps| - 1];
      RunFiled(kit, cfg, mode, s, p);
      var w := Run(kit, cfg, mode, s, p);
      StepKeepsFiled(kit, cfg, mode, w, step);
    }
  }

  lemma StepKeepsFiled(kit: Kit, cfg: Config, mode: Audit.Setup, w: World, step: Step)
    requires GateRuns.Filed(w.shared.signals.table)
    ensures GateRuns.Filed(Next(kit, cfg, mode, w, step).shared.signals.table)
  {
    if step.Other? {
      GateRuns.TableOpsKeepFiled(kit, cfg, w.shared.signals, step.op);
    } else if step.Advance? && step.ticket in w.calls && Sensing(w.calls[step.ticket].phase) {
      SensedTouchesOwnCounter(kit, cfg, w.shared.signals, w.calls[step.ticket], step.now);
    }
  }

  /**
   * User isolation between any two accesses: deleting every step of other users from an
   * interleaving leaves `u`'s counter and whitelist, and every call of `u` at every phase with the
   * outcome it returned, exactly as they were.
   */
  lemma {:induction false} InterleavedIsolation(kit: Kit, cfg: Config, mode: Audit.Setup, s: State, steps: seq<Step>,
                                                u: string)
    requires ':' !in cfg.suffix && GateRuns.Filed(s.signals.table) && NeighboursSeparate(steps, u)
    ensures SameFor(cfg, u, Run(kit, cfg, mode, s, steps), Run(kit, cfg, mode, s, Keep(steps, u)))
  {
    if steps != [] {
      var p, step := steps[..|steps| - 1], steps[|steps| - 1];
      var kept := Keep(p, u);
      InterleavedIsolation(kit, cfg, mode, s, p, u);
      RunFiled(kit, cfg, mode, s, p);
      RunFiled(kit, cfg, mode, s, kept);
      RunFaithful(kit, cfg, mode, s, p);
      var v, w := Run(kit, cfg, mode, s, p), Run(kit, cfg, mode, s, kept);
      if Concerns(step, u) {
        assert (kept + [step])[..|kept|] == kept;
        OwnStepActsAlike(kit, cfg, mode, u, v, w, step);
      } else {
        assert Keep(steps, u) == kept;
        ForeignStepIsInvisible(kit, cfg, mode, u, v, step);
      }
    }
  }
}
