/**
 * Any number of evaluations in flight at once. Between two accesses of one call other calls may
 * make theirs, and whitelist changes, rollbacks, swaps, resolves and turns of the worker may run,
 * each of these as one step.
 */
module GateInterleaving {
  import opened Prelude
  import opened Gate
  import opened GateSteps
  import GateRuns
  import Velocity
  import Whitelist
  import Engine
  import Audit

  /** A call is known by its user and a number. */
  datatype Ticket = Ticket(user: string, n: nat)

  datatype World = World(shared: State, calls: map<Ticket, Call>)

  datatype Step =
    | Begin(n: nat, req: Request, id: string, now: int)
    | Advance(ticket: Ticket, now: int, fault: bool)
    | Other(op: GateRuns.Op)

  function Next(kit: Kit, cfg: Config, mode: Audit.Setup, w: World, step: Step): World {
    match step
    case Begin(n, r, id, now) =>
      var t := Ticket(r.userId, n);
      if t in w.calls then w  // the number is taken
      else w.(calls := w.calls[t := Opened(kit, cfg, w.shared.signals, r, id, now)])
    case Advance(t, now, fault) =>
      if t !in w.calls then w
      else
        var (s, c) := Advanced(kit, cfg, mode, w.shared, w.calls[t], now, fault);
        World(s, w.calls[t := c])
    case Other(op) =>
      if op.Evaluate? then w  // evaluations run step by step
      else w.(shared := GateRuns.Next(kit, cfg, mode, w.shared, op))
  }

  function Run(kit: Kit, cfg: Config, mode: Audit.Setup, s: State, steps: seq<Step>): World {
    if steps == [] then World(s, map[])
    else Next(kit, cfg, mode, Run(kit, cfg, mode, s, steps[..|steps| - 1]), steps[|steps| - 1])
  }

  /** Only `Begin` opens a call, and only its own `Advance` moves it. */
  lemma CallsAfter(kit: Kit, cfg: Config, mode: Audit.Setup, w: World, step: Step, t: Ticket)
    ensures var calls := Next(kit, cfg, mode, w, step).calls;
            && (t in w.calls ==> t in calls)
            && (t in calls && t !in w.calls ==>
                 && step.Begin? && t == Ticket(step.req.userId, step.n)
                 && calls[t] == Opened(kit, cfg, w.shared.signals, step.req, step.id, step.now))
            && (t in w.calls && step.Advance? && step.ticket == t ==>
                 calls[t] == Advanced(kit, cfg, mode, w.shared, w.calls[t], step.now, step.fault).1)
            && (t in w.calls && !(step.Advance? && step.ticket == t) ==> calls[t] == w.calls[t])
  {}

  // ---- What a call decides -----------------------------------------------

  /** A judgement without the versions its rules were stamped with. */
  datatype Gist = Gist(decision: string, reasons: seq<string>, ids: seq<string>, score: real)

  function GistOf(j: Judgement): Gist {
    Gist(j.decision, j.reasons, RuleIds(j.rules), j.score)
  }

  /** What a call has settled on, once it has. */
  function Settlement(p: Phase): Option<Gist> {
    match p
    case Decided(j) => Some(GistOf(j))
    case Numbered(j, _) => Some(GistOf(j))
    case Noted(j, _) => Some(GistOf(j))
    case Persisted(j, _, _) => Some(GistOf(j))
    case Emitted(j, _) => Some(GistOf(j))
    case Queued(j, _, _) => Some(GistOf(j))
    case Closing(out) => Answered(out)
    case Finished(out) => Answered(out)
    case _ => None
  }

  function Answered(out: Outcome): Option<Gist> {
    if out.Invalid? then None
    else
      var r := out.response;
      Some(Gist(r.decision, r.reasons, RuleIds(r.rules), r.score))
  }

  predicate OverSeen(cfg: Config, seen: Seen) {
    cfg.hasVelocity && Velocity.Bump(seen.cell, cfg.day, seen.at).value > Limit(cfg)
  }

  /** The stages applied to what a call has seen. */
  function JudgedSeen(kit: Kit, cfg: Config, seen: Seen, r: Request): Judgement {
    var refusal := AuthFailure(kit, cfg, r);
    if refusal.Some? then Judgement("deny", [refusal.value], [], 1.0)
    else if !seen.listed then Judgement("deny", ["dest_not_whitelisted"], [], 0.5)
    else VelocityThenCaps(kit, cfg, seen.engine, InputOf(kit, cfg, r, seen.listed), r, OverSeen(cfg, seen))
  }

  lemma JudgedSeenIsJudged(kit: Kit, cfg: Config, s: Signals, r: Request, now: int)
    ensures JudgedSeen(kit, cfg, Observed(cfg, s, r, now), r) == Judged(kit, cfg, s, r, now)
  {}

  /** Past source and destination. */
  predicate Accepted(kit: Kit, cfg: Config, c: Call) {
    AuthFailure(kit, cfg, c.req).None? && c.seen.listed
  }

  predicate CapClear(kit: Kit, cfg: Config, r: Request) {
    var cap := CapOutcome(kit, cfg, r);
    !cap.exceeded && !cap.nearCap
  }

  /** The call's phase follows from what it has seen. */
  predicate Faithful(kit: Kit, cfg: Config, c: Call) {
    match c.phase
    case Fresh => true
    case Listed => Accepted(kit, cfg, c)
    case Owing => Accepted(kit, cfg, c) && OverSeen(cfg, c.seen)
    case Passed => Accepted(kit, cfg, c) && !OverSeen(cfg, c.seen)
    case Stamping(a, done) =>
      && Accepted(kit, cfg, c) && !OverSeen(cfg, c.seen) && CapClear(kit, cfg, c.req)
      && Engine.Answered(kit.opa, c.seen.engine, InputOf(kit, cfg, c.req, c.seen.listed)) == Some(a)
      && |done| <= |a.rules| && RuleIds(done) == a.rules[..|done|]
    case _ => Settlement(c.phase).Some? ==> Settlement(c.phase) == Some(GistOf(JudgedSeen(kit, cfg, c.seen, c.req)))
  }

  lemma RuleIdsConcat(a: seq<AppliedRule>, b: seq<AppliedRule>)
    ensures RuleIds(a + b) == RuleIds(a) + RuleIds(b)
  {}

  lemma RuleIdsVersioned(ids: seq<string>, version: string)
    ensures RuleIds(Versioned(ids, version)) == ids
  {}

  lemma AskingStaysFaithful(kit: Kit, cfg: Config, s: Signals, c: Call)
    requires c.phase.Passed? && Faithful(kit, cfg, c)
    ensures Faithful(kit, cfg, Asking(kit, cfg, s, c))
  {}

  lemma StampingStaysFaithful(kit: Kit, cfg: Config, s: Signals, c: Call)
    requires c.phase.Stamping? && Faithful(kit, cfg, c)
    ensures Faithful(kit, cfg, c.(phase := Stamped(kit, cfg, s, c.req, c.phase.answer, c.phase.stamped)))
  {
    var a, done := c.phase.answer, c.phase.stamped;
    if |done| < |a.rules| {
      RuleIdsConcat(done, [AppliedRule(a.rules[|done|], s.engine.bundle.version)]);
    } else {
      assert a.rules[..|done|] == a.rules;
      RuleIdsConcat(CapRules(kit, cfg, c.req), done);
      RuleIdsConcat(CapRules(kit, cfg, c.req), Versioned(a.rules, c.seen.engine.bundle.version));
      RuleIdsVersioned(a.rules, c.seen.engine.bundle.version);
    }
  }

  lemma SensedStaysFaithful(kit: Kit, cfg: Config, s: Signals, c: Call, now: int)
    requires Sensing(c.phase) && Faithful(kit, cfg, c)
    ensures Faithful(kit, cfg, Sensed(kit, cfg, s, c, now).1)
  {
    match c.phase
    case Passed => AskingStaysFaithful(kit, cfg, s, c);
    case Stamping(_, _) => StampingStaysFaithful(kit, cfg, s, c);
    case _ =>
  }

  lemma EnteredSettlement(kit: Kit, cfg: Config, mode: Audit.Setup, s: State, c: Call, now: int, fault: bool)
    requires !Sensing(c.phase)
    ensures Settlement(Entered(kit, cfg, mode, s, c, now, fault).1) == Settlement(c.phase)
    ensures !Sensing(Entered(kit, cfg, mode, s, c, now, fault).1)
  {}

  lemma AdvanceStaysFaithful(kit: Kit, cfg: Config, mode: Audit.Setup, s: State, c: Call, now: int, fault: bool)
    requires Faithful(kit, cfg, c)
    ensures Faithful(kit, cfg, Advanced(kit, cfg, mode, s, c, now, fault).1)
  {
    if Sensing(c.phase) {
      SensedStaysFaithful(kit, cfg, s.signals, c, now);
    } else {
      EnteredSettlement(kit, cfg, mode, s, c, now, fault);
    }
  }

  ghost predicate AllFaithful(kit: Kit, cfg: Config, w: World) {
    forall t :: t in w.calls ==> w.calls[t].req.userId == t.user && Faithful(kit, cfg, w.calls[t])
  }

  lemma AdvancedKeepsRequest(kit: Kit, cfg: Config, mode: Audit.Setup, s: State, c: Call, now: int, fault: bool)
    ensures var d := Advanced(kit, cfg, mode, s, c, now, fault).1; d.req == c.req && d.id == c.id
  {}

  lemma StepStaysFaithful(kit: Kit, cfg: Config, mode: Audit.Setup, w: World, step: Step)
    requires AllFaithful(kit, cfg, w)
    ensures AllFaithful(kit, cfg, Next(kit, cfg, mode, w, step))
  {
    var calls := Next(kit, cfg, mode, w, step).calls;
    forall t | t in calls ensures calls[t].req.userId == t.user && Faithful(kit, cfg, calls[t]) {
      CallsAfter(kit, cfg, mode, w, step, t);
      if t in w.calls && step.Advance? && step.ticket == t {
        AdvanceStaysFaithful(kit, cfg, mode, w.shared, w.calls[t], step.now, step.fault);
        AdvancedKeepsRequest(kit, cfg, mode, w.shared, w.calls[t], step.now, step.fault);
      }
    }
  }

  lemma {:induction false} RunFaithful(kit: Kit, cfg: Config, mode: Audit.Setup, s: State, steps: seq<Step>)
    ensures AllFaithful(kit, cfg, Run(kit, cfg, mode, s, steps))
  {
    if steps != [] {
      RunFaithful(kit, cfg, mode, s, steps[..|steps| - 1]);
      StepStaysFaithful(kit, cfg, mode, Run(kit, cfg, mode, s, steps[..|steps| - 1]), steps[|steps| - 1]);
    }
  }

  // ---- Every decision is one the signals justified -----------------------

  function SignalsAt(kit: Kit, cfg: Config, mode: Audit.Setup, s: State, steps: seq<Step>, i: nat): Signals
    requires i <= |steps|
  {
    Run(kit, cfg, mode, s, steps[..i]).shared.signals
  }

  /**
   * The call began at step `i`, and what it has seen was so at steps `a`, `b` and `d` in this order,
   * with the counter read at the clock of step `b`.
   */
  ghost predicate Moments(kit: Kit, cfg: Config, mode: Audit.Setup, s: State, steps: seq<Step>, t: Ticket, c: Call,
                          i: nat, a: nat, b: nat, d: nat)
  {
    && i <= a <= b <= d < |steps|
    && steps[i].Begin? && steps[i].n == t.n && steps[i].req == c.req && steps[i].id == c.id
    && c.seen.listed == Whitelist.IsWhitelisted(SignalsAt(kit, cfg, mode, s, steps, a).table, Target(c.req))
    && c.seen.cell == Lookup(SignalsAt(kit, cfg, mode, s, steps, b).cells, CounterKey(cfg, c.req.userId))
    && !steps[b].Other? && steps[b].now == c.seen.at
    && c.seen.engine == SignalsAt(kit, cfg, mode, s, steps, d).engine
  }

  lemma MomentsExtend(kit: Kit, cfg: Config, mode: Audit.Setup, s: State, steps: seq<Step>, t: Ticket, c: Call,
                      i: nat, a: nat, b: nat, d: nat)
    requires steps != [] && Moments(kit, cfg, mode, s, steps[..|steps| - 1], t, c, i, a, b, d)
    ensures Moments(kit, cfg, mode, s, steps, t, c, i, a, b, d)
  {
    var p := steps[..|steps| - 1];
    assert p[..a] == steps[..a] && p[..b] == steps[..b] && p[..d] == steps[..d];
  }

  /** A call keeps what it saw, or looks again at everything, at counter and engine, or at the engine. */
  predicate Looks(cfg: Config, s: Signals, c: Call, d: Call, now: int) {
    var o := Observed(cfg, s, c.req, now);
    && d.req == c.req && d.id == c.id
    && (d.seen == c.seen || d.seen == o || d.seen == o.(listed := c.seen.listed)
        || d.seen == c.seen.(engine := o.engine))
  }

  lemma AdvancedLooks(kit: Kit, cfg: Config, mode: Audit.Setup, s: State, c: Call, now: int, fault: bool)
    ensures Looks(cfg, s.signals, c, Advanced(kit, cfg, mode, s, c, now, fault).1, now)
  {}

  /** The moments of a call after its own next access. */
  lemma MomentsAdvance(kit: Kit, cfg: Config, mode: Audit.Setup, s: State, steps: seq<Step>, t: Ticket, c: Call,
                       i: nat, a: nat, b: nat, d: nat, c': Call, now: int)
    returns (a': nat, b': nat, d': nat)
    requires steps != [] && Moments(kit, cfg, mode, s, steps, t, c, i, a, b, d)
    requires Looks(cfg, SignalsAt(kit, cfg, mode, s, steps, |steps| - 1), c, c', now)
    requires !steps[|steps| - 1].Other? && steps[|steps| - 1].now == now
    ensures Moments(kit, cfg, mode, s, steps, t, c', i, a', b', d')
  {
    var n := |steps| - 1;
    var o := Observed(cfg, SignalsAt(kit, cfg, mode, s, steps, n), c.req, now);
    assert o == Seen(o.listed, o.cell, now, o.engine);
    if c'.seen == c.seen {
      a', b', d' := a, b, d;
    } else if c'.seen == o {
      a', b', d' := n, n, n;
    } else if c'.seen == o.(listed := c.seen.listed) {
      a', b', d' := a, n, n;
    } else {
      a', b', d' := a, b, n;
    }
  }

  lemma MomentsBegin(kit: Kit, cfg: Config, mode: Audit.Setup, s: State, steps: seq<Step>, t: Ticket)
    requires steps != []
    requires var step := steps[|steps| - 1]; step.Begin? && t == Ticket(step.req.userId, step.n)
    ensures var step, n := steps[|steps| - 1], |steps| - 1;
            var c := Opened(kit, cfg, Run(kit, cfg, mode, s, steps[..n]).shared.signals, step.req, step.id, step.now);
            Moments(kit, cfg, mode, s, steps, t, c, n, n, n, n)
  {}

  lemma {:induction false} MomentsExist(kit: Kit, cfg: Config, mode: Audit.Setup, s: State, steps: seq<Step>, t: Ticket)
    returns (i: nat, a: nat, b: nat, d: nat)
    requires t in Run(kit, cfg, mode, s, steps).calls
    ensures Moments(kit, cfg, mode, s, steps, t, Run(kit, cfg, mode, s, steps).calls[t], i, a, b, d)
  {
    var p, step, n := steps[..|steps| - 1], steps[|steps| - 1], |steps| - 1;
    var w := Run(kit, cfg, mode, s, p);
    CallsAfter(kit, cfg, mode, w, step, t);
    if t !in w.calls {
      i, a, b, d := n, n, n, n;
      MomentsBegin(kit, cfg, mode, s, steps, t);
    } else {
      i, a, b, d := MomentsExist(kit, cfg, mode, s, p, t);
      MomentsExtend(kit, cfg, mode, s, steps, t, w.calls[t], i, a, b, d);
      if step.Advance? && step.ticket == t {
        var c := Advanced(kit, cfg, mode, w.shared, w.calls[t], step.now, step.fault).1;
        AdvancedLooks(kit, cfg, mode, w.shared, w.calls[t], step.now, step.fault);
        a, b, d := MomentsAdvance(kit, cfg, mode, s, steps, t, w.calls[t], i, a, b, d, c, step.now);
      }
    }
  }

  /**
   * Whatever runs in between, a call's decision, reasons, rules and score are those of one atomic
   * evaluation: on the whitelist, the counter and the engine as they were at three moments of the
   * call, in this order, and at the clock of the moment the counter was read.
   */
  lemma DecisionIsJustified(kit: Kit, cfg: Config, mode: Audit.Setup, s: State, steps: seq<Step>, t: Ticket)
    returns (i: nat, a: nat, b: nat, d: nat)
    requires t in Run(kit, cfg, mode, s, steps).calls && Settlement(Run(kit, cfg, mode, s, steps).calls[t].phase).Some?
    ensures i <= a <= b <= d < |steps| && steps[i].Begin? && !steps[b].Other?
    ensures var c := Run(kit, cfg, mode, s, steps).calls[t];
            && steps[i].n == t.n && steps[i].req == c.req && c.req.userId == t.user
            && var signals := Signals(SignalsAt(kit, cfg, mode, s, steps, b).cells,
                                      SignalsAt(kit, cfg, mode, s, steps, a).table,
                                      SignalsAt(kit, cfg, mode, s, steps, d).engine);
               Settlement(c.phase) == Some(GistOf(Judged(kit, cfg, signals, c.req, steps[b].now)))
  {
    i, a, b, d := MomentsExist(kit, cfg, mode, s, steps, t);
    RunFaithful(kit, cfg, mode, s, steps);
    var c := Run(kit, cfg, mode, s, steps).calls[t];
    var seen := Signals(SignalsAt(kit, cfg, mode, s, steps, b).cells, SignalsAt(kit, cfg, mode, s, steps, a).table,
                        SignalsAt(kit, cfg, mode, s, steps, d).engine);
    JudgedSeenIsJudged(kit, cfg, seen, c.req, c.seen.at);
    assert Observed(cfg, seen, c.req, c.seen.at) == c.seen;
    assert !Sensing(c.phase);
  }
}
