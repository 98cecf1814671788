/** The interleaved gate as seen from one user's counter is a run of the admission protocol. */
module GateAdmission {
  import opened Prelude
  import opened Gate
  import opened GateSteps
  import opened GateInterleaving
  import GateRuns
  import GateIsolation
  import Admission
  import AdmissionOverrun
  import Velocity
  import Audit

  /** The clock reading a step may bring to the counter. */
  function ClockOf(step: Step): Option<int> {
    match step
    case Begin(_, _, _, now) => Some(now)
    case Advance(_, now, _) => Some(now)
    case Other(op) => if op.Rollback? then Some(op.now) else None
  }

  /** The clock starts at zero or later and never runs backwards. */
  ghost predicate Timely(steps: seq<Step>) {
    && (forall i :: 0 <= i < |steps| && ClockOf(steps[i]).Some? ==> 0 <= ClockOf(steps[i]).value)
    && (forall i, j :: 0 <= i <= j < |steps| && ClockOf(steps[i]).Some? && ClockOf(steps[j]).Some? ==>
          ClockOf(steps[i]).value <= ClockOf(steps[j]).value)
  }

  /** A call of `u` is about to make its next access in phase `Listed` or `Owing`. */
  predicate Touches(w: World, step: Step, u: string) {
    && step.Advance? && step.ticket.user == u && step.ticket in w.calls
    && (w.calls[step.ticket].phase.Listed? || w.calls[step.ticket].phase.Owing?)
  }

  function PhaseAfter(kit: Kit, cfg: Config, mode: Audit.Setup, w: World, step: Step): Phase
    requires step.Advance? && step.ticket in w.calls
  {
    Advanced(kit, cfg, mode, w.shared, w.calls[step.ticket], step.now, step.fault).1.phase
  }

  /** The calls of `u` that are over the limit and have not rolled back yet. */
  function OwingOf(calls: map<Ticket, Call>, u: string): set<Ticket> {
    set t | t in calls && t.user == u && calls[t].phase.Owing?
  }

  function DatedTo(gens: map<Ticket, nat>, g: nat): set<Ticket> {
    set t | t in gens && gens[t] == g
  }

  lemma DatedAdded(gens: map<Ticket, nat>, t: Ticket, g: nat, x: nat)
    requires t !in gens
    ensures |DatedTo(gens[t := g], x)| == |DatedTo(gens, x)| + if x == g then 1 else 0
  {
    assert DatedTo(gens[t := g], x) == DatedTo(gens, x) + if x == g then {t} else {};
  }

  lemma DatedRemoved(gens: map<Ticket, nat>, t: Ticket, x: nat)
    requires t in gens
    ensures |DatedTo(gens - {t}, x)| == |DatedTo(gens, x)| - if x == gens[t] then 1 else 0
  {
    assert DatedTo(gens - {t}, x) == DatedTo(gens, x) - {t};
    assert t in DatedTo(gens, x) <==> x == gens[t];
  }

  lemma OwingAfter(calls: map<Ticket, Call>, u: string, t: Ticket, c: Call)
    ensures OwingOf(calls[t := c], u)
            == if t.user == u && c.phase.Owing? then OwingOf(calls, u) + {t} else OwingOf(calls, u) - {t}
  {}

  function CellOf(cfg: Config, u: string, w: World): Velocity.Cell {
    Lookup(w.shared.signals.cells, CounterKey(cfg, u))
  }

  // ---- The gate's own account of a counter -------------------------------

  /**
   * `gen` numbers the lives of the counter of `u`: it grows when a call finds the counter dead.
   * `owed` dates each call that still owes a rollback. `strays` counts, per life, the rollbacks that
   * lowered the counter though they came from outside or from a call of an earlier life.
   */
  datatype Tally = Tally(gen: nat, owed: map<Ticket, nat>, strays: multiset<nat>)

  function Entering(l: Tally, t: Ticket, live: bool, over: bool): Tally {
    var g := if live then l.gen else l.gen + 1;
    l.(gen := g, owed := if over then l.owed[t := g] else l.owed)
  }

  /** A rollback; it strays if it lowers the counter for a call of another life. */
  function Leaving(l: Tally, t: Ticket, lowers: bool): Tally {
    var strays := lowers && t in l.owed && l.owed[t] != l.gen;
    Tally(l.gen, l.owed - {t}, if strays then l.strays + multiset{l.gen} else l.strays)
  }

  function Straying(l: Tally, lowers: bool): Tally {
    if lowers then l.(strays := l.strays + multiset{l.gen}) else l
  }

  predicate RollsBackFor(step: Step, u: string) {
    step.Other? && step.op.Rollback? && step.op.user == u
  }

  function TallyAfter(kit: Kit, cfg: Config, mode: Audit.Setup, w: World, step: Step, u: string, l: Tally): Tally {
    var cell := CellOf(cfg, u, w);
    if Touches(w, step, u) then
      if w.calls[step.ticket].phase.Listed?
      then Entering(l, step.ticket, Velocity.Live(cell, step.now), PhaseAfter(kit, cfg, mode, w, step).Owing?)
      else Leaving(l, step.ticket, 0 < Velocity.Reading(cell, step.now))
    else if RollsBackFor(step, u) then Straying(l, 0 < Velocity.Reading(cell, step.op.now))
    else l
  }

  function TallyOf(kit: Kit, cfg: Config, mode: Audit.Setup, s: State, steps: seq<Step>, u: string): Tally {
    if steps == [] then Tally(0, map[], multiset{})
    else
      var p := steps[..|steps| - 1];
      TallyAfter(kit, cfg, mode, Run(kit, cfg, mode, s, p), steps[|steps| - 1], u, TallyOf(kit, cfg, mode, s, p, u))
  }

  /** The calls of `u` that got past the velocity stage: when, and in which life of the counter. */
  function Passes(kit: Kit, cfg: Config, mode: Audit.Setup, s: State, steps: seq<Step>, u: string)
    : seq<Admission.Pass>
  {
    if steps == [] then []
    else
      var p, step := steps[..|steps| - 1], steps[|steps| - 1];
      var w := Run(kit, cfg, mode, s, p);
      Passes(kit, cfg, mode, s, p, u)
      + if Touches(w, step, u) && PhaseAfter(kit, cfg, mode, w, step).Passed?
        then [Admission.Pass(step.now, TallyOf(kit, cfg, mode, s, steps, u).gen)] else []
  }

  /** The protocol's state mirrors the gate's account. */
  ghost predicate Mirrors(u: string, calls: map<Ticket, Call>, a: Admission.State, l: Tally) {
    && a.gen == l.gen && a.foreign == l.strays
    && l.owed.Keys == OwingOf(calls, u) && Owes(a.over, l.owed)
  }

  /** As many rollbacks are owed to each life as calls are dated to it. */
  ghost predicate Owes(over: multiset<nat>, owed: map<Ticket, nat>) {
    forall g: nat :: over[g] == |DatedTo(owed, g)|
  }

  lemma OwesOneMore(over: multiset<nat>, owed: map<Ticket, nat>, t: Ticket, x: nat)
    requires Owes(over, owed) && t !in owed
    ensures Owes(over + multiset{x}, owed[t := x])
  {
    forall g: nat ensures (over + multiset{x})[g] == |DatedTo(owed[t := x], g)| {
      DatedAdded(owed, t, x, g);
    }
  }

  lemma OwesOneLess(over: multiset<nat>, owed: map<Ticket, nat>, t: Ticket)
    requires Owes(over, owed) && t in owed
    ensures owed[t] in over && Owes(over - multiset{owed[t]}, owed - {t})
  {
    assert t in DatedTo(owed, owed[t]);
    forall g: nat ensures (over - multiset{owed[t]})[g] == |DatedTo(owed - {t}, g)| {
      DatedRemoved(owed, t, g);
    }
  }

  // ---- Accesses to the counter of `u` ------------------------------------

  /** A call enters over the limit: it owes a rollback to the present life. */
  lemma OwingEnterMirrors(u: string, calls: map<Ticket, Call>, a: Admission.State, l: Tally, t: Ticket, c: Call,
                          b: Admission.State, live: bool)
    requires Mirrors(u, calls, a, l) && t.user == u && t in calls && !calls[t].phase.Owing? && c.phase.Owing?
    requires b.gen == (if live then a.gen else a.gen + 1) && b.foreign == a.foreign
    requires b.over == a.over + multiset{b.gen}
    ensures Mirrors(u, calls[t := c], b, Entering(l, t, live, true))
  {
    OwingAfter(calls, u, t, c);
    assert t !in OwingOf(calls, u);
    OwesOneMore(a.over, l.owed, t, b.gen);
    assert l.owed[t := b.gen].Keys == l.owed.Keys + {t};
  }

  /** A call enters within the limit: it passes. */
  lemma PassingEnterMirrors(u: string, calls: map<Ticket, Call>, a: Admission.State, l: Tally, t: Ticket, c: Call,
                            b: Admission.State, live: bool)
    requires Mirrors(u, calls, a, l) && t in calls && !calls[t].phase.Owing? && !c.phase.Owing?
    requires b.gen == (if live then a.gen else a.gen + 1) && b.foreign == a.foreign
    requires b.over == a.over
    ensures Mirrors(u, calls[t := c], b, Entering(l, t, live, false))
  {
    OwingAfter(calls, u, t, c);
    assert t !in OwingOf(calls, u);
    assert OwingOf(calls[t := c], u) == OwingOf(calls, u);
  }

  /** An owing call rolls back: the account knows which life it owes to. */
  lemma CompensateMirrors(u: string, calls: map<Ticket, Call>, a: Admission.State, l: Tally, t: Ticket, c: Call,
                          b: Admission.State, lowers: bool)
    requires Mirrors(u, calls, a, l) && t in OwingOf(calls, u) && !c.phase.Owing?
    requires b.over == a.over - multiset{l.owed[t]} && b.gen == a.gen
    requires b.foreign == if lowers && l.owed[t] != a.gen then a.foreign + multiset{a.gen} else a.foreign
    ensures l.owed[t] in a.over && Mirrors(u, calls[t := c], b, Leaving(l, t, lowers))
  {
    OwingAfter(calls, u, t, c);
    OwesOneLess(a.over, l.owed, t);
  }

  lemma CountingEnters(cfg: Config, s: Signals, c: Call, now: int, a: Admission.State)
    requires cfg.hasVelocity && a.cell == Lookup(s.cells, CounterKey(cfg, c.req.userId)) && a.now == now
    ensures var (t, d) := Counting(cfg, s, c, now);
            var b := Admission.Next(Limit(cfg), cfg.day, a, Admission.Enter);
            && b.cell == Lookup(t.cells, CounterKey(cfg, c.req.userId))
            && b.gen == (if Velocity.Live(a.cell, now) then a.gen else a.gen + 1) && b.foreign == a.foreign
            && if d.phase.Owing? then b.over == a.over + multiset{b.gen} && b.log == a.log
               else d.phase.Passed? && b.over == a.over && b.log == a.log + [Admission.Pass(now, b.gen)]
  {}

  lemma TakingBackCompensates(cfg: Config, s: Signals, c: Call, now: int, a: Admission.State, g: nat)
    requires a.cell == Lookup(s.cells, CounterKey(cfg, c.req.userId)) && a.now == now && g in a.over
    ensures var (t, d) := TakingBack(cfg, s, c, now);
            var b := Admission.Next(Limit(cfg), cfg.day, a, Admission.Compensate(g));
            var strays := 0 < Velocity.Reading(a.cell, now) && g != a.gen;
            && b.cell == Lookup(t.cells, CounterKey(cfg, c.req.userId)) && !d.phase.Owing?
            && b.over == a.over - multiset{g} && b.log == a.log && b.gen == a.gen
            && b.foreign == if strays then a.foreign + multiset{a.gen} else a.foreign
  {}

  lemma RollbackIsOutside(kit: Kit, cfg: Config, s: Signals, op: GateRuns.Op, a: Admission.State)
    requires op.Rollback? && a.cell == Lookup(s.cells, CounterKey(cfg, op.user)) && a.now == op.now
    ensures var b := Admission.Next(Limit(cfg), cfg.day, a, Admission.Outside);
            && b.cell == Lookup(GateRuns.NextSignals(kit, cfg, s, op).cells, CounterKey(cfg, op.user))
            && b.over == a.over && b.log == a.log && b.gen == a.gen
            && b.foreign
               == if 0 < Velocity.Reading(a.cell, op.now) then a.foreign + multiset{a.gen} else a.foreign
  {}

  /** What an access of a call of `u` to its counter does to the world. */
  lemma TouchingStep(kit: Kit, cfg: Config, mode: Audit.Setup, w: World, step: Step, u: string)
    requires Touches(w, step, u)
    ensures var c, s := w.calls[step.ticket], w.shared.signals;
            var (t, d) := if c.phase.Listed? then Counting(cfg, s, c, step.now) else TakingBack(cfg, s, c, step.now);
            && Next(kit, cfg, mode, w, step) == World(w.shared.(signals := t), w.calls[step.ticket := d])
            && PhaseAfter(kit, cfg, mode, w, step) == d.phase
  {}

  /** What happened to `u`'s counter in one access happened to the protocol from `a` to `b`. */
  ghost predicate Reflects(kit: Kit, cfg: Config, mode: Audit.Setup, w: World, step: Step, u: string,
                           a: Admission.State, b: Admission.State, l: Tally)
    requires Touches(w, step, u)
  {
    var v := Next(kit, cfg, mode, w, step);
    && b.cell == CellOf(cfg, u, v) && Mirrors(u, v.calls, b, TallyAfter(kit, cfg, mode, w, step, u, l))
    && b.log == a.log
       + if PhaseAfter(kit, cfg, mode, w, step).Passed? then [Admission.Pass(step.now, b.gen)] else []
  }

  lemma ListedMirrors(kit: Kit, cfg: Config, mode: Audit.Setup, w: World, step: Step, u: string, a: Admission.State,
                      l: Tally)
    requires cfg.hasVelocity && AllFaithful(kit, cfg, w) && Touches(w, step, u) && w.calls[step.ticket].phase.Listed?
    requires a.cell == CellOf(cfg, u, w) && a.now == step.now && Mirrors(u, w.calls, a, l)
    ensures Reflects(kit, cfg, mode, w, step, u, a, Admission.Next(Limit(cfg), cfg.day, a, Admission.Enter), l)
  {
    var c, b := w.calls[step.ticket], Admission.Next(Limit(cfg), cfg.day, a, Admission.Enter);
    var d := Counting(cfg, w.shared.signals, c, step.now).1;
    TouchingStep(kit, cfg, mode, w, step, u);
    CountingEnters(cfg, w.shared.signals, c, step.now, a);
    if d.phase.Owing? {
      OwingEnterMirrors(u, w.calls, a, l, step.ticket, d, b, Velocity.Live(a.cell, step.now));
    } else {
      PassingEnterMirrors(u, w.calls, a, l, step.ticket, d, b, Velocity.Live(a.cell, step.now));
    }
  }

  lemma OwingMirrors(kit: Kit, cfg: Config, mode: Audit.Setup, w: World, step: Step, u: string, a: Admission.State,
                     l: Tally)
    requires AllFaithful(kit, cfg, w) && Touches(w, step, u) && w.calls[step.ticket].phase.Owing?
    requires a.cell == CellOf(cfg, u, w) && a.now == step.now && Mirrors(u, w.calls, a, l)
    ensures step.ticket in l.owed
    ensures var b := Admission.Next(Limit(cfg), cfg.day, a, Admission.Compensate(l.owed[step.ticket]));
            Reflects(kit, cfg, mode, w, step, u, a, b, l)
  {
    var c, t := w.calls[step.ticket], step.ticket;
    assert t in OwingOf(w.calls, u);
    OwesOneLess(a.over, l.owed, t);
    var b := Admission.Next(Limit(cfg), cfg.day, a, Admission.Compensate(l.owed[t]));
    var d := TakingBack(cfg, w.shared.signals, c, step.now).1;
    TouchingStep(kit, cfg, mode, w, step, u);
    TakingBackCompensates(cfg, w.shared.signals, c, step.now, a, l.owed[t]);
    CompensateMirrors(u, w.calls, a, l, t, d, b, 0 < Velocity.Reading(a.cell, step.now));
  }

  /** The protocol's move for an access of a call of `u` to its counter. */
  function MoveOf(w: World, step: Step, u: string, l: Tally): Admission.Step
    requires Touches(w, step, u)
  {
    if w.calls[step.ticket].phase.Listed? || step.ticket !in l.owed then Admission.Enter
    else Admission.Compensate(l.owed[step.ticket])
  }

  /** Every access of a call of `u` to its counter is a move of the protocol. */
  lemma TouchMirrors(kit: Kit, cfg: Config, mode: Audit.Setup, w: World, step: Step, u: string, a: Admission.State,
                     l: Tally) returns (move: Admission.Step)
    requires cfg.hasVelocity && AllFaithful(kit, cfg, w) && Touches(w, step, u)
    requires a.cell == CellOf(cfg, u, w) && a.now == step.now && Mirrors(u, w.calls, a, l)
    ensures !move.Outside? && !move.Tick? && move == MoveOf(w, step, u, l)
    ensures Reflects(kit, cfg, mode, w, step, u, a, Admission.Next(Limit(cfg), cfg.day, a, move), l)
  {
    if w.calls[step.ticket].phase.Listed? {
      move := Admission.Enter;
      ListedMirrors(kit, cfg, mode, w, step, u, a, l);
    } else {
      OwingMirrors(kit, cfg, mode, w, step, u, a, l);
      move := Admission.Compensate(l.owed[step.ticket]);
    }
  }

  // ---- Everything else ---------------------------------------------------

  lemma OtherPhasesLeaveIt(kit: Kit, cfg: Config, mode: Audit.Setup, s: State, c: Call, now: int, fault: bool)
    requires !c.phase.Listed? && !c.phase.Owing?
    ensures var (t, d) := Advanced(kit, cfg, mode, s, c, now, fault);
            t.signals.cells == s.signals.cells && !d.phase.Owing?
  {}

  lemma UntouchingAdvance(kit: Kit, cfg: Config, mode: Audit.Setup, w: World, t: Ticket, now: int, fault: bool,
                          u: string)
    requires ':' !in cfg.suffix && AllFaithful(kit, cfg, w) && t in w.calls
    requires t.user == u ==> !w.calls[t].phase.Listed? && !w.calls[t].phase.Owing?
    ensures var (s, d) := Advanced(kit, cfg, mode, w.shared, w.calls[t], now, fault);
            && Lookup(s.signals.cells, CounterKey(cfg, u)) == CellOf(cfg, u, w)
            && OwingOf(w.calls[t := d], u) == OwingOf(w.calls, u)
  {
    var c := w.calls[t];
    OwingAfter(w.calls, u, t, Advanced(kit, cfg, mode, w.shared, c, now, fault).1);
    if t.user == u {
      OtherPhasesLeaveIt(kit, cfg, mode, w.shared, c, now, fault);
    } else {
      GateIsolation.ForeignAdvanceIsInvisible(kit, cfg, mode, u, w.shared, c, now, fault);
    }
  }

  /** Steps that are not such accesses, nor outside rollbacks for `u`, leave its counter and its debts alone. */
  lemma UntouchingStep(kit: Kit, cfg: Config, mode: Audit.Setup, w: World, step: Step, u: string)
    requires ':' !in cfg.suffix && AllFaithful(kit, cfg, w) && !Touches(w, step, u)
    requires !RollsBackFor(step, u)
    ensures CellOf(cfg, u, Next(kit, cfg, mode, w, step)) == CellOf(cfg, u, w)
    ensures OwingOf(Next(kit, cfg, mode, w, step).calls, u) == OwingOf(w.calls, u)
  {
    match step
    case Begin(n, r, id, now) =>
      OwingAfter(w.calls, u, Ticket(r.userId, n), Opened(kit, cfg, w.shared.signals, r, id, now));
    case Advance(t, now, fault) =>
      if t in w.calls {
        UntouchingAdvance(kit, cfg, mode, w, t, now, fault, u);
      }
    case Other(op) =>
      if op.Rollback? && CounterKey(cfg, u) == CounterKey(cfg, op.user) {
        Velocity.KeyInjective(u, cfg.suffix, op.user, cfg.suffix);
      }
  }

  // ---- Whole runs --------------------------------------------------------

  /** Nobody rolls back for `u` from outside. */
  ghost predicate NoOutside(steps: seq<Step>, u: string) {
    forall i :: 0 <= i < |steps| ==> !RollsBackFor(steps[i], u)
  }

  /** The protocol's clock stands at zero or at the clock of some step. */
  ghost predicate ClockSeen(steps: seq<Step>, now: int) {
    now == 0 || exists i :: 0 <= i < |steps| && ClockOf(steps[i]) == Some(now)
  }

  /** The run `moves` of the protocol is what the interleaving `steps` does to the counter of `u`. */
  ghost predicate Follows(kit: Kit, cfg: Config, mode: Audit.Setup, s: State, steps: seq<Step>, u: string,
                          moves: seq<Admission.Step>)
  {
    var w, a := Run(kit, cfg, mode, s, steps), Admission.Run(Limit(cfg), cfg.day, moves);
    && a.cell == CellOf(cfg, u, w) && Mirrors(u, w.calls, a, TallyOf(kit, cfg, mode, s, steps, u))
    && a.log == Passes(kit, cfg, mode, s, steps, u)
    && ClockSeen(steps, a.now)
    && (NoOutside(steps, u) ==> AdmissionOverrun.OwnRollbacksOnly(moves))
  }

  /** Letting the clock come to `now` and then taking a step. */
  lemma TickThen(cap: int, w: int, moves: seq<Admission.Step>, now: int, step: Admission.Step)
    returns (more: seq<Admission.Step>)
    requires Admission.Run(cap, w, moves).now <= now
    ensures Admission.Run(cap, w, more) == Admission.Next(cap, w, Admission.Run(cap, w, moves).(now := now), step)
    ensures !step.Tick? ==> Admission.Run(cap, w, more).now == now
    ensures !step.Outside? && AdmissionOverrun.OwnRollbacksOnly(moves) ==> AdmissionOverrun.OwnRollbacksOnly(more)
  {
    var a := Admission.Run(cap, w, moves);
    var ticked := moves + [Admission.Tick(now - a.now)];
    assert Admission.Run(cap, w, ticked) == a.(now := now) by {
      AdmissionOverrun.RunSnoc(cap, w, moves, Admission.Tick(now - a.now));
    }
    more := ticked + [step];
    assert Admission.Run(cap, w, more) == Admission.Next(cap, w, a.(now := now), step) by {
      AdmissionOverrun.RunSnoc(cap, w, ticked, step);
    }
    if !step.Tick? {
      MovesKeepTheClock(cap, w, a.(now := now), step);
    }
  }

  lemma MovesKeepTheClock(cap: int, w: int, a: Admission.State, step: Admission.Step)
    requires !step.Tick?
    ensures Admission.Next(cap, w, a, step).now == a.now
  {}

  lemma ClockMovesOn(steps: seq<Step>, now: int)
    requires steps != [] && Timely(steps) && ClockSeen(steps[..|steps| - 1], now)
    ensures ClockSeen(steps, now)
    ensures ClockOf(steps[|steps| - 1]).Some? ==> now <= ClockOf(steps[|steps| - 1]).value
  {
    var p := steps[..|steps| - 1];
    if now != 0 {
      var i :| 0 <= i < |p| && ClockOf(p[i]) == Some(now);
      assert steps[i] == p[i];
    }
  }

  lemma FollowUntouched(kit: Kit, cfg: Config, mode: Audit.Setup, s: State, steps: seq<Step>, u: string,
                        moves: seq<Admission.Step>)
    requires ':' !in cfg.suffix && Timely(steps) && steps != []
    requires Follows(kit, cfg, mode, s, steps[..|steps| - 1], u, moves)
    requires !Touches(Run(kit, cfg, mode, s, steps[..|steps| - 1]), steps[|steps| - 1], u)
    requires !RollsBackFor(steps[|steps| - 1], u)
    ensures Follows(kit, cfg, mode, s, steps, u, moves)
  {
    var p := steps[..|steps| - 1];
    RunFaithful(kit, cfg, mode, s, p);
    UntouchingStep(kit, cfg, mode, Run(kit, cfg, mode, s, p), steps[|steps| - 1], u);
    ClockMovesOn(steps, Admission.Run(Limit(cfg), cfg.day, moves).now);
  }

  lemma FollowTouch(kit: Kit, cfg: Config, mode: Audit.Setup, s: State, steps: seq<Step>, u: string,
                    moves: seq<Admission.Step>) returns (more: seq<Admission.Step>)
    requires cfg.hasVelocity && Timely(steps) && steps != []
    requires Follows(kit, cfg, mode, s, steps[..|steps| - 1], u, moves)
    requires Touches(Run(kit, cfg, mode, s, steps[..|steps| - 1]), steps[|steps| - 1], u)
    ensures Follows(kit, cfg, mode, s, steps, u, more)
    ensures var p, now := steps[..|steps| - 1], steps[|steps| - 1].now;
            var a := Admission.Run(Limit(cfg), cfg.day, moves).(now := now);
            Admission.Run(Limit(cfg), cfg.day, more)
            == Admission.Next(Limit(cfg), cfg.day, a, MoveOf(Run(kit, cfg, mode, s, p), steps[|steps| - 1], u,
                                                             TallyOf(kit, cfg, mode, s, p, u)))
  {
    var cap, p, step := Limit(cfg), steps[..|steps| - 1], steps[|steps| - 1];
    var w, a := Run(kit, cfg, mode, s, p), Admission.Run(cap, cfg.day, moves);
    RunFaithful(kit, cfg, mode, s, p);
    var move := TouchMirrors(kit, cfg, mode, w, step, u, a.(now := step.now), TallyOf(kit, cfg, mode, s, p, u));
    more := FollowMove(kit, cfg, mode, s, steps, u, moves, move);
  }

  /** The run goes on with a move that reflects its last step. */
  lemma FollowMove(kit: Kit, cfg: Config, mode: Audit.Setup, s: State, steps: seq<Step>, u: string,
                   moves: seq<Admission.Step>, move: Admission.Step) returns (more: seq<Admission.Step>)
    requires Timely(steps) && steps != [] && !move.Outside? && !move.Tick?
    requires Follows(kit, cfg, mode, s, steps[..|steps| - 1], u, moves)
    requires Touches(Run(kit, cfg, mode, s, steps[..|steps| - 1]), steps[|steps| - 1], u)
    requires var p, step := steps[..|steps| - 1], steps[|steps| - 1];
             var a := Admission.Run(Limit(cfg), cfg.day, moves).(now := step.now);
             Reflects(kit, cfg, mode, Run(kit, cfg, mode, s, p), step, u,
                      a, Admission.Next(Limit(cfg), cfg.day, a, move), TallyOf(kit, cfg, mode, s, p, u))
    ensures Follows(kit, cfg, mode, s, steps, u, more)
    ensures var a := Admission.Run(Limit(cfg), cfg.day, moves).(now := steps[|steps| - 1].now);
            Admission.Run(Limit(cfg), cfg.day, more) == Admission.Next(Limit(cfg), cfg.day, a, move)
  {
    var cap, now := Limit(cfg), steps[|steps| - 1].now;
    var a := Admission.Run(cap, cfg.day, moves);
    ClockMovesOn(steps, a.now);
    more := TickThen(cap, cfg.day, moves, now, move);
    FollowReflected(kit, cfg, mode, s, steps, u, a.(now := now), Admission.Run(cap, cfg.day, more));
    if NoOutside(steps, u) {
      NoOutsideBefore(steps, u);
    }
  }

  lemma NoOutsideBefore(steps: seq<Step>, u: string)
    requires steps != [] && NoOutside(steps, u)
    ensures NoOutside(steps[..|steps| - 1], u)
  {}

  /** What a reflected access adds to the run. */
  lemma FollowReflected(kit: Kit, cfg: Config, mode: Audit.Setup, s: State, steps: seq<Step>, u: string,
                        a: Admission.State, b: Admission.State)
    requires steps != [] && Touches(Run(kit, cfg, mode, s, steps[..|steps| - 1]), steps[|steps| - 1], u)
    requires a.log == Passes(kit, cfg, mode, s, steps[..|steps| - 1], u)
    requires var p := steps[..|steps| - 1];
             Reflects(kit, cfg, mode, Run(kit, cfg, mode, s, p), steps[|steps| - 1], u, a, b,
                      TallyOf(kit, cfg, mode, s, p, u))
    requires b.now == steps[|steps| - 1].now
    ensures b.cell == CellOf(cfg, u, Run(kit, cfg, mode, s, steps))
    ensures Mirrors(u, Run(kit, cfg, mode, s, steps).calls, b, TallyOf(kit, cfg, mode, s, steps, u))
    ensures b.log == Passes(kit, cfg, mode, s, steps, u) && ClockSeen(steps, b.now)
  {
    assert ClockOf(steps[|steps| - 1]) == Some(b.now);
  }

  lemma FollowOutside(kit: Kit, cfg: Config, mode: Audit.Setup, s: State, steps: seq<Step>, u: string,
                      moves: seq<Admission.Step>) returns (more: seq<Admission.Step>)
    requires Timely(steps) && steps != []
    requires Follows(kit, cfg, mode, s, steps[..|steps| - 1], u, moves)
    requires RollsBackFor(steps[|steps| - 1], u)
    ensures Follows(kit, cfg, mode, s, steps, u, more)
  {
    var cap, op := Limit(cfg), steps[|steps| - 1].op;
    var w, a := Run(kit, cfg, mode, s, steps[..|steps| - 1]), Admission.Run(cap, cfg.day, moves);
    ClockMovesOn(steps, a.now);
    more := TickThen(cap, cfg.day, moves, op.now, Admission.Outside);
    RollbackIsOutside(kit, cfg, w.shared.signals, op, a.(now := op.now));
    assert ClockOf(steps[|steps| - 1]) == Some(op.now);
  }

  /**
   * Whatever the gate's calls do in between, the counter of `u` goes through a run of the admission
   * protocol: its cell is the protocol's, the calls over the limit are the rollbacks the protocol is
   * owed, each for the life of the counter it belongs to, the rollbacks that strayed are the
   * protocol's foreign ones, and the calls that got past the velocity stage are the protocol's log.
   */
  lemma {:induction false} GateFollowsProtocol(kit: Kit, cfg: Config, mode: Audit.Setup, s: State, steps: seq<Step>,
                                               u: string)
    returns (moves: seq<Admission.Step>)
    requires cfg.hasVelocity && ':' !in cfg.suffix && CounterKey(cfg, u) !in s.signals.cells && Timely(steps)
    ensures Follows(kit, cfg, mode, s, steps, u, moves)
  {
    if steps == [] {
      moves := [];
    } else {
      var p, step := steps[..|steps| - 1], steps[|steps| - 1];
      moves := GateFollowsProtocol(kit, cfg, mode, s, p, u);
      if Touches(Run(kit, cfg, mode, s, p), step, u) {
        moves := FollowTouch(kit, cfg, mode, s, steps, u, moves);
      } else if RollsBackFor(step, u) {
        moves := FollowOutside(kit, cfg, mode, s, steps, u, moves);
      } else {
        FollowUntouched(kit, cfg, mode, s, steps, u, moves);
      }
    }
  }

  // ---- The limit at the gate ---------------------------------------------

  /** A call that finds the counter of `u` dead finds no rollback of `u` outstanding either. */
  ghost predicate Prompt(kit: Kit, cfg: Config, mode: Audit.Setup, s: State, steps: seq<Step>, u: string) {
    forall i :: 0 <= i < |steps| ==> PromptAt(cfg, Run(kit, cfg, mode, s, steps[..i]), steps[i], u)
  }

  predicate PromptAt(cfg: Config, w: World, step: Step, u: string) {
    (Touches(w, step, u) && w.calls[step.ticket].phase.Listed? && !Velocity.Live(CellOf(cfg, u, w), step.now))
    ==> OwingOf(w.calls, u) == {}
  }

  lemma PromptBefore(kit: Kit, cfg: Config, mode: Audit.Setup, s: State, steps: seq<Step>, u: string)
    requires steps != [] && Prompt(kit, cfg, mode, s, steps, u)
    ensures var p := steps[..|steps| - 1];
            Prompt(kit, cfg, mode, s, p, u) && PromptAt(cfg, Run(kit, cfg, mode, s, p), steps[|steps| - 1], u)
  {
    var p := steps[..|steps| - 1];
    forall i | 0 <= i < |p| ensures PromptAt(cfg, Run(kit, cfg, mode, s, p[..i]), p[i], u) {
      assert p[..i] == steps[..i] && p[i] == steps[i];
    }
  }

  /** Nothing has strayed, and every debt is the present life's. */
  ghost predicate Settled(l: Tally) {
    l.strays == multiset{} && forall t :: t in l.owed ==> l.owed[t] == l.gen
  }

  lemma PromptStepSettles(kit: Kit, cfg: Config, mode: Audit.Setup, w: World, step: Step, u: string, l: Tally)
    requires Settled(l) && l.owed.Keys == OwingOf(w.calls, u) && PromptAt(cfg, w, step, u) && !RollsBackFor(step, u)
    ensures Settled(TallyAfter(kit, cfg, mode, w, step, u, l))
  {}

  /** Without outside rollbacks and late ones, no rollback strays. */
  lemma {:induction false} PromptMeansNoStrays(kit: Kit, cfg: Config, mode: Audit.Setup, s: State, steps: seq<Step>,
                                               u: string)
    requires cfg.hasVelocity && ':' !in cfg.suffix && CounterKey(cfg, u) !in s.signals.cells && Timely(steps)
    requires NoOutside(steps, u) && Prompt(kit, cfg, mode, s, steps, u)
    ensures Settled(TallyOf(kit, cfg, mode, s, steps, u))
  {
    if steps != [] {
      var p := steps[..|steps| - 1];
      NoOutsideBefore(steps, u);
      PromptBefore(kit, cfg, mode, s, steps, u);
      PromptMeansNoStrays(kit, cfg, mode, s, p, u);
      var moves := GateFollowsProtocol(kit, cfg, mode, s, p, u);
      PromptStepSettles(kit, cfg, mode, Run(kit, cfg, mode, s, p), steps[|steps| - 1], u,
                        TallyOf(kit, cfg, mode, s, p, u));
    }
  }

  lemma MultiplicityIsAtMostSize(m: multiset<nat>, g: nat)
    ensures m[g] <= |m|
  {
    assert m == (m - multiset{}[g := m[g]]) + multiset{}[g := m[g]];
  }

  /** The passes between `lo` and `hi` number at most the limit plus the strays of any life among them. */
  ghost predicate WithinBound(cap: int, passes: seq<Admission.Pass>, strays: multiset<nat>, lo: int, hi: int) {
    forall i :: 0 <= i < |passes| && lo <= passes[i].at <= hi ==>
      Admission.PassesIn(passes, lo, hi) <= Max(cap, 0) + strays[passes[i].gen]
  }

  lemma WindowBound(cap: int, w: int, moves: seq<Admission.Step>, lo: int, hi: int)
    requires hi - lo <= w
    ensures var a := Admission.Run(cap, w, moves);
            && WithinBound(cap, a.log, a.foreign, lo, hi)
            && Admission.PassesIn(a.log, lo, hi) <= Max(cap, 0) + |a.foreign|
  {
    var a := Admission.Run(cap, w, moves);
    Admission.RollingWindowIsRespected(cap, w, moves, lo, hi);
    if i :| 0 <= i < |a.log| && lo <= a.log[i].at <= hi {
      MultiplicityIsAtMostSize(a.foreign, a.log[i].gen);
    } else {
      Admission.EmptyWindow(a.log, lo, hi);
    }
  }

  /**
   * The limit at the gate, over every interleaving: in any stretch of time no longer than the
   * window, the calls of a user that got past the velocity stage number at most the limit plus the
   * rollbacks that strayed into their life of the counter; at most the limit if nobody rolled back
   * from outside and no call of the user found the counter dead while another still owed its rollback.
   */
  lemma GateRespectsRollingWindow(kit: Kit, cfg: Config, mode: Audit.Setup, s: State, steps: seq<Step>, u: string,
                                  lo: int, hi: int)
    requires cfg.hasVelocity && ':' !in cfg.suffix && CounterKey(cfg, u) !in s.signals.cells && Timely(steps)
    requires hi - lo <= cfg.day
    ensures var passes, strays := Passes(kit, cfg, mode, s, steps, u), TallyOf(kit, cfg, mode, s, steps, u).strays;
            var n := Admission.PassesIn(passes, lo, hi);
            && WithinBound(Limit(cfg), passes, strays, lo, hi)
            && n <= Max(Limit(cfg), 0) + |strays|
            && (NoOutside(steps, u) && Prompt(kit, cfg, mode, s, steps, u) ==> n <= Max(Limit(cfg), 0))
  {
    var moves := GateFollowsProtocol(kit, cfg, mode, s, steps, u);
    WindowBound(Limit(cfg), cfg.day, moves, lo, hi);
    if NoOutside(steps, u) && Prompt(kit, cfg, mode, s, steps, u) {
      PromptMeansNoStrays(kit, cfg, mode, s, steps, u);
    }
  }

  /**
   * The limit is the daily cap of the configuration: under the same two conditions, calls past the
   * velocity stage in any stretch no longer than the window never outnumber it, over every interleaving.
   */
  lemma DailyCapBoundsCalls(kit: Kit, cfg: Config, mode: Audit.Setup, s: State, steps: seq<Step>, u: string,
                            lo: int, hi: int)
    requires cfg.hasVelocity && ':' !in cfg.suffix && CounterKey(cfg, u) !in s.signals.cells && Timely(steps)
    requires hi - lo <= cfg.day && NoOutside(steps, u) && Prompt(kit, cfg, mode, s, steps, u)
    ensures var n := Admission.PassesIn(Passes(kit, cfg, mode, s, steps, u), lo, hi);
            && (cfg.caps.defaultDaily >= 0.0 ==> n as real <= cfg.caps.defaultDaily)
            && (cfg.caps.defaultDaily < 1.0 ==> n == 0)
  {
    GateRespectsRollingWindow(kit, cfg, mode, s, steps, u, lo, hi);
    var n := Admission.PassesIn(Passes(kit, cfg, mode, s, steps, u), lo, hi);
    if cfg.caps.defaultDaily >= 0.0 || n >= 1 {
      AboveTruncated(n, cfg.caps.defaultDaily);
    }
  }
}
