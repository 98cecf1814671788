/** Exactly when the gate can let one user's calls overrun the limit. */
module GateOverrun {
  import opened Prelude
  import opened Gate
  import opened GateSteps
  import opened GateInterleaving
  import opened GateAdmission
  import GateIsolation
  import Admission
  import AdmissionOverrun
  import Velocity
  import Audit

  /** The clock of no step is past `now`. */
  ghost predicate UpTo(steps: seq<Step>, now: int) {
    && Timely(steps) && 0 <= now
    && forall i :: 0 <= i < |steps| && ClockOf(steps[i]).Some? ==> ClockOf(steps[i]).value <= now
  }

  /** A counter that starts with the gate, under a key of its own. */
  ghost predicate NewCounter(cfg: Config, s: State, u: string) {
    cfg.hasVelocity && ':' !in cfg.suffix && CounterKey(cfg, u) !in s.signals.cells
  }

  /** A step of a call of `u` at the instant `now`. */
  predicate AtOnce(step: Step, u: string, now: int) {
    match step
    case Begin(_, r, _, at) => r.userId == u && at == now
    case Advance(t, at, _) => t.user == u && at == now
    case Other(_) => false
  }

  ghost predicate Burst(more: seq<Step>, u: string, now: int) {
    forall i :: 0 <= i < |more| ==> AtOnce(more[i], u, now)
  }

  /** The run `all` goes on from `steps` by a burst of `u`. */
  ghost predicate Extends(steps: seq<Step>, all: seq<Step>, u: string, now: int) {
    steps <= all && Burst(all[|steps|..], u, now)
  }

  lemma UpToOneMore(steps: seq<Step>, step: Step, u: string, now: int)
    requires UpTo(steps, now) && AtOnce(step, u, now)
    ensures UpTo(steps + [step], now)
  {
    var all := steps + [step];
    assert forall i :: 0 <= i < |steps| ==> all[i] == steps[i];
    assert all[|steps|] == step && ClockOf(step) == Some(now);
  }

  lemma BurstIsTimely(steps: seq<Step>, all: seq<Step>, u: string, now: int)
    requires UpTo(steps, now) && Extends(steps, all, u, now)
    ensures UpTo(all, now)
  {
    assert forall i :: 0 <= i < |steps| ==> all[i] == steps[i];
    forall i | |steps| <= i < |all| ensures ClockOf(all[i]) == Some(now) {
      assert AtOnce(all[|steps|..][i - |steps|], u, now);
    }
  }

  lemma SnocIsRun(kit: Kit, cfg: Config, mode: Audit.Setup, s: State, steps: seq<Step>, step: Step)
    ensures (steps + [step])[..|steps|] == steps && (steps + [step])[|steps + [step]| - 1] == step
    ensures Run(kit, cfg, mode, s, steps + [step]) == Next(kit, cfg, mode, Run(kit, cfg, mode, s, steps), step)
  {}

  // ---- Without a late debt the limit holds -------------------------------

  /** The life `g` goes on, nothing strayed into it, and every debt is its own. */
  ghost predicate Confined(now: int, cell: Velocity.Cell, l: Tally, g: nat) {
    && l.gen == g && Velocity.Live(cell, now) && l.strays[g] == 0
    && forall t :: t in l.owed ==> l.owed[t] == g
  }

  lemma StepStaysConfined(kit: Kit, cfg: Config, mode: Audit.Setup, w: World, step: Step, u: string, now: int, l: Tally,
                          g: nat)
    requires ':' !in cfg.suffix && cfg.hasVelocity && 0 <= cfg.day && AllFaithful(kit, cfg, w) && AtOnce(step, u, now)
    requires Confined(now, CellOf(cfg, u, w), l, g)
    ensures Confined(now, CellOf(cfg, u, Next(kit, cfg, mode, w, step)),
                     TallyAfter(kit, cfg, mode, w, step, u, l), g)
  {
    if Touches(w, step, u) {
      TouchingStep(kit, cfg, mode, w, step, u);
    } else {
      UntouchingStep(kit, cfg, mode, w, step, u);
    }
  }

  ghost predicate ConfinedAfter(kit: Kit, cfg: Config, mode: Audit.Setup, s: State, steps: seq<Step>, u: string,
                                now: int, g: nat)
  {
    Confined(now, CellOf(cfg, u, Run(kit, cfg, mode, s, steps)), TallyOf(kit, cfg, mode, s, steps, u), g)
  }

  lemma OneMoreStaysConfined(kit: Kit, cfg: Config, mode: Audit.Setup, s: State, all: seq<Step>, u: string, now: int,
                             g: nat)
    requires ':' !in cfg.suffix && cfg.hasVelocity && 0 <= cfg.day
    requires all != [] && AtOnce(all[|all| - 1], u, now)
    requires ConfinedAfter(kit, cfg, mode, s, all[..|all| - 1], u, now, g)
    ensures ConfinedAfter(kit, cfg, mode, s, all, u, now, g)
  {
    var p, last := all[..|all| - 1], all[|all| - 1];
    RunFaithful(kit, cfg, mode, s, p);
    StepStaysConfined(kit, cfg, mode, Run(kit, cfg, mode, s, p), last, u, now, TallyOf(kit, cfg, mode, s, p, u), g);
  }

  lemma {:induction false} BurstStaysConfined(kit: Kit, cfg: Config, mode: Audit.Setup, s: State, steps: seq<Step>,
                                              all: seq<Step>, u: string, now: int, g: nat)
    requires ':' !in cfg.suffix && cfg.hasVelocity && 0 <= cfg.day && Extends(steps, all, u, now)
    requires ConfinedAfter(kit, cfg, mode, s, steps, u, now, g)
    ensures ConfinedAfter(kit, cfg, mode, s, all, u, now, g)
    decreases |all|
  {
    if |all| == |steps| {
      assert all == steps;
    } else {
      assert all[|all| - 1] == all[|steps|..][|all| - 1 - |steps|];
      BurstStaysConfined(kit, cfg, mode, s, steps, all[..|all| - 1], u, now, g);
      OneMoreStaysConfined(kit, cfg, mode, s, all, u, now, g);
    }
  }

  lemma ClockIsPast(steps: seq<Step>, at: int, now: int)
    requires UpTo(steps, now) && ClockSeen(steps, at)
    ensures at <= now
  {}

  /** A live counter is a matter of a window that is not negative. */
  lemma LiveNeedsAWindow(kit: Kit, cfg: Config, mode: Audit.Setup, s: State, steps: seq<Step>, u: string,
                         moves: seq<Admission.Step>, now: int)
    requires UpTo(steps, now) && Follows(kit, cfg, mode, s, steps, u, moves)
    requires Velocity.Live(CellOf(cfg, u, Run(kit, cfg, mode, s, steps)), now)
    ensures 0 <= cfg.day && Admission.Run(Limit(cfg), cfg.day, moves).now <= now
  {
    Admission.RunIsSpaced(Limit(cfg), cfg.day, moves);
    ClockIsPast(steps, Admission.Run(Limit(cfg), cfg.day, moves).now, now);
  }

  /** How many calls of `u` have passed in the life `g` of its counter. */
  function PassedIn(kit: Kit, cfg: Config, mode: Audit.Setup, s: State, steps: seq<Step>, u: string, g: nat): nat {
    Admission.PassesOf(Passes(kit, cfg, mode, s, steps, u), g)
  }

  lemma PassedInIsTallied(kit: Kit, cfg: Config, mode: Audit.Setup, s: State, steps: seq<Step>, u: string,
                          moves: seq<Admission.Step>, g: nat)
    requires Follows(kit, cfg, mode, s, steps, u, moves)
    ensures PassedIn(kit, cfg, mode, s, steps, u, g) == Admission.Run(Limit(cfg), cfg.day, moves).passed[g]
  {
    Admission.RunIsSpaced(Limit(cfg), cfg.day, moves);
  }

  lemma ConfinedIsLimited(kit: Kit, cfg: Config, mode: Audit.Setup, s: State, steps: seq<Step>, all: seq<Step>,
                          u: string, now: int, g: nat)
    requires NewCounter(cfg, s, u) && UpTo(steps, now) && Extends(steps, all, u, now)
    requires ConfinedAfter(kit, cfg, mode, s, steps, u, now, g)
    ensures PassedIn(kit, cfg, mode, s, all, u, g) <= Max(Limit(cfg), 0)
  {
    var moves := GateFollowsProtocol(kit, cfg, mode, s, steps, u);
    LiveNeedsAWindow(kit, cfg, mode, s, steps, u, moves, now);
    BurstStaysConfined(kit, cfg, mode, s, steps, all, u, now, g);
    BurstIsTimely(steps, all, u, now);
    var on := GateFollowsProtocol(kit, cfg, mode, s, all, u);
    PassedInIsTallied(kit, cfg, mode, s, all, u, on, g);
    Admission.AdmissionIsBounded(Limit(cfg), cfg.day, on);
  }

  // ---- Every move of the protocol can be made at the gate ----------------

  /** A request of `u` that gets as far as the counter. */
  predicate Admissible(kit: Kit, cfg: Config, s: Signals, r: Request, u: string) {
    r.userId == u && Complaint(kit, r).None? && ReachesVelocity(kit, cfg, s, r)
  }

  lemma {:induction false} FreshNumber(taken: set<Ticket>, u: string) returns (n: nat)
    ensures forall k: nat :: n <= k ==> Ticket(u, k) !in taken
  {
    if taken == {} {
      n := 0;
    } else {
      var t :| t in taken;
      var m := FreshNumber(taken - {t}, u);
      n := if m <= t.n then t.n + 1 else m;
    }
  }

  /** A burst leaves whitelist and engine alone. */
  lemma AtOnceKeepsTable(kit: Kit, cfg: Config, mode: Audit.Setup, w: World, step: Step, u: string, now: int)
    requires AtOnce(step, u, now)
    ensures Next(kit, cfg, mode, w, step).shared.signals.table == w.shared.signals.table
  {
    if step.Advance? && step.ticket in w.calls && Sensing(w.calls[step.ticket].phase) {
      GateIsolation.SensedTouchesOwnCounter(kit, cfg, w.shared.signals, w.calls[step.ticket], step.now);
    }
  }

  /** The gate's account of the run `steps`, and a request with which `u` can go on. */
  ghost predicate Going(kit: Kit, cfg: Config, mode: Audit.Setup, s: State, steps: seq<Step>, u: string, now: int,
                        r: Request, moves: seq<Admission.Step>)
  {
    && cfg.hasVelocity && ':' !in cfg.suffix && UpTo(steps, now)
    && Follows(kit, cfg, mode, s, steps, u, moves)
    && Admissible(kit, cfg, Run(kit, cfg, mode, s, steps).shared.signals, r, u)
  }

  /** The protocol's state, its clock set to `now`. */
  function At(cfg: Config, moves: seq<Admission.Step>, now: int): Admission.State {
    Admission.Run(Limit(cfg), cfg.day, moves).(now := now)
  }

  lemma GoOnUntouched(kit: Kit, cfg: Config, mode: Audit.Setup, s: State, steps: seq<Step>, u: string, now: int,
                      r: Request, moves: seq<Admission.Step>, step: Step)
    requires Going(kit, cfg, mode, s, steps, u, now, r, moves) && AtOnce(step, u, now)
    requires !Touches(Run(kit, cfg, mode, s, steps), step, u)
    ensures Going(kit, cfg, mode, s, steps + [step], u, now, r, moves)
  {
    SnocIsRun(kit, cfg, mode, s, steps, step);
    UpToOneMore(steps, step, u, now);
    AtOnceKeepsTable(kit, cfg, mode, Run(kit, cfg, mode, s, steps), step, u, now);
    FollowUntouched(kit, cfg, mode, s, steps + [step], u, moves);
  }

  lemma GoOnTouching(kit: Kit, cfg: Config, mode: Audit.Setup, s: State, steps: seq<Step>, u: string, now: int,
                     r: Request, moves: seq<Admission.Step>, step: Step) returns (on: seq<Admission.Step>)
    requires Going(kit, cfg, mode, s, steps, u, now, r, moves) && AtOnce(step, u, now)
    requires Touches(Run(kit, cfg, mode, s, steps), step, u)
    ensures Going(kit, cfg, mode, s, steps + [step], u, now, r, on)
    ensures var move := MoveOf(Run(kit, cfg, mode, s, steps), step, u, TallyOf(kit, cfg, mode, s, steps, u));
            Admission.Run(Limit(cfg), cfg.day, on) == Admission.Next(Limit(cfg), cfg.day, At(cfg, moves, now), move)
  {
    SnocIsRun(kit, cfg, mode, s, steps, step);
    UpToOneMore(steps, step, u, now);
    AtOnceKeepsTable(kit, cfg, mode, Run(kit, cfg, mode, s, steps), step, u, now);
    on := FollowTouch(kit, cfg, mode, s, steps + [step], u, moves);
  }

  ghost predicate IsAt(w: World, t: Ticket, r: Request, p: Phase) {
    t in w.calls && w.calls[t].req == r && w.calls[t].phase == p
  }

  lemma NewCallIsFresh(kit: Kit, cfg: Config, mode: Audit.Setup, w: World, n: nat, r: Request, u: string, now: int)
    requires Admissible(kit, cfg, w.shared.signals, r, u) && Ticket(u, n) !in w.calls
    ensures IsAt(Next(kit, cfg, mode, w, Begin(n, r, "", now)), Ticket(u, n), r, Fresh)
  {}

  lemma FreshCallIsListed(kit: Kit, cfg: Config, mode: Audit.Setup, w: World, t: Ticket, r: Request, u: string,
                          now: int)
    requires Admissible(kit, cfg, w.shared.signals, r, u) && IsAt(w, t, r, Fresh)
    ensures IsAt(Next(kit, cfg, mode, w, Advance(t, now, false)), t, r, Listed)
  {}

  /** A new call of `u` comes as far as the counter. */
  lemma MakeListed(kit: Kit, cfg: Config, mode: Audit.Setup, s: State, steps: seq<Step>, u: string, now: int,
                   r: Request, moves: seq<Admission.Step>, n: nat)
    requires Going(kit, cfg, mode, s, steps, u, now, r, moves)
    requires Ticket(u, n) !in Run(kit, cfg, mode, s, steps).calls
    ensures var p := steps + [Begin(n, r, "", now)] + [Advance(Ticket(u, n), now, false)];
            Going(kit, cfg, mode, s, p, u, now, r, moves) && IsAt(Run(kit, cfg, mode, s, p), Ticket(u, n), r, Listed)
  {
    var begin, turn := Begin(n, r, "", now), Advance(Ticket(u, n), now, false);
    var p := steps + [begin];
    GoOnUntouched(kit, cfg, mode, s, steps, u, now, r, moves, begin);
    assert IsAt(Run(kit, cfg, mode, s, p), Ticket(u, n), r, Fresh) by {
      SnocIsRun(kit, cfg, mode, s, steps, begin);
      NewCallIsFresh(kit, cfg, mode, Run(kit, cfg, mode, s, steps), n, r, u, now);
    }
    GoOnUntouched(kit, cfg, mode, s, p, u, now, r, moves, turn);
    assert IsAt(Run(kit, cfg, mode, s, p + [turn]), Ticket(u, n), r, Listed) by {
      SnocIsRun(kit, cfg, mode, s, p, turn);
      FreshCallIsListed(kit, cfg, mode, Run(kit, cfg, mode, s, p), Ticket(u, n), r, u, now);
    }
  }

  lemma ExtendsOneMore(steps: seq<Step>, all: seq<Step>, step: Step, u: string, now: int)
    requires Extends(steps, all, u, now) && AtOnce(step, u, now)
    ensures Extends(steps, all + [step], u, now)
  {
    assert (all + [step])[|steps|..] == all[|steps|..] + [step];
  }

  lemma ExtendsTransitive(a: seq<Step>, b: seq<Step>, c: seq<Step>, u: string, now: int)
    requires Extends(a, b, u, now) && Extends(b, c, u, now)
    ensures Extends(a, c, u, now)
  {
    assert c[|a|..] == b[|a|..] + c[|b|..];
  }

  /** A run that goes on from `steps` by a burst of `u`, and the protocol's run beside it. */
  ghost predicate GoesOn(kit: Kit, cfg: Config, mode: Audit.Setup, s: State, steps: seq<Step>, all: seq<Step>,
                         u: string, now: int, r: Request, on: seq<Admission.Step>)
  {
    Extends(steps, all, u, now) && Going(kit, cfg, mode, s, all, u, now, r, on)
  }

  lemma MakeEnter(kit: Kit, cfg: Config, mode: Audit.Setup, s: State, steps: seq<Step>, u: string, now: int, r: Request,
                  moves: seq<Admission.Step>) returns (all: seq<Step>, on: seq<Admission.Step>)
    requires Going(kit, cfg, mode, s, steps, u, now, r, moves)
    ensures GoesOn(kit, cfg, mode, s, steps, all, u, now, r, on)
    ensures Admission.Run(Limit(cfg), cfg.day, on)
            == Admission.Next(Limit(cfg), cfg.day, At(cfg, moves, now), Admission.Enter)
  {
    var n := FreshNumber(Run(kit, cfg, mode, s, steps).calls.Keys, u);
    var begin, turn := Begin(n, r, "", now), Advance(Ticket(u, n), now, false);
    MakeListed(kit, cfg, mode, s, steps, u, now, r, moves, n);
    var p := steps + [begin] + [turn];
    on := GoOnTouching(kit, cfg, mode, s, p, u, now, r, moves, turn);
    all := p + [turn];
    ExtendsOneMore(steps, steps, begin, u, now);
    ExtendsOneMore(steps, steps + [begin], turn, u, now);
    ExtendsOneMore(steps, p, turn, u, now);
  }

  lemma MakeCompensate(kit: Kit, cfg: Config, mode: Audit.Setup, s: State, steps: seq<Step>, u: string, now: int,
                       r: Request, moves: seq<Admission.Step>, g: nat)
    returns (all: seq<Step>, on: seq<Admission.Step>)
    requires Going(kit, cfg, mode, s, steps, u, now, r, moves) && g in At(cfg, moves, now).over
    ensures GoesOn(kit, cfg, mode, s, steps, all, u, now, r, on)
    ensures Admission.Run(Limit(cfg), cfg.day, on)
            == Admission.Next(Limit(cfg), cfg.day, At(cfg, moves, now), Admission.Compensate(g))
  {
    var l := TallyOf(kit, cfg, mode, s, steps, u);
    assert At(cfg, moves, now).over[g] == |DatedTo(l.owed, g)|;
    var t :| t in DatedTo(l.owed, g);
    assert t in OwingOf(Run(kit, cfg, mode, s, steps).calls, u);
    var turn := Advance(t, now, false);
    on := GoOnTouching(kit, cfg, mode, s, steps, u, now, r, moves, turn);
    all := steps + [turn];
    ExtendsOneMore(steps, steps, turn, u, now);
  }

  /** A no-op of the protocol needs no step, any other move is made. */
  lemma MakeMove(kit: Kit, cfg: Config, mode: Audit.Setup, s: State, steps: seq<Step>, u: string, now: int, r: Request,
                 moves: seq<Admission.Step>, move: Admission.Step) returns (all: seq<Step>, on: seq<Admission.Step>)
    requires Going(kit, cfg, mode, s, steps, u, now, r, moves) && (move.Enter? || move.Compensate?)
    ensures GoesOn(kit, cfg, mode, s, steps, all, u, now, r, on)
    ensures At(cfg, on, now) == Admission.Next(Limit(cfg), cfg.day, At(cfg, moves, now), move)
  {
    if move.Enter? {
      all, on := MakeEnter(kit, cfg, mode, s, steps, u, now, r, moves);
      MovesKeepTheClock(Limit(cfg), cfg.day, At(cfg, moves, now), move);
    } else if move.gen in At(cfg, moves, now).over {
      all, on := MakeCompensate(kit, cfg, mode, s, steps, u, now, r, moves, move.gen);
      MovesKeepTheClock(Limit(cfg), cfg.day, At(cfg, moves, now), move);
    } else {
      all, on := steps, moves;
    }
  }

  /** Whatever the protocol can do in an instant, calls of `u` can do at the gate. */
  lemma {:induction false} GateMakesMoves(kit: Kit, cfg: Config, mode: Audit.Setup, s: State, steps: seq<Step>,
                                          u: string, now: int, r: Request, moves: seq<Admission.Step>,
                                          rest: seq<Admission.Step>)
    returns (all: seq<Step>, on: seq<Admission.Step>)
    requires Going(kit, cfg, mode, s, steps, u, now, r, moves) && AdmissionOverrun.Instant(rest)
    ensures GoesOn(kit, cfg, mode, s, steps, all, u, now, r, on)
    ensures At(cfg, on, now) == AdmissionOverrun.From(Limit(cfg), cfg.day, At(cfg, moves, now), rest)
    decreases |rest|
  {
    if rest == [] {
      all, on := steps, moves;
    } else {
      var first, next := MakeMove(kit, cfg, mode, s, steps, u, now, r, moves, rest[0]);
      all, on := GateMakesMoves(kit, cfg, mode, s, first, u, now, r, next, rest[1..]);
      ExtendsTransitive(steps, first, all, u, now);
    }
  }

  // ---- The exact condition -----------------------------------------------

  /** Some burst of `u` takes its present life past the limit. */
  ghost predicate CanOverrun(kit: Kit, cfg: Config, mode: Audit.Setup, s: State, steps: seq<Step>, u: string,
                             now: int)
  {
    exists all :: Extends(steps, all, u, now)
      && PassedIn(kit, cfg, mode, s, all, u, TallyOf(kit, cfg, mode, s, steps, u).gen) > Max(Limit(cfg), 0)
  }

  lemma ReadyAt(kit: Kit, cfg: Config, mode: Audit.Setup, s: State, steps: seq<Step>, u: string,
                moves: seq<Admission.Step>, now: int)
    requires UpTo(steps, now) && Follows(kit, cfg, mode, s, steps, u, moves) && 1 <= Limit(cfg)
    requires Velocity.Live(CellOf(cfg, u, Run(kit, cfg, mode, s, steps)), now)
    ensures AdmissionOverrun.Ready(Limit(cfg), cfg.day, At(cfg, moves, now))
    ensures 0 <= AdmissionOverrun.Shortfall(At(cfg, moves, now))
  {
    LiveNeedsAWindow(kit, cfg, mode, s, steps, u, moves, now);
    AdmissionOverrun.RunOwnExcess(Limit(cfg), cfg.day, moves);
    Admission.AdmissionIsBounded(Limit(cfg), cfg.day, moves);
  }

  /** A late debt is used: the limit is overrun. */
  lemma LateDebtOverruns(kit: Kit, cfg: Config, mode: Audit.Setup, s: State, steps: seq<Step>, u: string, now: int,
                         r: Request, t: Ticket)
    requires NewCounter(cfg, s, u) && UpTo(steps, now) && 1 <= Limit(cfg)
    requires Velocity.Live(CellOf(cfg, u, Run(kit, cfg, mode, s, steps)), now)
    requires Admissible(kit, cfg, Run(kit, cfg, mode, s, steps).shared.signals, r, u)
    requires var l := TallyOf(kit, cfg, mode, s, steps, u); t in l.owed && l.owed[t] != l.gen
    ensures CanOverrun(kit, cfg, mode, s, steps, u, now)
  {
    var moves := GateFollowsProtocol(kit, cfg, mode, s, steps, u);
    var a, l := At(cfg, moves, now), TallyOf(kit, cfg, mode, s, steps, u);
    ReadyAt(kit, cfg, mode, s, steps, u, moves, now);
    assert t in DatedTo(l.owed, l.owed[t]) && l.owed[t] in a.over;
    AdmissionOverrun.LateMeansEarlierGeneration(a);
    var rest := AdmissionOverrun.Squeeze(Limit(cfg), cfg.day, a);
    var all, on := GateMakesMoves(kit, cfg, mode, s, steps, u, now, r, moves, rest);
    PassedInIsTallied(kit, cfg, mode, s, all, u, on, l.gen);
    assert At(cfg, on, now).passed[l.gen] > Limit(cfg);
  }

  /**
   * The limit at the gate breaks exactly when a rollback is late: while the counter of `u` lives and
   * nothing has strayed into its life, a burst of calls of `u`, who has a request that reaches the
   * counter, can take that life past the limit if and only if the limit is positive and a call of
   * an earlier life still owes its rollback.
   */
  lemma GateOverrunExactlyWhenARollbackIsLate(kit: Kit, cfg: Config, mode: Audit.Setup, s: State, steps: seq<Step>,
                                              u: string, now: int, r: Request)
    requires NewCounter(cfg, s, u) && UpTo(steps, now)
    requires Velocity.Live(CellOf(cfg, u, Run(kit, cfg, mode, s, steps)), now)
    requires Admissible(kit, cfg, Run(kit, cfg, mode, s, steps).shared.signals, r, u)
    requires var l := TallyOf(kit, cfg, mode, s, steps, u); l.strays[l.gen] == 0
    ensures var l := TallyOf(kit, cfg, mode, s, steps, u);
            CanOverrun(kit, cfg, mode, s, steps, u, now)
            <==> 1 <= Limit(cfg) && exists t :: t in l.owed && l.owed[t] != l.gen
  {
    var l := TallyOf(kit, cfg, mode, s, steps, u);
    if 1 <= Limit(cfg) && exists t :: t in l.owed && l.owed[t] != l.gen {
      var t :| t in l.owed && l.owed[t] != l.gen;
      LateDebtOverruns(kit, cfg, mode, s, steps, u, now, r, t);
    } else {
      forall all | Extends(steps, all, u, now)
        ensures PassedIn(kit, cfg, mode, s, all, u, l.gen) <= Max(Limit(cfg), 0)
      {
        WithoutLateDebtLimited(kit, cfg, mode, s, steps, all, u, now);
      }
    }
  }

  lemma WithoutLateDebtLimited(kit: Kit, cfg: Config, mode: Audit.Setup, s: State, steps: seq<Step>, all: seq<Step>,
                               u: string, now: int)
    requires NewCounter(cfg, s, u) && UpTo(steps, now) && Extends(steps, all, u, now)
    requires Velocity.Live(CellOf(cfg, u, Run(kit, cfg, mode, s, steps)), now)
    requires var l := TallyOf(kit, cfg, mode, s, steps, u);
             l.strays[l.gen] == 0 && (Limit(cfg) <= 0 || forall t :: t in l.owed ==> l.owed[t] == l.gen)
    ensures var g := TallyOf(kit, cfg, mode, s, steps, u).gen;
            PassedIn(kit, cfg, mode, s, all, u, g) <= Max(Limit(cfg), 0)
  {
    var g := TallyOf(kit, cfg, mode, s, steps, u).gen;
    if 1 <= Limit(cfg) {
      ConfinedIsLimited(kit, cfg, mode, s, steps, all, u, now, g);
    } else {
      BurstIsTimely(steps, all, u, now);
      var on := GateFollowsProtocol(kit, cfg, mode, s, all, u);
      PassedInIsTallied(kit, cfg, mode, s, all, u, on, g);
      AdmissionOverrun.NothingPassesWithoutALimit(Limit(cfg), cfg.day, on);
    }
  }
}
