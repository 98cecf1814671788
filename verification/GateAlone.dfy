/** A call that nobody interrupts, as a run among runs: it is the service's own evaluation. */
module GateAlone {
  import opened Prelude
  import opened Gate
  import opened GateSteps
  import opened GateInterleaving
  import GateRuns
  import Audit

  /** The world after any steps taken from `w`. */
  function From(kit: Kit, cfg: Config, mode: Audit.Setup, w: World, more: seq<Step>): World
    decreases |more|
  {
    if more == [] then w else From(kit, cfg, mode, Next(kit, cfg, mode, w, more[0]), more[1..])
  }

  lemma RunSnoc(kit: Kit, cfg: Config, mode: Audit.Setup, s: State, steps: seq<Step>, step: Step)
    ensures Run(kit, cfg, mode, s, steps + [step]) == Next(kit, cfg, mode, Run(kit, cfg, mode, s, steps), step)
  {}

  lemma {:induction false} RunThenFrom(kit: Kit, cfg: Config, mode: Audit.Setup, s: State, steps: seq<Step>,
                                       more: seq<Step>)
    ensures Run(kit, cfg, mode, s, steps + more) == From(kit, cfg, mode, Run(kit, cfg, mode, s, steps), more)
    decreases |more|
  {
    if more == [] {
      assert steps + more == steps;
    } else {
      var p := steps + [more[0]];
      assert p + more[1..] == steps + more;
      RunThenFrom(kit, cfg, mode, s, p, more[1..]);
      assert Run(kit, cfg, mode, s, p) == Next(kit, cfg, mode, Run(kit, cfg, mode, s, steps), more[0]) by {
        RunSnoc(kit, cfg, mode, s, steps, more[0]);
      }
    }
  }

  /** One call advancing `n` times on end, at one reading of the clock. */
  function Turns(t: Ticket, now: int, fault: bool, n: nat): seq<Step> {
    if n == 0 then [] else [Advance(t, now, fault)] + Turns(t, now, fault, n - 1)
  }

  /** The call is finished with `out`, and no other call has moved. */
  ghost predicate Ends(v: World, w: World, t: Ticket, s: State, out: Outcome) {
    && v.shared == s && t in v.calls && v.calls[t].phase == Finished(out)
    && v.calls == w.calls[t := v.calls[t]]
  }

  lemma AdvancedProgresses(kit: Kit, cfg: Config, mode: Audit.Setup, s: State, c: Call, now: int, fault: bool)
    requires !c.phase.Finished?
    ensures var p := Advanced(kit, cfg, mode, s, c, now, fault).1.phase;
            Rank(p) < Rank(c.phase) || (Rank(p) == Rank(c.phase) && Unstamped(p) < Unstamped(c.phase))
  {
    if Sensing(c.phase) {
      SensedProgresses(kit, cfg, s.signals, c, now);
    } else {
      EnteredProgresses(kit, cfg, mode, s, c, now, fault);
    }
  }

  /** Advancing often enough settles a call. */
  lemma {:induction false} TurnsSettle(kit: Kit, cfg: Config, mode: Audit.Setup, w: World, t: Ticket, now: int,
                                       fault: bool) returns (n: nat)
    requires t in w.calls
    ensures var (s, out) := Settled(kit, cfg, mode, w.shared, w.calls[t], now, fault);
            Ends(From(kit, cfg, mode, w, Turns(t, now, fault, n)), w, t, s, out)
    decreases Rank(w.calls[t].phase), Unstamped(w.calls[t].phase)
  {
    if w.calls[t].phase.Finished? {
      n := 0;
      assert w.calls == w.calls[t := w.calls[t]];
    } else {
      var v := Next(kit, cfg, mode, w, Advance(t, now, fault));
      SettledAdvances(kit, cfg, mode, w.shared, w.calls[t], now, fault);
      AdvancedProgresses(kit, cfg, mode, w.shared, w.calls[t], now, fault);
      var m := TurnsSettle(kit, cfg, mode, v, t, now, fault);
      n := m + 1;
      assert Turns(t, now, fault, n)[1..] == Turns(t, now, fault, m);
    }
  }

  lemma BegunSettles(kit: Kit, cfg: Config, mode: Audit.Setup, w: World, t: Ticket, r: Request, id: string, now: int,
                     fault: bool) returns (n: nat)
    ensures var v := w.(calls := w.calls[t := Opened(kit, cfg, w.shared.signals, r, id, now)]);
            var (after, out) := Evaluated(kit, cfg, mode, w.shared, r, now, id, fault);
            Ends(From(kit, cfg, mode, v, Turns(t, now, fault, n)), w, t, after, out)
  {
    var c := Opened(kit, cfg, w.shared.signals, r, id, now);
    var (after, out) := Settled(kit, cfg, mode, w.shared, c, now, fault);
    n := TurnsSettle(kit, cfg, mode, w.(calls := w.calls[t := c]), t, now, fault);
    var v := From(kit, cfg, mode, w.(calls := w.calls[t := c]), Turns(t, now, fault, n));
    EndsForOthersToo(v, w, t, c, after, out);
    assert (after, out) == Evaluated(kit, cfg, mode, w.shared, r, now, id, fault) by {
      UninterruptedIsEvaluated(kit, cfg, mode, w.shared, r, id, now, fault);
    }
  }

  lemma EndsForOthersToo(v: World, w: World, t: Ticket, c: Call, s: State, out: Outcome)
    requires Ends(v, w.(calls := w.calls[t := c]), t, s, out)
    ensures Ends(v, w, t, s, out)
  {}

  /**
   * After any interleaving, a call that begins and then advances alone ends in the state and with
   * the outcome of the service's own evaluation, whatever other calls are in flight.
   */
  lemma AloneIsEvaluated(kit: Kit, cfg: Config, mode: Audit.Setup, s: State, steps: seq<Step>, k: nat, r: Request,
                         id: string, now: int, fault: bool) returns (n: nat)
    requires Ticket(r.userId, k) !in Run(kit, cfg, mode, s, steps).calls
    ensures var w, t := Run(kit, cfg, mode, s, steps), Ticket(r.userId, k);
            var v := Run(kit, cfg, mode, s, steps + [Begin(k, r, id, now)] + Turns(t, now, fault, n));
            var (after, out) := Evaluated(kit, cfg, mode, w.shared, r, now, id, fault);
            Ends(v, w, t, after, out)
  {
    var w, t, begun := Run(kit, cfg, mode, s, steps), Ticket(r.userId, k), steps + [Begin(k, r, id, now)];
    assert Run(kit, cfg, mode, s, begun)
        == w.(calls := w.calls[t := Opened(kit, cfg, w.shared.signals, r, id, now)]) by {
      RunSnoc(kit, cfg, mode, s, steps, Begin(k, r, id, now));
    }
    n := BegunSettles(kit, cfg, mode, w, t, r, id, now, fault);
    RunThenFrom(kit, cfg, mode, s, begun, Turns(t, now, fault, n));
  }

  /** After any interleaving, an operation among the calls acts as it does alone, and moves no call. */
  lemma OtherIsTheOperation(kit: Kit, cfg: Config, mode: Audit.Setup, s: State, steps: seq<Step>, op: GateRuns.Op)
    requires !op.Evaluate?
    ensures var w := Run(kit, cfg, mode, s, steps);
            Run(kit, cfg, mode, s, steps + [Other(op)])
            == World(GateRuns.Run(kit, cfg, mode, w.shared, [op]), w.calls)
  {
    RunSnoc(kit, cfg, mode, s, steps, Other(op));
    assert [op][..0] == [];
  }
}
