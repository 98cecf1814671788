/** Exactly which ids let one user's calls keep another user's item out of the queue. */
module GateParkingIds {
  import opened Prelude
  import opened Gate
  import opened GateSteps
  import opened GateInterleaving
  import opened GateIsolation
  import opened GateParking
  import opened GateAlone
  import GateRuns
  import Caps
  import Whitelist
  import Engine
  import Review
  import Audit

  /** Calls of `u` run under the id `d`, all others under `e`. */
  ghost predicate UsesIds(steps: seq<Step>, u: string, d: string, e: string) {
    forall i :: 0 <= i < |steps| && steps[i].Begin? ==> steps[i].id == if steps[i].req.userId == u then d else e
  }

  /** The setting of the isolation theorem. */
  ghost predicate Shared(cfg: Config, s: State, steps: seq<Step>, u: string, d: string, e: string) {
    && ':' !in cfg.suffix && GateRuns.Filed(s.signals.table) && ItemsFiled(s.books.review)
    && NeighboursSeparate(steps, u) && UsesIds(steps, u, d, e)
  }

  /** No interleaving of calls under `e` ever changes anything about a call under `d`. */
  ghost predicate NeverDisturbs(e: string, d: string) {
    forall kit: Kit, cfg: Config, mode: Audit.Setup, s: State, steps: seq<Step>, u: string ::
      Shared(cfg, s, steps, u, d, e) ==>
        EqualCalls(u, Run(kit, cfg, mode, s, steps).calls, Run(kit, cfg, mode, s, Keep(steps, u)).calls)
  }

  // ---- The empty id is never parked --------------------------------------

  predicate Unparked(c: Call) {
    c.id == "" && c.phase.Queued? ==> !c.phase.parked
  }

  lemma AdvancedUnparked(kit: Kit, cfg: Config, mode: Audit.Setup, s: State, c: Call, now: int, fault: bool)
    ensures Unparked(Advanced(kit, cfg, mode, s, c, now, fault).1)
  {}

  /** Calls of `u` carry the id `d`, and an empty id is never marked as parked. */
  ghost predicate Marked(calls: map<Ticket, Call>, u: string, d: string) {
    forall t :: t in calls ==> Unparked(calls[t]) && (t.user == u ==> calls[t].id == d)
  }

  lemma {:induction false} RunMarked(kit: Kit, cfg: Config, mode: Audit.Setup, s: State, steps: seq<Step>, u: string,
                                     d: string)
    requires forall i :: 0 <= i < |steps| && steps[i].Begin? && steps[i].req.userId == u ==> steps[i].id == d
    ensures Marked(Run(kit, cfg, mode, s, steps).calls, u, d)
  {
    if steps != [] {
      var p, step := steps[..|steps| - 1], steps[|steps| - 1];
      RunMarked(kit, cfg, mode, s, p, u, d);
      var w, v := Run(kit, cfg, mode, s, p), Run(kit, cfg, mode, s, steps);
      forall t | t in v.calls ensures Unparked(v.calls[t]) && (t.user == u ==> v.calls[t].id == d) {
        CallsAfter(kit, cfg, mode, w, step, t);
        if t in w.calls && step.Advance? {
          AdvancedUnparked(kit, cfg, mode, w.shared, w.calls[t], step.now, step.fault);
          AdvancedKeepsRequest(kit, cfg, mode, w.shared, w.calls[t], step.now, step.fault);
        }
      }
    }
  }

  lemma {:induction false} KeptSteps(steps: seq<Step>, u: string)
    ensures forall x :: x in Keep(steps, u) ==> x in steps
  {
    if steps != [] {
      KeptSteps(steps[..|steps| - 1], u);
    }
  }

  lemma EmptyIdIsUndisturbed(kit: Kit, cfg: Config, mode: Audit.Setup, s: State, steps: seq<Step>, u: string, e: string)
    requires Shared(cfg, s, steps, u, "", e)
    ensures EqualCalls(u, Run(kit, cfg, mode, s, steps).calls, Run(kit, cfg, mode, s, Keep(steps, u)).calls)
  {
    var kept := Keep(steps, u);
    InterleavedIsolation(kit, cfg, mode, s, steps, u);
    KeptSteps(steps, u);
    assert forall i :: 0 <= i < |kept| ==> kept[i] in steps;
    RunMarked(kit, cfg, mode, s, steps, u, "");
    RunMarked(kit, cfg, mode, s, kept, u, "");
    var a, b := Run(kit, cfg, mode, s, steps).calls, Run(kit, cfg, mode, s, kept).calls;
    ShownAreEqual(a, b, u);
  }

  lemma ShownAreEqual(a: map<Ticket, Call>, b: map<Ticket, Call>, u: string)
    requires SameCalls(u, a, b) && Marked(a, u, "") && Marked(b, u, "")
    ensures EqualCalls(u, a, b)
  {
    forall n ensures Lookup(a, Ticket(u, n)) == Lookup(b, Ticket(u, n)) {
      assert Shown(Lookup(a, Ticket(u, n))) == Shown(Lookup(b, Ticket(u, n)));
    }
  }

  lemma DifferentIdsAreUndisturbed(kit: Kit, cfg: Config, mode: Audit.Setup, s: State, steps: seq<Step>, u: string,
                                   d: string, e: string)
    requires Shared(cfg, s, steps, u, d, e) && d != e
    ensures EqualCalls(u, Run(kit, cfg, mode, s, steps).calls, Run(kit, cfg, mode, s, Keep(steps, u)).calls)
  {
    assert OwnIds(steps, u, {d});
    ParkingIsolation(kit, cfg, mode, s, steps, u, {d});
  }

  // ---- A shared id disturbs ----------------------------------------------

  /** A request that ends in manual_review for want of a policy, with nothing but the queue in play. */
  ghost predicate Reviewed(kit: Kit, cfg: Config, s: Signals, r: Request) {
    && Complaint(kit, r).None? && AuthFailure(kit, cfg, r).None?
    && Whitelist.IsWhitelisted(s.table, Target(r)) && !cfg.hasVelocity
    && CapClear(kit, cfg, r) && Engine.InForce(kit.opa, s.engine).None?
    && !cfg.hasAudit && cfg.hasReview
  }

  /** The phase such a call is in after `n` accesses, up to the one before it is parked. */
  predicate Nth(p: Phase, n: nat) {
    match n
    case 0 => p.Fresh?
    case 1 => p.Listed?
    case 2 => p.Passed?
    case 3 => p.Decided? && p.j.decision == "manual_review"
    case 4 => p.Numbered? && p.j.decision == "manual_review"
    case 5 => p.Noted? && p.j.decision == "manual_review"
    case 6 => p.Emitted? && p.j.decision == "manual_review"
    case _ => p.Queued?
  }

  lemma NextPhase(kit: Kit, cfg: Config, mode: Audit.Setup, s: State, c: Call, n: nat)
    requires Reviewed(kit, cfg, s.signals, c.req) && n < 6 && Nth(c.phase, n)
    ensures var (t, d) := Advanced(kit, cfg, mode, s, c, 0, false);
            && t.signals == s.signals && t.books.review == s.books.review
            && Nth(d.phase, n + 1) && d.req == c.req && d.id == c.id
  {}

  lemma LastPhase(kit: Kit, cfg: Config, mode: Audit.Setup, s: State, c: Call)
    requires Reviewed(kit, cfg, s.signals, c.req) && Nth(c.phase, 6)
    ensures var (t, d) := Advanced(kit, cfg, mode, s, c, 0, false);
            && t.signals == s.signals && t.books.review == Review.Parking(s.books.review, c.id, "", 0).0
            && d.phase.Queued? && d.phase.parked == Review.Parking(s.books.review, c.id, "", 0).1.Ok?
  {}

  /** The call has been brought to its parking: parked if and only if its id is new. */
  ghost predicate Arrived(v: World, w: World, t: Ticket, id: string) {
    && v.shared.signals == w.shared.signals
    && v.shared.books.review == Review.Parking(w.shared.books.review, id, "", 0).0
    && t in v.calls && v.calls == w.calls[t := v.calls[t]] && v.calls[t].phase.Queued?
    && v.calls[t].phase.parked == Review.Parking(w.shared.books.review, id, "", 0).1.Ok?
  }

  /** An advance that leaves signals and queue alone delays the arrival and changes nothing about it. */
  lemma ArrivalDelayed(v: World, w: World, t: Ticket, id: string, x: World)
    requires Arrived(x, v, t, id) && t in v.calls && v.calls == w.calls[t := v.calls[t]]
    requires v.shared.signals == w.shared.signals && v.shared.books.review == w.shared.books.review
    ensures Arrived(x, w, t, id)
  {}

  lemma {:induction false} ArriveFrom(kit: Kit, cfg: Config, mode: Audit.Setup, w: World, t: Ticket, n: nat)
    requires t in w.calls && Reviewed(kit, cfg, w.shared.signals, w.calls[t].req) && n <= 6
    requires Nth(w.calls[t].phase, n)
    ensures Arrived(From(kit, cfg, mode, w, Turns(t, 0, false, 7 - n)), w, t, w.calls[t].id)
    decreases 7 - n
  {
    var v := Next(kit, cfg, mode, w, Advance(t, 0, false));
    var rest := Turns(t, 0, false, 6 - n);
    assert Turns(t, 0, false, 7 - n)[1..] == rest;
    assert From(kit, cfg, mode, w, Turns(t, 0, false, 7 - n)) == From(kit, cfg, mode, v, rest);
    if n < 6 {
      NextPhase(kit, cfg, mode, w.shared, w.calls[t], n);
      ArriveFrom(kit, cfg, mode, v, t, n + 1);
      ArrivalDelayed(v, w, t, w.calls[t].id, From(kit, cfg, mode, v, rest));
    } else {
      LastPhase(kit, cfg, mode, w.shared, w.calls[t]);
      assert rest == [];
    }
  }

  /** A call begins and is brought to its parking. */
  function OneCall(r: Request, id: string): seq<Step> {
    [Begin(0, r, id, 0)] + Turns(Ticket(r.userId, 0), 0, false, 7)
  }

  lemma OneCallArrives(kit: Kit, cfg: Config, mode: Audit.Setup, w: World, r: Request, id: string)
    requires Ticket(r.userId, 0) !in w.calls && Reviewed(kit, cfg, w.shared.signals, r)
    ensures Arrived(From(kit, cfg, mode, w, OneCall(r, id)), w, Ticket(r.userId, 0), id)
  {
    var t, c := Ticket(r.userId, 0), Opened(kit, cfg, w.shared.signals, r, id, 0);
    var v := w.(calls := w.calls[t := c]);
    assert Next(kit, cfg, mode, w, Begin(0, r, id, 0)) == v;
    assert OneCall(r, id)[1..] == Turns(t, 0, false, 7);
    ArriveFrom(kit, cfg, mode, v, t, 0);
    ArrivalDelayed(v, w, t, id, From(kit, cfg, mode, v, Turns(t, 0, false, 7)));
  }

  lemma {:induction false} TurnsAreAdvances(t: Ticket, now: int, fault: bool, n: nat)
    ensures forall x :: x in Turns(t, now, fault, n) ==> x == Advance(t, now, fault)
  {
    if n > 0 {
      TurnsAreAdvances(t, now, fault, n - 1);
    }
  }

  lemma OneCallConcerns(r: Request, id: string, u: string)
    ensures forall x :: x in OneCall(r, id) ==>
              !x.Other? && (Concerns(x, u) <==> r.userId == u) && (x.Begin? ==> x == Begin(0, r, id, 0))
  {
    TurnsAreAdvances(Ticket(r.userId, 0), 0, false, 7);
  }

  lemma {:induction false} KeepForeign(a: seq<Step>, u: string)
    requires forall x :: x in a ==> !Concerns(x, u)
    ensures Keep(a, u) == []
  {
    if a != [] {
      KeepForeign(a[..|a| - 1], u);
    }
  }

  lemma {:induction false} KeepOwn(a: seq<Step>, b: seq<Step>, u: string)
    requires (forall x :: x in a ==> !Concerns(x, u)) && (forall x :: x in b ==> Concerns(x, u))
    ensures Keep(a + b, u) == b
  {
    if b == [] {
      assert a + b == a;
      KeepForeign(a, u);
    } else {
      var n := |b| - 1;
      assert (a + b)[..|a + b| - 1] == a + b[..n] && b[..n] + [b[n]] == b;
      KeepOwn(a, b[..n], u);
    }
  }

  /** On a new gate a call under a proper id is parked. */
  lemma FirstCallIsParked(kit: Kit, cfg: Config, mode: Audit.Setup, s: State, r: Request, d: string)
    requires Reviewed(kit, cfg, s.signals, r) && s.books.review == Review.EMPTY && d != ""
    ensures var w, t := Run(kit, cfg, mode, s, OneCall(r, d)), Ticket(r.userId, 0);
            && w.shared.signals == s.signals && w.calls.Keys == {t} && d in w.shared.books.review.mem
            && w.calls[t].phase.Queued? && w.calls[t].phase.parked
  {
    var start := World(s, map[]);
    assert Run(kit, cfg, mode, s, []) == start && [] + OneCall(r, d) == OneCall(r, d);
    RunThenFrom(kit, cfg, mode, s, [], OneCall(r, d));
    OneCallArrives(kit, cfg, mode, start, r, d);
  }

  /** Two calls under one id: the second is not parked, though alone it would be. */
  lemma SecondCallIsNotParked(kit: Kit, cfg: Config, mode: Audit.Setup, s: State, r: Request, q: Request, d: string)
    requires Reviewed(kit, cfg, s.signals, r) && Reviewed(kit, cfg, s.signals, q) && r.userId != q.userId
    requires s.books.review == Review.EMPTY && d != ""
    ensures var w, t := Run(kit, cfg, mode, s, OneCall(q, d) + OneCall(r, d)), Ticket(r.userId, 0);
            t in w.calls && w.calls[t].phase.Queued? && !w.calls[t].phase.parked
  {
    FirstCallIsParked(kit, cfg, mode, s, q, d);
    RunThenFrom(kit, cfg, mode, s, OneCall(q, d), OneCall(r, d));
    OneCallArrives(kit, cfg, mode, Run(kit, cfg, mode, s, OneCall(q, d)), r, d);
  }

  lemma TwoCallsKeep(r: Request, q: Request, d: string)
    requires r.userId != q.userId
    ensures Keep(OneCall(q, d) + OneCall(r, d), r.userId) == OneCall(r, d)
  {
    OneCallConcerns(r, d, r.userId);
    OneCallConcerns(q, d, r.userId);
    KeepOwn(OneCall(q, d), OneCall(r, d), r.userId);
  }

  lemma TwoCallsShare(r: Request, q: Request, d: string)
    ensures var steps := OneCall(q, d) + OneCall(r, d);
            NeighboursSeparate(steps, r.userId) && UsesIds(steps, r.userId, d, d)
  {
    var first, second := OneCall(q, d), OneCall(r, d);
    OneCallConcerns(r, d, r.userId);
    OneCallConcerns(q, d, r.userId);
    var steps := first + second;
    assert forall i :: 0 <= i < |steps| ==> steps[i] in first || steps[i] in second;
  }

  lemma TwoCallsDisturb(kit: Kit, cfg: Config, s: State, r: Request, q: Request, d: string)
    requires Reviewed(kit, cfg, s.signals, r) && Reviewed(kit, cfg, s.signals, q) && r.userId != q.userId
    requires ':' !in cfg.suffix && GateRuns.Filed(s.signals.table) && s.books.review == Review.EMPTY && d != ""
    ensures !NeverDisturbs(d, d)
  {
    var mode, u := Audit.Setup(false, false, false, 0), r.userId;
    var steps, alone := OneCall(q, d) + OneCall(r, d), OneCall(r, d);
    TwoCallsShare(r, q, d);
    TwoCallsKeep(r, q, d);
    assert Shared(cfg, s, steps, u, d, d);
    SecondCallIsNotParked(kit, cfg, mode, s, r, q, d);
    FirstCallIsParked(kit, cfg, mode, s, r, d);
    var a, b := Run(kit, cfg, mode, s, steps).calls, Run(kit, cfg, mode, s, Keep(steps, u)).calls;
    assert Lookup(a, Ticket(u, 0)) != Lookup(b, Ticket(u, 0));
    assert !EqualCalls(u, a, b);
  }

  // ---- Such requests exist -----------------------------------------------

  const NO_OPA := Engine.Opa(_ => false, (_, _) => None)
  const NO_SIGNER := Audit.Signer(_ => None, _ => "", (_, _) => false)
  const PLAIN_KIT := Kit(x => "x", x => "USD", x => Some(0.0), _ => "", NO_SIGNER, NO_OPA)
  const QUEUE_ONLY := Config(Caps.Config(0.0, 0.0, 0.0, []), 0, "1d", true, false, false, true)

  function Ask(user: string): Request {
    Request(user, "1", "USD", "", "", "addr", "chain", "", 0.0, "", "", true, 1.0, true)
  }

  function Listing(user: string): Whitelist.Entry {
    Whitelist.Entry(Target(Ask(user)), "", Whitelist.Verified, Some(0), 0)
  }

  function Start(): State {
    var table := map[Whitelist.Key(Target(Ask("u"))) := Listing("u")][Whitelist.Key(Target(Ask("v"))) := Listing("v")];
    State(Signals(map[], table, Engine.State(Engine.Bundle("", "", map[], map[]), None)),
          Books(Audit.EMPTY, Review.EMPTY, Ledger(0, 0, 0, 0, 0)))
  }

  lemma AskIsReviewed(user: string)
    requires user == "u" || user == "v"
    ensures Reviewed(PLAIN_KIT, QUEUE_ONLY, Start().signals, Ask(user))
  {
    assert Whitelist.Key(Target(Ask("u")))[0] == 'u' && Whitelist.Key(Target(Ask("v")))[0] == 'v';
  }

  /**
   * Parking is undisturbed by exactly the other ids: calls under `e` never change a call under `d`,
   * over every interleaving of every gate, if and only if `d` is empty or differs from `e`.
   */
  lemma DisturbsExactlyUnderOneId(e: string, d: string)
    ensures NeverDisturbs(e, d) <==> d == "" || d != e
  {
    if d == "" || d != e {
      forall kit: Kit, cfg: Config, mode: Audit.Setup, s: State, steps: seq<Step>, u: string
        | Shared(cfg, s, steps, u, d, e)
        ensures EqualCalls(u, Run(kit, cfg, mode, s, steps).calls, Run(kit, cfg, mode, s, Keep(steps, u)).calls)
      {
        if d == "" {
          EmptyIdIsUndisturbed(kit, cfg, mode, s, steps, u, e);
        } else {
          DifferentIdsAreUndisturbed(kit, cfg, mode, s, steps, u, d, e);
        }
      }
    } else {
      OneIdDisturbs(d);
    }
  }

  lemma OneIdDisturbs(d: string)
    requires d != ""
    ensures !NeverDisturbs(d, d)
  {
    AskIsReviewed("u");
    AskIsReviewed("v");
    StartIsFiled();
    TwoCallsDisturb(PLAIN_KIT, QUEUE_ONLY, Start(), Ask("u"), Ask("v"), d);
  }

  lemma StartIsFiled()
    ensures GateRuns.Filed(Start().signals.table) && ItemsFiled(Start().books.review)
  {}
}
