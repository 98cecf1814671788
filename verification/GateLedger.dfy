/** The metrics ledger while evaluations are in flight. */
module GateLedger {
  import opened Prelude
  import opened Gate
  import opened GateSteps
  import opened GateInterleaving
  import GateRuns
  import Audit

  /** The decision is counted, the evaluation is not yet. */
  predicate Uncounted(p: Phase) {
    p.Noted? || p.Persisted? || p.Emitted? || p.Queued? || p.Closing?
  }

  function UncountedCalls(calls: map<Ticket, Call>): set<Ticket> {
    set t | t in calls && Uncounted(calls[t].phase)
  }

  /** The item is parked, the gauge has not moved yet. */
  predicate Ungauged(p: Phase) {
    p.Queued? && p.parked
  }

  function UngaugedCalls(calls: map<Ticket, Call>): set<Ticket> {
    set t | t in calls && Ungauged(calls[t].phase)
  }

  /** The books balance up to the calls in flight. */
  ghost predicate Balanced(w: World) {
    var l := w.shared.books.ledger;
    && l.allow + l.deny + l.manualReview == l.evaluate + |UncountedCalls(w.calls)|
    && l.pending + |UngaugedCalls(w.calls)| == |w.shared.books.review.order|
  }

  function One(b: bool): int {
    if b then 1 else 0
  }

  /** By how much the decisions run ahead of the evaluations, and the queue ahead of the gauge. */
  function Ahead(b: Books): int {
    b.ledger.allow + b.ledger.deny + b.ledger.manualReview - b.ledger.evaluate
  }

  function Behind(b: Books): int {
    |b.review.order| - b.ledger.pending
  }

  lemma UncountedAfter(calls: map<Ticket, Call>, t: Ticket, c: Call)
    ensures |UncountedCalls(calls[t := c])|
            == |UncountedCalls(calls)| + One(Uncounted(c.phase)) - One(t in calls && Uncounted(calls[t].phase))
  {
    var was := UncountedCalls(calls);
    if Uncounted(c.phase) {
      assert UncountedCalls(calls[t := c]) == was + {t};
    } else {
      assert UncountedCalls(calls[t := c]) == was - {t};
    }
  }

  lemma UngaugedAfter(calls: map<Ticket, Call>, t: Ticket, c: Call)
    ensures |UngaugedCalls(calls[t := c])|
            == |UngaugedCalls(calls)| + One(Ungauged(c.phase)) - One(t in calls && Ungauged(calls[t].phase))
  {
    var was := UngaugedCalls(calls);
    if Ungauged(c.phase) {
      assert UngaugedCalls(calls[t := c]) == was + {t};
    } else {
      assert UngaugedCalls(calls[t := c]) == was - {t};
    }
  }

  // ---- One access --------------------------------------------------------

  lemma SeenDecisionIsKnown(kit: Kit, cfg: Config, seen: Seen, r: Request)
    ensures JudgedSeen(kit, cfg, seen, r).decision in ["allow", "deny", "manual_review"]
  {}

  lemma EnteredBalances(kit: Kit, cfg: Config, mode: Audit.Setup, s: State, c: Call, now: int, fault: bool)
    requires !Sensing(c.phase)
    requires c.phase.Numbered? ==> c.phase.j.decision in ["allow", "deny", "manual_review"]
    ensures var (b, p) := Entered(kit, cfg, mode, s, c, now, fault);
            && Ahead(b) - Ahead(s.books) == One(Uncounted(p)) - One(Uncounted(c.phase))
            && Behind(b) - Behind(s.books) == One(Ungauged(p)) - One(Ungauged(c.phase))
  {}

  lemma SensedBalances(kit: Kit, cfg: Config, s: Signals, c: Call, now: int)
    requires Sensing(c.phase)
    ensures !Uncounted(Sensed(kit, cfg, s, c, now).1.phase) && !Ungauged(Sensed(kit, cfg, s, c, now).1.phase)
  {}

  lemma AdvancedBalances(kit: Kit, cfg: Config, mode: Audit.Setup, s: State, c: Call, now: int, fault: bool)
    requires Faithful(kit, cfg, c)
    ensures var (t, d) := Advanced(kit, cfg, mode, s, c, now, fault);
            && Ahead(t.books) - Ahead(s.books) == One(Uncounted(d.phase)) - One(Uncounted(c.phase))
            && Behind(t.books) - Behind(s.books) == One(Ungauged(d.phase)) - One(Ungauged(c.phase))
  {
    if Sensing(c.phase) {
      SensedBalances(kit, cfg, s.signals, c, now);
    } else {
      SeenDecisionIsKnown(kit, cfg, c.seen, c.req);
      EnteredBalances(kit, cfg, mode, s, c, now, fault);
    }
  }

  lemma OtherBalances(kit: Kit, cfg: Config, mode: Audit.Setup, s: State, op: GateRuns.Op)
    requires !op.Evaluate?
    ensures var b := GateRuns.Next(kit, cfg, mode, s, op).books;
            Ahead(b) == Ahead(s.books) && Behind(b) == Behind(s.books)
  {}

  // ---- Whole runs --------------------------------------------------------

  lemma StepKeepsBalance(kit: Kit, cfg: Config, mode: Audit.Setup, w: World, step: Step)
    requires Balanced(w) && AllFaithful(kit, cfg, w)
    ensures Balanced(Next(kit, cfg, mode, w, step))
  {
    match step
    case Begin(n, r, id, now) =>
      var c := Opened(kit, cfg, w.shared.signals, r, id, now);
      UncountedAfter(w.calls, Ticket(r.userId, n), c);
      UngaugedAfter(w.calls, Ticket(r.userId, n), c);
    case Advance(t, now, fault) =>
      if t in w.calls {
        var (s, c) := Advanced(kit, cfg, mode, w.shared, w.calls[t], now, fault);
        AdvancedBalances(kit, cfg, mode, w.shared, w.calls[t], now, fault);
        UncountedAfter(w.calls, t, c);
        UngaugedAfter(w.calls, t, c);
      }
    case Other(op) =>
      if !op.Evaluate? {
        OtherBalances(kit, cfg, mode, w.shared, op);
      }
  }

  /**
   * Over every interleaving the decisions counted are the evaluations counted plus the calls
   * between the two counts, and the items ever parked are the gauge plus the calls about to move it.
   */
  lemma {:induction false} LedgerBalances(kit: Kit, cfg: Config, mode: Audit.Setup, s: State, steps: seq<Step>)
    requires GateRuns.Reconciled(s.books)
    ensures Balanced(Run(kit, cfg, mode, s, steps))
  {
    if steps == [] {
      assert UncountedCalls(map[]) == {} && UngaugedCalls(map[]) == {};
    } else {
      var p := steps[..|steps| - 1];
      LedgerBalances(kit, cfg, mode, s, p);
      RunFaithful(kit, cfg, mode, s, p);
      StepKeepsBalance(kit, cfg, mode, Run(kit, cfg, mode, s, p), steps[|steps| - 1]);
    }
  }

  ghost predicate AllFinished(calls: map<Ticket, Call>) {
    forall t :: t in calls ==> calls[t].phase.Finished?
  }

  /** Whenever every call has come back, the ledger reconciles. */
  lemma QuietLedgerReconciles(kit: Kit, cfg: Config, mode: Audit.Setup, s: State, steps: seq<Step>)
    requires GateRuns.Reconciled(s.books)
    requires AllFinished(Run(kit, cfg, mode, s, steps).calls)
    ensures GateRuns.Reconciled(Run(kit, cfg, mode, s, steps).shared.books)
  {
    LedgerBalances(kit, cfg, mode, s, steps);
    var w := Run(kit, cfg, mode, s, steps);
    NothingOutstanding(w.calls);
  }

  lemma NothingOutstanding(calls: map<Ticket, Call>)
    requires AllFinished(calls)
    ensures UncountedCalls(calls) == {} && UngaugedCalls(calls) == {}
  {
    assert forall t :: t in calls ==> !Uncounted(calls[t].phase) && !Ungauged(calls[t].phase);
  }

  // ---- Each counter counts its decision ----------------------------------

  /** The decision of a call that has been counted, if it has. */
  function CountedDecision(p: Phase): Option<string> {
    if (Uncounted(p) || p.Finished?) && Settlement(p).Some? then Some(Settlement(p).value.decision) else None
  }

  function CallsDecided(calls: map<Ticket, Call>, d: string): set<Ticket> {
    set t | t in calls && CountedDecision(calls[t].phase) == Some(d)
  }

  function Counter(l: Ledger, d: string): int {
    if d == "allow" then l.allow else if d == "deny" then l.deny else l.manualReview
  }

  lemma DecidedAfter(calls: map<Ticket, Call>, t: Ticket, c: Call, d: string)
    ensures |CallsDecided(calls[t := c], d)|
            == |CallsDecided(calls, d)| + One(CountedDecision(c.phase) == Some(d))
               - One(t in calls && CountedDecision(calls[t].phase) == Some(d))
  {
    DecidedSetAfter(calls, t, c, d);
    assert t in CallsDecided(calls, d) <==> t in calls && CountedDecision(calls[t].phase) == Some(d);
  }

  lemma DecidedSetAfter(calls: map<Ticket, Call>, t: Ticket, c: Call, d: string)
    ensures CallsDecided(calls[t := c], d)
            == CallsDecided(calls, d) - {t} + if CountedDecision(c.phase) == Some(d) then {t} else {}
  {
    var after := calls[t := c];
    forall x ensures x in CallsDecided(after, d) <==>
        if x == t then CountedDecision(c.phase) == Some(d) else x in CallsDecided(calls, d)
    {
      assert x != t ==> (x in after <==> x in calls) && (x in calls ==> after[x] == calls[x]);
    }
  }

  lemma EnteredCounts(kit: Kit, cfg: Config, mode: Audit.Setup, s: State, c: Call, now: int, fault: bool, d: string)
    requires !Sensing(c.phase) && d in ["allow", "deny", "manual_review"]
    ensures var (b, p) := Entered(kit, cfg, mode, s, c, now, fault);
            Counter(b.ledger, d) - Counter(s.books.ledger, d)
            == One(CountedDecision(p) == Some(d)) - One(CountedDecision(c.phase) == Some(d))
  {
    EnteredSettlement(kit, cfg, mode, s, c, now, fault);
  }

  lemma SensedIsUncounted(kit: Kit, cfg: Config, s: Signals, c: Call, now: int)
    requires Sensing(c.phase)
    ensures CountedDecision(Sensed(kit, cfg, s, c, now).1.phase) == None
  {}

  lemma AdvancedCounts(kit: Kit, cfg: Config, mode: Audit.Setup, s: State, c: Call, now: int, fault: bool, d: string)
    requires d in ["allow", "deny", "manual_review"]
    ensures var (t, e) := Advanced(kit, cfg, mode, s, c, now, fault);
            Counter(t.books.ledger, d) - Counter(s.books.ledger, d)
            == One(CountedDecision(e.phase) == Some(d)) - One(CountedDecision(c.phase) == Some(d))
  {
    if Sensing(c.phase) {
      SensedIsUncounted(kit, cfg, s.signals, c, now);
    } else {
      EnteredCounts(kit, cfg, mode, s, c, now, fault, d);
    }
  }

  lemma StepCounts(kit: Kit, cfg: Config, mode: Audit.Setup, w: World, step: Step, d: string)
    requires d in ["allow", "deny", "manual_review"]
    ensures var v := Next(kit, cfg, mode, w, step);
            Counter(v.shared.books.ledger, d) - |CallsDecided(v.calls, d)|
            == Counter(w.shared.books.ledger, d) - |CallsDecided(w.calls, d)|
  {
    match step
    case Begin(n, r, id, now) =>
      DecidedAfter(w.calls, Ticket(r.userId, n), Opened(kit, cfg, w.shared.signals, r, id, now), d);
    case Advance(t, now, fault) =>
      if t in w.calls {
        AdvancedCounts(kit, cfg, mode, w.shared, w.calls[t], now, fault, d);
        DecidedAfter(w.calls, t, Advanced(kit, cfg, mode, w.shared, w.calls[t], now, fault).1, d);
      }
    case Other(op) =>
      if !op.Evaluate? {
        OtherKeepsCounters(kit, cfg, mode, w.shared, op);
      }
  }

  lemma OtherKeepsCounters(kit: Kit, cfg: Config, mode: Audit.Setup, s: State, op: GateRuns.Op)
    requires !op.Evaluate?
    ensures GateRuns.Next(kit, cfg, mode, s, op).books.ledger == s.books.ledger
  {}

  /** Over every interleaving each counter is the number of calls counted with its very decision. */
  lemma {:induction false} CountersCountCalls(kit: Kit, cfg: Config, mode: Audit.Setup, s: State, steps: seq<Step>,
                                              d: string)
    requires d in ["allow", "deny", "manual_review"]
    ensures var w := Run(kit, cfg, mode, s, steps);
            Counter(w.shared.books.ledger, d) == Counter(s.books.ledger, d) + |CallsDecided(w.calls, d)|
  {
    if steps == [] {
      assert CallsDecided(map[], d) == {};
    } else {
      CountersCountCalls(kit, cfg, mode, s, steps[..|steps| - 1], d);
      StepCounts(kit, cfg, mode, Run(kit, cfg, mode, s, steps[..|steps| - 1]), steps[|steps| - 1], d);
    }
  }
}
