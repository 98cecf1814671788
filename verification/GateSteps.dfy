/** One evaluation cut at every access to shared state, between any two of which others may run. */
module GateSteps {
  import opened Prelude
  import opened Gate
  import Velocity
  import Whitelist
  import Engine
  import Audit
  import Review

  /** How far a call has come. Each phase ends in the access to shared state that comes next. */
  datatype Phase =
    | Fresh                                                       // next: read the whitelist
    | Listed                                                      // next: increment the counter
    | Owing                                                       // over the limit; next: roll back
    | Passed                                                      // next: ask the engine
    | Stamping(answer: Engine.Answer, stamped: seq<AppliedRule>)  // next: read the version for one rule
    | Decided(j: Judgement)                                       // next: read the version for the response
    | Numbered(j: Judgement, version: string)                     // next: count the decision
    | Noted(j: Judgement, version: string)                        // next: sign, and persist when synchronous
    | Persisted(j: Judgement, version: string, rec: Audit.Record) // next: offer to the queue
    | Emitted(j: Judgement, version: string)                      // next: park a manual_review
    | Queued(j: Judgement, version: string, parked: bool)         // next: move the gauge if it was parked
    | Closing(out: Outcome)                                       // next: count the evaluation
    | Finished(out: Outcome)

  /** What the call has seen of the signals, each part as of its latest look at it. */
  datatype Seen = Seen(listed: bool, cell: Velocity.Cell, at: int, engine: Engine.State)

  datatype Call = Call(req: Request, id: string, seen: Seen, phase: Phase)

  function Observed(cfg: Config, s: Signals, r: Request, now: int): Seen {
    Seen(Whitelist.IsWhitelisted(s.table, Target(r)), Lookup(s.cells, CounterKey(cfg, r.userId)), now, s.engine)
  }

  function Opened(kit: Kit, cfg: Config, s: Signals, r: Request, id: string, now: int): Call {
    var complaint := Complaint(kit, r);
    Call(r, id, Observed(cfg, s, r, now), if complaint.Some? then Finished(Invalid(complaint.value)) else Fresh)
  }

  // ---- Stages one to five, access by access ------------------------------

  function Reading(kit: Kit, cfg: Config, s: Signals, c: Call, now: int): Call {
    var refusal := AuthFailure(kit, cfg, c.req);
    if refusal.Some? then c.(phase := Decided(Judgement("deny", [refusal.value], [], 1.0)))
    else
      var seen := Observed(cfg, s, c.req, now);
      c.(seen := seen,
         phase := if seen.listed then Listed else Decided(Judgement("deny", ["dest_not_whitelisted"], [], 0.5)))
  }

  function Counting(cfg: Config, s: Signals, c: Call, now: int): (Signals, Call) {
    if !cfg.hasVelocity then (s, c.(phase := Passed))
    else
      var k := CounterKey(cfg, c.req.userId);
      var e := Velocity.Bump(Lookup(s.cells, k), cfg.day, now);
      (s.(cells := s.cells[k := e]),
       c.(seen := Seen(c.seen.listed, Lookup(s.cells, k), now, s.engine),
          phase := if e.value > Limit(cfg) then Owing else Passed))
  }

  function TakingBack(cfg: Config, s: Signals, c: Call, now: int): (Signals, Call) {
    var k := CounterKey(cfg, c.req.userId);
    (s.(cells := Write(s.cells, k, Velocity.Undo(Lookup(s.cells, k), now))),
     c.(phase := Decided(Judgement("deny", ["whitelisted", "velocity_daily_exceeded"], [], 0.5))))
  }

  function ReasonsSoFar(cfg: Config): seq<string> {
    ["whitelisted"] + if cfg.hasVelocity then ["velocity_daily_ok"] else []
  }

  function CapRules(kit: Kit, cfg: Config, r: Request): seq<AppliedRule> {
    var cap := CapOutcome(kit, cfg, r);
    if cap.rule.Some? then [AppliedRule(cap.rule.value.id, "")] else []
  }

  function Asking(kit: Kit, cfg: Config, s: Signals, c: Call): Call {
    var cap, rules := CapOutcome(kit, cfg, c.req), CapRules(kit, cfg, c.req);
    if cap.exceeded then c.(phase := Decided(Judgement(cap.decision, ReasonsSoFar(cfg) + [cap.reason], rules, 0.5)))
    else if cap.nearCap then
      c.(phase := Decided(Judgement("manual_review", ReasonsSoFar(cfg) + [cap.reason], rules, 0.3)))
    else
      var a := Engine.Answered(kit.opa, s.engine, InputOf(kit, cfg, c.req, c.seen.listed));
      c.(seen := c.seen.(engine := s.engine),
         phase := if a.Some? then Stamping(a.value, [])
                  else Decided(Judgement("manual_review", ReasonsSoFar(cfg) + ["engine_error"], rules, 0.5)))
  }

  function Stamped(kit: Kit, cfg: Config, s: Signals, r: Request, a: Engine.Answer, done: seq<AppliedRule>): Phase {
    if |done| < |a.rules| then Stamping(a, done + [AppliedRule(a.rules[|done|], s.engine.bundle.version)])
    else Decided(Judgement(a.decision, ReasonsSoFar(cfg), CapRules(kit, cfg, r) + done, a.score))
  }

  predicate Sensing(p: Phase) {
    p.Fresh? || p.Listed? || p.Owing? || p.Passed? || p.Stamping?
  }

  function Sensed(kit: Kit, cfg: Config, s: Signals, c: Call, now: int): (Signals, Call)
    requires Sensing(c.phase)
  {
    match c.phase
    case Fresh => (s, Reading(kit, cfg, s, c, now))
    case Listed => Counting(cfg, s, c, now)
    case Owing => TakingBack(cfg, s, c, now)
    case Passed => (s, Asking(kit, cfg, s, c))
    case Stamping(a, done) => (s, c.(phase := Stamped(kit, cfg, s, c.req, a, done)))
  }

  // ---- Finalisation, access by access ------------------------------------

  /** Signing, and in the synchronous mode the write to the store. */
  function Persisting(kit: Kit, cfg: Config, mode: Audit.Setup, b: Books, c: Call, j: Judgement, version: string,
                      now: int, fault: bool): (Books, Phase)
  {
    var resp := ResponseOf(j, version, c.id);
    var rec := Audit.Signed(kit.signer, Audit.Dated(RecordOf(kit, c.req, j, version, c.id), now));
    if !cfg.hasAudit then (b, Emitted(j, version))
    else if rec.None? then (b, Closing(AuditError(resp)))
    else if !mode.sync || !mode.hasStore then (b, Persisted(j, version, rec.value))
    else
      var p := Audit.Stored(b.pipe, rec.value, fault);
      if p.None? then (b.(pipe := Audit.Dropping(b.pipe)), Closing(AuditError(resp)))
      else (b.(pipe := p.value), Persisted(j, version, rec.value))
  }

  function ParkingStep(cfg: Config, b: Books, c: Call, j: Judgement, version: string, now: int): (Books, Phase) {
    if j.decision != "manual_review" || !cfg.hasReview then (b, Closing(Done(ResponseOf(j, version, c.id))))
    else
      var (q, r) := Review.Parking(b.review, c.id, "", now);
      (b.(review := q), Queued(j, version, r.Ok?))
  }

  function Gauged(b: Books, parked: bool): Books {
    if parked then b.(ledger := b.ledger.(pending := b.ledger.pending + 1)) else b
  }

  function Entered(kit: Kit, cfg: Config, mode: Audit.Setup, s: State, c: Call, now: int, fault: bool): (Books, Phase)
    requires !Sensing(c.phase)
  {
    var b := s.books;
    match c.phase
    case Decided(j) => (b, Numbered(j, s.signals.engine.bundle.version))
    case Numbered(j, v) => (b.(ledger := Tallied(b.ledger, j.decision)), Noted(j, v))
    case Noted(j, v) => Persisting(kit, cfg, mode, b, c, j, v, now, fault)
    case Persisted(j, v, rec) => (b.(pipe := Audit.Offered(b.pipe, rec, mode.capacity).0), Emitted(j, v))
    case Emitted(j, v) => ParkingStep(cfg, b, c, j, v, now)
    case Queued(j, v, parked) => (Gauged(b, parked), Closing(Done(ResponseOf(j, v, c.id))))
    case Closing(out) => (b.(ledger := b.ledger.(evaluate := b.ledger.evaluate + 1)), Finished(out))
    case Finished(_) => (b, c.phase)
  }

  /** The next access of a call, under the clock and the store's mood of that moment. */
  function Advanced(kit: Kit, cfg: Config, mode: Audit.Setup, s: State, c: Call, now: int, fault: bool): (State, Call) {
    if Sensing(c.phase) then
      var (t, d) := Sensed(kit, cfg, s.signals, c, now);
      (s.(signals := t), d)
    else
      var (b, p) := Entered(kit, cfg, mode, s, c, now, fault);
      (s.(books := b), c.(phase := p))
  }

  // ---- Uninterrupted, the steps are the service's own evaluation ---------

  function Rank(p: Phase): nat {
    match p
    case Fresh => 12
    case Listed => 11
    case Owing => 10
    case Passed => 10
    case Stamping(_, _) => 9
    case Decided(_) => 8
    case Numbered(_, _) => 7
    case Noted(_, _) => 6
    case Persisted(_, _, _) => 5
    case Emitted(_, _) => 4
    case Queued(_, _, _) => 3
    case Closing(_) => 2
    case Finished(_) => 1
  }

  function Unstamped(p: Phase): nat {
    if p.Stamping? && |p.stamped| < |p.answer.rules| then |p.answer.rules| - |p.stamped| else 0
  }

  lemma SensedProgresses(kit: Kit, cfg: Config, s: Signals, c: Call, now: int)
    requires Sensing(c.phase)
    ensures var p := Sensed(kit, cfg, s, c, now).1.phase;
            Rank(p) < Rank(c.phase) || (Rank(p) == Rank(c.phase) && Unstamped(p) < Unstamped(c.phase))
  {}

  lemma EnteredProgresses(kit: Kit, cfg: Config, mode: Audit.Setup, s: State, c: Call, now: int, fault: bool)
    requires !Sensing(c.phase) && !c.phase.Finished?
    ensures Rank(Entered(kit, cfg, mode, s, c, now, fault).1) < Rank(c.phase)
  {}

  /** A call that nothing interrupts, at one reading of the clock. */
  function Settled(kit: Kit, cfg: Config, mode: Audit.Setup, s: State, c: Call, now: int, fault: bool): (State, Outcome)
    decreases Rank(c.phase), Unstamped(c.phase)
  {
    if c.phase.Finished? then (s, c.phase.out)
    else if Sensing(c.phase) then
      var (t, d) := Sensed(kit, cfg, s.signals, c, now);
      SensedProgresses(kit, cfg, s.signals, c, now);
      Settled(kit, cfg, mode, s.(signals := t), d, now, fault)
    else
      var (b, p) := Entered(kit, cfg, mode, s, c, now, fault);
      EnteredProgresses(kit, cfg, mode, s, c, now, fault);
      Settled(kit, cfg, mode, s.(books := b), c.(phase := p), now, fault)
  }

  /** Settling is advancing until finished. */
  lemma SettledAdvances(kit: Kit, cfg: Config, mode: Audit.Setup, s: State, c: Call, now: int, fault: bool)
    requires !c.phase.Finished?
    ensures var (t, d) := Advanced(kit, cfg, mode, s, c, now, fault);
            Settled(kit, cfg, mode, s, c, now, fault) == Settled(kit, cfg, mode, t, d, now, fault)
  {}

  function OneMoreEvaluation(b: Books): Books {
    b.(ledger := b.ledger.(evaluate := b.ledger.evaluate + 1))
  }

  lemma SettledClosing(kit: Kit, cfg: Config, mode: Audit.Setup, s: State, c: Call, now: int, fault: bool)
    requires c.phase.Closing?
    ensures Settled(kit, cfg, mode, s, c, now, fault) == (s.(books := OneMoreEvaluation(s.books)), c.phase.out)
  {}

  lemma SettledQueued(kit: Kit, cfg: Config, mode: Audit.Setup, s: State, c: Call, now: int, fault: bool)
    requires c.phase.Queued?
    ensures Settled(kit, cfg, mode, s, c, now, fault)
            == (s.(books := OneMoreEvaluation(Gauged(s.books, c.phase.parked))),
                Done(ResponseOf(c.phase.j, c.phase.version, c.id)))
  {
    var (b, p) := Entered(kit, cfg, mode, s, c, now, fault);
    SettledClosing(kit, cfg, mode, s.(books := b), c.(phase := p), now, fault);
  }

  lemma SettledEmitted(kit: Kit, cfg: Config, mode: Audit.Setup, s: State, c: Call, now: int, fault: bool)
    requires c.phase.Emitted?
    ensures Settled(kit, cfg, mode, s, c, now, fault)
            == (s.(books := OneMoreEvaluation(Parked(cfg, s.books, c.phase.j.decision, c.id, now))),
                Done(ResponseOf(c.phase.j, c.phase.version, c.id)))
  {
    var (b, p) := Entered(kit, cfg, mode, s, c, now, fault);
    if p.Queued? {
      SettledQueued(kit, cfg, mode, s.(books := b), c.(phase := p), now, fault);
    } else {
      SettledClosing(kit, cfg, mode, s.(books := b), c.(phase := p), now, fault);
    }
  }

  lemma SettledPersisted(kit: Kit, cfg: Config, mode: Audit.Setup, s: State, c: Call, now: int, fault: bool)
    requires c.phase.Persisted?
    ensures var b := s.books.(pipe := Audit.Offered(s.books.pipe, c.phase.rec, mode.capacity).0);
            Settled(kit, cfg, mode, s, c, now, fault)
            == (s.(books := OneMoreEvaluation(Parked(cfg, b, c.phase.j.decision, c.id, now))),
                Done(ResponseOf(c.phase.j, c.phase.version, c.id)))
  {
    var (b, p) := Entered(kit, cfg, mode, s, c, now, fault);
    SettledEmitted(kit, cfg, mode, s.(books := b), c.(phase := p), now, fault);
  }

  lemma SettledNoted(kit: Kit, cfg: Config, mode: Audit.Setup, s: State, c: Call, l: Ledger, now: int, fault: bool)
    requires c.phase.Noted? && c.phase.version == s.signals.engine.bundle.version
    requires Tallied(l, c.phase.j.decision) == s.books.ledger
    ensures Settled(kit, cfg, mode, s, c, now, fault)
            == Closed(kit, cfg, mode, s.(books := s.books.(ledger := l)), c.req, c.phase.j, now, c.id, fault)
  {
    if cfg.hasAudit {
      SettledAudited(kit, cfg, mode, s, c, l, now, fault);
    } else {
      SettledEmitted(kit, cfg, mode, s, c.(phase := Emitted(c.phase.j, c.phase.version)), now, fault);
    }
  }

  /** Signing, persisting and offering are one Emit. */
  lemma PersistingBeginsEmit(kit: Kit, cfg: Config, mode: Audit.Setup, b: Books, c: Call, j: Judgement,
                             version: string, now: int, fault: bool)
    requires cfg.hasAudit
    ensures var (t, p) := Persisting(kit, cfg, mode, b, c, j, version, now, fault);
            var (q, e) := Audit.Emitting(kit.signer, mode, b.pipe, RecordOf(kit, c.req, j, version, c.id), now, fault);
            && t.review == b.review && t.ledger == b.ledger
            && if e == Audit.Accepted || e == Audit.Dropped
               then p.Persisted? && p.j == j && p.version == version
                    && q == Audit.Offered(t.pipe, p.rec, mode.capacity).0
               else p == Closing(AuditError(ResponseOf(j, version, c.id))) && q == t.pipe
  {}

  lemma SettledAudited(kit: Kit, cfg: Config, mode: Audit.Setup, s: State, c: Call, l: Ledger, now: int, fault: bool)
    requires cfg.hasAudit && c.phase.Noted? && c.phase.version == s.signals.engine.bundle.version
    requires Tallied(l, c.phase.j.decision) == s.books.ledger
    ensures Settled(kit, cfg, mode, s, c, now, fault)
            == Closed(kit, cfg, mode, s.(books := s.books.(ledger := l)), c.req, c.phase.j, now, c.id, fault)
  {
    var j, v := c.phase.j, c.phase.version;
    var (b, p) := Persisting(kit, cfg, mode, s.books, c, j, v, now, fault);
    var t, d := s.(books := b), c.(phase := p);
    assert Settled(kit, cfg, mode, s, c, now, fault) == Settled(kit, cfg, mode, t, d, now, fault);
    var (q, e) := Audit.Emitting(kit.signer, mode, s.books.pipe, RecordOf(kit, c.req, j, v, c.id), now, fault);
    PersistingBeginsEmit(kit, cfg, mode, s.books, c, j, v, now, fault);
    assert s.books.(ledger := l).(ledger := Tallied(l, j.decision)) == s.books;
    if e == Audit.Accepted || e == Audit.Dropped {
      SettledPersisted(kit, cfg, mode, t, d, now, fault);
      assert b.(pipe := Audit.Offered(b.pipe, p.rec, mode.capacity).0) == s.books.(pipe := q);
    } else {
      SettledClosing(kit, cfg, mode, t, d, now, fault);
      assert b == s.books.(pipe := q);
    }
  }

  lemma SettledDecided(kit: Kit, cfg: Config, mode: Audit.Setup, s: State, c: Call, now: int, fault: bool)
    requires c.phase.Decided?
    ensures Settled(kit, cfg, mode, s, c, now, fault)
            == Closed(kit, cfg, mode, s, c.req, c.phase.j, now, c.id, fault)
  {
    var d := c.(phase := Numbered(c.phase.j, s.signals.engine.bundle.version));
    var t := s.(books := s.books.(ledger := Tallied(s.books.ledger, c.phase.j.decision)));
    var e := c.(phase := Noted(c.phase.j, s.signals.engine.bundle.version));
    assert Settled(kit, cfg, mode, s, c, now, fault) == Settled(kit, cfg, mode, s, d, now, fault);
    assert Settled(kit, cfg, mode, s, d, now, fault) == Settled(kit, cfg, mode, t, e, now, fault);
    SettledNoted(kit, cfg, mode, t, e, s.books.ledger, now, fault);
    assert t.(books := t.books.(ledger := s.books.ledger)) == s;
  }

  /** Stamping with the engine at rest gives every rule the same version. */
  lemma {:induction false} SettledStamping(kit: Kit, cfg: Config, mode: Audit.Setup, s: State, c: Call, now: int,
                                           fault: bool)
    requires c.phase.Stamping? && |c.phase.stamped| <= |c.phase.answer.rules|
    requires c.phase.stamped == Versioned(c.phase.answer.rules[..|c.phase.stamped|], s.signals.engine.bundle.version)
    ensures var a := c.phase.answer;
            var rules := CapRules(kit, cfg, c.req) + Versioned(a.rules, s.signals.engine.bundle.version);
            var j := Judgement(a.decision, ReasonsSoFar(cfg), rules, a.score);
            Settled(kit, cfg, mode, s, c, now, fault) == Closed(kit, cfg, mode, s, c.req, j, now, c.id, fault)
    decreases |c.phase.answer.rules| - |c.phase.stamped|
  {
    var a, done := c.phase.answer, c.phase.stamped;
    var d := Sensed(kit, cfg, s.signals, c, now).1;
    assert Settled(kit, cfg, mode, s, c, now, fault) == Settled(kit, cfg, mode, s, d, now, fault);
    if |done| < |a.rules| {
      SettledStamping(kit, cfg, mode, s, d, now, fault);
    } else {
      assert a.rules[..|done|] == a.rules;
      SettledDecided(kit, cfg, mode, s, d, now, fault);
    }
  }

  lemma SettledPassed(kit: Kit, cfg: Config, mode: Audit.Setup, s: State, c: Call, now: int, fault: bool)
    requires c.phase.Passed?
    ensures var j := CapsThenPolicy(kit, cfg, s.signals.engine, InputOf(kit, cfg, c.req, c.seen.listed), c.req,
                                    ReasonsSoFar(cfg));
            Settled(kit, cfg, mode, s, c, now, fault) == Closed(kit, cfg, mode, s, c.req, j, now, c.id, fault)
  {
    var d := Asking(kit, cfg, s.signals, c);
    var j := CapsThenPolicy(kit, cfg, s.signals.engine, InputOf(kit, cfg, c.req, c.seen.listed), c.req,
                            ReasonsSoFar(cfg));
    assert Settled(kit, cfg, mode, s, c, now, fault) == Settled(kit, cfg, mode, s, d, now, fault);
    if d.phase.Stamping? {
      var a := d.phase.answer;
      assert j.rules == CapRules(kit, cfg, c.req) + Versioned(a.rules, s.signals.engine.bundle.version);
      SettledStamping(kit, cfg, mode, s, d, now, fault);
    } else {
      assert d.phase == Decided(j);
      SettledDecided(kit, cfg, mode, s, d, now, fault);
    }
  }

  lemma SettledListed(kit: Kit, cfg: Config, mode: Audit.Setup, s: State, c: Call, now: int, fault: bool)
    requires c.phase.Listed? && ReachesVelocity(kit, cfg, s.signals, c.req) && c.seen.listed
    ensures var after := s.signals.(cells := CellsAfter(kit, cfg, s.signals, c.req, now));
            Settled(kit, cfg, mode, s, c, now, fault)
            == Closed(kit, cfg, mode, State(after, s.books), c.req, Judged(kit, cfg, s.signals, c.req, now), now, c.id,
                      fault)
  {
    var (t, d) := Counting(cfg, s.signals, c, now);
    var u := s.(signals := t);
    assert Settled(kit, cfg, mode, s, c, now, fault) == Settled(kit, cfg, mode, u, d, now, fault);
    if d.phase.Passed? {
      SettledPassed(kit, cfg, mode, u, d, now, fault);
    } else {
      var (v, e) := TakingBack(cfg, t, d, now);
      assert Settled(kit, cfg, mode, u, d, now, fault) == Settled(kit, cfg, mode, u.(signals := v), e, now, fault);
      SettledDecided(kit, cfg, mode, u.(signals := v), e, now, fault);
    }
  }

  /** With nothing in between, the accesses of a call add up to the service's own evaluation. */
  lemma UninterruptedIsEvaluated(kit: Kit, cfg: Config, mode: Audit.Setup, s: State, r: Request, id: string,
                                 now: int, fault: bool)
    ensures Settled(kit, cfg, mode, s, Opened(kit, cfg, s.signals, r, id, now), now, fault)
            == Evaluated(kit, cfg, mode, s, r, now, id, fault)
  {
    var c := Opened(kit, cfg, s.signals, r, id, now);
    if c.phase.Fresh? {
      var d := Reading(kit, cfg, s.signals, c, now);
      assert Settled(kit, cfg, mode, s, c, now, fault) == Settled(kit, cfg, mode, s, d, now, fault);
      if d.phase.Listed? {
        SettledListed(kit, cfg, mode, s, d, now, fault);
      } else {
        SettledDecided(kit, cfg, mode, s, d, now, fault);
        assert CellsAfter(kit, cfg, s.signals, r, now) == s.signals.cells;
      }
    }
  }
}
