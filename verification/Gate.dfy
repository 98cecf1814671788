/** The evaluate service: five short-circuit stages, then metrics, audit and parking. */
module Gate {
  import opened Prelude
  import Velocity
  import Whitelist
  import Caps
  import Rego
  import Engine
  import Audit
  import Review

  datatype Request = Request(
    userId: string, amount: string, currency: string, asset: string, rail: string, destAddress: string,
    destChain: string, kyt: string, fraud: real, kyc: string, userTier: string, session2FA: bool,
    fxRate: real, sessionValid: bool)

  datatype AuditRequest = AuditRequest(
    userId: string, amount: string, currency: string, asset: string, rail: string, destAddress: string,
    destChain: string, kyt: string, fraud: real, kyc: string)

  datatype AppliedRule = AppliedRule(id: string, version: string)
  datatype Response = Response(decision: string, reasons: seq<string>, rules: seq<AppliedRule>,
                               version: string, score: real, id: string)

  /** `Invalid` is a rejected request, `AuditError` a response that comes with an error. */
  datatype Outcome = Invalid(message: string) | AuditError(response: Response) | Done(response: Response)

  datatype Ledger = Ledger(evaluate: nat, allow: nat, deny: nat, manualReview: nat, pending: nat)

  /** The libraries the service leans on. */
  datatype Kit = Kit(trim: string -> string, upperTrim: string -> string, parse: string -> Option<real>,
                     hash: AuditRequest -> string, signer: Audit.Signer, opa: Engine.Opa)

  /** Wiring and configuration; an absent component is a nil pointer of the service. */
  datatype Config = Config(caps: Caps.Config, day: int, suffix: string, sessionDefault: bool,
                           hasVelocity: bool, hasAudit: bool, hasReview: bool)

  /** What the stages read: the counters (which they also change), the whitelist and the engine. */
  datatype Signals = Signals(cells: map<string, Velocity.Entry>, table: Whitelist.Table, engine: Engine.State)

  /** What finalisation writes. */
  datatype Books = Books(pipe: Audit.Pipe, review: Review.Queue, ledger: Ledger)

  datatype State = State(signals: Signals, books: Books)

  /** What the stages settle on before finalisation. */
  datatype Judgement = Judgement(decision: string, reasons: seq<string>, rules: seq<AppliedRule>, score: real)

  function ToAuditReq(r: Request): AuditRequest {
    AuditRequest(r.userId, r.amount, r.currency, r.asset, r.rail, r.destAddress, r.destChain, r.kyt, r.fraud, r.kyc)
  }

  /** The first missing or malformed field, if any. */
  function Complaint(kit: Kit, r: Request): Option<string> {
    if kit.trim(r.userId) == "" then Some("user_id is required")
    else if kit.trim(r.amount) == "" then Some("amount is required")
    else if kit.parse(r.amount).None? then Some("amount must be a number")
    else if kit.trim(r.currency) == "" then Some("currency is required")
    else if kit.trim(r.destAddress) == "" then Some("dest_address is required")
    else None
  }

  function AmountUSD(kit: Kit, r: Request): real {
    var v := kit.parse(r.amount);
    Caps.FXToUSD(if v.Some? then v.value else 0.0, r.currency, r.fxRate, kit.upperTrim)
  }

  function Tier(r: Request): string {
    if r.userTier == "" then "tier_1" else r.userTier
  }

  /** Conversion of a float to an integer, toward zero. */
  function Trunc(x: real): int {
    if x >= 0.0 then x.Floor else -((-x).Floor)
  }

  function Limit(cfg: Config): int {
    Trunc(cfg.caps.defaultDaily)
  }

  /** A count is above a truncated bound exactly when it is above the bound, unless that is negative. */
  lemma AboveTruncated(n: int, x: real)
    requires x >= 0.0 || n >= 1
    ensures n > Trunc(x) <==> n as real > x
  {
    if x < 0.0 {
      assert (-x).Floor >= 0;
    }
  }

  function Target(r: Request): Whitelist.Triple {
    Whitelist.Triple(r.userId, r.destChain, r.destAddress)
  }

  function CounterKey(cfg: Config, user: string): string {
    Velocity.Key(user, cfg.suffix)
  }

  function AuthFailure(kit: Kit, cfg: Config, r: Request): Option<string> {
    Whitelist.SourceAuth(r.sessionValid || cfg.sessionDefault,
                         Caps.Demands2FA(cfg.caps, r.rail, AmountUSD(kit, r)), r.session2FA)
  }

  /** Source and destination are accepted, so the velocity stage is reached. */
  predicate ReachesVelocity(kit: Kit, cfg: Config, s: Signals, r: Request) {
    AuthFailure(kit, cfg, r).None? && Whitelist.IsWhitelisted(s.table, Target(r))
  }

  /** The counter after this call's increment. */
  function Counted(cfg: Config, s: Signals, r: Request, now: int): Velocity.Entry {
    Velocity.Bump(Lookup(s.cells, CounterKey(cfg, r.userId)), cfg.day, now)
  }

  predicate OverLimit(cfg: Config, s: Signals, r: Request, now: int) {
    cfg.hasVelocity && Counted(cfg, s, r, now).value > Limit(cfg)
  }

  /** The velocity stage's effect: an increment, undone when it went over the limit. */
  function CellsAfter(kit: Kit, cfg: Config, s: Signals, r: Request, now: int): map<string, Velocity.Entry> {
    var k := CounterKey(cfg, r.userId);
    var e := Counted(cfg, s, r, now);
    if !ReachesVelocity(kit, cfg, s, r) || !cfg.hasVelocity then s.cells
    else if OverLimit(cfg, s, r, now) then Write(s.cells[k := e], k, Velocity.Undo(Some(e), now))
    else s.cells[k := e]
  }

  function InputOf(kit: Kit, cfg: Config, r: Request, listed: bool): Rego.Input {
    var usd := AmountUSD(kit, r);
    Rego.Input(r.userId, usd, r.kyt, r.fraud, r.kyc, r.destAddress,
               listed, Caps.Demands2FA(cfg.caps, r.rail, usd), r.session2FA)
  }

  function EngineInput(kit: Kit, cfg: Config, s: Signals, r: Request): Rego.Input {
    InputOf(kit, cfg, r, Whitelist.IsWhitelisted(s.table, Target(r)))
  }

  function CapOutcome(kit: Kit, cfg: Config, r: Request): Caps.Outcome {
    Caps.Judged(cfg.caps, Caps.Scope(Tier(r), r.rail, r.asset, "tx"), AmountUSD(kit, r))
  }

  function Versioned(ids: seq<string>, version: string): seq<AppliedRule> {
    seq(|ids|, i requires 0 <= i < |ids| => AppliedRule(ids[i], version))
  }

  /** Stages four and five, for a call that has passed the velocity stage with `reasons`. */
  function CapsThenPolicy(kit: Kit, cfg: Config, engine: Engine.State, input: Rego.Input, r: Request,
                          reasons: seq<string>): Judgement
  {
    var cap := CapOutcome(kit, cfg, r);
    var rules := if cap.rule.Some? then [AppliedRule(cap.rule.value.id, "")] else [];
    if cap.exceeded then Judgement(cap.decision, reasons + [cap.reason], rules, 0.5)
    else if cap.nearCap then Judgement("manual_review", reasons + [cap.reason], rules, 0.3)
    else
      var a := Engine.Answered(kit.opa, engine, input);
      if a.None? then Judgement("manual_review", reasons + ["engine_error"], rules, 0.5)
      else Judgement(a.value.decision, reasons, rules + Versioned(a.value.rules, engine.bundle.version), a.value.score)
  }

  /** Stages three to five, for an accepted source and destination; `over` is the velocity verdict. */
  function VelocityThenCaps(kit: Kit, cfg: Config, engine: Engine.State, input: Rego.Input, r: Request,
                            over: bool): Judgement
  {
    if over then Judgement("deny", ["whitelisted", "velocity_daily_exceeded"], [], 0.5)
    else
      var reasons := ["whitelisted"] + if cfg.hasVelocity then ["velocity_daily_ok"] else [];
      CapsThenPolicy(kit, cfg, engine, input, r, reasons)
  }

  function Judged(kit: Kit, cfg: Config, s: Signals, r: Request, now: int): Judgement {
    var refusal := AuthFailure(kit, cfg, r);
    if refusal.Some? then Judgement("deny", [refusal.value], [], 1.0)
    else if !Whitelist.IsWhitelisted(s.table, Target(r)) then Judgement("deny", ["dest_not_whitelisted"], [], 0.5)
    else VelocityThenCaps(kit, cfg, s.engine, EngineInput(kit, cfg, s, r), r, OverLimit(cfg, s, r, now))
  }

  // ---- Finalisation ------------------------------------------------------

  function Tallied(l: Ledger, decision: string): Ledger {
    if decision == "allow" then l.(allow := l.allow + 1)
    else if decision == "deny" then l.(deny := l.deny + 1)
    else if decision == "manual_review" then l.(manualReview := l.manualReview + 1)
    else l
  }

  function RuleIds(rules: seq<AppliedRule>): seq<string> {
    seq(|rules|, i requires 0 <= i < |rules| => rules[i].id)
  }

  function RecordOf(kit: Kit, r: Request, j: Judgement, version: string, id: string): Audit.Record {
    Audit.Record(id, version, kit.hash(ToAuditReq(r)), j.decision, j.reasons, RuleIds(j.rules), j.score, None, "")
  }

  /** Parking a manual_review decision; the gauge counts the parks that succeed. */
  function Parked(cfg: Config, b: Books, decision: string, id: string, now: int): Books {
    if decision != "manual_review" || !cfg.hasReview then b
    else
      var (q, r) := Review.Parking(b.review, id, "", now);
      if r.Ok? then b.(review := q, ledger := b.ledger.(pending := b.ledger.pending + 1)) else b.(review := q)
  }

  function ResponseOf(j: Judgement, version: string, id: string): Response {
    Response(j.decision, j.reasons, j.rules, version, j.score, id)
  }

  /** `mode` is the audit service's setup and `version` the engine's at this moment. */
  function Finalised(kit: Kit, cfg: Config, mode: Audit.Setup, version: string, b: Books, r: Request, j: Judgement,
                     now: int, id: string, fault: bool): (Books, Outcome)
  {
    var resp := ResponseOf(j, version, id);
    var t := b.(ledger := Tallied(b.ledger, j.decision));
    if !cfg.hasAudit then (Parked(cfg, t, j.decision, id, now), Done(resp))
    else
      var (p, e) := Audit.Emitting(kit.signer, mode, b.pipe, RecordOf(kit, r, j, version, id), now, fault);
      if e == Audit.Accepted || e == Audit.Dropped then (Parked(cfg, t.(pipe := p), j.decision, id, now), Done(resp))
      else (t.(pipe := p), AuditError(resp))
  }

  /** Finalisation of a judged call, and the count of evaluations on the way out. */
  function Closed(kit: Kit, cfg: Config, mode: Audit.Setup, s: State, r: Request, j: Judgement,
                  now: int, id: string, fault: bool): (State, Outcome)
  {
    var (b, out) := Finalised(kit, cfg, mode, s.signals.engine.bundle.version, s.books, r, j, now, id, fault);
    (State(s.signals, b.(ledger := b.ledger.(evaluate := b.ledger.evaluate + 1))), out)
  }

  function Evaluated(kit: Kit, cfg: Config, mode: Audit.Setup, s: State, r: Request, now: int, id: string, fault: bool)
    : (State, Outcome)
  {
    var complaint := Complaint(kit, r);
    if complaint.Some? then (s, Invalid(complaint.value))
    else
      var after := s.signals.(cells := CellsAfter(kit, cfg, s.signals, r, now));
      Closed(kit, cfg, mode, State(after, s.books), r, Judged(kit, cfg, s.signals, r, now), now, id, fault)
  }

  // ---- The service itself ------------------------------------------------

  class Metrics {
    var evaluate: nat
    var allow: nat
    var deny: nat
    var manualReview: nat
    var pending: nat

    ghost function View(): Ledger
      reads this
    {
      Ledger(evaluate, allow, deny, manualReview, pending)
    }
  }

  class Service {
    const kit: Kit
    const caps: Caps.Config
    const day: int
    const sessionDefault: bool
    const hasVelocity: bool
    const hasAudit: bool
    const hasReview: bool
    const counter: Velocity.MemoryCounter
    const whitelist: Whitelist.Service
    const engine: Engine.OPAEngine
    const audit: Audit.Service
    const review: Review.Service
    const metrics: Metrics

    ghost predicate Wired()
      reads engine, audit
    {
      engine.Valid() && kit.opa == engine.opa && kit.signer == audit.signer
    }

    ghost predicate Valid()
      reads engine, audit, review.store
    {
      Wired() && Review.Valid(review.store.View())
    }

    ghost function Setting(): Config {
      Config(caps, day, Velocity.Suffix(day, counter.text), sessionDefault, hasVelocity, hasAudit, hasReview)
    }

    ghost function Sensed(): Signals
      reads counter, whitelist.store, engine
      requires engine.Valid()
    {
      Signals(counter.mem, whitelist.store.mem, engine.View())
    }

    ghost function Booked(): Books
      reads audit, audit.store, audit.sink, review.store, metrics
    {
      Books(audit.View(), review.store.View(), metrics.View())
    }

    constructor (kit: Kit, caps: Caps.Config, day: int, sessionDefault: bool, hasVelocity: bool, hasAudit: bool,
                 hasReview: bool, counter: Velocity.MemoryCounter, whitelist: Whitelist.Service,
                 engine: Engine.OPAEngine, audit: Audit.Service, review: Review.Service, metrics: Metrics)
      requires engine.Valid() && Review.Valid(review.store.View())
      requires kit.opa == engine.opa && kit.signer == audit.signer
      ensures Valid() && this.kit == kit
      ensures Setting() == Config(caps, day, Velocity.Suffix(day, counter.text), sessionDefault,
                                  hasVelocity, hasAudit, hasReview)
      ensures Sensed() == Signals(counter.mem, whitelist.store.mem, engine.View())
      ensures Booked() == Books(audit.View(), review.store.View(), metrics.View())
    {
      this.kit, this.caps, this.day, this.sessionDefault := kit, caps, day, sessionDefault;
      this.hasVelocity, this.hasAudit, this.hasReview := hasVelocity, hasAudit, hasReview;
      this.counter, this.whitelist, this.engine := counter, whitelist, engine;
      this.audit, this.review, this.metrics := audit, review, metrics;
    }

    /** Stage three: count the call, and take it back when it is over the limit. */
    method CountCall(req: Request, now: int) returns (over: bool)
      modifies counter
      ensures var k, e := CounterKey(Setting(), req.userId),
                          Velocity.Bump(Lookup(old(counter.mem), CounterKey(Setting(), req.userId)), day, now);
              && (over <==> e.value > Limit(Setting()))
              && (caps.defaultDaily >= 0.0 || e.value >= 1 ==> (over <==> e.value as real > caps.defaultDaily))
              && counter.mem == if over then Write(old(counter.mem)[k := e], k, Velocity.Undo(Some(e), now))
                                else old(counter.mem)[k := e]
    {
      var v := counter.Increment(req.userId, day, now);
      if caps.defaultDaily >= 0.0 || v >= 1 {
        AboveTruncated(v, caps.defaultDaily);
      }
      over := v > Trunc(caps.defaultDaily);
      if over {
        var _, _ := counter.Rollback(req.userId, day, now);
      }
    }

    /** Stages one to five: settles the judgement, touching nothing but the counter. */
    method Judge(req: Request, now: int) returns (j: Judgement)
      requires Wired()
      modifies counter
      ensures j == Judged(kit, Setting(), old(Sensed()), req, now)
      ensures Sensed() == old(Sensed()).(cells := CellsAfter(kit, Setting(), old(Sensed()), req, now))
    {
      var usd := AmountUSD(kit, req);
      var requires2FA := Caps.HighValue2FARequired(caps, req.rail, usd);
      var refusal := Whitelist.SourceAuth(req.sessionValid || sessionDefault, requires2FA, req.session2FA);
      if refusal.Some? {
        return Judgement("deny", [refusal.value], [], 1.0);
      }
      var whitelisted := whitelist.Allowed(Target(req));
      if !whitelisted {
        return Judgement("deny", ["dest_not_whitelisted"], [], 0.5);
      }
      var over := false;
      if hasVelocity {
        over := CountCall(req, now);
      }
      var input := Rego.Input(req.userId, usd, req.kyt, req.fraud, req.kyc, req.destAddress,
                              whitelisted, requires2FA, req.session2FA);
      j := AfterCounting(req, usd, input, over);
    }

    /** The reasons so far, and the refusal of a call that went over the limit. */
    method AfterCounting(req: Request, usd: real, input: Rego.Input, over: bool) returns (j: Judgement)
      requires Wired() && usd == AmountUSD(kit, req)
      ensures j == VelocityThenCaps(kit, Setting(), engine.View(), input, req, over)
    {
      var reasons := ["whitelisted"];
      if over {
        return Judgement("deny", reasons + ["velocity_daily_exceeded"], [], 0.5);
      }
      if hasVelocity {
        reasons := reasons + ["velocity_daily_ok"];
      }
      j := CapsAndPolicy(req, usd, input, reasons);
    }

    /** Stages four and five. */
    method CapsAndPolicy(req: Request, usd: real, input: Rego.Input, soFar: seq<string>) returns (j: Judgement)
      requires Wired() && usd == AmountUSD(kit, req)
      ensures j == CapsThenPolicy(kit, Setting(), engine.View(), input, req, soFar)
    {
      var rules: seq<AppliedRule> := [];
      var res := Caps.Evaluate(caps, Caps.Scope(Tier(req), req.rail, req.asset, "tx"), usd);
      if res.rule.Some? {
        rules := rules + [AppliedRule(res.rule.value.id, "")];
      }
      if res.exceeded {
        return Judgement(res.decision, soFar + [res.reason], rules, 0.5);
      }
      if res.nearCap {
        return Judgement("manual_review", soFar + [res.reason], rules, 0.3);
      }
      var answer := engine.Evaluate(input);
      if answer.None? {
        return Judgement("manual_review", soFar + ["engine_error"], rules, 0.5);
      }
      var more := Stamp(answer.value.rules, engine.bundle.version);
      j := Judgement(answer.value.decision, soFar, rules + more, answer.value.score);
    }

    /** Each fired rule is listed with the engine's version. */
    method Stamp(ids: seq<string>, version: string) returns (rules: seq<AppliedRule>)
      ensures rules == Versioned(ids, version)
    {
      rules := [];
      for i := 0 to |ids|
        invariant rules == Versioned(ids[..i], version)
      {
        rules := rules + [AppliedRule(ids[i], version)];
      }
      assert ids[..|ids|] == ids;
    }

    method Tally(decision: string)
      modifies metrics
      ensures metrics.View() == Tallied(old(metrics.View()), decision)
    {
      if decision == "allow" {
        metrics.allow := metrics.allow + 1;
      } else if decision == "deny" {
        metrics.deny := metrics.deny + 1;
      } else if decision == "manual_review" {
        metrics.manualReview := metrics.manualReview + 1;
      }
    }

    method ParkIfNeeded(decision: string, id: string, now: int)
      requires Review.Valid(review.store.View())
      modifies review.store, metrics
      ensures Review.Valid(review.store.View())
      ensures Booked() == Parked(Setting(), old(Booked()), decision, id, now)
    {
      if decision == "manual_review" && hasReview {
        var r := review.Park(id, "", now);
        if r.Ok? {
          metrics.pending := metrics.pending + 1;
        }
      }
    }

    method Finalize(req: Request, j: Judgement, now: int, id: string, fault: bool) returns (out: Outcome)
      requires Valid()
      modifies audit, audit.store, review.store, metrics
      ensures Valid() && audit.Mode() == old(audit.Mode())
      ensures (Booked(), out) == Finalised(kit, Setting(), audit.Mode(), engine.bundle.version, old(Booked()),
                                           req, j, now, id, fault)
    {
      var version := engine.bundle.version;
      Tally(j.decision);
      if hasAudit {
        var e := audit.Emit(RecordOf(kit, req, j, version, id), now, fault);
        if e != Audit.Accepted && e != Audit.Dropped {
          return AuditError(ResponseOf(j, version, id));
        }
      }
      ParkIfNeeded(j.decision, id, now);
      return Done(ResponseOf(j, version, id));
    }

    /** Finalisation of a judged call; the deferred count of evaluations runs last. */
    method Close(req: Request, j: Judgement, now: int, id: string, fault: bool) returns (out: Outcome)
      requires Valid()
      modifies audit, audit.store, review.store, metrics
      ensures Valid() && audit.Mode() == old(audit.Mode())
      ensures (State(Sensed(), Booked()), out)
              == Closed(kit, Setting(), audit.Mode(), old(State(Sensed(), Booked())), req, j, now, id, fault)
    {
      out := Finalize(req, j, now, id, fault);
      metrics.evaluate := metrics.evaluate + 1;
    }

    /** The stages and the finalisation of a well-formed request. */
    method Process(req: Request, now: int, id: string, fault: bool) returns (j: Judgement, out: Outcome)
      requires Valid()
      modifies counter, audit, audit.store, review.store, metrics
      ensures Valid() && audit.Mode() == old(audit.Mode())
      ensures j == Judged(kit, Setting(), old(Sensed()), req, now)
      ensures var after := old(Sensed()).(cells := CellsAfter(kit, Setting(), old(Sensed()), req, now));
              (State(Sensed(), Booked()), out)
              == Closed(kit, Setting(), audit.Mode(), State(after, old(Booked())), req, j, now, id, fault)
    {
      j := Judge(req, now);
      out := Close(req, j, now, id, fault);
    }

    /** One evaluation, as a function of the whole state it touches. */
    method Evaluate(req: Request, now: int, id: string, fault: bool) returns (out: Outcome)
      requires Valid()
      modifies counter, audit, audit.store, review.store, metrics
      ensures Valid() && audit.Mode() == old(audit.Mode())
      ensures (State(Sensed(), Booked()), out)
              == Evaluated(kit, Setting(), audit.Mode(), old(State(Sensed(), Booked())), req, now, id, fault)
    {
      var complaint := Complaint(kit, req);
      if complaint.Some? {
        return Invalid(complaint.value);
      }
      var j;
      j, out := Process(req, now, id, fault);
    }
  }
}
