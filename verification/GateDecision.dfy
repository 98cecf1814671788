/** What the five-stage pipeline decides, said without its order of stages. */
module GateDecision {
  import opened Prelude
  import opened Gate
  import Velocity
  import Whitelist
  import Caps
  import Rego
  import Engine
  import Admission

  predicate SourceAccepted(kit: Kit, cfg: Config, r: Request) {
    (r.sessionValid || cfg.sessionDefault)
    && (Caps.Demands2FA(cfg.caps, r.rail, AmountUSD(kit, r)) ==> r.session2FA)
  }

  /** There is room for one more call in the counter. */
  predicate RoomInWindow(cfg: Config, s: Signals, r: Request, now: int) {
    cfg.hasVelocity ==> Velocity.Reading(Lookup(s.cells, CounterKey(cfg, r.userId)), now) < Limit(cfg)
  }

  function TxCap(cfg: Config, r: Request): real {
    Caps.EffectiveCap(cfg.caps, Caps.Chosen(cfg.caps.rules, Caps.Scope(Tier(r), r.rail, r.asset, "tx")), "tx")
  }

  /** The transaction cap is off, or the amount is neither above nor near it. */
  predicate WithinCap(kit: Kit, cfg: Config, r: Request) {
    TxCap(cfg, r) <= 0.0
    || (AmountUSD(kit, r) <= TxCap(cfg, r) && AmountUSD(kit, r) < TxCap(cfg, r) * cfg.caps.near)
  }

  /** The policy in force answers this input with allow and nothing else. */
  predicate PolicyAllows(kit: Kit, cfg: Config, s: Signals, r: Request) {
    var p := Engine.InForce(kit.opa, s.engine);
    p.Some? &&
      var v := kit.opa.query(p.value, EngineInput(kit, cfg, s, r));
      v.Some? && v.value.allow && !v.value.review && !v.value.deny
  }

  lemma CapOutcomeExactly(kit: Kit, cfg: Config, r: Request)
    ensures var o := CapOutcome(kit, cfg, r); !o.exceeded && !o.nearCap <==> WithinCap(kit, cfg, r)
  {}

  /** Pipeline refinement: an allow is exactly the conjunction of all five stages passing. */
  lemma AllowExactlyWhenAllStagesPass(kit: Kit, cfg: Config, s: Signals, r: Request, now: int)
    ensures Judged(kit, cfg, s, r, now).decision == "allow" <==>
      && SourceAccepted(kit, cfg, r)
      && Whitelist.IsWhitelisted(s.table, Target(r))
      && RoomInWindow(cfg, s, r, now)
      && WithinCap(kit, cfg, r)
      && PolicyAllows(kit, cfg, s, r)
  {
    CapOutcomeExactly(kit, cfg, r);
    var p := Engine.InForce(kit.opa, s.engine);
    if p.Some? {
      var v := kit.opa.query(p.value, EngineInput(kit, cfg, s, r));
      if v.Some? {
        Engine.DecisionIsKnown(v.value);
      }
    }
  }

  /** The gate only ever says allow, deny or manual_review. */
  lemma DecisionIsOneOfThree(kit: Kit, cfg: Config, s: Signals, r: Request, now: int)
    ensures Judged(kit, cfg, s, r, now).decision in ["allow", "deny", "manual_review"]
  {}

  /** The policy in force answers this input with deny, whatever else it says. */
  predicate PolicyDenies(kit: Kit, cfg: Config, s: Signals, r: Request) {
    var p := Engine.InForce(kit.opa, s.engine);
    p.Some? &&
      var v := kit.opa.query(p.value, EngineInput(kit, cfg, s, r));
      v.Some? && v.value.deny
  }

  /** The amount is above the transaction cap, and the cap's rule does not ask for a review instead. */
  predicate CapDenies(kit: Kit, cfg: Config, r: Request) {
    var rule := Caps.Chosen(cfg.caps.rules, Caps.Scope(Tier(r), r.rail, r.asset, "tx"));
    0.0 < TxCap(cfg, r) < AmountUSD(kit, r) && !(rule.Some? && rule.value.onExceed == "manual_review")
  }

  /** A deny comes from the first three stages, from the cap, or from the policy once the cap is clear. */
  lemma DenyExactlyWhenAStageDenies(kit: Kit, cfg: Config, s: Signals, r: Request, now: int)
    ensures Judged(kit, cfg, s, r, now).decision == "deny" <==>
      || !SourceAccepted(kit, cfg, r)
      || !Whitelist.IsWhitelisted(s.table, Target(r))
      || !RoomInWindow(cfg, s, r, now)
      || CapDenies(kit, cfg, r)
      || (WithinCap(kit, cfg, r) && PolicyDenies(kit, cfg, s, r))
  {
    CapOutcomeExactly(kit, cfg, r);
  }

  function LastReason(j: Judgement): string {
    if j.reasons == [] then "" else j.reasons[|j.reasons| - 1]
  }

  /** The last reason names the first stage that stopped the call, and each stage is named exactly then. */
  lemma LastReasonNamesTheStage(kit: Kit, cfg: Config, s: Signals, r: Request, now: int)
    ensures var why := LastReason(Judged(kit, cfg, s, r, now));
      var session := r.sessionValid || cfg.sessionDefault;
      var listed := Whitelist.IsWhitelisted(s.table, Target(r));
      && (why == "invalid_session" <==> !session)
      && (why == "2fa_required" <==> session && !SourceAccepted(kit, cfg, r))
      && (why == "dest_not_whitelisted" <==> SourceAccepted(kit, cfg, r) && !listed)
      && (why == "velocity_daily_exceeded" <==> SourceAccepted(kit, cfg, r) && listed && !RoomInWindow(cfg, s, r, now))
      && var past := SourceAccepted(kit, cfg, r) && listed && RoomInWindow(cfg, s, r, now);
      && (why == "cap_tx_exceeded" <==> past && 0.0 < TxCap(cfg, r) < AmountUSD(kit, r))
      && (why == "near_cap_tx" <==> past && !WithinCap(kit, cfg, r) && AmountUSD(kit, r) <= TxCap(cfg, r))
      && (why == "engine_error" <==> past && WithinCap(kit, cfg, r) && !PolicyAnswers(kit, cfg, s, r))
  {
    LateReasons(kit, cfg, s, r);
  }

  /** There is a policy in force and its queries succeed on this input. */
  predicate PolicyAnswers(kit: Kit, cfg: Config, s: Signals, r: Request) {
    var p := Engine.InForce(kit.opa, s.engine);
    p.Some? && kit.opa.query(p.value, EngineInput(kit, cfg, s, r)).Some?
  }

  /** The four reasons of the early stages. */
  predicate Early(why: string) {
    || why == "invalid_session" || why == "2fa_required"
    || why == "dest_not_whitelisted" || why == "velocity_daily_exceeded"
  }

  /** A call past the velocity stage is stopped by the cap, by a missing answer, or not at all. */
  lemma LateReasons(kit: Kit, cfg: Config, s: Signals, r: Request)
    ensures var why := LastReason(VelocityThenCaps(kit, cfg, s.engine, EngineInput(kit, cfg, s, r), r, false));
      && !Early(why)
      && (why == "cap_tx_exceeded" <==> 0.0 < TxCap(cfg, r) < AmountUSD(kit, r))
      && (why == "near_cap_tx" <==> !WithinCap(kit, cfg, r) && AmountUSD(kit, r) <= TxCap(cfg, r))
      && (why == "engine_error" <==> WithinCap(kit, cfg, r) && !PolicyAnswers(kit, cfg, s, r))
  {
    LateReasonIs(kit, cfg, s, r);
    assert "velocity_daily_ok"[15] != "velocity_daily_exceeded"[15];
  }

  lemma LateReasonIs(kit: Kit, cfg: Config, s: Signals, r: Request)
    ensures var why := LastReason(VelocityThenCaps(kit, cfg, s.engine, EngineInput(kit, cfg, s, r), r, false));
      why == if 0.0 < TxCap(cfg, r) < AmountUSD(kit, r) then "cap_tx_exceeded"
             else if !WithinCap(kit, cfg, r) then "near_cap_tx"
             else if !PolicyAnswers(kit, cfg, s, r) then "engine_error"
             else if cfg.hasVelocity then "velocity_daily_ok"
             else "whitelisted"
  {
    CapReasons(kit, cfg, r);
    CapOutcomeExactly(kit, cfg, r);
  }

  lemma CapReasons(kit: Kit, cfg: Config, r: Request)
    ensures var o := CapOutcome(kit, cfg, r);
            (o.exceeded ==> o.reason == "cap_tx_exceeded") && (o.nearCap ==> o.reason == "near_cap_tx")
  {}

  /** No counter holds a negative value. */
  ghost predicate NonNegative(cells: map<string, Velocity.Entry>) {
    forall k :: k in cells ==> cells[k].value >= 0
  }

  /**
   * Net counter change: the caller's reading grows by one exactly when the call gets past the
   * velocity stage and is unchanged otherwise, no other cell moves, and no cell goes negative.
   */
  lemma NetCounterChange(kit: Kit, cfg: Config, s: Signals, r: Request, now: int)
    requires NonNegative(s.cells)
    ensures var k, after := CounterKey(cfg, r.userId), CellsAfter(kit, cfg, s, r, now);
            var reached := cfg.hasVelocity && ReachesVelocity(kit, cfg, s, r);
            var before := Velocity.Reading(Lookup(s.cells, k), now);
            var counted := if reached && RoomInWindow(cfg, s, r, now) then 1 else 0;
            && NonNegative(after)
            && (forall j :: j != k ==> Lookup(after, j) == Lookup(s.cells, j))
            && (cfg.day >= 0 ==> Velocity.Reading(Lookup(after, k), now) == before + counted)
            && (cfg.day < 0 && reached ==> Velocity.Reading(Lookup(after, k), now) == 0)
            && (reached ==> after[k].expiresAt == now + cfg.day)
  {}

  /**
   * An uninterrupted velocity stage is the interleaved protocol's Enter, followed by its own
   * Compensate exactly when the call went over the limit.
   */
  lemma VelocityStageIsEnterAndCompensate(kit: Kit, cfg: Config, s: Signals, r: Request, a: Admission.State)
    requires cfg.hasVelocity && ReachesVelocity(kit, cfg, s, r) && a.cell == Lookup(s.cells, CounterKey(cfg, r.userId))
    ensures var e := Admission.Next(Limit(cfg), cfg.day, a, Admission.Enter);
            var over := OverLimit(cfg, s, r, a.now);
            var settled := if over then Admission.Next(Limit(cfg), cfg.day, e, Admission.Compensate(e.gen)) else e;
            && Lookup(CellsAfter(kit, cfg, s, r, a.now), CounterKey(cfg, r.userId)) == settled.cell
            && settled.passed == (if over then a.passed else a.passed + multiset{e.gen})
            && settled.over == a.over
  {}

  /** Whenever the engine is asked, the policy's whitelist and 2FA clauses cannot be what denies. */
  lemma EngineNeverSeesUnauthenticated(kit: Kit, cfg: Config, s: Signals, r: Request)
    requires ReachesVelocity(kit, cfg, s, r)
    ensures var i := EngineInput(kit, cfg, s, r); i.whitelisted && (i.requires2FA ==> i.passed2FA)
  {}

  // ---- Under the seed policy ---------------------------------------------

  function SeedVerdict(d: Rego.Limits, i: Rego.Input): Engine.Verdict {
    Engine.Verdict(Rego.Allow(d, i), Rego.ManualReview(d, i), Rego.Deny(d, i), Rego.RiskScore(i))
  }

  /** The policy in force is decisions.rego over the caps data `d`. */
  ghost predicate SeedPolicy(kit: Kit, s: Signals, d: Rego.Limits) {
    var p := Engine.InForce(kit.opa, s.engine);
    p.Some? && forall i :: kit.opa.query(p.value, i) == Some(SeedVerdict(d, i))
  }

  /** The allow region in primitive facts about the request, the stores and the configuration. */
  lemma AllowExactlyUnderSeedPolicy(kit: Kit, cfg: Config, s: Signals, d: Rego.Limits, r: Request, now: int)
    requires SeedPolicy(kit, s, d)
    ensures var usd := AmountUSD(kit, r);
      Judged(kit, cfg, s, r, now).decision == "allow" <==>
      && SourceAccepted(kit, cfg, r) && Whitelist.IsWhitelisted(s.table, Target(r))
      && RoomInWindow(cfg, s, r, now) && WithinCap(kit, cfg, r)
      && r.kyt == "clean" && r.kyc == "verified" && r.fraud < 0.5
      && d.txMax.Some? && usd <= d.txMax.value && Rego.BelowDaily(d, usd)
  {
    AllowExactlyWhenAllStagesPass(kit, cfg, s, r, now);
    Rego.CleanExactly(d, EngineInput(kit, cfg, s, r));
  }

  lemma SmallerAmountIsSmallerInUSD(kit: Kit, a: Request, b: Request)
    requires kit.parse(a.amount).Some? && kit.parse(b.amount).Some?
    requires kit.parse(a.amount).value <= kit.parse(b.amount).value
    requires a.currency == b.currency && a.fxRate == b.fxRate
    ensures AmountUSD(kit, a) <= AmountUSD(kit, b)
  {}

  /**
   * The allow region is downward closed, for every configuration, state and policy data: the same
   * request with a smaller amount and a smaller fraud score is still allowed from the same state.
   */
  lemma AllowIsDownwardClosed(kit: Kit, cfg: Config, s: Signals, d: Rego.Limits, r: Request, now: int,
                              amount: string, fraud: real)
    requires SeedPolicy(kit, s, d) && Judged(kit, cfg, s, r, now).decision == "allow"
    requires AmountUSD(kit, r.(amount := amount, fraud := fraud)) <= AmountUSD(kit, r) && fraud <= r.fraud
    ensures Judged(kit, cfg, s, r.(amount := amount, fraud := fraud), now).decision == "allow"
  {
    var less := r.(amount := amount, fraud := fraud);
    AllowExactlyUnderSeedPolicy(kit, cfg, s, d, r, now);
    SourceAndCapDownward(kit, cfg, r, less);
    AllowExactlyUnderSeedPolicy(kit, cfg, s, d, less, now);
  }

  /** A smaller amount needs no more authentication and meets no stricter cap. */
  lemma SourceAndCapDownward(kit: Kit, cfg: Config, r: Request, less: Request)
    requires less == r.(amount := less.amount, fraud := less.fraud) && AmountUSD(kit, less) <= AmountUSD(kit, r)
    requires SourceAccepted(kit, cfg, r) && WithinCap(kit, cfg, r)
    ensures SourceAccepted(kit, cfg, less) && WithinCap(kit, cfg, less)
  {}
}
