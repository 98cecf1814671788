/** The gate's three answers and its score under the seed policy, in primitive facts. */
module GateSeed {
  import opened Prelude
  import opened Gate
  import opened GateDecision
  import Whitelist
  import Rego

  /** The source is accepted, the destination whitelisted, and there is room in the window. */
  predicate EarlyStagesPass(kit: Kit, cfg: Config, s: Signals, r: Request, now: int) {
    SourceAccepted(kit, cfg, r) && Whitelist.IsWhitelisted(s.table, Target(r)) && RoomInWindow(cfg, s, r, now)
  }

  /** Deny under the seed policy: an early refusal, the cap, or one of four facts about the request. */
  lemma DenyExactlyUnderSeedPolicy(kit: Kit, cfg: Config, s: Signals, d: Rego.Limits, r: Request, now: int)
    requires SeedPolicy(kit, s, d)
    ensures var usd := AmountUSD(kit, r);
      Judged(kit, cfg, s, r, now).decision == "deny" <==>
      || !EarlyStagesPass(kit, cfg, s, r, now)
      || CapDenies(kit, cfg, r)
      || (WithinCap(kit, cfg, r) && (r.fraud >= 0.8 || r.kyt == "sanctioned" || r.kyc != "verified"
                                     || (d.dailyMax.Some? && usd > d.dailyMax.value)))
  {
    DenyExactlyWhenAStageDenies(kit, cfg, s, r, now);
    if EarlyStagesPass(kit, cfg, s, r, now) {
      EngineNeverSeesUnauthenticated(kit, cfg, s, r);
    }
  }

  /**
   * Manual review under the seed policy: all early stages pass, and the amount is above a cap whose
   * rule asks for review or near the cap, or else nothing denies and the fraud score is in the mid
   * band, the amount near the daily cap, the KYT verdict not clean, or the amount not within the
   * policy's transaction cap.
   */
  lemma ReviewExactlyUnderSeedPolicy(kit: Kit, cfg: Config, s: Signals, d: Rego.Limits, r: Request, now: int)
    requires SeedPolicy(kit, s, d)
    ensures var usd := AmountUSD(kit, r);
      Judged(kit, cfg, s, r, now).decision == "manual_review" <==>
      && EarlyStagesPass(kit, cfg, s, r, now) && !CapDenies(kit, cfg, r)
      && (WithinCap(kit, cfg, r) ==>
            && r.fraud < 0.8 && r.kyt != "sanctioned" && r.kyc == "verified"
            && (d.dailyMax.Some? ==> usd <= d.dailyMax.value)
            && (|| r.fraud >= 0.5 || r.kyt != "clean"
                || (d.dailyMax.Some? && usd >= d.dailyMax.value * 0.9)
                || !(d.txMax.Some? && usd <= d.txMax.value)))
  {
    DecisionIsOneOfThree(kit, cfg, s, r, now);
    AllowExactlyUnderSeedPolicy(kit, cfg, s, d, r, now);
    DenyExactlyUnderSeedPolicy(kit, cfg, s, d, r, now);
  }

  /** The weights decisions.rego gives to the two verdicts. */
  const KYT_WEIGHTS := map["sanctioned" := 1.0, "high_risk" := 0.5, "clean" := 0.0, "unknown" := 0.2]
  const KYC_WEIGHTS := map["verified" := 0.0, "restricted" := 0.5, "expired" := 0.8, "unverified" := 1.0]

  /** The policy is asked about this request, at this amount, and scores it by its weights, or zero. */
  lemma ScoreUnderSeedPolicy(kit: Kit, cfg: Config, s: Signals, d: Rego.Limits, r: Request, now: int)
    requires SeedPolicy(kit, s, d) && EarlyStagesPass(kit, cfg, s, r, now) && WithinCap(kit, cfg, r)
    ensures var j := Judged(kit, cfg, s, r, now);
      j.score == if r.kyt in KYT_WEIGHTS && r.kyc in KYC_WEIGHTS
                 then (KYT_WEIGHTS[r.kyt] + r.fraud + KYC_WEIGHTS[r.kyc]) / 3.0 else 0.0
  {
    CapOutcomeExactly(kit, cfg, r);
    assert Judged(kit, cfg, s, r, now).score == Rego.RiskScore(EngineInput(kit, cfg, s, r));
  }

  /** The document the engine is asked about is the request, with its amount in dollars. */
  lemma EngineIsAskedAboutTheRequest(kit: Kit, cfg: Config, s: Signals, r: Request)
    ensures var i := EngineInput(kit, cfg, s, r);
      && i.userId == r.userId && i.dest == r.destAddress && i.amountUsd == AmountUSD(kit, r)
      && i.kyt == r.kyt && i.kyc == r.kyc && i.fraud == r.fraud && i.passed2FA == r.session2FA
      && (i.requires2FA <==> exists k :: 0 <= k < |cfg.caps.rules| && cfg.caps.rules[k].rail == r.rail
                               && cfg.caps.rules[k].requires2FA && i.amountUsd >= cfg.caps.rules[k].usdThreshold)
  {}
}
