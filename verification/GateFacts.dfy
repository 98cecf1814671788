/** The stages of the gate in terms of the configuration and of what was done to the stores. */
module GateFacts {
  import opened Prelude
  import opened Gate
  import opened GateDecision
  import Velocity
  import VelocityHistory
  import Whitelist
  import WhitelistRuns
  import Caps
  import Engine

  // ---- The limit is the daily cap ----------------------------------------

  /**
   * The number that bounds the calls: with a daily cap that is not negative a counted call is over
   * the limit exactly when the count is above the cap; below zero every counted call is.
   */
  lemma OverDailyCapExactly(cfg: Config, s: Signals, r: Request, now: int)
    requires cfg.hasVelocity
    ensures cfg.caps.defaultDaily >= 0.0 ==>
              (OverLimit(cfg, s, r, now) <==> Counted(cfg, s, r, now).value as real > cfg.caps.defaultDaily)
    ensures cfg.caps.defaultDaily < 0.0 && Counted(cfg, s, r, now).value >= 1 ==> OverLimit(cfg, s, r, now)
  {
    var v := Counted(cfg, s, r, now).value;
    if cfg.caps.defaultDaily >= 0.0 || v >= 1 {
      AboveTruncated(v, cfg.caps.defaultDaily);
    }
  }

  /** There is room for a call exactly while the count with it stays within the daily cap. */
  lemma RoomExactly(cfg: Config, s: Signals, r: Request, now: int)
    requires cfg.caps.defaultDaily >= 0.0
    ensures RoomInWindow(cfg, s, r, now) <==>
      (cfg.hasVelocity ==>
        (Velocity.Reading(Lookup(s.cells, CounterKey(cfg, r.userId)), now) + 1) as real <= cfg.caps.defaultDaily)
  {
    AboveTruncated(Velocity.Reading(Lookup(s.cells, CounterKey(cfg, r.userId)), now) + 1, cfg.caps.defaultDaily);
  }

  /** The velocity stage over the caller's history: the cap against the count of the current generation. */
  lemma RoomByHistory(cfg: Config, s: Signals, r: Request, now: int, h: seq<VelocityHistory.Event>, g: nat)
    requires cfg.hasVelocity && cfg.caps.defaultDaily >= 0.0
    requires VelocityHistory.Ordered(h, now) && VelocityHistory.CurrentGeneration(h, g, cfg.day)
    requires Lookup(s.cells, CounterKey(cfg, r.userId)) == VelocityHistory.Play(h, cfg.day)
    ensures var n := if VelocityHistory.Recent(h, cfg.day, now) then VelocityHistory.Saturating(h[g..]) else 0;
            RoomInWindow(cfg, s, r, now) <==> (n + 1) as real <= cfg.caps.defaultDaily
  {
    VelocityHistory.ReadingIsGenerationCount(h, cfg.day, now, g);
    RoomExactly(cfg, s, r, now);
  }

  // ---- Source, destination and transaction cap ---------------------------

  /** The source is accepted: a session, and the second factor if any rule of the rail demands it. */
  lemma SourceAcceptedExactly(kit: Kit, cfg: Config, r: Request)
    ensures SourceAccepted(kit, cfg, r) <==>
      && (r.sessionValid || cfg.sessionDefault)
      && (r.session2FA || forall k :: 0 <= k < |cfg.caps.rules| ==>
            !(cfg.caps.rules[k].rail == r.rail && cfg.caps.rules[k].requires2FA
              && AmountUSD(kit, r) >= cfg.caps.rules[k].usdThreshold))
  {}

  /**
   * The whitelist stage over every interleaving of Adds and Verifies: it passes exactly when an Add of
   * the caller, the destination's chain and the destination's address was followed by its Verify.
   */
  lemma WhitelistStageExactly(kit: Kit, cfg: Config, s: Signals, r: Request, steps: seq<WhitelistRuns.Step>)
    requires AuthFailure(kit, cfg, r).None? && s.table == WhitelistRuns.Run(steps).mem
    requires WhitelistRuns.Apart(WhitelistRuns.Named(steps)
                                 + {Whitelist.Triple(r.userId, r.destChain, r.destAddress)})
    ensures ReachesVelocity(kit, cfg, s, r) <==>
      WhitelistRuns.AddedThenConfirmed(WhitelistRuns.Run(steps).log,
                                       Whitelist.Triple(r.userId, r.destChain, r.destAddress))
  {
    WhitelistRuns.WhitelistedExactlyWhenVerified(steps, Whitelist.Triple(r.userId, r.destChain, r.destAddress));
  }

  /** The transaction cap: the chosen rule's if positive, the default otherwise; no tier is the first. */
  lemma TxCapExactly(cfg: Config, r: Request)
    ensures var tier := if r.userTier == "" then "tier_1" else r.userTier;
      var rule := Caps.Chosen(cfg.caps.rules, Caps.Scope(tier, r.rail, r.asset, "tx"));
      && (rule.Some? && rule.value.usdCap > 0.0 ==> TxCap(cfg, r) == rule.value.usdCap)
      && (rule.None? || rule.value.usdCap <= 0.0 ==> TxCap(cfg, r) == cfg.caps.defaultTx)
  {}

  /** The amount the caps and the policy see: the parsed amount, times the rate unless that does not apply. */
  lemma AmountExactly(kit: Kit, r: Request)
    ensures var v := kit.parse(r.amount);
      AmountUSD(kit, r) == (if v.Some? then v.value else 0.0)
                           * (if kit.upperTrim(r.currency) != "USD" && r.fxRate > 0.0 then r.fxRate else 1.0)
  {}

  // ---- The trail of a judgement ------------------------------------------

  /** A call past the early stages: the reasons so far. */
  function Passed(cfg: Config): seq<string> {
    if cfg.hasVelocity then ["whitelisted", "velocity_daily_ok"] else ["whitelisted"]
  }

  /** The whole trail of reasons, by what stopped the call. */
  lemma TrailExactly(kit: Kit, cfg: Config, s: Signals, r: Request, now: int)
    ensures var j := Judged(kit, cfg, s, r, now);
      var session, listed := r.sessionValid || cfg.sessionDefault, Whitelist.IsWhitelisted(s.table, Target(r));
      j.reasons ==
        if !session then ["invalid_session"]
        else if !SourceAccepted(kit, cfg, r) then ["2fa_required"]
        else if !listed then ["dest_not_whitelisted"]
        else if !RoomInWindow(cfg, s, r, now) then ["whitelisted", "velocity_daily_exceeded"]
        else if 0.0 < TxCap(cfg, r) < AmountUSD(kit, r) then Passed(cfg) + ["cap_tx_exceeded"]
        else if !WithinCap(kit, cfg, r) then Passed(cfg) + ["near_cap_tx"]
        else if !PolicyAnswers(kit, cfg, s, r) then Passed(cfg) + ["engine_error"]
        else Passed(cfg)
  {
    CapReasons(kit, cfg, r);
    CapOutcomeExactly(kit, cfg, r);
  }

  /** The score, by what stopped the call; the policy's own if nothing did. */
  lemma ScoreExactly(kit: Kit, cfg: Config, s: Signals, r: Request, now: int)
    ensures var j := Judged(kit, cfg, s, r, now);
      && (!SourceAccepted(kit, cfg, r) ==> j.score == 1.0)
      && (SourceAccepted(kit, cfg, r) ==>
            var early := Whitelist.IsWhitelisted(s.table, Target(r)) && RoomInWindow(cfg, s, r, now);
            && (!early ==> j.score == 0.5)
            && (early && 0.0 < TxCap(cfg, r) < AmountUSD(kit, r) ==> j.score == 0.5)
            && (early && !WithinCap(kit, cfg, r) && AmountUSD(kit, r) <= TxCap(cfg, r) ==> j.score == 0.3)
            && (early && WithinCap(kit, cfg, r) && !PolicyAnswers(kit, cfg, s, r) ==> j.score == 0.5)
            && (early && WithinCap(kit, cfg, r) && PolicyAnswers(kit, cfg, s, r) ==>
                  j.score == kit.opa.query(Engine.InForce(kit.opa, s.engine).value,
                                           EngineInput(kit, cfg, s, r)).value.score))
  {
    CapOutcomeExactly(kit, cfg, r);
  }

  /** The rule whose cap was looked at, as it is listed. */
  function CapRule(cfg: Config, r: Request): seq<AppliedRule> {
    var rule := Caps.Chosen(cfg.caps.rules, Caps.Scope(Tier(r), r.rail, r.asset, "tx"));
    if TxCap(cfg, r) > 0.0 && rule.Some? then [AppliedRule(rule.value.id, "")] else []
  }

  lemma CapRuleIsTheOutcomes(kit: Kit, cfg: Config, r: Request)
    ensures var o := CapOutcome(kit, cfg, r).rule;
            CapRule(cfg, r) == if o.Some? then [AppliedRule(o.value.id, "")] else []
  {}

  /** A call stopped before the policy lists the cap's rule if it came that far. */
  lemma RulesBeforePolicy(kit: Kit, cfg: Config, s: Signals, r: Request, now: int)
    ensures var j := Judged(kit, cfg, s, r, now);
      var early := SourceAccepted(kit, cfg, r) && Whitelist.IsWhitelisted(s.table, Target(r))
                   && RoomInWindow(cfg, s, r, now);
      && (!early ==> j.rules == [])
      && (early && (!WithinCap(kit, cfg, r) || !PolicyAnswers(kit, cfg, s, r)) ==> j.rules == CapRule(cfg, r))
  {
    CapOutcomeExactly(kit, cfg, r);
    CapRuleIsTheOutcomes(kit, cfg, r);
  }

  /** A call the policy answers lists the cap's rule, and then what the policy fired, with its version. */
  lemma RulesOfPolicy(kit: Kit, cfg: Config, s: Signals, r: Request, now: int)
    requires SourceAccepted(kit, cfg, r) && Whitelist.IsWhitelisted(s.table, Target(r))
    requires RoomInWindow(cfg, s, r, now) && WithinCap(kit, cfg, r) && PolicyAnswers(kit, cfg, s, r)
    ensures var rules, cap := Judged(kit, cfg, s, r, now).rules, CapRule(cfg, r);
      var v := kit.opa.query(Engine.InForce(kit.opa, s.engine).value, EngineInput(kit, cfg, s, r)).value;
      && cap <= rules && |rules| == |cap| + |Engine.AppliedRules(v)|
      && forall i :: |cap| <= i < |rules| ==>
           rules[i] == AppliedRule(Engine.AppliedRules(v)[i - |cap|], s.engine.bundle.version)
  {
    CapOutcomeExactly(kit, cfg, r);
    CapRuleIsTheOutcomes(kit, cfg, r);
  }
}
