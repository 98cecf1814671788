/** The seed policy, decisions.rego, as predicates over the input document and the caps data. */
module Rego {
  import opened Prelude

  datatype Input = Input(userId: string, amountUsd: real, kyt: string, fraud: real, kyc: string,
                         dest: string, whitelisted: bool, requires2FA: bool, passed2FA: bool)

  /** data.caps.tx.max_usd and data.caps.daily.max_usd; a missing one makes its rules undefined. */
  datatype Limits = Limits(txMax: Option<real>, dailyMax: Option<real>)

  predicate WithinTx(d: Limits, i: Input) {
    d.txMax.Some? && i.amountUsd <= d.txMax.value
  }

  predicate Allow(d: Limits, i: Input) {
    || (WithinTx(d, i) && i.kyt == "clean" && i.fraud < 0.5 && i.kyc == "verified" && i.whitelisted
        && !i.requires2FA)
    || (WithinTx(d, i) && i.kyt == "clean" && i.fraud < 0.5 && i.kyc == "verified" && i.whitelisted
        && i.requires2FA && i.passed2FA)
  }

  predicate ManualReview(d: Limits, i: Input) {
    || 0.5 <= i.fraud < 0.8
    || (d.dailyMax.Some? && d.dailyMax.value * 0.9 <= i.amountUsd && i.amountUsd <= d.dailyMax.value)
  }

  predicate Deny(d: Limits, i: Input) {
    || i.fraud >= 0.8
    || i.kyt == "sanctioned"
    || (d.dailyMax.Some? && i.amountUsd > d.dailyMax.value)
    || !i.whitelisted
    || (i.requires2FA && !i.passed2FA)
    || i.kyc != "verified"
  }

  function KytWeight(v: string): Option<real> {
    if v == "sanctioned" then Some(1.0) else if v == "high_risk" then Some(0.5)
    else if v == "clean" then Some(0.0) else if v == "unknown" then Some(0.2) else None
  }

  function KycWeight(v: string): Option<real> {
    if v == "verified" then Some(0.0) else if v == "restricted" then Some(0.5)
    else if v == "expired" then Some(0.8) else if v == "unverified" then Some(1.0) else None
  }

  /** The engine reads an undefined risk_score as zero. */
  function RiskScore(i: Input): real {
    var a, b := KytWeight(i.kyt), KycWeight(i.kyc);
    if a.Some? && b.Some? then (a.value + i.fraud + b.value) / 3.0 else 0.0
  }

  /** The outcome the precedence deny > manual_review > allow turns into an allow. */
  predicate Clean(d: Limits, i: Input) {
    Allow(d, i) && !ManualReview(d, i) && !Deny(d, i)
  }

  /** The amounts the daily cap leaves alone: below nine tenths of it, and not above it. */
  predicate BelowDaily(d: Limits, amount: real) {
    d.dailyMax.Some? ==> amount < d.dailyMax.value * 0.9 && amount <= d.dailyMax.value
  }

  /** The clean region as one conjunction of facts about the input. */
  lemma CleanExactly(d: Limits, i: Input)
    ensures Clean(d, i) <==>
      && i.whitelisted && (i.requires2FA ==> i.passed2FA)
      && i.kyt == "clean" && i.kyc == "verified" && i.fraud < 0.5
      && WithinTx(d, i) && BelowDaily(d, i.amountUsd)
  {}

  /** The policy's allow never coincides with its review or deny, whatever the input. */
  ghost predicate AllowIsExclusive(d: Limits) {
    forall i :: Allow(d, i) ==> !ManualReview(d, i) && !Deny(d, i)
  }

  /** The two caps are set so that no amount within the transaction cap reaches the daily rules. */
  predicate CapsApart(d: Limits) {
    d.txMax.Some? && d.dailyMax.Some? ==>
      if d.dailyMax.value >= 0.0 then d.txMax.value < d.dailyMax.value * 0.9
      else d.txMax.value <= d.dailyMax.value
  }

  /**
   * Allow excludes review and deny if and only if the caps are apart. For a non-negative daily
   * cap that is tx < 0.9 * daily; below zero nine tenths lies above the cap and tx <= daily is exact.
   */
  lemma AllowExclusiveExactlyWhenCapsApart(d: Limits)
    ensures AllowIsExclusive(d) <==> CapsApart(d)
  {
    if !CapsApart(d) {
      var i := Input("u", d.txMax.value, "clean", 0.0, "verified", "x", true, false, false);
      var j := i.(amountUsd := d.dailyMax.value);
      assert Allow(d, i) && (ManualReview(d, i) || Deny(d, i) || ManualReview(d, j));
    }
  }

  /**
   * The clean region is downward closed for every policy data: a smaller amount, a smaller fraud
   * score and a weaker 2FA demand keep a clean input clean.
   */
  lemma CleanDownwardClosed(d: Limits, i: Input, amount: real, fraud: real, requires2FA: bool)
    requires Clean(d, i) && amount <= i.amountUsd && fraud <= i.fraud && (requires2FA ==> i.requires2FA)
    ensures Clean(d, i.(amountUsd := amount, fraud := fraud, requires2FA := requires2FA))
  {}
}
