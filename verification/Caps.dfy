/** Per-transaction caps: the three-pass rule search, the effective cap and near-cap routing. */
module Caps {
  import opened Prelude

  datatype Rule = Rule(id: string, tier: string, rail: string, asset: string, window: string,
                       usdCap: real, onExceed: string, usdThreshold: real, requires2FA: bool)
  datatype Config = Config(defaultDaily: real, defaultTx: real, near: real, rules: seq<Rule>)
  datatype Scope = Scope(tier: string, rail: string, asset: string, window: string)
  datatype Outcome = Outcome(exceeded: bool, nearCap: bool, rule: Option<Rule>, decision: string, reason: string)

  const PASSES := 3

  /** What pass `p` of the search accepts: tier rules, then rail rules, then asset rules. */
  predicate Hit(p: nat, r: Rule, s: Scope) {
    r.window == s.window &&
    if p == 0 then r.tier == s.tier && r.rail == "" && r.asset == ""
    else if p == 1 then r.rail == s.rail && r.tier == ""
    else r.asset == s.asset && r.tier == "" && r.rail == ""
  }

  /** The rules a pass accepts, in order. */
  function Hits(rules: seq<Rule>, p: nat, s: Scope): seq<Rule> {
    if rules == [] then []
    else (if Hit(p, rules[0], s) then [rules[0]] else []) + Hits(rules[1..], p, s)
  }

  function Chosen(rules: seq<Rule>, s: Scope): Option<Rule> {
    if Hits(rules, 0, s) != [] then Some(Hits(rules, 0, s)[0])
    else if Hits(rules, 1, s) != [] then Some(Hits(rules, 1, s)[0])
    else if Hits(rules, 2, s) != [] then Some(Hits(rules, 2, s)[0])
    else None
  }

  lemma {:induction false} HitsAt(rules: seq<Rule>, p: nat, s: Scope, i: nat)
    requires i < |rules| && Hit(p, rules[i], s) && forall j :: 0 <= j < i ==> !Hit(p, rules[j], s)
    ensures Hits(rules, p, s) != [] && Hits(rules, p, s)[0] == rules[i]
  {
    if i > 0 {
      HitsAt(rules[1..], p, s, i - 1);
    }
  }

  lemma {:induction false} HitsNowhere(rules: seq<Rule>, p: nat, s: Scope)
    requires forall j :: 0 <= j < |rules| ==> !Hit(p, rules[j], s)
    ensures Hits(rules, p, s) == []
  {
    if rules != [] {
      HitsNowhere(rules[1..], p, s);
    }
  }

  /** One scan of the rules: the first index accepted by pass `p`, or the length. */
  method Scan(rules: seq<Rule>, p: nat, s: Scope) returns (i: nat)
    ensures i <= |rules| && (i < |rules| ==> Hit(p, rules[i], s))
    ensures forall j :: 0 <= j < i ==> !Hit(p, rules[j], s)
  {
    i := 0;
    while i < |rules|
      invariant i <= |rules| && forall j :: 0 <= j < i ==> !Hit(p, rules[j], s)
    {
      if Hit(p, rules[i], s) {
        return;
      }
      i := i + 1;
    }
  }

  /** Position `i` hits in pass `p`; every hit is in a later pass, or in pass `p` at no smaller index. */
  ghost predicate LeastHit(rules: seq<Rule>, s: Scope, p: nat, i: nat) {
    && p < PASSES && i < |rules| && Hit(p, rules[i], s)
    && forall q: nat, j: nat :: q < PASSES && j < |rules| && Hit(q, rules[j], s) ==> p < q || (p == q && i <= j)
  }

  /**
   * The most specific rule: the one least by (pass, index), and none only if no pass hits.
   */
  method MatchRule(rules: seq<Rule>, s: Scope) returns (r: Option<Rule>)
    ensures r == Chosen(rules, s)
    ensures r.None? ==> forall q: nat, j: nat :: q < PASSES && j < |rules| ==> !Hit(q, rules[j], s)
    ensures r.Some? ==> exists p: nat, i: nat :: LeastHit(rules, s, p, i) && rules[i] == r.value
  {
    var i := Scan(rules, 0, s);
    if i < |rules| {
      HitsAt(rules, 0, s, i);
      assert LeastHit(rules, s, 0, i);
      return Some(rules[i]);
    }
    HitsNowhere(rules, 0, s);
    i := Scan(rules, 1, s);
    if i < |rules| {
      HitsAt(rules, 1, s, i);
      assert LeastHit(rules, s, 1, i);
      return Some(rules[i]);
    }
    HitsNowhere(rules, 1, s);
    i := Scan(rules, 2, s);
    if i < |rules| {
      HitsAt(rules, 2, s, i);
      assert LeastHit(rules, s, 2, i);
      return Some(rules[i]);
    }
    HitsNowhere(rules, 2, s);
    return None;
  }

  /** A rule of the window for the tier alone comes first. */
  lemma TierRuleFirst(rules: seq<Rule>, s: Scope, i: nat)
    requires i < |rules| && rules[i].window == s.window && rules[i].tier == s.tier
    requires rules[i].rail == "" && rules[i].asset == ""
    requires forall j :: 0 <= j < i ==>
               !(rules[j].window == s.window && rules[j].tier == s.tier && rules[j].rail == "" && rules[j].asset == "")
    ensures Chosen(rules, s) == Some(rules[i])
  {
    HitsAt(rules, 0, s, i);
  }

  /** Without one, a rule for the rail that names no tier is next, whatever its asset. */
  lemma RailRuleNext(rules: seq<Rule>, s: Scope, i: nat)
    requires forall j :: 0 <= j < |rules| ==>
               !(rules[j].window == s.window && rules[j].tier == s.tier && rules[j].rail == "" && rules[j].asset == "")
    requires i < |rules| && rules[i].window == s.window && rules[i].rail == s.rail && rules[i].tier == ""
    requires forall j :: 0 <= j < i ==>
               !(rules[j].window == s.window && rules[j].rail == s.rail && rules[j].tier == "")
    ensures Chosen(rules, s) == Some(rules[i])
  {
    HitsNowhere(rules, 0, s);
    HitsAt(rules, 1, s, i);
  }

  /** Without that either, a rule for the asset that names neither tier nor rail. */
  lemma AssetRuleLast(rules: seq<Rule>, s: Scope, i: nat)
    requires forall j :: 0 <= j < |rules| ==>
               !(rules[j].window == s.window && rules[j].tier == s.tier && rules[j].rail == "" && rules[j].asset == "")
    requires forall j :: 0 <= j < |rules| ==>
               !(rules[j].window == s.window && rules[j].rail == s.rail && rules[j].tier == "")
    requires i < |rules| && rules[i].window == s.window && rules[i].asset == s.asset
    requires rules[i].tier == "" && rules[i].rail == ""
    requires forall j :: 0 <= j < i ==>
               !(rules[j].window == s.window && rules[j].asset == s.asset && rules[j].tier == "" && rules[j].rail == "")
    ensures Chosen(rules, s) == Some(rules[i])
  {
    HitsNowhere(rules, 0, s);
    HitsNowhere(rules, 1, s);
    HitsAt(rules, 2, s, i);
  }

  /** Whatever is found is one of the rules, of the window and one of the three kinds; without one nothing is found. */
  lemma NoOtherRule(rules: seq<Rule>, s: Scope)
    ensures var kin := (r: Rule) => r.window == s.window && (
                         || (r.tier == s.tier && r.rail == "" && r.asset == "")
                         || (r.rail == s.rail && r.tier == "")
                         || (r.asset == s.asset && r.tier == "" && r.rail == ""));
            && (Chosen(rules, s).Some? ==> Chosen(rules, s).value in rules && kin(Chosen(rules, s).value))
            && (Chosen(rules, s).None? ==> forall r :: r in rules ==> !kin(r))
  {
    var p := FirstPass(rules, s);
    ChosenInFirstPass(rules, s);
    if p < PASSES {
      var i := HitsSound(rules, p, s, 0);
    } else {
      forall r | r in rules ensures !Hit(0, r, s) && !Hit(1, r, s) && !Hit(2, r, s) {
        HitsCount(rules, 0, s, r);
        HitsCount(rules, 1, s, r);
        HitsCount(rules, 2, s, r);
        assert multiset(rules)[r] > 0;
      }
    }
  }

  // ---- Does the order of the rules matter? -------------------------------

  lemma {:induction false} HitsCount(rules: seq<Rule>, p: nat, s: Scope, r: Rule)
    ensures multiset(Hits(rules, p, s))[r] == if Hit(p, r, s) then multiset(rules)[r] else 0
  {
    if rules != [] {
      HitsCount(rules[1..], p, s, r);
      assert rules == [rules[0]] + rules[1..];
    }
  }

  lemma HitsPermute(a: seq<Rule>, b: seq<Rule>, p: nat, s: Scope)
    requires multiset(a) == multiset(b)
    ensures multiset(Hits(a, p, s)) == multiset(Hits(b, p, s))
  {
    forall r ensures multiset(Hits(a, p, s))[r] == multiset(Hits(b, p, s))[r] {
      HitsCount(a, p, s, r);
      HitsCount(b, p, s, r);
    }
  }

  /** The first pass that accepts any rule (or one past the last). */
  function FirstPass(rules: seq<Rule>, s: Scope): nat {
    if Hits(rules, 0, s) != [] then 0 else if Hits(rules, 1, s) != [] then 1
    else if Hits(rules, 2, s) != [] then 2 else PASSES
  }

  /** All rules accepted by the deciding pass are copies of one rule. */
  ghost predicate Unambiguous(rules: seq<Rule>, s: Scope) {
    var h := Hits(rules, FirstPass(rules, s), s);
    FirstPass(rules, s) < PASSES ==> forall i :: 0 <= i < |h| ==> h[i] == h[0]
  }

  /** Rearranging the rules never changes the rule found. */
  ghost predicate OrderFree(rules: seq<Rule>, s: Scope) {
    forall other :: multiset(other) == multiset(rules) ==> Chosen(other, s) == Chosen(rules, s)
  }

  lemma SameEmptiness(a: seq<Rule>, b: seq<Rule>, p: nat, s: Scope)
    requires multiset(a) == multiset(b)
    ensures Hits(a, p, s) == [] <==> Hits(b, p, s) == []
  {
    HitsPermute(a, b, p, s);
    assert |Hits(a, p, s)| == |multiset(Hits(a, p, s))| && |Hits(b, p, s)| == |multiset(Hits(b, p, s))|;
  }

  lemma SameFirstPass(a: seq<Rule>, b: seq<Rule>, s: Scope)
    requires multiset(a) == multiset(b)
    ensures FirstPass(a, s) == FirstPass(b, s)
  {
    SameEmptiness(a, b, 0, s);
    SameEmptiness(a, b, 1, s);
    SameEmptiness(a, b, 2, s);
  }

  lemma ChosenInFirstPass(rules: seq<Rule>, s: Scope)
    ensures var p := FirstPass(rules, s);
            Chosen(rules, s) == if p < PASSES then Some(Hits(rules, p, s)[0]) else None
  {}

  lemma UnambiguousIsOrderFree(a: seq<Rule>, b: seq<Rule>, s: Scope)
    requires Unambiguous(a, s) && multiset(a) == multiset(b)
    ensures Chosen(a, s) == Chosen(b, s)
  {
    SameFirstPass(a, b, s);
    ChosenInFirstPass(a, s);
    ChosenInFirstPass(b, s);
    var p := FirstPass(a, s);
    if p < PASSES {
      HitsPermute(a, b, p, s);
      var x := Hits(b, p, s)[0];
      assert x in multiset(Hits(b, p, s));
      assert x in Hits(a, p, s);
    }
  }

  lemma {:induction false} HitsSound(rules: seq<Rule>, p: nat, s: Scope, k: nat) returns (i: nat)
    requires k < |Hits(rules, p, s)|
    ensures i < |rules| && rules[i] == Hits(rules, p, s)[k] && Hit(p, rules[i], s)
  {
    if Hit(p, rules[0], s) && k == 0 {
      i := 0;
    } else {
      i := HitsSound(rules[1..], p, s, if Hit(p, rules[0], s) then k - 1 else k);
      i := i + 1;
    }
  }

  lemma MovedToFront(rules: seq<Rule>, i: nat)
    requires i < |rules|
    ensures multiset([rules[i]] + rules[..i] + rules[i + 1..]) == multiset(rules)
  {
    assert rules == rules[..i] + [rules[i]] + rules[i + 1..];
  }

  /** Moving an accepted rule of the deciding pass to the front makes it the rule found. */
  lemma FrontWins(rules: seq<Rule>, s: Scope, k: nat) returns (other: seq<Rule>)
    requires FirstPass(rules, s) < PASSES && k < |Hits(rules, FirstPass(rules, s), s)|
    ensures multiset(other) == multiset(rules)
    ensures Chosen(other, s) == Some(Hits(rules, FirstPass(rules, s), s)[k])
  {
    var p := FirstPass(rules, s);
    var i := HitsSound(rules, p, s, k);
    var x := rules[i];
    other := [x] + rules[..i] + rules[i + 1..];
    MovedToFront(rules, i);
    HitsAt(other, p, s, 0);
    SameFirstPass(other, rules, s);
    ChosenInFirstPass(other, s);
  }

  /** Cap rule search: the rule found is independent of order if and only if it is unambiguous. */
  lemma OrderFreeExactlyWhenUnambiguous(rules: seq<Rule>, s: Scope)
    ensures OrderFree(rules, s) <==> Unambiguous(rules, s)
  {
    if Unambiguous(rules, s) {
      forall other | multiset(other) == multiset(rules) ensures Chosen(other, s) == Chosen(rules, s) {
        UnambiguousIsOrderFree(rules, other, s);
      }
    }
    if OrderFree(rules, s) && FirstPass(rules, s) < PASSES {
      var h := Hits(rules, FirstPass(rules, s), s);
      forall i | 0 <= i < |h| ensures h[i] == h[0] {
        var other := FrontWins(rules, s, i);
        ChosenInFirstPass(rules, s);
      }
    }
  }

  // ---- Cap evaluation ----------------------------------------------------

  function EffectiveCap(c: Config, rule: Option<Rule>, window: string): real {
    if rule.Some? && rule.value.usdCap > 0.0 then rule.value.usdCap
    else if window == "1d" then c.defaultDaily
    else if window == "tx" then c.defaultTx
    else 0.0
  }

  /** A rule's positive cap comes before the defaults; those are the daily one, the transaction one, or no cap. */
  lemma CapInForce(c: Config, rule: Option<Rule>)
    ensures rule.Some? && rule.value.usdCap > 0.0 ==> forall w :: EffectiveCap(c, rule, w) == rule.value.usdCap
    ensures rule.None? || rule.value.usdCap <= 0.0 ==>
              && EffectiveCap(c, rule, "1d") == c.defaultDaily && EffectiveCap(c, rule, "tx") == c.defaultTx
              && forall w :: w !in ["1d", "tx"] ==> EffectiveCap(c, rule, w) == 0.0
  {}

  function Judged(c: Config, s: Scope, amount: real): Outcome {
    var rule := Chosen(c.rules, s);
    var cap := EffectiveCap(c, rule, s.window);
    if cap <= 0.0 then Outcome(false, false, None, "", "")
    else if amount > cap then
      var d := if rule.Some? && rule.value.onExceed == "manual_review" then "manual_review" else "deny";
      Outcome(true, false, rule, d, "cap_" + s.window + "_exceeded")
    else if amount >= cap * c.near then
      Outcome(false, true, rule, "manual_review", "near_cap_" + s.window)
    else Outcome(false, false, rule, "", "")
  }

  method Evaluate(c: Config, s: Scope, amount: real) returns (res: Outcome)
    ensures res == Judged(c, s, amount)
  {
    var rule := MatchRule(c.rules, s);
    var cap := EffectiveCap(c, rule, s.window);
    if cap <= 0.0 {
      return Outcome(false, false, None, "", "");
    }
    res := Outcome(false, false, rule, "", "");
    if amount > cap {
      res := res.(exceeded := true);
      res := res.(decision := "deny");
      res := res.(reason := "cap_" + s.window + "_exceeded");
      if rule.Some? && rule.value.onExceed == "manual_review" {
        res := res.(decision := "manual_review");
      }
      return;
    }
    if amount >= cap * c.near {
      res := res.(nearCap := true, decision := "manual_review", reason := "near_cap_" + s.window);
    }
  }

  function Severity(o: Outcome): nat {
    if !o.exceeded && !o.nearCap then 0 else if o.decision == "manual_review" then 1 else 2
  }

  /** A larger amount never gets a milder cap outcome, whatever the near-cap fraction. */
  lemma SeverityMonotone(c: Config, s: Scope, small: real, large: real)
    requires small <= large
    ensures Severity(Judged(c, s, small)) <= Severity(Judged(c, s, large))
  {}

  /** Some rule of this rail demands a second factor at this amount. */
  predicate Demands2FA(c: Config, rail: string, amount: real) {
    exists i :: 0 <= i < |c.rules|
      && c.rules[i].rail == rail && c.rules[i].requires2FA && amount >= c.rules[i].usdThreshold
  }

  method HighValue2FARequired(c: Config, rail: string, amount: real) returns (yes: bool)
    ensures yes <==> Demands2FA(c, rail, amount)
  {
    for i := 0 to |c.rules|
      invariant forall j :: 0 <= j < i ==>
                  !(c.rules[j].rail == rail && c.rules[j].requires2FA && amount >= c.rules[j].usdThreshold)
    {
      var r := c.rules[i];
      if r.rail == rail && r.requires2FA && amount >= r.usdThreshold {
        return true;
      }
    }
    return false;
  }

  /** `upperTrim` stands for the library's trimming and upper-casing. */
  function FXToUSD(amount: real, currency: string, rate: real, upperTrim: string -> string): real {
    if upperTrim(currency) == "USD" || rate <= 0.0 then amount else amount * rate
  }

  /**
   * Conversion is linear in the amount, and for a foreign currency with a positive rate linear in
   * the rate; dollars, and amounts without a positive rate, are taken as they are.
   */
  lemma ConversionIsLinear(a: real, b: real, currency: string, rate: real, k: real, upperTrim: string -> string)
    ensures FXToUSD(a + b, currency, rate, upperTrim)
            == FXToUSD(a, currency, rate, upperTrim) + FXToUSD(b, currency, rate, upperTrim)
    ensures upperTrim(currency) == "USD" || rate <= 0.0 ==> FXToUSD(a, currency, rate, upperTrim) == a
    ensures FXToUSD(a, currency, 1.0, upperTrim) == a
    ensures upperTrim(currency) != "USD" && rate > 0.0 && k > 0.0 ==>
              FXToUSD(a, currency, rate * k, upperTrim) == k * FXToUSD(a, currency, rate, upperTrim)
  {
    if upperTrim(currency) != "USD" && rate > 0.0 && k > 0.0 {
      assert rate * k > 0.0;
    }
  }
}
