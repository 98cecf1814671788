/** The swappable policy engine and its hot reloader. */
module Engine {
  import opened Prelude
  import opened Rego

  type Source = map<string, string>
  type Data = map<string, string>

  datatype Bundle = Bundle(version: string, hash: string, source: Source, data: Data)

  /** A compiled policy with its data store: both are built together from one bundle. */
  datatype Compiled = Compiled(source: Source, data: Data)

  datatype State = State(bundle: Bundle, policy: Option<Compiled>)

  datatype Verdict = Verdict(allow: bool, review: bool, deny: bool, score: real)

  /** What an evaluation hands back; `None` is the error result. */
  datatype Answer = Answer(decision: string, rules: seq<string>, score: real)

  /** Opaque OPA: whether a source compiles, and the four queries, any of which may fail. */
  datatype Opa = Opa(compiles: Source -> bool, query: (Compiled, Input) -> Option<Verdict>)

  function CompiledOf(b: Bundle): Compiled {
    Compiled(b.source, b.data)
  }

  function Started(opa: Opa, b: Bundle): State {
    State(b, if opa.compiles(b.source) then Some(CompiledOf(b)) else None)
  }

  /** Swap replaces the bundle always, and the compiled policy only if the bundle compiles. */
  function Swapped(opa: Opa, s: State, b: Bundle): State {
    State(b, if opa.compiles(b.source) then Some(CompiledOf(b)) else s.policy)
  }

  function Decide(v: Verdict): string {
    if v.deny then "deny" else if v.review then "manual_review" else if v.allow then "allow" else "manual_review"
  }

  function AppliedRules(v: Verdict): seq<string> {
    (if v.deny then ["deny.fraud_high", "deny.kyt_sanctioned", "deny.daily_cap_exceeded",
                     "deny.dest_not_whitelisted", "deny.kyc_not_verified"] else [])
    + (if v.review then ["manual_review.fraud_mid", "manual_review.near_cap"] else [])
    + (if v.allow then ["allow.clean"] else [])
  }

  /** The policy an evaluation runs: the cached one, or the bundle compiled on the spot. */
  function InForce(opa: Opa, s: State): Option<Compiled> {
    if s.policy.Some? then s.policy
    else if opa.compiles(s.bundle.source) then Some(CompiledOf(s.bundle))
    else None
  }

  function Answered(opa: Opa, s: State, i: Input): Option<Answer> {
    var p := InForce(opa, s);
    if p.None? then None
    else
      var v := opa.query(p.value, i);
      if v.None? then None else Some(Answer(Decide(v.value), AppliedRules(v.value), v.value.score))
  }

  class OPAEngine {
    const opa: Opa
    var bundle: Bundle
    var compiler: Option<Source>
    var store: Option<Data>

    ghost predicate Valid()
      reads this
    {
      compiler.Some? <==> store.Some?
    }

    ghost function View(): State
      reads this
      requires Valid()
    {
      State(bundle, if compiler.Some? then Some(Compiled(compiler.value, store.value)) else None)
    }

    constructor (opa: Opa, b: Bundle)
      ensures Valid() && this.opa == opa && View() == Started(opa, b)
    {
      this.opa := opa;
      bundle := b;
      compiler := None;
      store := None;
      new;
      Rebuild();
    }

    method Rebuild()
      requires Valid()
      modifies this
      ensures Valid() && View() == Swapped(opa, old(View()), old(bundle))
    {
      if !opa.compiles(bundle.source) {
        return;
      }
      compiler := Some(bundle.source);
      store := Some(bundle.data);
    }

    method Swap(b: Bundle)
      requires Valid()
      modifies this
      ensures Valid() && View() == Swapped(opa, old(View()), b)
    {
      bundle := b;
      Rebuild();
    }

    method Evaluate(i: Input) returns (r: Option<Answer>)
      requires Valid()
      ensures r == Answered(opa, View(), i)
    {
      var c, d := compiler, store;
      if c.None? {
        if !opa.compiles(bundle.source) {
          return None;
        }
        c, d := Some(bundle.source), Some(bundle.data);
      }
      var v := opa.query(Compiled(c.value, d.value), i);
      if v.None? {
        return None;
      }
      return Some(Answer(Decide(v.value), AppliedRules(v.value), v.value.score));
    }
  }

  /** The decision is one of the three the gate knows; allow needs a verdict of allow alone, deny any deny. */
  lemma DecisionIsKnown(v: Verdict)
    ensures Decide(v) in ["allow", "deny", "manual_review"]
    ensures Decide(v) == "allow" <==> v.allow && !v.review && !v.deny
    ensures Decide(v) == "deny" <==> v.deny
  {}

  const DENY_RULES := multiset{"deny.fraud_high", "deny.kyt_sanctioned", "deny.daily_cap_exceeded",
                               "deny.dest_not_whitelisted", "deny.kyc_not_verified"}
  const REVIEW_RULES := multiset{"manual_review.fraud_mid", "manual_review.near_cap"}

  /** Each family of rules is listed in full and once exactly when its flag is set, denies first, allow last. */
  lemma RulesTellTheVerdict(v: Verdict)
    ensures var rules := AppliedRules(v);
            && multiset(rules) == (if v.deny then DENY_RULES else multiset{})
                                  + (if v.review then REVIEW_RULES else multiset{})
                                  + (if v.allow then multiset{"allow.clean"} else multiset{})
            && (v.deny ==> forall i :: 0 <= i < 5 ==> rules[i] in DENY_RULES)
            && (v.allow ==> rules[|rules| - 1] == "allow.clean")
  {
    var d := ["deny.fraud_high", "deny.kyt_sanctioned", "deny.daily_cap_exceeded",
              "deny.dest_not_whitelisted", "deny.kyc_not_verified"];
    var m := ["manual_review.fraud_mid", "manual_review.near_cap"];
    assert multiset(d) == DENY_RULES && multiset(m) == REVIEW_RULES;
    assert AppliedRules(v) == (if v.deny then d else []) + (if v.review then m else [])
                              + (if v.allow then ["allow.clean"] else []);
    assert forall i :: 0 <= i < 5 ==> d[i] in multiset(d);
  }

  // ---- Swap history ------------------------------------------------------

  /** The engine after being built on the first bundle and swapped to each of the others in turn. */
  function After(opa: Opa, bundles: seq<Bundle>): State
    requires bundles != []
  {
    if |bundles| == 1 then Started(opa, bundles[0])
    else Swapped(opa, After(opa, bundles[..|bundles| - 1]), bundles[|bundles| - 1])
  }

  /** Bundle `i` is the most recent one that compiles. */
  ghost predicate LatestGood(opa: Opa, bundles: seq<Bundle>, i: nat) {
    && i < |bundles| && opa.compiles(bundles[i].source)
    && forall j :: i < j < |bundles| ==> !opa.compiles(bundles[j].source)
  }

  /**
   * Swap history: what is reported comes from the most recent bundle, what decides from the most
   * recent bundle that compiles; with none, evaluation has no policy to run.
   */
  lemma {:induction false} SwapHistory(opa: Opa, bundles: seq<Bundle>)
    requires bundles != []
    ensures After(opa, bundles).bundle == bundles[|bundles| - 1]
    ensures forall i: nat :: LatestGood(opa, bundles, i) ==>
              After(opa, bundles).policy == Some(Compiled(bundles[i].source, bundles[i].data))
    ensures (forall i :: 0 <= i < |bundles| ==> !opa.compiles(bundles[i].source))
            <==> InForce(opa, After(opa, bundles)) == None
  {
    if |bundles| > 1 {
      var p, n := bundles[..|bundles| - 1], |bundles| - 1;
      SwapHistory(opa, p);
      assert forall j :: 0 <= j < n ==> p[j] == bundles[j];
      forall i: nat | LatestGood(opa, bundles, i)
        ensures After(opa, bundles).policy == Some(Compiled(bundles[i].source, bundles[i].data))
      {
        if i < n {
          assert LatestGood(opa, p, i);
        }
      }
      if opa.compiles(bundles[n].source) {
        assert InForce(opa, After(opa, bundles)) != None;
      } else {
        NoPolicyAgrees(opa, bundles);
      }
    }
  }

  lemma {:induction false} NoPolicyAgrees(opa: Opa, bundles: seq<Bundle>)
    requires bundles != []
    ensures After(opa, bundles).policy == None
            <==> forall i :: 0 <= i < |bundles| ==> !opa.compiles(bundles[i].source)
  {
    if |bundles| > 1 {
      var p := bundles[..|bundles| - 1];
      NoPolicyAgrees(opa, p);
      assert forall j :: 0 <= j < |p| ==> p[j] == bundles[j];
    }
  }

  // ---- The validated reloader --------------------------------------------

  /** A poll of the bundle service: `None` when the download fails. */
  type Fetch = Option<Bundle>

  datatype Reloader = Reloader(engine: State, swaps: nat)

  predicate DefaultValid(opa: Opa, b: Bundle) {
    |b.source| > 0 && opa.compiles(b.source)
  }

  function Reloaded(opa: Opa, r: Reloader, f: Fetch): Reloader {
    if f.None? || f.value.hash == r.engine.bundle.hash || !DefaultValid(opa, f.value) then r
    else Reloader(Swapped(opa, r.engine, f.value), r.swaps + 1)
  }

  class HotReloader {
    const engine: OPAEngine
    var swaps: nat

    constructor (engine: OPAEngine)
      ensures this.engine == engine && swaps == 0
    {
      this.engine := engine;
      swaps := 0;
    }

    method ReloadOnce(f: Fetch)
      requires engine.Valid()
      modifies this, engine
      ensures engine.Valid()
      ensures Reloader(engine.View(), swaps) == Reloaded(engine.opa, old(Reloader(engine.View(), swaps)), f)
      ensures f.Some? && f.value.source != map[] && engine.opa.compiles(f.value.source)
              && f.value.hash != old(engine.bundle.hash)
              ==> engine.bundle == f.value && swaps == old(swaps) + 1
                  && engine.compiler == Some(f.value.source) && engine.store == Some(f.value.data)
    {
      if f.None? {
        return;
      }
      var b := f.value;
      if b.hash == engine.bundle.hash {
        return;
      }
      if |b.source| == 0 || !engine.opa.compiles(b.source) {
        return;
      }
      engine.Swap(b);
      swaps := swaps + 1;
    }
  }

  /** The reloader after each poll in turn, starting from an engine built on `first`. */
  function Polled(opa: Opa, first: Bundle, polls: seq<Fetch>): Reloader {
    if polls == [] then Reloader(Started(opa, first), 0)
    else Reloaded(opa, Polled(opa, first, polls[..|polls| - 1]), polls[|polls| - 1])
  }

  /** How often the active hash differed from one poll to the next. */
  function HashChanges(opa: Opa, first: Bundle, polls: seq<Fetch>): nat {
    if polls == [] then 0
    else
      var p := polls[..|polls| - 1];
      HashChanges(opa, first, p)
      + if Polled(opa, first, p).engine.bundle.hash != Polled(opa, first, polls).engine.bundle.hash then 1 else 0
  }

  /**
   * If the first bundle compiles and every swap goes through the validated reloader, the policy in
   * force is always the reported bundle's, and `swaps` counts exactly the changes of active hash.
   */
  lemma {:induction false} ReloaderKeepsBundleAndPolicyTogether(opa: Opa, first: Bundle, polls: seq<Fetch>)
    requires opa.compiles(first.source)
    ensures var r := Polled(opa, first, polls);
            r.engine.policy == Some(CompiledOf(r.engine.bundle)) && r.swaps == HashChanges(opa, first, polls)
  {
    if polls != [] {
      ReloaderKeepsBundleAndPolicyTogether(opa, first, polls[..|polls| - 1]);
    }
  }

  /** A poll that delivers something fit to run: a nonempty source that compiles. */
  predicate Fit(opa: Opa, f: Fetch) {
    f.Some? && f.value.source != map[] && opa.compiles(f.value.source)
  }

  /**
   * What one more poll does, after any polls: a fit bundle with another hash is reported, is what
   * decides, with its own data, and counts as one swap; any other poll changes nothing.
   */
  lemma ReloadExactly(opa: Opa, first: Bundle, polls: seq<Fetch>, f: Fetch)
    ensures var r, t := Polled(opa, first, polls), Polled(opa, first, polls + [f]);
            if f.Some? && f.value.source != map[] && opa.compiles(f.value.source)
               && f.value.hash != r.engine.bundle.hash
            then t.engine.bundle == f.value && t.engine.policy == Some(Compiled(f.value.source, f.value.data))
                 && InForce(opa, t.engine) == t.engine.policy && t.swaps == r.swaps + 1
            else t == r
  {
    assert (polls + [f])[..|polls|] == polls;
  }

  /** Poll `i` is the most recent one fit to run. */
  ghost predicate LatestFit(opa: Opa, polls: seq<Fetch>, i: nat) {
    i < |polls| && Fit(opa, polls[i]) && forall j :: i < j < |polls| ==> !Fit(opa, polls[j])
  }

  /** Over every poll history the active hash is that of the most recent fit bundle, or of the first bundle. */
  lemma {:induction false} ActiveHashIsTheLatestFit(opa: Opa, first: Bundle, polls: seq<Fetch>)
    ensures forall i: nat :: LatestFit(opa, polls, i) ==>
              Polled(opa, first, polls).engine.bundle.hash == polls[i].value.hash
    ensures (forall i :: 0 <= i < |polls| ==> !Fit(opa, polls[i])) ==>
              Polled(opa, first, polls) == Reloader(Started(opa, first), 0)
  {
    if polls != [] {
      var p, n := polls[..|polls| - 1], |polls| - 1;
      ActiveHashIsTheLatestFit(opa, first, p);
      ReloadExactly(opa, first, p, polls[n]);
      assert p + [polls[n]] == polls;
      forall i: nat | LatestFit(opa, polls, i)
        ensures Polled(opa, first, polls).engine.bundle.hash == polls[i].value.hash
      {
        if i < n {
          assert LatestFit(opa, p, i);
        }
      }
    }
  }

  /** The cached policy always comes from a source that compiled. */
  lemma {:induction false} CachedPolicyCompiled(opa: Opa, bundles: seq<Bundle>)
    requires bundles != []
    ensures var p := After(opa, bundles).policy; p.Some? ==> opa.compiles(p.value.source)
  {
    if |bundles| > 1 {
      CachedPolicyCompiled(opa, bundles[..|bundles| - 1]);
    }
  }

  /**
   * Publishing with activate swaps unchecked. After any such swaps the policy that decides is the
   * reported bundle's if and only if the last bundle swapped in compiles; otherwise the policy of
   * an earlier bundle decides under the new bundle's name, or there is none.
   */
  lemma ReportedDecidesExactlyWhenItCompiles(opa: Opa, bundles: seq<Bundle>)
    requires bundles != []
    ensures var s := After(opa, bundles);
            InForce(opa, s) == Some(CompiledOf(s.bundle)) <==> opa.compiles(bundles[|bundles| - 1].source)
  {
    SwapHistory(opa, bundles);
    CachedPolicyCompiled(opa, bundles);
  }
}
