/** What an evaluation returns and leaves behind, in terms of its request and its surroundings. */
module GateOutcome {
  import opened Prelude
  import opened Gate
  import opened GateDecision
  import opened GateRuns
  import Audit
  import Review

  /** A request is rejected exactly when a required field is blank or the amount is no number. */
  lemma RejectedExactly(kit: Kit, cfg: Config, mode: Audit.Setup, s: State, r: Request, now: int, id: string,
                        fault: bool)
    ensures var (t, out) := Evaluated(kit, cfg, mode, s, r, now, id, fault);
      && (out.Invalid? <==> || kit.trim(r.userId) == "" || kit.trim(r.amount) == "" || kit.parse(r.amount).None?
                            || kit.trim(r.currency) == "" || kit.trim(r.destAddress) == "")
      && (out.Invalid? ==> t == s)
  {}

  /** The record a judged request is audited by, before its date and its signature. */
  lemma RecordIsTheJudgement(kit: Kit, r: Request, j: Judgement, version: string, id: string)
    ensures var rec := RecordOf(kit, r, j, version, id);
      && rec.decisionId == id && rec.policyVersion == version && rec.decision == j.decision
      && rec.reasons == j.reasons && rec.score == j.score && rec.createdAt == None && rec.signature == ""
      && |rec.appliedRules| == |j.rules|
      && (forall i :: 0 <= i < |j.rules| ==> rec.appliedRules[i] == j.rules[i].id)
      && rec.requestHash == kit.hash(AuditRequest(r.userId, r.amount, r.currency, r.asset, r.rail, r.destAddress,
                                                  r.destChain, r.kyt, r.fraud, r.kyc))
  {}

  /** If the hash tells audit requests apart, two records have one hash exactly for requests that agree in all of it. */
  lemma HashTellsRequestsApart(kit: Kit, a: Request, b: Request)
    requires forall x, y :: kit.hash(x) == kit.hash(y) ==> x == y
    ensures kit.hash(ToAuditReq(a)) == kit.hash(ToAuditReq(b)) <==>
      && a.userId == b.userId && a.amount == b.amount && a.currency == b.currency && a.asset == b.asset
      && a.rail == b.rail && a.destAddress == b.destAddress && a.destChain == b.destChain
      && a.kyt == b.kyt && a.fraud == b.fraud && a.kyc == b.kyc
  {}

  /**
   * A well-formed request comes back with an error exactly when its record cannot be signed or, in
   * the synchronous mode, cannot be stored; a full queue is no error.
   */
  lemma ErrorExactlyWhenNotAudited(kit: Kit, cfg: Config, mode: Audit.Setup, s: State, r: Request, now: int,
                                   id: string, fault: bool)
    requires Complaint(kit, r).None?
    ensures var j := Judged(kit, cfg, s.signals, r, now);
      var rec := RecordOf(kit, r, j, s.signals.engine.bundle.version, id).(createdAt := Some(now));
      Evaluated(kit, cfg, mode, s, r, now, id, fault).1.AuditError? <==>
      cfg.hasAudit && (kit.signer.json(rec).None? || (mode.sync && mode.hasStore && (fault || id == "")))
  {
    var j := Judged(kit, cfg, s.signals, r, now);
    var rec := RecordOf(kit, r, j, s.signals.engine.bundle.version, id).(createdAt := Some(now));
    assert rec.(signature := "") == rec;
  }

  /** The response, with an error or without, is the judgement under the version reported and the id given. */
  lemma ResponseIsTheJudgement(kit: Kit, cfg: Config, mode: Audit.Setup, s: State, r: Request, now: int, id: string,
                               fault: bool)
    requires Complaint(kit, r).None?
    ensures var j := Judged(kit, cfg, s.signals, r, now);
      var resp := Evaluated(kit, cfg, mode, s, r, now, id, fault).1.response;
      && resp.decision == j.decision && resp.reasons == j.reasons && resp.rules == j.rules && resp.score == j.score
      && resp.version == s.signals.engine.bundle.version && resp.id == id
  {}

  /**
   * An evaluation parks exactly a manual_review that came back without error, under a new proper id,
   * when there is a queue; the item is pending under that id, and no other item changes.
   */
  lemma ParksExactly(kit: Kit, cfg: Config, mode: Audit.Setup, s: State, r: Request, now: int, id: string, fault: bool)
    ensures var (t, out) := Evaluated(kit, cfg, mode, s, r, now, id, fault);
      var was, mem := s.books.review.mem, t.books.review.mem;
      && (id in mem && id !in was <==>
            out.Done? && out.response.decision == "manual_review" && cfg.hasReview && id != "" && id !in was)
      && (forall x :: x != id || x in was ==> Lookup(mem, x) == Lookup(was, x))
      && (id in mem && id !in was ==>
            mem[id].status == Review.Pending && mem[id].createdAt == now && mem[id].id == id
            && t.books.review.order == s.books.review.order + [id])
  {}

  // ---- The counts over whole runs ----------------------------------------

  /** The well-formed evaluations of a run that were judged with decision `d`. */
  function Decisions(kit: Kit, cfg: Config, mode: Audit.Setup, s: State, ops: seq<Op>, d: string): nat {
    if ops == [] then 0
    else
      var p, op := ops[..|ops| - 1], ops[|ops| - 1];
      var w := Run(kit, cfg, mode, s, p);
      Decisions(kit, cfg, mode, s, p, d)
      + if op.Evaluate? && Complaint(kit, op.req).None? && Judged(kit, cfg, w.signals, op.req, op.now).decision == d
        then 1 else 0
  }

  lemma EvaluationCounts(kit: Kit, cfg: Config, mode: Audit.Setup, s: State, op: Op)
    requires op.Evaluate? && Complaint(kit, op.req).None?
    ensures var d, l := Judged(kit, cfg, s.signals, op.req, op.now).decision, s.books.ledger;
            var m := NextBooks(kit, cfg, mode, s, op).ledger;
            && m.allow == l.allow + (if d == "allow" then 1 else 0)
            && m.deny == l.deny + (if d == "deny" then 1 else 0)
            && m.manualReview == l.manualReview + (if d == "manual_review" then 1 else 0)
  {}

  lemma OthersDoNotCount(kit: Kit, cfg: Config, mode: Audit.Setup, s: State, op: Op)
    requires !op.Evaluate? || Complaint(kit, op.req).Some?
    ensures NextBooks(kit, cfg, mode, s, op).ledger == s.books.ledger
  {}

  /** Each counter counts, over every run, the evaluations judged with its decision. */
  lemma {:induction false} CountersCountDecisions(kit: Kit, cfg: Config, mode: Audit.Setup, s: State, ops: seq<Op>)
    ensures var l, m := s.books.ledger, Run(kit, cfg, mode, s, ops).books.ledger;
            && m.allow == l.allow + Decisions(kit, cfg, mode, s, ops, "allow")
            && m.deny == l.deny + Decisions(kit, cfg, mode, s, ops, "deny")
            && m.manualReview == l.manualReview + Decisions(kit, cfg, mode, s, ops, "manual_review")
  {
    if ops != [] {
      var p, op := ops[..|ops| - 1], ops[|ops| - 1];
      CountersCountDecisions(kit, cfg, mode, s, p);
      var w := Run(kit, cfg, mode, s, p);
      if op.Evaluate? && Complaint(kit, op.req).None? {
        EvaluationCounts(kit, cfg, mode, w, op);
      } else {
        OthersDoNotCount(kit, cfg, mode, w, op);
      }
    }
  }
}
