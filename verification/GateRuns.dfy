/** Whole runs of the gate by many users: isolation, the metrics ledger and durability. */
module GateRuns {
  import opened Prelude
  import opened Gate
  import opened GateDecision
  import Velocity
  import Whitelist
  import Engine
  import Audit
  import Review

  datatype Op =
    | Add(id: Whitelist.Triple, note: string, now: int)
    | Verify(id: Whitelist.Triple, now: int)
    | Evaluate(req: Request, now: int, decisionId: string, fault: bool)
    | Rollback(user: string, now: int)
    | Swap(bundle: Engine.Bundle)
    | Resolve(item: string, assignee: string, resolution: string, now: int)
    | Work(storeFault: bool, sinkFault: bool)

  /** The user an operation acts for; the system's own operations have none. */
  function Owner(op: Op): Option<string> {
    match op
    case Add(t, _, _) => Some(t.user)
    case Verify(t, _) => Some(t.user)
    case Evaluate(r, _, _, _) => Some(r.userId)
    case Rollback(u, _) => Some(u)
    case _ => None
  }

  function NextSignals(kit: Kit, cfg: Config, s: Signals, op: Op): Signals {
    match op
    case Add(t, note, now) => s.(table := Whitelist.Adding(s.table, t, note, now).0)
    case Verify(t, now) => s.(table := Whitelist.Verifying(s.table, t, now).0)
    case Evaluate(r, now, _, _) =>
      if Complaint(kit, r).Some? then s else s.(cells := CellsAfter(kit, cfg, s, r, now))
    case Rollback(u, now) =>
      var k := CounterKey(cfg, u);
      s.(cells := Write(s.cells, k, Velocity.Undo(Lookup(s.cells, k), now)))
    case Swap(b) => s.(engine := Engine.Swapped(kit.opa, s.engine, b))
    case _ => s
  }

  function NextBooks(kit: Kit, cfg: Config, mode: Audit.Setup, s: State, op: Op): Books {
    match op
    case Evaluate(r, now, id, fault) => Evaluated(kit, cfg, mode, s, r, now, id, fault).0.books
    case Resolve(item, assignee, resolution, now) =>
      s.books.(review := Review.Resolving(s.books.review, item, assignee, resolution, now).0)
    case Work(storeFault, sinkFault) =>
      if s.books.pipe.queue == [] then s.books
      else s.books.(pipe := Audit.Working(mode, s.books.pipe, storeFault, sinkFault))
    case _ => s.books
  }

  function Next(kit: Kit, cfg: Config, mode: Audit.Setup, s: State, op: Op): State {
    State(NextSignals(kit, cfg, s.signals, op), NextBooks(kit, cfg, mode, s, op))
  }

  function Run(kit: Kit, cfg: Config, mode: Audit.Setup, s: State, ops: seq<Op>): State {
    if ops == [] then s
    else Next(kit, cfg, mode, Run(kit, cfg, mode, s, ops[..|ops| - 1]), ops[|ops| - 1])
  }

  /** Every operation of a run takes effect. */
  lemma OperationsTakeEffect(kit: Kit, cfg: Config, mode: Audit.Setup, s: State, t: Whitelist.Triple, u: string,
                             b: Engine.Bundle, item: string, now: int)
    ensures t.user != "" && t.chain != "" && t.address != "" && Whitelist.Key(t) !in s.signals.table ==>
              var added := Next(kit, cfg, mode, s, Add(t, "", now));
              Whitelist.IsWhitelisted(Next(kit, cfg, mode, added, Verify(t, now)).signals.table, t)
    ensures var c, d := Lookup(s.signals.cells, CounterKey(cfg, u)),
                        Lookup(Next(kit, cfg, mode, s, Rollback(u, now)).signals.cells, CounterKey(cfg, u));
            Velocity.Reading(c, now) >= 1 ==> Velocity.Reading(d, now) == Velocity.Reading(c, now) - 1
    ensures Next(kit, cfg, mode, s, Swap(b)).signals.engine.bundle == b
    ensures item in s.books.review.mem && s.books.review.mem[item].status == Review.Pending
            && s.books.review.mem[item].id == item ==>
              var q := Next(kit, cfg, mode, s, Resolve(item, "ann", "DENY", now)).books.review;
              item in q.mem && q.mem[item].status == Review.Resolved && q.mem[item].resolution == "DENY"
    ensures s.books.pipe.queue != [] ==>
              Next(kit, cfg, mode, s, Work(false, false)).books.pipe.queue == s.books.pipe.queue[1..]
  {}

  // ---- User isolation ----------------------------------------------------

  /** Everything user `u` has been told by its Evaluate calls, in order. */
  function Told(kit: Kit, cfg: Config, mode: Audit.Setup, s: State, ops: seq<Op>, u: string): seq<Outcome> {
    if ops == [] then []
    else
      var p, op := ops[..|ops| - 1], ops[|ops| - 1];
      Told(kit, cfg, mode, s, p, u)
      + if op.Evaluate? && op.req.userId == u
        then [Evaluated(kit, cfg, mode, Run(kit, cfg, mode, s, p), op.req, op.now, op.decisionId, op.fault).1]
        else []
  }

  predicate Concerns(op: Op, u: string) {
    Owner(op) == None || Owner(op) == Some(u)
  }

  /** The run with every other user's operations deleted. */
  function Keep(ops: seq<Op>, u: string): seq<Op> {
    if ops == [] then []
    else Keep(ops[..|ops| - 1], u) + if Concerns(ops[|ops| - 1], u) then [ops[|ops| - 1]] else []
  }

  /** Two sets of signals that user `u` cannot tell apart. */
  ghost predicate SameFor(cfg: Config, u: string, s: Signals, t: Signals) {
    && Lookup(s.cells, CounterKey(cfg, u)) == Lookup(t.cells, CounterKey(cfg, u))
    && (forall x: Whitelist.Triple :: x.user == u ==>
          Lookup(s.table, Whitelist.Key(x)) == Lookup(t.table, Whitelist.Key(x)))
    && s.engine == t.engine
  }

  /** Every entry is filed under its own key. */
  ghost predicate Filed(table: Whitelist.Table) {
    forall k :: k in table ==> Whitelist.Key(table[k].id) == k
  }

  /** A change of another user's whitelist comes from an id that does not nest with `u`. */
  predicate Harmless(op: Op, u: string) {
    (op.Add? || op.Verify?) && !Concerns(op, u) ==> Whitelist.Separate(u, op.id.user)
  }

  ghost predicate NeighboursSeparate(ops: seq<Op>, u: string) {
    forall i :: 0 <= i < |ops| ==> Harmless(ops[i], u)
  }

  lemma KeysApart(u: string, x: Whitelist.Triple, y: Whitelist.Triple)
    requires x.user == u && y.user != u && Whitelist.Separate(u, y.user)
    ensures Whitelist.Key(x) != Whitelist.Key(y)
  {
    Whitelist.UsersCollideExactlyWhenNested(u, y.user);
  }

  lemma TableOpsKeepFiled(kit: Kit, cfg: Config, s: Signals, op: Op)
    requires Filed(s.table)
    ensures Filed(NextSignals(kit, cfg, s, op).table)
  {}

  /** A harmless operation of another user is invisible to `u`. */
  lemma ForeignOpIsInvisible(kit: Kit, cfg: Config, u: string, s: Signals, op: Op)
    requires ':' !in cfg.suffix && Filed(s.table)
    requires !Concerns(op, u) && Harmless(op, u)
    ensures SameFor(cfg, u, s, NextSignals(kit, cfg, s, op))
  {
    var v := Owner(op).value;
    if CounterKey(cfg, u) == CounterKey(cfg, v) {
      Velocity.KeyInjective(u, cfg.suffix, v, cfg.suffix);
    }
    var t := NextSignals(kit, cfg, s, op);
    if op.Add? || op.Verify? {
      forall x: Whitelist.Triple | x.user == u
        ensures Lookup(s.table, Whitelist.Key(x)) == Lookup(t.table, Whitelist.Key(x))
      {
        KeysApart(u, x, op.id);
      }
    }
  }

  /** An operation of `u`, or of the system, acts alike on signals that `u` cannot tell apart. */
  lemma OwnOpActsAlike(kit: Kit, cfg: Config, u: string, s: Signals, t: Signals, op: Op)
    requires SameFor(cfg, u, s, t) && Concerns(op, u) && Filed(s.table) && Filed(t.table)
    ensures SameFor(cfg, u, NextSignals(kit, cfg, s, op), NextSignals(kit, cfg, t, op))
  {
    if op.Add? || op.Verify? {
      TableOpActsAlike(kit, cfg, u, s, t, op);
    }
  }

  lemma TableOpActsAlike(kit: Kit, cfg: Config, u: string, s: Signals, t: Signals, op: Op)
    requires SameFor(cfg, u, s, t) && (op.Add? || op.Verify?) && op.id.user == u && Filed(s.table) && Filed(t.table)
    ensures SameFor(cfg, u, NextSignals(kit, cfg, s, op), NextSignals(kit, cfg, t, op))
  {}

  /** What `u` is told depends only on what `u` can tell apart. */
  lemma AnswersAlike(kit: Kit, cfg: Config, mode: Audit.Setup, u: string, s: State, t: State, op: Op)
    requires op.Evaluate? && op.req.userId == u && SameFor(cfg, u, s.signals, t.signals)
    ensures Evaluated(kit, cfg, mode, s, op.req, op.now, op.decisionId, op.fault).1
            == Evaluated(kit, cfg, mode, t, op.req, op.now, op.decisionId, op.fault).1
  {
    var x := Target(op.req);
    assert x.user == u;
    assert Lookup(s.signals.table, Whitelist.Key(x)) == Lookup(t.signals.table, Whitelist.Key(x));
    JudgedAlike(kit, cfg, s.signals, t.signals, op.req, op.now);
  }

  lemma JudgedAlike(kit: Kit, cfg: Config, s: Signals, t: Signals, r: Request, now: int)
    requires Lookup(s.cells, CounterKey(cfg, r.userId)) == Lookup(t.cells, CounterKey(cfg, r.userId))
    requires Whitelist.IsWhitelisted(s.table, Target(r)) == Whitelist.IsWhitelisted(t.table, Target(r))
    requires s.engine == t.engine
    ensures Judged(kit, cfg, s, r, now) == Judged(kit, cfg, t, r, now)
  {}

  lemma {:induction false} RunFiled(kit: Kit, cfg: Config, mode: Audit.Setup, s: State, ops: seq<Op>)
    requires Filed(s.signals.table)
    ensures Filed(Run(kit, cfg, mode, s, ops).signals.table)
  {
    if ops != [] {
      RunFiled(kit, cfg, mode, s, ops[..|ops| - 1]);
      TableOpsKeepFiled(kit, cfg, Run(kit, cfg, mode, s, ops[..|ops| - 1]).signals, ops[|ops| - 1]);
    }
  }

  /**
   * User isolation: deleting every other user's operations from a run leaves `u`'s counter and
   * whitelist, and every decision, reason list and error `u` was told, exactly as they were.
   */
  lemma {:induction false} UserIsolation(kit: Kit, cfg: Config, mode: Audit.Setup, s: State, ops: seq<Op>, u: string)
    requires ':' !in cfg.suffix && Filed(s.signals.table) && NeighboursSeparate(ops, u)
    ensures SameFor(cfg, u, Run(kit, cfg, mode, s, ops).signals, Run(kit, cfg, mode, s, Keep(ops, u)).signals)
    ensures Told(kit, cfg, mode, s, ops, u) == Told(kit, cfg, mode, s, Keep(ops, u), u)
  {
    if ops != [] {
      var p, op := ops[..|ops| - 1], ops[|ops| - 1];
      var kept := Keep(p, u);
      UserIsolation(kit, cfg, mode, s, p, u);
      RunFiled(kit, cfg, mode, s, p);
      RunFiled(kit, cfg, mode, s, kept);
      var a, b := Run(kit, cfg, mode, s, p), Run(kit, cfg, mode, s, kept);
      if Concerns(op, u) {
        assert (kept + [op])[..|kept|] == kept;
        OwnOpActsAlike(kit, cfg, u, a.signals, b.signals, op);
        if op.Evaluate? {
          AnswersAlike(kit, cfg, mode, u, a, b, op);
        }
      } else {
        assert Keep(ops, u) == kept;
        ForeignOpIsInvisible(kit, cfg, u, a.signals, op);
      }
    }
  }

  /** Nothing user `v` adds and verifies on an empty whitelist opens a destination to user `u`. */
  ghost predicate NoLeak(v: string, u: string) {
    forall x: Whitelist.Triple, y: Whitelist.Triple :: x.user == u && y.user == v ==>
      !Whitelist.IsWhitelisted(Whitelist.Verifying(Whitelist.Adding(map[], y, "", 0).0, y, 0).0, x)
  }

  /**
   * The condition on neighbours is exact: another id leaks into `u` if and only if the two nest and
   * it is not the empty id, for which nothing can be added.
   */
  lemma LeaksExactlyWhenNested(v: string, u: string)
    ensures NoLeak(v, u) <==> v == "" || (u != v && Whitelist.Separate(u, v))
  {
    if v == "" {
      assert forall y: Whitelist.Triple :: y.user == v ==> Whitelist.Adding(map[], y, "", 0).0 == map[];
    } else if u == v {
      var x := Whitelist.Triple(u, "c", "a");
      assert Whitelist.IsWhitelisted(Whitelist.Verifying(Whitelist.Adding(map[], x, "", 0).0, x, 0).0, x);
    } else if Whitelist.Separate(u, v) {
      forall x: Whitelist.Triple, y: Whitelist.Triple | x.user == u && y.user == v
        ensures !Whitelist.IsWhitelisted(Whitelist.Verifying(Whitelist.Adding(map[], y, "", 0).0, y, 0).0, x)
      {
        KeysApart(u, x, y);
      }
    } else {
      var x, y := Whitelist.SharedDestination(u, v);
      assert Whitelist.IsWhitelisted(Whitelist.Verifying(Whitelist.Adding(map[], y, "", 0).0, y, 0).0, x);
    }
  }

  // ---- The metrics ledger ------------------------------------------------

  /** Every completed evaluation is one of the three decisions; the gauge counts all parks. */
  ghost predicate Reconciled(b: Books) {
    && b.ledger.evaluate == b.ledger.allow + b.ledger.deny + b.ledger.manualReview
    && b.ledger.pending == |b.review.order|
  }

  lemma EvaluateReconciles(kit: Kit, cfg: Config, mode: Audit.Setup, s: State, op: Op)
    requires op.Evaluate? && Reconciled(s.books)
    ensures Reconciled(NextBooks(kit, cfg, mode, s, op))
  {
    if Complaint(kit, op.req).None? {
      var j := Judged(kit, cfg, s.signals, op.req, op.now);
      DecisionIsOneOfThree(kit, cfg, s.signals, op.req, op.now);
      FinalisedReconciles(kit, cfg, mode, s.signals.engine.bundle.version, s.books, op, j);
    }
  }

  lemma FinalisedReconciles(kit: Kit, cfg: Config, mode: Audit.Setup, version: string, b: Books, op: Op, j: Judgement)
    requires op.Evaluate? && Reconciled(b) && j.decision in ["allow", "deny", "manual_review"]
    ensures var t := Finalised(kit, cfg, mode, version, b, op.req, j, op.now, op.decisionId, op.fault).0;
            && t.ledger.evaluate + 1 == t.ledger.allow + t.ledger.deny + t.ledger.manualReview
            && t.ledger.pending == |t.review.order|
  {}

  /**
   * Metrics ledger: over every run, calls that end in an audit error included, the evaluation
   * count is the sum of the three decision counts, and the pending gauge is the number of items
   * ever parked, for it never comes down on Resolve.
   */
  lemma {:induction false} LedgerReconciles(kit: Kit, cfg: Config, mode: Audit.Setup, s: State, ops: seq<Op>)
    requires Reconciled(s.books)
    ensures Reconciled(Run(kit, cfg, mode, s, ops).books)
  {
    if ops != [] {
      var p, op := ops[..|ops| - 1], ops[|ops| - 1];
      LedgerReconciles(kit, cfg, mode, s, p);
      if op.Evaluate? {
        EvaluateReconciles(kit, cfg, mode, Run(kit, cfg, mode, s, p), op);
      }
    }
  }

  // ---- Durability of whole evaluations -----------------------------------

  /**
   * In the synchronous mode an evaluation that returns without error has stored, under its id, a
   * verifiable record of the very decision and reasons it returned, dropped by the queue or not.
   */
  lemma EvaluationIsRecorded(kit: Kit, cfg: Config, mode: Audit.Setup, s: State, r: Request, now: int, id: string,
                             fault: bool)
    requires Audit.Sound(kit.signer) && cfg.hasAudit && mode.sync && mode.hasStore
    requires Evaluated(kit, cfg, mode, s, r, now, id, fault).1.Done?
    ensures var (t, out) := Evaluated(kit, cfg, mode, s, r, now, id, fault);
            && id in t.books.pipe.store
            && var rec := t.books.pipe.store[id];
               && rec.decision == out.response.decision && rec.reasons == out.response.reasons
               && rec.policyVersion == out.response.version && Audit.Verifies(kit.signer, rec)
  {
    var j := Judged(kit, cfg, s.signals, r, now);
    FinalisationIsRecorded(kit, cfg, mode, s.signals.engine.bundle.version, s.books, r, j, now, id, fault);
  }

  lemma FinalisationIsRecorded(kit: Kit, cfg: Config, mode: Audit.Setup, version: string, b: Books, r: Request,
                               j: Judgement, now: int, id: string, fault: bool)
    requires Audit.Sound(kit.signer) && cfg.hasAudit && mode.sync && mode.hasStore
    requires Finalised(kit, cfg, mode, version, b, r, j, now, id, fault).1.Done?
    ensures var store := Finalised(kit, cfg, mode, version, b, r, j, now, id, fault).0.pipe.store;
            && id in store && store[id].decision == j.decision && store[id].reasons == j.reasons
            && store[id].policyVersion == version && Audit.Verifies(kit.signer, store[id])
  {
    Audit.SignedVerifies(kit.signer, Audit.Dated(RecordOf(kit, r, j, version, id), now));
  }
}
