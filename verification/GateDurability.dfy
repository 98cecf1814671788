/** Durability of interleaved evaluations in the synchronous mode. */
module GateDurability {
  import opened Prelude
  import opened Gate
  import opened GateSteps
  import opened GateInterleaving
  import GateRuns
  import Review
  import Audit

  /** Emit persists before it offers. */
  predicate Durable(cfg: Config, mode: Audit.Setup) {
    cfg.hasAudit && mode.sync && mode.hasStore
  }

  /** The response of a call whose record has been persisted. */
  function Recorded(p: Phase, id: string): Option<Response> {
    match p
    case Persisted(j, v, _) => Some(ResponseOf(j, v, id))
    case Emitted(j, v) => Some(ResponseOf(j, v, id))
    case Queued(j, v, _) => Some(ResponseOf(j, v, id))
    case Closing(out) => if out.Done? then Some(out.response) else None
    case Finished(out) => if out.Done? then Some(out.response) else None
    case _ => None
  }

  /** Every persisted call and every parked item has its id in the store. */
  ghost predicate AllStored(w: World) {
    && (forall t :: t in w.calls && Recorded(w.calls[t].phase, w.calls[t].id).Some? ==>
          w.calls[t].id in w.shared.books.pipe.store)
    && (forall id :: id in w.shared.books.review.mem ==> id in w.shared.books.pipe.store)
  }

  /** No step takes a record out of the store. */
  lemma StoreGrows(kit: Kit, cfg: Config, mode: Audit.Setup, w: World, step: Step, id: string)
    requires id in w.shared.books.pipe.store
    ensures id in Next(kit, cfg, mode, w, step).shared.books.pipe.store
  {}

  /** A call becomes recorded by the write of its record, and parks its own id only. */
  lemma AdvancedStores(kit: Kit, cfg: Config, mode: Audit.Setup, s: State, c: Call, now: int, fault: bool)
    requires Durable(cfg, mode) && (Recorded(c.phase, c.id).Some? ==> c.id in s.books.pipe.store)
    ensures var (t, d) := Advanced(kit, cfg, mode, s, c, now, fault);
            && (Recorded(d.phase, c.id).Some? ==> c.id in t.books.pipe.store)
            && (forall id :: id in t.books.review.mem && id !in s.books.review.mem ==> id in t.books.pipe.store)
  {
    if Sensing(c.phase) {
      SensedIsUnrecorded(kit, cfg, s.signals, c, now);
    }
  }

  lemma SensedIsUnrecorded(kit: Kit, cfg: Config, s: Signals, c: Call, now: int)
    requires Sensing(c.phase)
    ensures Recorded(Sensed(kit, cfg, s, c, now).1.phase, c.id).None?
  {}

  lemma ResolvingKeepsKeys(q: Review.Queue, id: string, assignee: string, resolution: string, now: int)
    ensures Review.Resolving(q, id, assignee, resolution, now).0.mem.Keys == q.mem.Keys
  {}

  lemma OtherKeepsParked(kit: Kit, cfg: Config, mode: Audit.Setup, s: State, op: GateRuns.Op)
    requires !op.Evaluate?
    ensures GateRuns.Next(kit, cfg, mode, s, op).books.review.mem.Keys == s.books.review.mem.Keys
  {
    if op.Resolve? {
      ResolvingKeepsKeys(s.books.review, op.item, op.assignee, op.resolution, op.now);
    }
  }

  lemma StepKeepsStored(kit: Kit, cfg: Config, mode: Audit.Setup, w: World, step: Step)
    requires Durable(cfg, mode) && AllStored(w)
    ensures AllStored(Next(kit, cfg, mode, w, step))
  {
    var v := Next(kit, cfg, mode, w, step);
    forall id | id in w.shared.books.pipe.store ensures id in v.shared.books.pipe.store {
      StoreGrows(kit, cfg, mode, w, step, id);
    }
    if step.Advance? && step.ticket in w.calls {
      AdvancedStores(kit, cfg, mode, w.shared, w.calls[step.ticket], step.now, step.fault);
      AdvancedKeepsRequest(kit, cfg, mode, w.shared, w.calls[step.ticket], step.now, step.fault);
    } else if step.Other? && !step.op.Evaluate? {
      OtherKeepsParked(kit, cfg, mode, w.shared, step.op);
    }
    forall t | t in v.calls && Recorded(v.calls[t].phase, v.calls[t].id).Some?
      ensures v.calls[t].id in v.shared.books.pipe.store
    {
      CallsAfter(kit, cfg, mode, w, step, t);
    }
  }

  /**
   * Durable before return and before park, over every interleaving in the synchronous mode: the id of
   * every call that has been persisted, offered, parked or returned without error is in the store,
   * and so is every id in the review queue.
   */
  lemma {:induction false} InterleavedDurability(kit: Kit, cfg: Config, mode: Audit.Setup, s: State, steps: seq<Step>)
    requires Durable(cfg, mode) && forall id :: id in s.books.review.mem ==> id in s.books.pipe.store
    ensures AllStored(Run(kit, cfg, mode, s, steps))
  {
    if steps != [] {
      InterleavedDurability(kit, cfg, mode, s, steps[..|steps| - 1]);
      StepKeepsStored(kit, cfg, mode, Run(kit, cfg, mode, s, steps[..|steps| - 1]), steps[|steps| - 1]);
    }
  }

  // ---- With fresh ids, what is stored is the call's own record -----------

  /** The record tells of this call: its request, decision, reasons, rules, version and score. */
  ghost predicate Tells(kit: Kit, rec: Audit.Record, r: Request, id: string, resp: Response) {
    && rec.decisionId == id && rec.requestHash == kit.hash(ToAuditReq(r))
    && rec.decision == resp.decision && rec.reasons == resp.reasons && rec.appliedRules == RuleIds(resp.rules)
    && rec.policyVersion == resp.version && rec.score == resp.score
    && Audit.IsSigned(kit.signer, rec) && Audit.Verifies(kit.signer, rec)
  }

  ghost predicate TellsOf(kit: Kit, store: map<string, Audit.Record>, c: Call) {
    Recorded(c.phase, c.id).Some? ==>
      c.id in store && Tells(kit, store[c.id], c.req, c.id, Recorded(c.phase, c.id).value)
  }

  ghost predicate FreshIds(steps: seq<Step>) {
    forall i, j :: 0 <= i < j < |steps| && steps[i].Begin? && steps[j].Begin? ==> steps[i].id != steps[j].id
  }

  lemma PersistingTells(kit: Kit, cfg: Config, mode: Audit.Setup, b: Books, c: Call, j: Judgement, version: string,
                        now: int, fault: bool)
    requires Durable(cfg, mode) && Audit.Sound(kit.signer)
    ensures var (t, p) := Persisting(kit, cfg, mode, b, c, j, version, now, fault);
            && TellsOf(kit, t.pipe.store, c.(phase := p))
            && forall id :: id != c.id ==> Lookup(t.pipe.store, id) == Lookup(b.pipe.store, id)
  {
    var rec := Audit.Dated(RecordOf(kit, c.req, j, version, c.id), now);
    if Audit.Signed(kit.signer, rec).Some? {
      Audit.SignedVerifies(kit.signer, rec);
      Audit.SigningOnlySigns(kit.signer, rec);
    }
  }

  lemma LaterPhasesKeepTelling(kit: Kit, cfg: Config, mode: Audit.Setup, s: State, c: Call, now: int, fault: bool)
    requires !Sensing(c.phase) && !c.phase.Noted?
    ensures var (b, p) := Entered(kit, cfg, mode, s, c, now, fault);
            b.pipe.store == s.books.pipe.store && Recorded(p, c.id) == Recorded(c.phase, c.id)
  {}

  lemma AdvancedTells(kit: Kit, cfg: Config, mode: Audit.Setup, s: State, c: Call, now: int, fault: bool)
    requires Durable(cfg, mode) && Audit.Sound(kit.signer) && TellsOf(kit, s.books.pipe.store, c)
    ensures var (t, d) := Advanced(kit, cfg, mode, s, c, now, fault);
            && TellsOf(kit, t.books.pipe.store, d)
            && forall id :: id != c.id ==> Lookup(t.books.pipe.store, id) == Lookup(s.books.pipe.store, id)
  {
    if Sensing(c.phase) {
      SensedIsUnrecorded(kit, cfg, s.signals, c, now);
      AdvancedKeepsRequest(kit, cfg, mode, s, c, now, fault);
    } else if c.phase.Noted? {
      PersistingTells(kit, cfg, mode, s.books, c, c.phase.j, c.phase.version, now, fault);
    } else {
      LaterPhasesKeepTelling(kit, cfg, mode, s, c, now, fault);
    }
  }

  lemma OtherKeepsStore(kit: Kit, cfg: Config, mode: Audit.Setup, s: State, op: GateRuns.Op)
    requires !op.Evaluate? && mode.sync
    ensures GateRuns.Next(kit, cfg, mode, s, op).books.pipe.store == s.books.pipe.store
  {}

  ghost predicate AllTell(kit: Kit, w: World) {
    forall t :: t in w.calls ==> TellsOf(kit, w.shared.books.pipe.store, w.calls[t])
  }

  ghost predicate DistinctIds(calls: map<Ticket, Call>) {
    forall t, x :: t in calls && x in calls && calls[t].id == calls[x].id ==> t == x
  }

  lemma StepKeepsTelling(kit: Kit, cfg: Config, mode: Audit.Setup, w: World, step: Step)
    requires Durable(cfg, mode) && Audit.Sound(kit.signer) && AllTell(kit, w) && DistinctIds(w.calls)
    ensures AllTell(kit, Next(kit, cfg, mode, w, step))
  {
    var v := Next(kit, cfg, mode, w, step);
    forall t | t in v.calls ensures TellsOf(kit, v.shared.books.pipe.store, v.calls[t]) {
      CallsAfter(kit, cfg, mode, w, step, t);
      if t in w.calls {
        if step.Advance? && step.ticket == t {
          AdvancedTells(kit, cfg, mode, w.shared, w.calls[t], step.now, step.fault);
        } else {
          OthersKeepTelling(kit, cfg, mode, w, step, t);
        }
      }
    }
  }

  lemma OthersKeepTelling(kit: Kit, cfg: Config, mode: Audit.Setup, w: World, step: Step, t: Ticket)
    requires Durable(cfg, mode) && Audit.Sound(kit.signer) && AllTell(kit, w) && DistinctIds(w.calls)
    requires t in w.calls && !(step.Advance? && step.ticket == t)
    ensures TellsOf(kit, Next(kit, cfg, mode, w, step).shared.books.pipe.store, w.calls[t])
  {
    var v, id := Next(kit, cfg, mode, w, step), w.calls[t].id;
    if step.Advance? && step.ticket in w.calls {
      AdvancedTells(kit, cfg, mode, w.shared, w.calls[step.ticket], step.now, step.fault);
    } else if step.Other? && !step.op.Evaluate? {
      OtherKeepsStore(kit, cfg, mode, w.shared, step.op);
    }
    assert Lookup(v.shared.books.pipe.store, id) == Lookup(w.shared.books.pipe.store, id);
  }

  lemma FreshIdsAreDistinct(kit: Kit, cfg: Config, mode: Audit.Setup, s: State, steps: seq<Step>)
    requires FreshIds(steps)
    ensures DistinctIds(Run(kit, cfg, mode, s, steps).calls)
  {
    var calls := Run(kit, cfg, mode, s, steps).calls;
    forall t, x | t in calls && x in calls && calls[t].id == calls[x].id ensures t == x {
      var i := BegunAt(kit, cfg, mode, s, steps, t);
      var j := BegunAt(kit, cfg, mode, s, steps, x);
    }
  }

  /** Every call was begun, under its id. */
  lemma BegunAt(kit: Kit, cfg: Config, mode: Audit.Setup, s: State, steps: seq<Step>, t: Ticket) returns (i: nat)
    requires t in Run(kit, cfg, mode, s, steps).calls
    ensures i < |steps| && steps[i].Begin? && steps[i].id == Run(kit, cfg, mode, s, steps).calls[t].id
    ensures t == Ticket(steps[i].req.userId, steps[i].n)
  {
    var a, b, d;
    i, a, b, d := MomentsExist(kit, cfg, mode, s, steps, t);
    RunFaithful(kit, cfg, mode, s, steps);
  }

  /**
   * With fresh ids the record stored for a call is its own: whenever a call has been persisted,
   * offered, parked or returned without error, the store holds a verifying record of the very
   * request, decision, reasons, rules, version and score of that call.
   */
  lemma {:induction false} StoredRecordIsTheCalls(kit: Kit, cfg: Config, mode: Audit.Setup, s: State, steps: seq<Step>)
    requires Durable(cfg, mode) && Audit.Sound(kit.signer) && FreshIds(steps)
    ensures AllTell(kit, Run(kit, cfg, mode, s, steps))
  {
    if steps != [] {
      var p := steps[..|steps| - 1];
      assert FreshIds(p);
      StoredRecordIsTheCalls(kit, cfg, mode, s, p);
      FreshIdsAreDistinct(kit, cfg, mode, s, p);
      StepKeepsTelling(kit, cfg, mode, Run(kit, cfg, mode, s, p), steps[|steps| - 1]);
    }
  }

  /**
   * The stored record is tamper evident: a record that carries its signature and verifies is that very
   * record, and so tells of the call's own request, decision, reasons, rules, version and score.
   */
  lemma StoredRecordIsTamperEvident(kit: Kit, cfg: Config, mode: Audit.Setup, s: State, steps: seq<Step>, t: Ticket,
                                    rec: Audit.Record)
    requires Durable(cfg, mode) && FreshIds(steps)
    requires Audit.Sound(kit.signer) && Audit.Injective(kit.signer) && Audit.Binding(kit.signer)
    requires var w := Run(kit, cfg, mode, s, steps);
             t in w.calls && Recorded(w.calls[t].phase, w.calls[t].id).Some?
    ensures var w := Run(kit, cfg, mode, s, steps);
            var c, store := w.calls[t], w.shared.books.pipe.store;
            && c.id in store
            && (rec.signature == store[c.id].signature ==> (Audit.Verifies(kit.signer, rec) <==> rec == store[c.id]))
            && (rec.signature == store[c.id].signature && Audit.Verifies(kit.signer, rec) ==>
                  Tells(kit, rec, c.req, c.id, Recorded(c.phase, c.id).value))
  {
    StoredRecordIsTheCalls(kit, cfg, mode, s, steps);
    var w := Run(kit, cfg, mode, s, steps);
    var c, store := w.calls[t], w.shared.books.pipe.store;
    assert TellsOf(kit, store, c);
    if rec.signature == store[c.id].signature {
      Audit.TamperEvident(kit.signer, store[c.id], rec);
    }
  }
}
