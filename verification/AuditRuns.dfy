/**
 * Finalisation as interleaved steps: any number of calls sign, persist, enqueue and park, while
 * the worker takes, stores and publishes and may be stopped, with failures possible at each step.
 */
module AuditRuns {
  import opened Prelude
  import opened Audit
  import Review

  datatype Worker = Idle | Took(rec: Record) | Kept(rec: Record) | Stopped

  /**
   * Calls are tallied by where they stand: `signed` holds records signed and not yet persisted,
   * `kept` those persisted and not yet offered, `emitted` those whose Emit returned nil or
   * ErrDropped, `returned` those whose Evaluate came back without error. The last fields are
   * history: every record ever signed (and how many signings), every successful store write, the
   * enqueue order, and the records the worker is done with.
   */
  datatype State = State(
    pipe: Pipe, worker: Worker, review: Review.Queue,
    signed: multiset<Record>, kept: multiset<Record>, emitted: multiset<Record>, returned: set<Record>,
    begun: set<Record>, signings: nat, puts: set<Record>, enqueued: seq<Record>, handled: seq<Record>)

  datatype Step =
    | Sign(rec: Record, now: int)
    | Persist(rec: Record, fault: bool)
    | Offer(rec: Record)
    | Park(rec: Record, now: int)
    | Take
    | WorkerStore(fault: bool)
    | WorkerPublish(fault: bool)
    | Stop

  const START := State(EMPTY, Idle, Review.EMPTY, multiset{}, multiset{}, multiset{}, {}, {}, 0, {}, [], [])

  /** Emit persists before it offers exactly in this mode. */
  predicate Durable(c: Setup) {
    c.sync && c.hasStore
  }

  function Finish(s: State, p: Pipe, r: Record): State {
    s.(pipe := p, worker := Idle, handled := s.handled + [r])
  }

  function AfterSign(k: Signer, s: State, rec: Record, now: int): State {
    var r := Signed(k, Dated(rec, now));
    if r.None? then s  // Emit returns the signing error
    else s.(signed := s.signed + multiset{r.value}, begun := s.begun + {r.value}, signings := s.signings + 1)
  }

  function AfterPersist(s: State, r: Record, fault: bool): State {
    var p := Stored(s.pipe, r, fault);
    var t := s.(signed := s.signed - multiset{r});
    if p.None? then t.(pipe := Dropping(s.pipe))
    else t.(pipe := p.value, kept := s.kept + multiset{r}, puts := s.puts + {r})
  }

  function AfterOffer(c: Setup, s: State, r: Record): State {
    var (p, taken) := Offered(s.pipe, r, c.capacity);
    var t := if Durable(c) then s.(kept := s.kept - multiset{r}) else s.(signed := s.signed - multiset{r});
    t.(pipe := p, emitted := s.emitted + multiset{r}, enqueued := if taken then s.enqueued + [r] else s.enqueued)
  }

  function AfterPark(s: State, r: Record, now: int): State {
    var q := if r.decision == "manual_review" then Review.Parking(s.review, r.decisionId, "", now).0 else s.review;
    s.(emitted := s.emitted - multiset{r}, review := q, returned := s.returned + {r})
  }

  function AfterWorkerStore(s: State, r: Record, fault: bool): State {
    var p := Stored(s.pipe, r, fault);
    if p.None? then Finish(s, Dropping(s.pipe), r)
    else s.(pipe := p.value, worker := Kept(r), puts := s.puts + {r})
  }

  function AfterTake(s: State): State
    requires s.pipe.queue != []
  {
    s.(worker := Took(s.pipe.queue[0]), pipe := s.pipe.(queue := s.pipe.queue[1..]))
  }

  function AfterPublish(c: Setup, s: State, r: Record, fault: bool): State {
    Finish(s, if c.hasSink then Published(s.pipe, r, fault) else s.pipe, r)
  }

  /** A step that does not apply in `s` leaves it as it is. */
  function Next(k: Signer, c: Setup, s: State, step: Step): State {
    match step
    case Sign(rec, now) => AfterSign(k, s, rec, now)
    case Persist(r, fault) => if r in s.signed && Durable(c) then AfterPersist(s, r, fault) else s
    case Offer(r) => if r in (if Durable(c) then s.kept else s.signed) then AfterOffer(c, s, r) else s
    case Park(r, now) => if r in s.emitted then AfterPark(s, r, now) else s
    case Take => if s.worker == Idle && s.pipe.queue != [] then AfterTake(s) else s
    case WorkerStore(fault) =>
      if s.worker.Took? && !c.sync && c.hasStore then AfterWorkerStore(s, s.worker.rec, fault) else s
    case WorkerPublish(fault) =>
      if s.worker.Kept? || (s.worker.Took? && (c.sync || !c.hasStore)) then AfterPublish(c, s, s.worker.rec, fault)
      else s
    case Stop => if s.worker == Idle then s.(worker := Stopped) else s
  }

  function Run(k: Signer, c: Setup, steps: seq<Step>): State {
    if steps == [] then START
    else Next(k, c, Run(k, c, steps[..|steps| - 1]), steps[|steps| - 1])
  }

  function Held(w: Worker): seq<Record> {
    match w
    case Took(r) => [r]
    case Kept(r) => [r]
    case _ => []
  }

  // ---- What every step keeps ---------------------------------------------

  /** Every signing is published, dropped, queued, in the worker's hands or in a running Emit. */
  ghost predicate Balanced(c: Setup, s: State) {
    c.hasSink ==>
      s.signings == |s.pipe.sink| + s.pipe.drops + |s.pipe.queue| + |Held(s.worker)| + |s.signed| + |s.kept|
  }

  /** The queue is a true FIFO, and the sink is what the worker handled with gaps for the drops. */
  ghost predicate InOrder(s: State) {
    s.enqueued == s.handled + Held(s.worker) + s.pipe.queue && Subsequence(s.pipe.sink, s.handled)
  }

  predicate Subsequence(a: seq<Record>, b: seq<Record>) {
    if a == [] then true
    else if b == [] then false
    else if a[|a| - 1] == b[|b| - 1] then Subsequence(a[..|a| - 1], b[..|b| - 1])
    else Subsequence(a, b[..|b| - 1])
  }

  lemma {:induction false} SubsequenceSkip(a: seq<Record>, b: seq<Record>, x: Record)
    requires Subsequence(a, b)
    ensures Subsequence(a, b + [x])
    decreases |b|, 1
  {
    assert (b + [x])[..|b|] == b;
    if a != [] && a[|a| - 1] == x {
      SubsequenceShorter(a, b);
    }
  }

  lemma {:induction false} SubsequenceShorter(a: seq<Record>, b: seq<Record>)
    requires a != [] && Subsequence(a, b)
    ensures Subsequence(a[..|a| - 1], b)
    decreases |b|, 0
  {
    if a[|a| - 1] == b[|b| - 1] {
      SubsequenceSkip(a[..|a| - 1], b[..|b| - 1], b[|b| - 1]);
      assert b == b[..|b| - 1] + [b[|b| - 1]];
    } else {
      SubsequenceShorter(a, b[..|b| - 1]);
      SubsequenceSkip(a[..|a| - 1], b[..|b| - 1], b[|b| - 1]);
      assert b == b[..|b| - 1] + [b[|b| - 1]];
    }
  }

  lemma SubsequenceTake(a: seq<Record>, b: seq<Record>, x: Record)
    requires Subsequence(a, b)
    ensures Subsequence(a + [x], b + [x])
  {}

  lemma {:induction false} SubsequenceExtends(a: seq<Record>, b: seq<Record>, more: seq<Record>)
    requires Subsequence(a, b)
    ensures Subsequence(a, b + more)
  {
    if more == [] {
      assert b + more == b;
    } else {
      var n := |more| - 1;
      SubsequenceExtends(a, b, more[..n]);
      SubsequenceSkip(a, b + more[..n], more[n]);
      assert b + more == b + more[..n] + [more[n]];
    }
  }

  /** Whatever a call or the pipe holds was signed by some Emit. */
  ghost predicate CallsGenuine(s: State) {
    forall r :: r in s.signed || r in s.kept || r in s.emitted || r in s.returned ==> r in s.begun
  }

  ghost predicate PipeGenuine(s: State) {
    forall r :: r in s.pipe.queue || r in Held(s.worker) || r in s.pipe.sink ==> r in s.begun
  }

  /** The store holds, under each id, one of the records put there. */
  ghost predicate StoreGenuine(s: State) {
    && (forall r :: r in s.puts ==> r in s.begun && r.decisionId in s.pipe.store)
    && (forall id :: id in s.pipe.store ==> s.pipe.store[id].decisionId == id && s.pipe.store[id] in s.puts)
  }

  ghost predicate StoredFirst(c: Setup, s: State) {
    c.hasStore ==>
      && (forall r :: r in s.pipe.sink ==> r in s.puts)
      && (s.worker.Kept? ==> s.worker.rec in s.puts)
      && (c.sync ==>
            forall r :: r in s.kept || r in s.emitted || r in s.returned || r in s.pipe.queue || r in Held(s.worker)
              ==> r in s.puts)
  }

  /** Parked items come from calls that returned with a manual_review record. */
  ghost predicate ParkedByCalls(s: State) {
    forall id :: id in s.review.mem ==>
      exists r :: r in s.returned && r.decisionId == id && r.decision == "manual_review"
  }

  ghost predicate Accounted(c: Setup, s: State) {
    && Balanced(c, s)
    && CallsGenuine(s) && PipeGenuine(s) && StoreGenuine(s)
    && StoredFirst(c, s) && ParkedByCalls(s)
  }

  ghost predicate Inv(c: Setup, s: State) {
    Accounted(c, s) && InOrder(s)
  }

  // The order of the queue, step by step.

  lemma FinishOrders(s: State, p: Pipe, r: Record)
    requires InOrder(s) && Held(s.worker) == [r]
    requires p.queue == s.pipe.queue && (p.sink == s.pipe.sink || p.sink == s.pipe.sink + [r])
    ensures InOrder(Finish(s, p, r))
  {
    SubsequenceSkip(s.pipe.sink, s.handled, r);
    SubsequenceTake(s.pipe.sink, s.handled, r);
  }

  lemma OfferOrders(c: Setup, s: State, r: Record)
    requires InOrder(s)
    ensures InOrder(AfterOffer(c, s, r))
  {}

  lemma TakeOrders(s: State)
    requires InOrder(s) && s.worker == Idle && s.pipe.queue != []
    ensures InOrder(AfterTake(s))
  {}

  lemma WorkerStoreOrders(s: State, r: Record, fault: bool)
    requires InOrder(s) && s.worker == Took(r)
    ensures InOrder(AfterWorkerStore(s, r, fault))
  {
    FinishOrders(s, Dropping(s.pipe), r);
  }

  lemma PublishOrders(c: Setup, s: State, r: Record, fault: bool)
    requires InOrder(s) && Held(s.worker) == [r]
    ensures InOrder(AfterPublish(c, s, r, fault))
  {
    FinishOrders(s, if c.hasSink then Published(s.pipe, r, fault) else s.pipe, r);
  }

  /** A call that does not offer touches neither the queue nor the sink. */
  lemma QuietStepOrders(k: Signer, c: Setup, s: State, step: Step)
    requires InOrder(s) && (step.Sign? || step.Persist? || step.Park? || step.Stop?)
    ensures InOrder(Next(k, c, s, step))
  {
    var t := Next(k, c, s, step);
    assert t.pipe.queue == s.pipe.queue && t.pipe.sink == s.pipe.sink;
    assert t.handled == s.handled && t.enqueued == s.enqueued && Held(t.worker) == Held(s.worker);
  }

  lemma StepOrders(k: Signer, c: Setup, s: State, step: Step)
    requires InOrder(s)
    ensures InOrder(Next(k, c, s, step))
  {
    match step
    case Offer(r) => OfferOrders(c, s, r);
    case Take => if s.worker == Idle && s.pipe.queue != [] { TakeOrders(s); }
    case WorkerStore(fault) => if s.worker.Took? { WorkerStoreOrders(s, s.worker.rec, fault); }
    case WorkerPublish(fault) => if Held(s.worker) != [] { PublishOrders(c, s, s.worker.rec, fault); }
    case _ => QuietStepOrders(k, c, s, step);
  }

  lemma {:induction false} RunOrders(k: Signer, c: Setup, steps: seq<Step>)
    ensures InOrder(Run(k, c, steps))
  {
    if steps != [] {
      RunOrders(k, c, steps[..|steps| - 1]);
      StepOrders(k, c, Run(k, c, steps[..|steps| - 1]), steps[|steps| - 1]);
    }
  }

  // The other conjuncts, step by step.

  lemma SignKeeps(k: Signer, c: Setup, s: State, rec: Record, now: int)
    requires Accounted(c, s)
    ensures Accounted(c, Next(k, c, s, Sign(rec, now)))
  {}

  lemma PersistBalances(c: Setup, s: State, r: Record, fault: bool)
    requires Balanced(c, s) && r in s.signed
    ensures Balanced(c, AfterPersist(s, r, fault))
  {}

  lemma PersistAccounts(c: Setup, s: State, r: Record, fault: bool)
    requires Accounted(c, s) && r in s.signed
    ensures Accounted(c, AfterPersist(s, r, fault))
  {
    PersistBalances(c, s, r, fault);
  }

  lemma PersistKeeps(k: Signer, c: Setup, s: State, r: Record, fault: bool)
    requires Accounted(c, s)
    ensures Accounted(c, Next(k, c, s, Persist(r, fault)))
  {
    if r in s.signed && Durable(c) {
      PersistAccounts(c, s, r, fault);
    }
  }

  lemma OfferBalances(c: Setup, s: State, r: Record)
    requires Balanced(c, s) && r in (if Durable(c) then s.kept else s.signed)
    ensures Balanced(c, AfterOffer(c, s, r))
  {}

  lemma OfferStaysGenuine(c: Setup, s: State, r: Record)
    requires CallsGenuine(s) && PipeGenuine(s) && r in (if Durable(c) then s.kept else s.signed)
    ensures CallsGenuine(AfterOffer(c, s, r)) && PipeGenuine(AfterOffer(c, s, r))
  {}

  lemma OfferStaysStored(c: Setup, s: State, r: Record)
    requires StoredFirst(c, s) && r in (if Durable(c) then s.kept else s.signed)
    ensures StoredFirst(c, AfterOffer(c, s, r))
  {}

  lemma OfferAccounts(c: Setup, s: State, r: Record)
    requires Accounted(c, s) && r in (if Durable(c) then s.kept else s.signed)
    ensures Accounted(c, AfterOffer(c, s, r))
  {
    OfferBalances(c, s, r);
    OfferStaysGenuine(c, s, r);
    OfferStaysStored(c, s, r);
  }

  lemma OfferKeeps(k: Signer, c: Setup, s: State, r: Record)
    requires Accounted(c, s)
    ensures Accounted(c, Next(k, c, s, Offer(r)))
  {
    if r in (if Durable(c) then s.kept else s.signed) {
      OfferAccounts(c, s, r);
    }
  }

  lemma ParkKeeps(k: Signer, c: Setup, s: State, r: Record, now: int)
    requires Accounted(c, s)
    ensures Accounted(c, Next(k, c, s, Park(r, now)))
  {
    if r in s.emitted {
      ParkAccounts(c, s, r, now);
    }
  }

  lemma ParkAccounts(c: Setup, s: State, r: Record, now: int)
    requires Accounted(c, s) && r in s.emitted
    ensures Accounted(c, AfterPark(s, r, now))
  {
    assert forall x :: x in AfterPark(s, r, now).emitted ==> x in s.emitted;
  }

  lemma TakeKeeps(k: Signer, c: Setup, s: State)
    requires Accounted(c, s)
    ensures Accounted(c, Next(k, c, s, Take))
  {
    if s.worker == Idle && s.pipe.queue != [] {
      var t := AfterTake(s);
      assert forall r :: r in t.pipe.queue || r in Held(t.worker) ==> r in s.pipe.queue;
    }
  }

  lemma WorkerStoreKeeps(k: Signer, c: Setup, s: State, fault: bool)
    requires Accounted(c, s)
    ensures Accounted(c, Next(k, c, s, WorkerStore(fault)))
  {
    assert s.worker.Took? ==> s.worker.rec in Held(s.worker);
  }

  lemma PublishKeeps(k: Signer, c: Setup, s: State, fault: bool)
    requires Accounted(c, s)
    ensures Accounted(c, Next(k, c, s, WorkerPublish(fault)))
  {
    assert s.worker.Took? || s.worker.Kept? ==> s.worker.rec in Held(s.worker);
  }

  lemma StepKeeps(k: Signer, c: Setup, s: State, step: Step)
    requires Inv(c, s)
    ensures Inv(c, Next(k, c, s, step))
  {
    StepOrders(k, c, s, step);
    match step
    case Sign(rec, now) => SignKeeps(k, c, s, rec, now);
    case Persist(r, fault) => PersistKeeps(k, c, s, r, fault);
    case Offer(r) => OfferKeeps(k, c, s, r);
    case Park(r, now) => ParkKeeps(k, c, s, r, now);
    case Take => TakeKeeps(k, c, s);
    case WorkerStore(fault) => WorkerStoreKeeps(k, c, s, fault);
    case WorkerPublish(fault) => PublishKeeps(k, c, s, fault);
    case Stop =>
  }

  lemma {:induction false} RunKeeps(k: Signer, c: Setup, steps: seq<Step>)
    ensures Inv(c, Run(k, c, steps))
  {
    if steps != [] {
      RunKeeps(k, c, steps[..|steps| - 1]);
      StepKeeps(k, c, Run(k, c, steps[..|steps| - 1]), steps[|steps| - 1]);
    }
  }

  // ---- Conservation, order and provenance over whole runs ----------------

  /** Conservation: with a sink, every reachable state accounts for every signed Emit call. */
  lemma Conservation(k: Signer, c: Setup, steps: seq<Step>)
    requires c.hasSink
    ensures var s := Run(k, c, steps);
            s.signings == |s.pipe.sink| + s.pipe.drops + |s.pipe.queue| + |Held(s.worker)| + |s.signed| + |s.kept|
  {
    RunKeeps(k, c, steps);
  }

  /** Publication order is enqueue order: nothing is published twice, reordered or made up. */
  lemma SinkFollowsEnqueueOrder(k: Signer, c: Setup, steps: seq<Step>)
    ensures Subsequence(Run(k, c, steps).pipe.sink, Run(k, c, steps).enqueued)
  {
    RunOrders(k, c, steps);
    var s := Run(k, c, steps);
    SubsequenceExtends(s.pipe.sink, s.handled, Held(s.worker) + s.pipe.queue);
    assert s.enqueued == s.handled + (Held(s.worker) + s.pipe.queue);
  }

  lemma {:induction false} BegunVerifies(k: Signer, c: Setup, steps: seq<Step>)
    requires Sound(k)
    ensures forall r :: r in Run(k, c, steps).begun ==> Verifies(k, r)
  {
    if steps != [] {
      var step := steps[|steps| - 1];
      BegunVerifies(k, c, steps[..|steps| - 1]);
      if step.Sign? && Signed(k, Dated(step.rec, step.now)).Some? {
        SignedVerifies(k, Dated(step.rec, step.now));
      }
    }
  }

  /** Everything stored, queued or published verifies, and with a store nothing is published unstored. */
  lemma PublishedWasStoredAndVerifies(k: Signer, c: Setup, steps: seq<Step>)
    requires Sound(k)
    ensures var s := Run(k, c, steps);
            && (forall r :: r in s.pipe.queue || r in s.pipe.sink ==> Verifies(k, r))
            && (forall id :: id in s.pipe.store ==> Verifies(k, s.pipe.store[id]))
            && (c.hasStore ==> forall r :: r in s.pipe.sink ==> r in s.puts && r.decisionId in s.pipe.store)
  {
    BegunVerifies(k, c, steps);
    RunKeeps(k, c, steps);
  }

  // ---- Durable before park -----------------------------------------------

  /** Decision ids are never reused. */
  ghost predicate FreshIds(steps: seq<Step>) {
    forall i, j :: 0 <= i < j < |steps| && steps[i].Sign? && steps[j].Sign? ==>
      steps[i].rec.decisionId != steps[j].rec.decisionId
  }

  ghost predicate Distinct(s: State) {
    forall a, b :: a in s.begun && b in s.begun && a.decisionId == b.decisionId ==> a == b
  }

  /** Only a Sign step signs, and what it signs keeps the decision id. */
  lemma BegunGrows(k: Signer, c: Setup, s: State, step: Step, r: Record)
    requires r in Next(k, c, s, step).begun && r !in s.begun
    ensures step.Sign? && Signed(k, Dated(step.rec, step.now)) == Some(r) && r.decisionId == step.rec.decisionId
  {}

  lemma {:induction false} BegunFromSign(k: Signer, c: Setup, steps: seq<Step>, r: Record)
    requires r in Run(k, c, steps).begun
    ensures exists i :: 0 <= i < |steps| && steps[i].Sign? && steps[i].rec.decisionId == r.decisionId
  {
    var p := steps[..|steps| - 1];
    if r in Run(k, c, p).begun {
      BegunFromSign(k, c, p, r);
      var i :| 0 <= i < |p| && p[i].Sign? && p[i].rec.decisionId == r.decisionId;
      assert steps[i] == p[i];
    } else {
      BegunGrows(k, c, Run(k, c, p), steps[|steps| - 1], r);
    }
  }

  /** An id signed in the last step was not signed before it. */
  lemma FreshLast(k: Signer, c: Setup, steps: seq<Step>, r: Record)
    requires steps != [] && FreshIds(steps) && steps[|steps| - 1].Sign?
    requires r in Run(k, c, steps[..|steps| - 1]).begun
    ensures r.decisionId != steps[|steps| - 1].rec.decisionId
  {
    var p := steps[..|steps| - 1];
    BegunFromSign(k, c, p, r);
    var i :| 0 <= i < |p| && p[i].Sign? && p[i].rec.decisionId == r.decisionId;
    assert steps[i] == p[i];
  }

  lemma {:induction false} FreshMeansDistinct(k: Signer, c: Setup, steps: seq<Step>)
    requires FreshIds(steps)
    ensures Distinct(Run(k, c, steps))
  {
    if steps != [] {
      var p, step := steps[..|steps| - 1], steps[|steps| - 1];
      assert FreshIds(p);
      FreshMeansDistinct(k, c, p);
      var s, t := Run(k, c, p), Run(k, c, steps);
      forall a, b | a in t.begun && b in t.begun && a.decisionId == b.decisionId ensures a == b {
        if a !in s.begun {
          BegunGrows(k, c, s, step, a);
        }
        if b !in s.begun {
          BegunGrows(k, c, s, step, b);
        }
        if a in s.begun && b !in s.begun {
          FreshLast(k, c, steps, a);
        }
        if b in s.begun && a !in s.begun {
          FreshLast(k, c, steps, b);
        }
      }
    }
  }

  /**
   * Durable before park, over every interleaving in the synchronous mode: a call that returned
   * without error has been stored even if the queue dropped it, every parked id is in the store,
   * and with fresh ids the stored record is that very record and says manual_review.
   */
  lemma DurableBeforePark(k: Signer, c: Setup, steps: seq<Step>)
    requires Durable(c)
    ensures var s := Run(k, c, steps);
            && (forall r :: r in s.returned || r in s.emitted ==> r.decisionId in s.pipe.store)
            && (forall id :: id in s.review.mem ==> id in s.pipe.store)
            && (FreshIds(steps) ==>
                 && (forall r :: r in s.returned ==> s.pipe.store[r.decisionId] == r)
                 && (forall id :: id in s.review.mem ==> s.pipe.store[id].decision == "manual_review"))
  {
    RunKeeps(k, c, steps);
    if FreshIds(steps) {
      FreshMeansDistinct(k, c, steps);
    }
  }

  lemma RunSnoc(k: Signer, c: Setup, steps: seq<Step>, step: Step)
    ensures Run(k, c, steps + [step]) == Next(k, c, Run(k, c, steps), step)
  {}

  /** The mode matters: any signable manual_review record can be parked before it is stored otherwise. */
  lemma ParkedBeforeStoredOtherwise(k: Signer, c: Setup, rec: Record)
    requires !Durable(c) && rec.decision == "manual_review" && rec.decisionId != "" && Signed(k, Dated(rec, 0)).Some?
    ensures exists steps :: var s := Run(k, c, steps); rec.decisionId in s.review.mem && s.pipe.store == map[]
  {
    var r := Signed(k, Dated(rec, 0)).value;
    var s1 := [] + [Sign(rec, 0)];
    var s2 := s1 + [Offer(r)];
    var s3 := s2 + [Park(r, 0)];
    RunSnoc(k, c, [], Sign(rec, 0));
    RunSnoc(k, c, s1, Offer(r));
    RunSnoc(k, c, s2, Park(r, 0));
    assert r.decisionId == rec.decisionId && r.decision == rec.decision;
    assert rec.decisionId in Run(k, c, s3).review.mem && Run(k, c, s3).pipe.store == map[];
  }

  /** Parking an id that is not stored is possible in exactly the modes that do not store first. */
  lemma ParkedUnstoredExactlyUnlessDurable(k: Signer, c: Setup, rec: Record)
    requires rec.decision == "manual_review" && rec.decisionId != "" && Signed(k, Dated(rec, 0)).Some?
    ensures (exists steps, id :: id in Run(k, c, steps).review.mem && id !in Run(k, c, steps).pipe.store)
            <==> !Durable(c)
  {
    if Durable(c) {
      forall steps: seq<Step>, id | id in Run(k, c, steps).review.mem ensures id in Run(k, c, steps).pipe.store {
        DurableBeforePark(k, c, steps);
      }
    } else {
      ParkedBeforeStoredOtherwise(k, c, rec);
    }
  }

  // ---- The service's own calls are runs of these steps -------------------

  /** An uninterrupted Emit is Sign, Persist, Offer, cut short by the first that fails. */
  lemma EmitIsThreeSteps(k: Signer, c: Setup, s: State, rec: Record, now: int, fault: bool)
    ensures var (pipe, result) := Emitting(k, c, s.pipe, rec, now, fault);
            var t := Next(k, c, s, Sign(rec, now));
            if Signed(k, Dated(rec, now)).None? then result == SignFailed && t == s && pipe == s.pipe
            else
              var r := Signed(k, Dated(rec, now)).value;
              var u := Next(k, c, t, Persist(r, fault));
              && result != SignFailed
              && pipe == if result == PersistFailed then u.pipe else Next(k, c, u, Offer(r)).pipe
  {}

  /** An uninterrupted turn of the worker is Take, WorkerStore, WorkerPublish. */
  lemma WorkIsThreeSteps(k: Signer, c: Setup, s: State, storeFault: bool, sinkFault: bool)
    requires s.worker == Idle && s.pipe.queue != []
    ensures var t := Next(k, c, Next(k, c, s, Take), WorkerStore(storeFault));
            Next(k, c, t, WorkerPublish(sinkFault)).pipe == Working(c, s.pipe, storeFault, sinkFault)
  {}

  // ---- The queue is bounded ----------------------------------------------

  lemma StepStaysBounded(k: Signer, c: Setup, s: State, step: Step)
    requires |s.pipe.queue| <= c.capacity
    ensures |Next(k, c, s, step).pipe.queue| <= c.capacity
  {}

  lemma {:induction false} QueueIsBounded(k: Signer, c: Setup, steps: seq<Step>)
    ensures |Run(k, c, steps).pipe.queue| <= c.capacity
  {
    if steps != [] {
      QueueIsBounded(k, c, steps[..|steps| - 1]);
      StepStaysBounded(k, c, Run(k, c, steps[..|steps| - 1]), steps[|steps| - 1]);
    }
  }

  /** An offer is taken, at the end of the queue, exactly while there is room, and is a drop otherwise. */
  lemma OfferTakenExactlyWhenRoom(k: Signer, c: Setup, steps: seq<Step>, r: Record)
    requires r in (if Durable(c) then Run(k, c, steps).kept else Run(k, c, steps).signed)
    ensures var s := Run(k, c, steps);
            var t := Next(k, c, s, Offer(r));
            && t.pipe.sink == s.pipe.sink && t.pipe.store == s.pipe.store
            && if |s.pipe.queue| == c.capacity then t.pipe.queue == s.pipe.queue && t.pipe.drops == s.pipe.drops + 1
               else t.pipe.queue == s.pipe.queue + [r] && t.pipe.drops == s.pipe.drops
  {
    QueueIsBounded(k, c, steps);
  }
}
