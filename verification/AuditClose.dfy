/** What stopping the worker leaves behind. */
module AuditClose {
  import opened Prelude
  import opened Audit
  import opened AuditRuns

  /** From `s` to `t` the worker stayed stopped and only offers touched the queue. */
  ghost predicate OnlyOffered(s: State, t: State) {
    && t.worker == Stopped && t.pipe.sink == s.pipe.sink && s.enqueued <= t.enqueued
    && t.pipe.queue == s.pipe.queue + t.enqueued[|s.enqueued|..]
  }

  lemma OfferAfterStop(c: Setup, s: State, r: Record)
    requires s.worker == Stopped
    ensures OnlyOffered(s, AfterOffer(c, s, r))
  {}

  lemma StepAfterStop(k: Signer, c: Setup, s: State, step: Step)
    requires s.worker == Stopped
    ensures OnlyOffered(s, Next(k, c, s, step))
  {
    if step.Offer? {
      OfferAfterStop(c, s, step.rec);
    } else {
      QueueAfterStop(k, c, s, step);
    }
  }

  /** A stopped worker takes nothing, and calls reach the queue by an offer only. */
  lemma QueueAfterStop(k: Signer, c: Setup, s: State, step: Step)
    requires s.worker == Stopped && !step.Offer?
    ensures var t := Next(k, c, s, step);
            && t.worker == Stopped && t.pipe.sink == s.pipe.sink
            && t.pipe.queue == s.pipe.queue && t.enqueued == s.enqueued
  {}

  lemma OnlyOfferedTransitive(s: State, t: State, u: State)
    requires OnlyOffered(s, t) && OnlyOffered(t, u)
    ensures OnlyOffered(s, u)
  {
    assert u.enqueued[|s.enqueued|..] == t.enqueued[|s.enqueued|..] + u.enqueued[|t.enqueued|..];
  }

  lemma {:induction false} OnlyOfferedSinceStop(k: Signer, c: Setup, steps: seq<Step>, n: nat)
    requires n <= |steps| && Run(k, c, steps[..n]).worker == Stopped
    ensures OnlyOffered(Run(k, c, steps[..n]), Run(k, c, steps))
  {
    if n == |steps| {
      assert steps[..n] == steps;
    } else {
      var p := steps[..|steps| - 1];
      assert p[..n] == steps[..n];
      OnlyOfferedSinceStop(k, c, p, n);
      StepAfterStop(k, c, Run(k, c, p), steps[|steps| - 1]);
      OnlyOfferedTransitive(Run(k, c, steps[..n]), Run(k, c, p), Run(k, c, steps));
    }
  }

  /**
   * Close waits only for the worker to stop. From then on the sink never grows and the queue is
   * what it was at the stop followed by every record taken since, so the books close with what
   * remains queued.
   */
  lemma StoppedForGood(k: Signer, c: Setup, steps: seq<Step>, n: nat)
    requires n <= |steps| && Run(k, c, steps[..n]).worker == Stopped
    ensures var s, t := Run(k, c, steps[..n]), Run(k, c, steps);
            && t.worker == Stopped && t.pipe.sink == s.pipe.sink && s.enqueued <= t.enqueued
            && t.pipe.queue == s.pipe.queue + t.enqueued[|s.enqueued|..]
            && (c.hasSink ==> t.signings == |t.pipe.sink| + t.pipe.drops + |t.pipe.queue| + |t.signed| + |t.kept|)
  {
    OnlyOfferedSinceStop(k, c, steps, n);
    if c.hasSink {
      Conservation(k, c, steps);
    }
  }

  lemma DrainedBetween(s: State, t: State)
    requires OnlyOffered(s, t) && InOrder(t)
    ensures t.pipe.queue == [] <==> t.handled == t.enqueued
    ensures t.pipe.queue == [] <==> s.pipe.queue == [] && t.enqueued == s.enqueued
  {
    assert t.enqueued == t.handled + t.pipe.queue;
    assert |t.pipe.queue| == |s.pipe.queue| + |t.enqueued| - |s.enqueued|;
  }

  /**
   * Exactly when Close leaves nothing behind: every record ever taken into the queue has been
   * handled if and only if the queue was empty at the moment the worker stopped and no record has
   * been taken since.
   */
  lemma DrainedExactlyWhenEmptyAtStop(k: Signer, c: Setup, steps: seq<Step>, n: nat)
    requires n <= |steps| && Run(k, c, steps[..n]).worker == Stopped
    ensures var s, t := Run(k, c, steps[..n]), Run(k, c, steps);
            && (t.pipe.queue == [] <==> t.handled == t.enqueued)
            && (t.pipe.queue == [] <==> s.pipe.queue == [] && t.enqueued == s.enqueued)
  {
    OnlyOfferedSinceStop(k, c, steps, n);
    RunOrders(k, c, steps);
    DrainedBetween(Run(k, c, steps[..n]), Run(k, c, steps));
  }

  /** So Close need not drain, in either mode: a record can be left behind in the queue. */
  lemma CloseCanStrand(k: Signer, c: Setup, rec: Record)
    requires c.capacity > 0 && rec.decisionId != "" && Signed(k, Dated(rec, 0)).Some?
    ensures exists steps :: var s := Run(k, c, steps); s.worker == Stopped && |s.pipe.queue| == 1
  {
    var r := Signed(k, Dated(rec, 0)).value;
    var s1 := [] + [Sign(rec, 0)];
    var s2 := s1 + [Persist(r, false)];
    var s3 := s2 + [Offer(r)];
    var s4 := s3 + [Stop];
    RunSnoc(k, c, [], Sign(rec, 0));
    RunSnoc(k, c, s1, Persist(r, false));
    assert Run(k, c, s2).pipe.queue == [] && Run(k, c, s2).worker == Idle;
    RunSnoc(k, c, s2, Offer(r));
    RunSnoc(k, c, s3, Stop);
    assert Run(k, c, s4).worker == Stopped && |Run(k, c, s4).pipe.queue| == 1;
  }
}
