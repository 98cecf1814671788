/** What one counter cell says about the whole history of operations on it. */
module VelocityHistory {
  import opened Prelude
  import opened Velocity

  datatype Event = Up(at: int) | Down(at: int)

  /** The clock never runs backwards and no event lies after `t`. */
  ghost predicate Ordered(h: seq<Event>, t: int) {
    && (forall i, j :: 0 <= i <= j < |h| ==> h[i].at <= h[j].at)
    && (forall i :: 0 <= i < |h| ==> h[i].at <= t)
  }

  function Apply(c: Cell, e: Event, w: int): Cell {
    match e
    case Up(at) => Some(Bump(c, w, at))
    case Down(at) => Undo(c, at)
  }

  /** The cell after running `h` on an absent key. */
  function Play(h: seq<Event>, w: int): Cell {
    if h == [] then None else Apply(Play(h[..|h| - 1], w), h[|h| - 1], w)
  }

  // ---- An independent reading of the history -----------------------------

  /** Event `i` is an increment that opens a generation: every earlier one is more than `w` old. */
  ghost predicate Opens(h: seq<Event>, i: nat, w: int)
    requires i < |h|
  {
    h[i].Up? && forall j :: 0 <= j < i && h[j].Up? ==> h[j].at + w < h[i].at
  }

  /** Increment `g` opens the generation that is current at the end of `h`. */
  ghost predicate CurrentGeneration(h: seq<Event>, g: nat, w: int) {
    g < |h| && Opens(h, g, w) && forall i :: g < i < |h| ==> !Opens(h, i, w)
  }

  /** Some increment is still within `w` of `t`. */
  ghost predicate Recent(h: seq<Event>, w: int, t: int) {
    exists i :: 0 <= i < |h| && h[i].Up? && t <= h[i].at + w
  }

  /** Counting up and down from zero, never below zero. */
  function Saturating(h: seq<Event>): nat {
    if h == [] then 0
    else
      var n := Saturating(h[..|h| - 1]);
      if h[|h| - 1].Up? then n + 1 else if n == 0 then 0 else n - 1
  }

  lemma OpensPrefix(h: seq<Event>, i: nat, w: int)
    requires i < |h| - 1
    ensures Opens(h, i, w) <==> Opens(h[..|h| - 1], i, w)
  {}

  /** Without a single increment the key stays absent. */
  lemma {:induction false} OnlyDowns(h: seq<Event>, w: int)
    requires forall i :: 0 <= i < |h| ==> h[i].Down?
    ensures Play(h, w) == None
  {
    if h != [] {
      OnlyDowns(h[..|h| - 1], w);
    }
  }

  /** The cell is live exactly while some increment is recent. */
  lemma {:induction false} LiveIffRecent(h: seq<Event>, w: int, t: int)
    requires Ordered(h, t)
    ensures Live(Play(h, w), t) <==> Recent(h, w, t)
  {
    if h != [] {
      var p, e := h[..|h| - 1], h[|h| - 1];
      LiveIffRecent(p, w, t);
      assert forall i :: 0 <= i < |p| ==> p[i] == h[i];
      if e.Up? {
        if t <= e.at + w {
          assert h[|h| - 1].Up?;
        } else {
          assert !Recent(h, w, t);
        }
      } else {
        assert Live(Play(h, w), t) <==> Live(Play(p, w), t);
      }
    }
  }

  /**
   * Counter against history: at every time the value is the saturating count over the current
   * generation, and zero once the last increment is more than `w` old.
   */
  lemma {:induction false} ReadingIsGenerationCount(h: seq<Event>, w: int, t: int, g: nat)
    requires Ordered(h, t) && CurrentGeneration(h, g, w)
    ensures Reading(Play(h, w), t) == if Recent(h, w, t) then Saturating(h[g..]) else 0
  {
    LiveIffRecent(h, w, t);
    if Recent(h, w, t) {
      StoredIsGenerationCount(h, w, t, g);
    }
  }

  /** There is a current generation as soon as there is an increment, and never without one. */
  lemma {:induction false} GenerationExists(h: seq<Event>, w: int)
    ensures (exists g: nat :: CurrentGeneration(h, g, w)) <==> exists i :: 0 <= i < |h| && h[i].Up?
  {
    if i :| 0 <= i < |h| && h[i].Up? {
      var n := |h| - 1;
      if Opens(h, n, w) {
        assert CurrentGeneration(h, n, w);
      } else {
        var j :| 0 <= j < n && h[j].Up?;
        var p := h[..n];
        assert p[j].Up?;
        GenerationExists(p, w);
        var g: nat :| CurrentGeneration(p, g, w);
        OpensPrefix(h, g, w);
        forall i | g < i < |h| ensures !Opens(h, i, w) {
          if i < n {
            OpensPrefix(h, i, w);
          }
        }
        assert CurrentGeneration(h, g, w);
      }
    }
  }

  lemma GenerationOfPrefix(h: seq<Event>, w: int, g: nat)
    requires CurrentGeneration(h, g, w) && g < |h| - 1
    ensures CurrentGeneration(h[..|h| - 1], g, w)
  {
    OpensPrefix(h, g, w);
    var p := h[..|h| - 1];
    forall i | g < i < |p| ensures !Opens(p, i, w) {
      OpensPrefix(h, i, w);
    }
  }

  /** Inside a generation the cell is live at each next event, unless it is dead for good. */
  lemma LiveInsideGeneration(h: seq<Event>, w: int, t: int, g: nat)
    requires Ordered(h, t) && CurrentGeneration(h, g, w) && g < |h| - 1 && Live(Play(h, w), t)
    ensures Live(Play(h[..|h| - 1], w), h[|h| - 1].at)
  {
    var n := |h| - 1;
    var p, e := h[..n], h[n];
    if e.Up? {
      assert !Opens(h, n, w);
      var j :| 0 <= j < n && h[j].Up? && e.at <= h[j].at + w;
      assert p[j] == h[j];
      LiveIffRecent(p, w, e.at);
    }
  }

  lemma DeadBeforeOpening(h: seq<Event>, w: int, t: int)
    requires h != [] && Ordered(h, t) && Opens(h, |h| - 1, w)
    ensures !Live(Play(h[..|h| - 1], w), h[|h| - 1].at)
  {
    var p := h[..|h| - 1];
    assert forall j :: 0 <= j < |p| ==> p[j] == h[j];
    LiveIffRecent(p, w, h[|h| - 1].at);
  }

  lemma {:induction false} StoredIsGenerationCount(h: seq<Event>, w: int, t: int, g: nat)
    requires Ordered(h, t) && CurrentGeneration(h, g, w) && Live(Play(h, w), t)
    ensures Play(h, w).value.value == Saturating(h[g..])
  {
    var n := |h| - 1;
    var p, e := h[..n], h[n];
    assert h[g..] == p[g..] + [e];
    assert h[g..][..n - g] == p[g..];
    if g == n {
      DeadBeforeOpening(h, w, t);
    } else {
      GenerationOfPrefix(h, w, g);
      LiveInsideGeneration(h, w, t, g);
      StoredIsGenerationCount(p, w, e.at, g);
    }
  }

  // ---- The true rolling window -------------------------------------------

  function Ups(h: seq<Event>, lo: int): nat {
    if h == [] then 0
    else Ups(h[..|h| - 1], lo) + if h[|h| - 1].Up? && lo <= h[|h| - 1].at then 1 else 0
  }

  function Downs(h: seq<Event>, lo: int): nat {
    if h == [] then 0
    else Downs(h[..|h| - 1], lo) + if h[|h| - 1].Down? && lo <= h[|h| - 1].at then 1 else 0
  }

  lemma {:induction false} NothingSince(h: seq<Event>, lo: int)
    requires forall i :: 0 <= i < |h| ==> h[i].at < lo
    ensures Ups(h, lo) == 0
  {
    if h != [] {
      NothingSince(h[..|h| - 1], lo);
    }
  }

  lemma {:induction false} StoredNonNegative(h: seq<Event>, w: int)
    ensures Play(h, w).Some? ==> Play(h, w).value.value >= 0
  {
    if h != [] {
      StoredNonNegative(h[..|h| - 1], w);
    }
  }

  /**
   * The counter never under-counts the rolling window: increments minus rollbacks
   * inside any window [lo, t] no longer than `w` is a lower bound.
   */
  lemma {:induction false} NeverUnderCounts(h: seq<Event>, w: int, t: int, lo: int)
    requires Ordered(h, t) && t - w <= lo
    ensures Reading(Play(h, w), t) >= Ups(h, lo) - Downs(h, lo)
  {
    StoredNonNegative(h, w);
    if h != [] {
      var p, e := h[..|h| - 1], h[|h| - 1];
      assert Ordered(p, e.at);
      if e.at < lo {
        NothingSince(h, lo);
      } else if e.Up? {
        NeverUnderCounts(p, w, e.at, lo);
      } else {
        NeverUnderCounts(p, w, t, lo);
      }
    }
  }

  // ---- Exactly when the counter is the rolling count ---------------------

  /** Increments minus rollbacks since `lo`. */
  function Net(h: seq<Event>, lo: int): int {
    Ups(h, lo) - Downs(h, lo)
  }

  /** The first `k` events lie before `lo`, the others do not. */
  ghost predicate Splits(h: seq<Event>, lo: int, k: nat) {
    k <= |h| && forall i :: 0 <= i < |h| ==> (lo <= h[i].at <==> k <= i)
  }

  /** Every history splits at every time. */
  lemma FirstSince(h: seq<Event>, t: int, lo: int) returns (k: nat)
    requires Ordered(h, t)
    ensures Splits(h, lo, k)
  {
    k := |h|;
    while 0 < k && lo <= h[k - 1].at
      invariant k <= |h| && forall i :: k <= i < |h| ==> lo <= h[i].at
    {
      k := k - 1;
    }
  }

  /** What the counter reads as the window opens: at its first event, or at the end without one. */
  function Carried(h: seq<Event>, w: int, t: int, k: nat): int
    requires k <= |h|
  {
    Reading(Play(h[..k], w), if k < |h| then h[k].at else t)
  }

  /** At no moment since `lo` have there been more rollbacks than increments. */
  ghost predicate Covered(h: seq<Event>, lo: int) {
    forall n :: 0 <= n <= |h| ==> 0 <= Net(h[..n], lo)
  }

  lemma CoveredSnoc(h: seq<Event>, lo: int)
    requires h != []
    ensures Covered(h, lo) <==> Covered(h[..|h| - 1], lo) && 0 <= Net(h, lo)
  {
    var p := h[..|h| - 1];
    assert forall n :: 0 <= n <= |p| ==> p[..n] == h[..n];
    assert h[..|h|] == h;
  }

  lemma {:induction false} CoveredBefore(h: seq<Event>, lo: int)
    requires forall i :: 0 <= i < |h| ==> h[i].at < lo
    ensures Net(h, lo) == 0 && Covered(h, lo)
  {
    if h != [] {
      CoveredBefore(h[..|h| - 1], lo);
      CoveredSnoc(h, lo);
    } else {
      assert Ups(h, lo) == 0 && Downs(h, lo) == 0;
    }
  }

  lemma {:induction false} UpsMeanRecent(h: seq<Event>, lo: int)
    ensures 0 < Ups(h, lo) <==> exists i :: 0 <= i < |h| && h[i].Up? && lo <= h[i].at
  {
    if h != [] {
      var p := h[..|h| - 1];
      UpsMeanRecent(p, lo);
      assert forall i :: 0 <= i < |p| ==> p[i] == h[i];
    }
  }

  lemma UpKeepsNet(h: seq<Event>, w: int, t: int, lo: int)
    requires h != [] && Ordered(h, t) && t - w <= lo <= h[|h| - 1].at && h[|h| - 1].Up?
    ensures Net(h, lo) == Net(h[..|h| - 1], lo) + 1
    ensures Reading(Play(h, w), t) == Reading(Play(h[..|h| - 1], w), h[|h| - 1].at) + 1
  {}

  /** A rollback keeps the counter exact if and only if the count it found was exact and not zero. */
  lemma DownKeepsNet(h: seq<Event>, w: int, t: int, lo: int)
    requires h != [] && Ordered(h, t) && t - w <= lo <= h[|h| - 1].at && h[|h| - 1].Down?
    ensures var p, at := h[..|h| - 1], h[|h| - 1].at;
            Reading(Play(h, w), t) == Net(h, lo) <==> Reading(Play(p, w), at) == Net(p, lo) && 0 <= Net(h, lo)
  {
    var p, e := h[..|h| - 1], h[|h| - 1];
    assert Ordered(p, e.at);
    StoredNonNegative(p, w);
    NeverUnderCounts(p, w, e.at, lo);
    UpsMeanRecent(h, lo);
    LiveIffRecent(h, w, t);
    assert Net(h, lo) == Net(p, lo) - 1;
    if 0 < Ups(h, lo) {
      assert Live(Play(h, w), t) && Play(h, w) == Undo(Play(p, w), e.at);
    }
  }

  /**
   * The documents promise a rolling window. In any window ending now and no longer than the
   * configured one, the counter equals increments minus rollbacks if and only if it read zero as
   * the window opened and no prefix of the window has more rollbacks than increments.
   */
  lemma {:induction false} RollingExactlyWhenNothingIsCarried(h: seq<Event>, w: int, t: int, lo: int, k: nat)
    requires Ordered(h, t) && t - w <= lo && Splits(h, lo, k)
    ensures Reading(Play(h, w), t) == Net(h, lo) <==> Carried(h, w, t, k) == 0 && Covered(h, lo)
  {
    if k == |h| {
      CoveredBefore(h, lo);
      assert h[..k] == h;
    } else {
      var p, e := h[..|h| - 1], h[|h| - 1];
      assert Ordered(p, e.at) && Splits(p, lo, k);
      RollingExactlyWhenNothingIsCarried(p, w, e.at, lo, k);
      CoveredSnoc(h, lo);
      assert p[..k] == h[..k];
      assert Carried(p, w, e.at, k) == Carried(h, w, t, k);
      if e.Up? {
        UpKeepsNet(h, w, t, lo);
      } else {
        DownKeepsNet(h, w, t, lo);
      }
    }
  }

  lemma {:induction false} GenerationOfEarlier(h: seq<Event>, w: int, g: nat, k: nat)
    requires CurrentGeneration(h, g, w) && g < k <= |h|
    ensures CurrentGeneration(h[..k], g, w)
  {
    if k < |h| {
      GenerationOfPrefix(h, w, g);
      GenerationOfEarlier(h[..|h| - 1], w, g, k);
      assert h[..|h| - 1][..k] == h[..k];
    } else {
      assert h[..k] == h;
    }
  }

  /** Inside a generation an increment at or after `k` has one before `k` within reach of `k`. */
  lemma {:induction false} RecentAtOpening(h: seq<Event>, w: int, t: int, g: nat, k: nat, j: nat)
    requires Ordered(h, t) && CurrentGeneration(h, g, w) && g < k <= j < |h| && h[j].Up?
    ensures Recent(h[..k], w, h[k].at)
    decreases j
  {
    assert !Opens(h, j, w);
    var i :| 0 <= i < j && h[i].Up? && h[j].at <= h[i].at + w;
    if i < k {
      assert h[..k][i].Up?;
    } else {
      RecentAtOpening(h, w, t, g, k, i);
    }
  }

  /** While the counter is live, what it carries is the saturating count from the generation's start. */
  lemma CarriedFromGeneration(h: seq<Event>, w: int, t: int, g: nat, k: nat)
    requires Ordered(h, t) && CurrentGeneration(h, g, w) && Recent(h, w, t) && Splits(h, t - w, k) && g <= k
    ensures Carried(h, w, t, k) == Saturating(h[g..k])
  {
    var j :| 0 <= j < |h| && h[j].Up? && t <= h[j].at + w;
    var p := h[..k];
    assert Ordered(p, h[k].at);
    if g < k {
      RecentAtOpening(h, w, t, g, k, j);
      GenerationOfEarlier(h, w, g, k);
      ReadingIsGenerationCount(p, w, h[k].at, g);
      assert p[g..] == h[g..k];
    } else {
      var q := h[..k + 1];
      assert q[..k] == p && Ordered(q, h[k].at) && Opens(q, k, w);
      DeadBeforeOpening(q, w, h[k].at);
    }
  }

  /** What the window holds from before the generation can only be rollbacks. */
  lemma EarlierEventsAreRollbacks(h: seq<Event>, w: int, t: int, g: nat, k: nat)
    requires Ordered(h, t) && g < |h| && Opens(h, g, w) && Splits(h, t - w, k) && k < g
    ensures !Covered(h, t - w)
  {
    var q := h[..k + 1];
    CoveredBefore(h[..k], t - w);
    assert q[..k] == h[..k];
    assert h[k].Down?;
    assert Net(q, t - w) == -1;
  }

  /**
   * The same read off the history alone. A live counter equals the net count of the rolling window
   * if and only if the current generation opened no later than the window did, had been rolled
   * back to nothing by then, and no rollback in the window outruns the increments before it.
   */
  lemma RollingExactlyByHistory(h: seq<Event>, w: int, t: int, g: nat, k: nat)
    requires Ordered(h, t) && CurrentGeneration(h, g, w) && Recent(h, w, t) && Splits(h, t - w, k)
    ensures Reading(Play(h, w), t) == Net(h, t - w)
            <==> g <= k && Saturating(h[g..k]) == 0 && Covered(h, t - w)
  {
    RollingExactlyWhenNothingIsCarried(h, w, t, t - w, k);
    if g <= k {
      CarriedFromGeneration(h, w, t, g, k);
    } else {
      EarlierEventsAreRollbacks(h, w, t, g, k);
    }
  }

  /** A witness for every positive window: three increments one window apart all still count. */
  lemma OverCounts(w: int)
    requires w > 0
    ensures var h := [Up(0), Up(w), Up(2 * w)];
            Ordered(h, 2 * w) && Reading(Play(h, w), 2 * w) == 3 && Ups(h, w) == 2
  {
    var h := [Up(0), Up(w), Up(2 * w)];
    assert h[..2] == [Up(0), Up(w)] && h[..2][..1] == [Up(0)] && h[..2][..1][..0] == [];
    assert Ups(h[..2][..1], w) == 0;
    assert Ups(h[..2], w) == 1;
    assert Play(h[..2][..1], w) == Some(Entry(1, w));
    assert Play(h[..2], w) == Some(Entry(2, 2 * w));
  }
}
