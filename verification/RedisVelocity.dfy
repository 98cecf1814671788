/** The Redis-backed counter as a key/TTL machine, and its agreement with the in-memory one. */
module RedisVelocity {
  import opened Prelude
  import opened Velocity

  /** A Redis string key holding an integer; `ttl` is its absolute expiry, if it has one. */
  datatype Value = Value(n: int, ttl: Option<int>)
  type RCell = Option<Value>

  predicate Present(c: RCell, now: int) {
    c.Some? && (c.value.ttl.Some? ==> now <= c.value.ttl.value)
  }

  /** INCRBY: a missing key counts as zero and is created without a TTL; a TTL is kept. */
  function IncrBy(c: RCell, delta: int, now: int): Value {
    if Present(c, now) then c.value.(n := c.value.n + delta) else Value(delta, None)
  }

  /** The client sends EXPIRE whole seconds: a fraction of one is sent as one, the rest is cut off. */
  function Secs(w: int): int {
    if 0 < w < SECOND then 1
    else if 0 <= w then w / SECOND
    else -(-w / SECOND)
  }

  /** EXPIRE: a non-positive number of seconds deletes the key. */
  function Expire(v: Value, w: int, now: int): RCell {
    if Secs(w) <= 0 then None else Some(v.(ttl := Some(now + Secs(w) * SECOND)))
  }

  /** The rollback script: DECR, and on a negative result SET to 0, which drops the TTL. */
  function RollbackScript(c: RCell, now: int): Value {
    var v := IncrBy(c, -1, now);
    if v.n < 0 then Value(0, None) else v
  }

  function RReading(c: RCell, now: int): int {
    if Present(c, now) then c.value.n else 0
  }

  class RedisCounter {
    var db: map<string, Value>
    const prefix: string
    const text: int -> string

    constructor (prefix: string, text: int -> string)
      ensures db == map[] && this.text == text && this.prefix == if prefix == "" then "vel" else prefix
    {
      db := map[];
      this.prefix := if prefix == "" then "vel" else prefix;
      this.text := text;
    }

    function K(userID: string, w: int): string {
      prefix + ":" + userID + ":" + Suffix(w, text)
    }

    method Increment(userID: string, w: int, now: int) returns (v: int)
      modifies this
      ensures var c := Lookup(old(db), K(userID, w));
              && v == RReading(c, now) + 1
              && db == Write(old(db), K(userID, w), Expire(IncrBy(c, 1, now), w, now))
    {
      var k := K(userID, w);
      db := db[k := IncrBy(Lookup(db, k), 1, now)];
      v := db[k].n;
      db := Write(db, k, Expire(db[k], w, now));
    }

    method Rollback(userID: string, w: int, now: int) returns (v: int)
      modifies this
      ensures var c := Lookup(old(db), K(userID, w));
              && v == RollbackScript(c, now).n
              && db == old(db)[K(userID, w) := RollbackScript(c, now)]
    {
      var k := K(userID, w);
      db := db[k := IncrBy(Lookup(db, k), -1, now)];
      v := db[k].n;
      if v < 0 {
        db := db[k := Value(0, None)];
        v := 0;
      }
      if v == 0 {
        var cur := RReading(Lookup(db, k), now);
        if cur == 0 {
          return 0;
        }
      }
    }

    method Get(userID: string, w: int, now: int) returns (v: int)
      ensures v == RReading(Lookup(db, K(userID, w)), now)
    {
      v := RReading(Lookup(db, K(userID, w)), now);
    }
  }

  /** With the default prefix both counters keep a user's window under the same key. */
  lemma KeysAgree(r: RedisCounter, userID: string, w: int)
    requires r.prefix == "vel"
    ensures r.K(userID, w) == Key(userID, Suffix(w, r.text))
  {}

  // ---- Both counters on one sequence of operations -----------------------

  datatype Op = Inc(key: string, w: int, at: int) | Dec(key: string, at: int) | Read(key: string, at: int)

  ghost predicate Timely(ops: seq<Op>) {
    forall i, j :: 0 <= i <= j < |ops| ==> ops[i].at <= ops[j].at
  }

  /** A window EXPIRE renders exactly: a positive number of whole seconds, or already over. */
  predicate Whole(w: int) {
    w < 0 || (0 < w && w % SECOND == 0)
  }

  /** Every increment uses a window that EXPIRE renders exactly. */
  ghost predicate Windowed(ops: seq<Op>) {
    forall i :: 0 <= i < |ops| && ops[i].Inc? ==> Whole(ops[i].w)
  }

  function MemStep(m: map<string, Entry>, op: Op): (map<string, Entry>, int) {
    var c := Lookup(m, op.key);
    match op
    case Inc(k, w, at) => (m[k := Bump(c, w, at)], Bump(c, w, at).value)
    case Dec(k, at) => (Write(m, k, Undo(c, at)), Reading(Undo(c, at), at))
    case Read(k, at) => (m, Reading(c, at))
  }

  function RedisStep(m: map<string, Value>, op: Op): (map<string, Value>, int) {
    var c := Lookup(m, op.key);
    match op
    case Inc(k, w, at) => (Write(m, k, Expire(IncrBy(c, 1, at), w, at)), IncrBy(c, 1, at).n)
    case Dec(k, at) => (m[k := RollbackScript(c, at)], RollbackScript(c, at).n)
    case Read(k, at) => (m, RReading(c, at))
  }

  /** State and answers after running `ops` on empty counters. */
  function MemRun(ops: seq<Op>): (map<string, Entry>, seq<int>) {
    if ops == [] then (map[], [])
    else
      var (m, out) := MemRun(ops[..|ops| - 1]);
      var (m', v) := MemStep(m, ops[|ops| - 1]);
      (m', out + [v])
  }

  function RedisRun(ops: seq<Op>): (map<string, Value>, seq<int>) {
    if ops == [] then (map[], [])
    else
      var (m, out) := RedisRun(ops[..|ops| - 1]);
      var (m', v) := RedisStep(m, ops[|ops| - 1]);
      (m', out + [v])
  }

  /** The simulation relation on one key: equal values, and equal expiry while positive. */
  ghost predicate Agree(c: Cell, r: RCell, now: int) {
    && 0 <= Reading(c, now) == RReading(r, now)
    && (0 < Reading(c, now) ==> r.value.ttl == Some(c.value.expiresAt))
    && (c.Some? ==> 0 <= c.value.value)
    && (r.Some? ==> 0 <= r.value.n)
  }

  ghost predicate Simulates(m: map<string, Entry>, db: map<string, Value>, now: int) {
    forall k: string :: Agree(Lookup(m, k), Lookup(db, k), now)
  }

  /** On such windows, and on no others, EXPIRE leaves the in-memory counter's expiry behind. */
  lemma ExpiryIsKept(w: int)
    ensures Whole(w) <==> w < 0 || (0 < w && Secs(w) * SECOND == w)
    ensures w < 0 ==> Secs(w) <= 0
  {}

  lemma AgreementOutlivesTime(c: Cell, r: RCell, now: int, later: int)
    requires Agree(c, r, now) && now <= later
    ensures Agree(c, r, later)
  {}

  /** One operation on the cells of its own key. */
  lemma CellSimulates(m: map<string, Entry>, db: map<string, Value>, op: Op)
    requires Agree(Lookup(m, op.key), Lookup(db, op.key), op.at) && (op.Inc? ==> Whole(op.w))
    ensures MemStep(m, op).1 == RedisStep(db, op).1
    ensures Agree(Lookup(MemStep(m, op).0, op.key), Lookup(RedisStep(db, op).0, op.key), op.at)
  {
    if op.Inc? {
      ExpiryIsKept(op.w);
    }
  }

  lemma StepSimulates(m: map<string, Entry>, db: map<string, Value>, now: int, op: Op)
    requires Simulates(m, db, now) && now <= op.at && (op.Inc? ==> Whole(op.w))
    ensures MemStep(m, op).1 == RedisStep(db, op).1
    ensures Simulates(MemStep(m, op).0, RedisStep(db, op).0, op.at)
  {
    var m', db' := MemStep(m, op).0, RedisStep(db, op).0;
    forall k: string ensures Agree(Lookup(m', k), Lookup(db', k), op.at) {
      AgreementOutlivesTime(Lookup(m, k), Lookup(db, k), now, op.at);
      if k == op.key {
        CellSimulates(m, db, op);
      } else {
        assert Lookup(m', k) == Lookup(m, k) && Lookup(db', k) == Lookup(db, k);
      }
    }
    AgreementOutlivesTime(Lookup(m, op.key), Lookup(db, op.key), now, op.at);
    CellSimulates(m, db, op);
  }

  /** Two counters agree: every answer is the same on every sequence with whole windows. */
  lemma {:induction false} CountersAgree(ops: seq<Op>)
    requires Timely(ops) && Windowed(ops)
    ensures MemRun(ops).1 == RedisRun(ops).1
    ensures ops != [] ==> Simulates(MemRun(ops).0, RedisRun(ops).0, ops[|ops| - 1].at)
  {
    if ops != [] {
      var p, op := ops[..|ops| - 1], ops[|ops| - 1];
      CountersAgree(p);
      if p == [] {
        assert Simulates(MemRun(p).0, RedisRun(p).0, op.at);
        StepSimulates(MemRun(p).0, RedisRun(p).0, op.at, op);
      } else {
        StepSimulates(MemRun(p).0, RedisRun(p).0, p[|p| - 1].at, op);
      }
    }
  }

  /** A window is safe when no timely sequence of operations with it tells the two counters apart. */
  ghost predicate Indistinguishable(w: int) {
    forall ops: seq<Op> :: Timely(ops) && (forall i :: 0 <= i < |ops| && ops[i].Inc? ==> ops[i].w == w)
                  ==> MemRun(ops).1 == RedisRun(ops).1
  }

  /** Between any other window and the seconds EXPIRE got for it, a read tells the counters apart. */
  lemma ReadAfterOneIncrement(w: int, at: int)
    requires 0 <= at && 0 < w
    ensures var ops := [Inc("k", w, 0), Read("k", at)];
            && Timely(ops)
            && MemRun(ops).1 == [1, if at <= w then 1 else 0]
            && RedisRun(ops).1 == [1, if at <= Secs(w) * SECOND then 1 else 0]
  {
    var ops := [Inc("k", w, 0), Read("k", at)];
    assert ops[..1] == [Inc("k", w, 0)] && ops[..1][..0] == [];
    assert MemRun([]) == (map[], []) && RedisRun([]) == (map[], []);
    assert MemRun(ops[..1]).0 == map["k" := Entry(1, w)] && MemRun(ops[..1]).1 == [1];
    assert 0 < Secs(w);
    assert RedisRun(ops[..1]).0 == map["k" := Value(1, Some(Secs(w) * SECOND))] && RedisRun(ops[..1]).1 == [1];
  }

  /** With a zero window EXPIRE deletes the key at once, while the entry lives through the instant. */
  lemma TwoIncrementsAtOnce()
    ensures var ops := [Inc("k", 0, 0), Inc("k", 0, 0)];
            Timely(ops) && MemRun(ops).1 != RedisRun(ops).1
  {
    var ops := [Inc("k", 0, 0), Inc("k", 0, 0)];
    assert ops[..1] == [Inc("k", 0, 0)] && ops[..1][..0] == [];
    assert MemRun([]) == (map[], []) && RedisRun([]) == (map[], []);
    assert MemRun(ops[..1]).0 == map["k" := Entry(1, 0)];
    assert RedisRun(ops[..1]).0 == map[];
    assert MemRun(ops).1[1] == 2 && RedisRun(ops).1[1] == 1;
  }

  /** The two implementations are interchangeable exactly on the windows EXPIRE renders exactly. */
  lemma AgreeExactlyOnWholeSeconds(w: int)
    ensures Indistinguishable(w) <==> w < 0 || (0 < w && w % SECOND == 0)
  {
    if Whole(w) {
      forall ops: seq<Op> | Timely(ops) && (forall i :: 0 <= i < |ops| && ops[i].Inc? ==> ops[i].w == w)
        ensures MemRun(ops).1 == RedisRun(ops).1
      {
        CountersAgree(ops);
      }
    } else if w == 0 {
      TwoIncrementsAtOnce();
    } else {
      ExpiryIsKept(w);
      var cut := Secs(w) * SECOND;
      var at := if cut < w then w else w + 1;
      ReadAfterOneIncrement(w, at);
      assert MemRun([Inc("k", w, 0), Read("k", at)]).1[1] != RedisRun([Inc("k", w, 0), Read("k", at)]).1[1];
    }
  }

  /** The windows of a configuration are whole seconds, so only a window configured as zero differs. */
  lemma ConfiguredWindowsAgree(sec: int)
    ensures Indistinguishable(sec * SECOND) <==> sec != 0
  {
    AgreeExactlyOnWholeSeconds(sec * SECOND);
    assert sec * SECOND % SECOND == 0;
  }
}
