/** Signed decision records, their store, the bounded queue and the worker behind it. */
module Audit {
  import opened Prelude

  datatype Record = Record(decisionId: string, policyVersion: string, requestHash: string, decision: string,
                           reasons: seq<string>, appliedRules: seq<string>, score: real,
                           createdAt: Option<int>, signature: string)

  /** Opaque signing: the JSON encoder (which may fail), the hex-encoded signature, and its check. */
  datatype Signer = Signer(json: Record -> Option<string>, sign: string -> string, check: (string, string) -> bool)

  ghost predicate Sound(k: Signer) {
    forall p :: k.sign(p) != "" && k.check(p, k.sign(p))
  }

  /** The signed payload never includes the signature field. */
  function Canonical(k: Signer, r: Record): Option<string> {
    k.json(r.(signature := ""))
  }

  function Signed(k: Signer, r: Record): Option<Record> {
    var payload := Canonical(k, r);
    if payload.None? then None else Some(r.(signature := k.sign(payload.value)))
  }

  predicate Verifies(k: Signer, r: Record) {
    r.signature != "" && Canonical(k, r).Some? && k.check(Canonical(k, r).value, r.signature)
  }

  /** A record that could be signed verifies afterwards, whatever signature it carried before. */
  lemma SignedVerifies(k: Signer, r: Record)
    requires Sound(k) && Signed(k, r).Some?
    ensures Verifies(k, Signed(k, r).value)
  {}

  /** The encoder tells records apart. */
  ghost predicate Injective(k: Signer) {
    forall a, b :: k.json(a).Some? && k.json(a) == k.json(b) ==> a == b
  }

  /** A signature checks against no payload but the one it was made for. */
  ghost predicate Binding(k: Signer) {
    forall p, q :: k.check(q, k.sign(p)) ==> p == q
  }

  /** The record carries the signature of its own payload. */
  predicate IsSigned(k: Signer, r: Record) {
    Canonical(k, r).Some? && r.signature == k.sign(Canonical(k, r).value)
  }

  /** Signing changes nothing but the signature, and signs what it returns. */
  lemma SigningOnlySigns(k: Signer, r: Record)
    requires Signed(k, r).Some?
    ensures IsSigned(k, Signed(k, r).value) && Signed(k, r).value == r.(signature := Signed(k, r).value.signature)
  {}

  /**
   * Tamper evidence: of all records that carry a signed record's signature, whatever their fields,
   * that record alone verifies.
   */
  lemma TamperEvident(k: Signer, r: Record, t: Record)
    requires Sound(k) && Injective(k) && Binding(k) && IsSigned(k, r) && t.signature == r.signature
    ensures Verifies(k, t) <==> t == r
  {
    if Verifies(k, t) {
      assert k.check(Canonical(k, t).value, k.sign(Canonical(k, r).value));
      assert k.json(r.(signature := "")) == k.json(t.(signature := ""));
      assert t == t.(signature := "").(signature := r.signature);
    }
  }

  /** A record keeps the date it came with and gets the clock's otherwise; nothing else changes. */
  lemma DatedOnce(r: Record, now: int)
    ensures Dated(r, now).createdAt == Some(if r.createdAt.Some? then r.createdAt.value else now)
    ensures Dated(r, now).(createdAt := r.createdAt) == r
  {}

  /** How the service was put together; the persistence mode is fixed before the first Emit. */
  datatype Setup = Setup(hasStore: bool, hasSink: bool, sync: bool, capacity: nat)

  datatype Pipe = Pipe(store: map<string, Record>, queue: seq<Record>, sink: seq<Record>, drops: nat)

  datatype EmitResult = Accepted | Dropped | SignFailed | PersistFailed

  const EMPTY := Pipe(map[], [], [], 0)

  /** A write to the store; `fault` is a failure of the store itself. */
  function Stored(p: Pipe, r: Record, fault: bool): Option<Pipe> {
    if fault || r.decisionId == "" then None else Some(p.(store := p.store[r.decisionId := r]))
  }

  function Dropping(p: Pipe): Pipe {
    p.(drops := p.drops + 1)
  }

  /** A non-blocking send on the bounded queue; the flag says whether it was taken. */
  function Offered(p: Pipe, r: Record, capacity: nat): (Pipe, bool) {
    if |p.queue| < capacity then (p.(queue := p.queue + [r]), true) else (Dropping(p), false)
  }

  function Published(p: Pipe, r: Record, fault: bool): Pipe {
    if fault then Dropping(p) else p.(sink := p.sink + [r])
  }

  function Dated(r: Record, now: int): Record {
    if r.createdAt.None? then r.(createdAt := Some(now)) else r
  }

  function Emitting(k: Signer, c: Setup, p: Pipe, r: Record, now: int, fault: bool): (Pipe, EmitResult) {
    var s := Signed(k, Dated(r, now));
    if s.None? then (p, SignFailed)
    else
      var kept := if c.sync && c.hasStore then Stored(p, s.value, fault) else Some(p);
      if kept.None? then (Dropping(p), PersistFailed)
      else
        var (q, taken) := Offered(kept.value, s.value, c.capacity);
        (q, if taken then Accepted else Dropped)
  }

  /** One turn of the worker on the head of the queue. */
  function Working(c: Setup, p: Pipe, storeFault: bool, sinkFault: bool): Pipe
    requires p.queue != []
  {
    var r, q := p.queue[0], p.(queue := p.queue[1..]);
    var kept := if !c.sync && c.hasStore then Stored(q, r, storeFault) else Some(q);
    if kept.None? then Dropping(q)
    else if c.hasSink then Published(kept.value, r, sinkFault)
    else kept.value
  }

  /** When each result of an Emit comes about, and what it leaves in the queue. */
  lemma EmitExactly(k: Signer, c: Setup, p: Pipe, r: Record, now: int, fault: bool)
    ensures var (q, result) := Emitting(k, c, p, r, now, fault);
            var unsigned := Signed(k, Dated(r, now)).None?;
            var unstored := c.sync && c.hasStore && (fault || r.decisionId == "");
            && (result == SignFailed <==> unsigned)
            && (result == PersistFailed <==> !unsigned && unstored)
            && (result == Dropped <==> !unsigned && !unstored && |p.queue| >= c.capacity)
            && (result == Accepted <==> !unsigned && !unstored && |p.queue| < c.capacity)
            && q.sink == p.sink
            && q.queue == p.queue + (if result == Accepted then [Signed(k, Dated(r, now)).value] else [])
            && q.drops == p.drops + (if result == PersistFailed || result == Dropped then 1 else 0)
  {}

  /** A turn of the worker without faults takes the head, stores it if that is its task, and publishes it. */
  lemma WorkExactly(c: Setup, p: Pipe)
    requires p.queue != [] && (c.sync || !c.hasStore || p.queue[0].decisionId != "")
    ensures var q, r := Working(c, p, false, false), p.queue[0];
            && q.queue == p.queue[1..] && q.drops == p.drops
            && q.sink == p.sink + (if c.hasSink then [r] else [])
            && q.store == if c.hasStore && !c.sync then p.store[r.decisionId := r] else p.store
  {}

  /** As many turns of the worker, without faults, as there are records queued. */
  function Drained(c: Setup, p: Pipe): Pipe
    decreases |p.queue|
  {
    if p.queue == [] then p else Drained(c, Working(c, p, false, false))
  }

  /** A worker left to itself publishes every queued record, in order, and drops none. */
  lemma {:induction false} WorkerPublishesAll(c: Setup, p: Pipe)
    requires c.hasSink && forall r :: r in p.queue ==> r.decisionId != ""
    ensures var q := Drained(c, p); q.queue == [] && q.sink == p.sink + p.queue && q.drops == p.drops
    ensures c.hasStore && !c.sync ==> forall r :: r in p.queue ==> r.decisionId in Drained(c, p).store
    decreases |p.queue|
  {
    if p.queue != [] {
      WorkExactly(c, p);
      var q := Working(c, p, false, false);
      assert p.queue == [p.queue[0]] + p.queue[1..];
      WorkerPublishesAll(c, q);
      StoreSurvives(c, q);
    }
  }

  lemma {:induction false} StoreSurvives(c: Setup, p: Pipe)
    ensures forall id :: id in p.store ==> id in Drained(c, p).store
    decreases |p.queue|
  {
    if p.queue != [] {
      StoreSurvives(c, Working(c, p, false, false));
    }
  }

  class MemoryStore {
    var mem: map<string, Record>

    constructor ()
      ensures mem == map[]
    {
      mem := map[];
    }

    method Put(r: Record, fault: bool) returns (ok: bool)
      modifies this
      ensures ok <==> !fault && r.decisionId != ""
      ensures mem == if ok then old(mem)[r.decisionId := r] else old(mem)
    {
      if fault || r.decisionId == "" {
        return false;
      }
      mem := mem[r.decisionId := r];
      return true;
    }
  }

  class MemorySink {
    var mem: seq<Record>

    constructor ()
      ensures mem == []
    {
      mem := [];
    }

    method Publish(r: Record, fault: bool) returns (ok: bool)
      modifies this
      ensures ok <==> !fault
      ensures mem == if ok then old(mem) + [r] else old(mem)
    {
      if fault {
        return false;
      }
      mem := mem + [r];
      return true;
    }
  }

  class Service {
    const signer: Signer
    const store: MemoryStore?
    const sink: MemorySink?
    const capacity: nat
    var queue: seq<Record>
    var drops: nat
    var syncPersist: bool

    ghost function Mode(): Setup
      reads this
    {
      Setup(store != null, sink != null, syncPersist, capacity)
    }

    ghost function View(): Pipe
      reads this, store, sink
    {
      Pipe(if store == null then map[] else store.mem, queue, if sink == null then [] else sink.mem, drops)
    }

    constructor (signer: Signer, store: MemoryStore?, sink: MemorySink?, queueSize: int)
      ensures this.signer == signer && this.store == store && this.sink == sink
      ensures queue == [] && drops == 0
      ensures Mode() == Setup(store != null, sink != null, false, if queueSize <= 0 then 1024 else queueSize)
    {
      this.signer := signer;
      this.store := store;
      this.sink := sink;
      capacity := if queueSize <= 0 then 1024 else queueSize;
      queue, drops, syncPersist := [], 0, false;
    }

    method WithSyncPersist()
      modifies this
      ensures Mode() == old(Mode()).(sync := true) && View() == old(View())
    {
      syncPersist := true;
    }

    method Emit(rec: Record, now: int, fault: bool) returns (result: EmitResult)
      modifies this, store
      ensures Mode() == old(Mode())
      ensures (View(), result) == Emitting(signer, Mode(), old(View()), rec, now, fault)
    {
      var r := Dated(rec, now);
      var signed := Signed(signer, r);
      if signed.None? {
        return SignFailed;
      }
      r := signed.value;
      if syncPersist && store != null {
        var ok := store.Put(r, fault);
        if !ok {
          drops := drops + 1;
          return PersistFailed;
        }
      }
      if |queue| < capacity {
        queue := queue + [r];
        return Accepted;
      }
      drops := drops + 1;
      return Dropped;
    }

    /** The body of the worker loop, once a record has arrived. */
    method WorkOne(storeFault: bool, sinkFault: bool)
      requires queue != []
      modifies this, store, sink
      ensures Mode() == old(Mode())
      ensures View() == Working(Mode(), old(View()), storeFault, sinkFault)
    {
      var r := queue[0];
      queue := queue[1..];
      if !syncPersist && store != null {
        var ok := store.Put(r, storeFault);
        if !ok {
          drops := drops + 1;
          return;
        }
      }
      if sink != null {
        var ok := sink.Publish(r, sinkFault);
        if !ok {
          drops := drops + 1;
        }
      }
    }
  }
}
