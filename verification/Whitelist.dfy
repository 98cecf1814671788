/** Destination whitelisting with its verification flow, and source authentication. */
module Whitelist {
  import opened Prelude

  datatype Status = Pending | Verified
  datatype Triple = Triple(user: string, chain: string, address: string)
  datatype Entry = Entry(id: Triple, note: string, status: Status, verifiedAt: Option<int>, createdAt: int)
  datatype Error = Required | Duplicate | NotFound | AlreadyVerified(entry: Entry)
  datatype Result = Ok(entry: Entry) | Err(error: Error)

  type Table = map<string, Entry>

  /** The store's joined string key. */
  function Key(t: Triple): string {
    t.user + "|" + t.chain + "|" + t.address
  }

  function Adding(m: Table, t: Triple, note: string, now: int): (Table, Result) {
    var e := Entry(t, note, Pending, None, now);
    if t.user == "" || t.chain == "" || t.address == "" then (m, Err(Required))
    else if Key(t) in m then (m, Err(Duplicate))
    else (m[Key(t) := e], Ok(e))
  }

  /** The read half of Verify: the entry that will be written back, already marked verified. */
  function Checked(m: Table, t: Triple, now: int): Result {
    if Key(t) !in m then Err(NotFound)
    else if m[Key(t)].status == Verified then Err(AlreadyVerified(m[Key(t)]))
    else Ok(m[Key(t)].(status := Verified, verifiedAt := Some(now)))
  }

  /** The write half of Verify, keyed by what the entry itself says. */
  function Updated(m: Table, e: Entry): (Table, Result) {
    if Key(e.id) in m then (m[Key(e.id) := e], Ok(e)) else (m, Err(NotFound))
  }

  function Verifying(m: Table, t: Triple, now: int): (Table, Result) {
    var r := Checked(m, t, now);
    if r.Ok? then Updated(m, r.entry) else (m, r)
  }

  predicate IsWhitelisted(m: Table, t: Triple) {
    Key(t) in m && m[Key(t)].status == Verified
  }

  /** The reason for refusing the source, or `None` when it is authenticated. */
  function SourceAuth(sessionValid: bool, requires2FA: bool, passed2FA: bool): Option<string> {
    if !sessionValid then Some("invalid_session")
    else if requires2FA && !passed2FA then Some("2fa_required")
    else None
  }

  class MemoryStore {
    var mem: Table

    constructor ()
      ensures mem == map[]
    {
      mem := map[];
    }

    method Add(e: Entry) returns (ok: bool)
      modifies this
      ensures ok <==> Key(e.id) !in old(mem)
      ensures mem == if ok then old(mem)[Key(e.id) := e] else old(mem)
    {
      if Key(e.id) in mem {
        return false;
      }
      mem := mem[Key(e.id) := e];
      return true;
    }

    method Get(t: Triple) returns (e: Option<Entry>)
      ensures e == Lookup(mem, Key(t))
    {
      e := Lookup(mem, Key(t));
    }

    method Update(e: Entry) returns (ok: bool)
      modifies this
      ensures ok <==> Key(e.id) in old(mem)
      ensures mem == if ok then old(mem)[Key(e.id) := e] else old(mem)
    {
      if Key(e.id) !in mem {
        return false;
      }
      mem := mem[Key(e.id) := e];
      return true;
    }
  }

  class Service {
    const store: MemoryStore

    constructor (store: MemoryStore)
      ensures this.store == store
    {
      this.store := store;
    }

    method Add(t: Triple, note: string, now: int) returns (r: Result)
      modifies store
      ensures (store.mem, r) == Adding(old(store.mem), t, note, now)
    {
      if t.user == "" || t.chain == "" || t.address == "" {
        return Err(Required);
      }
      var e := Entry(t, note, Pending, None, now);
      var ok := store.Add(e);
      r := if ok then Ok(e) else Err(Duplicate);
    }

    method Verify(t: Triple, now: int) returns (r: Result)
      modifies store
      ensures (store.mem, r) == Verifying(old(store.mem), t, now)
    {
      var found := store.Get(t);
      if found.None? {
        return Err(NotFound);
      }
      var e := found.value;
      if e.status == Verified {
        return Err(AlreadyVerified(e));
      }
      e := e.(status := Verified, verifiedAt := Some(now));
      var ok := store.Update(e);
      r := if ok then Ok(e) else Err(NotFound);
    }

    method Allowed(t: Triple) returns (yes: bool)
      ensures yes <==> IsWhitelisted(store.mem, t)
    {
      var e := store.Get(t);
      yes := e.Some? && e.value.status == Verified;
    }
  }

  /** An Add is refused exactly for a missing field or a key in use, a Verify for a missing or a verified entry. */
  lemma RefusedExactly(m: Table, t: Triple, note: string, now: int)
    ensures var (n, r) := Adding(m, t, note, now);
            && (r == Err(Required) <==> t.user == "" || t.chain == "" || t.address == "")
            && (r == Err(Duplicate) <==> t.user != "" && t.chain != "" && t.address != "" && Key(t) in m)
            && (r.Err? ==> n == m && (r.error == Required || r.error == Duplicate))
            && (r.Ok? ==> n.Keys == m.Keys + {Key(t)} && forall k :: k in m ==> n[k] == m[k])
    ensures var r := Checked(m, t, now);
            && (r == Err(NotFound) <==> Key(t) !in m)
            && (Key(t) in m && m[Key(t)].status == Verified <==> r.Err? && r.error.AlreadyVerified?)
            && (r.Err? && r.error.AlreadyVerified? ==> r.error.entry == m[Key(t)])
  {}

  /** What a verified entry says: the triple and note of its Add, and the times of its Add and its Verify. */
  lemma EntryTellsItsHistory(m: Table, t: Triple, note: string, added: int, verified: int)
    requires Adding(m, t, note, added).1.Ok?
    ensures var n := Adding(m, t, note, added).0;
            var e := Verifying(n, t, verified).1;
            && !IsWhitelisted(n, t) && n[Key(t)].verifiedAt == None
            && e.Ok? && IsWhitelisted(Verifying(n, t, verified).0, t)
            && Lookup(Verifying(n, t, verified).0, Key(t)) == Some(e.entry)
            && e.entry.id == t && e.entry.note == note && e.entry.status == Verified
            && e.entry.createdAt == added && e.entry.verifiedAt == Some(verified)
  {}

  // ---- When keys collide -------------------------------------------------

  predicate Clean(t: Triple) {
    '|' !in t.user && '|' !in t.chain
  }

  /** User `v` begins with user `u` followed by the separator. */
  predicate Nested(u: string, v: string) {
    |u| < |v| && v[..|u|] == u && v[|u|] == '|'
  }

  predicate Separate(u: string, v: string) {
    !Nested(u, v) && !Nested(v, u)
  }

  lemma LongerUserNests(t1: Triple, t2: Triple)
    requires Key(t1) == Key(t2) && |t1.user| < |t2.user|
    ensures Nested(t1.user, t2.user)
  {
    var k := Key(t1);
    assert k[..|t1.user|] == t1.user && k[|t1.user|] == '|';
    assert Key(t2)[..|t2.user|] == t2.user;
    assert t2.user[|t1.user|] == k[|t1.user|];
    assert t2.user[..|t1.user|] == k[..|t1.user|];
  }

  lemma SameUser(t1: Triple, t2: Triple)
    requires Key(t1) == Key(t2) && |t1.user| == |t2.user|
    ensures t1.user == t2.user
  {
    assert Key(t1)[..|t1.user|] == t1.user && Key(t2)[..|t2.user|] == t2.user;
  }

  /** Two different users can touch one key if and only if one id extends the other across a '|'. */
  lemma UsersCollideExactlyWhenNested(u: string, v: string)
    requires u != v
    ensures (exists t1: Triple, t2: Triple :: t1.user == u && t2.user == v && Key(t1) == Key(t2)) <==> !Separate(u, v)
  {
    if t1: Triple, t2: Triple :| t1.user == u && t2.user == v && Key(t1) == Key(t2) {
      if |u| < |v| {
        LongerUserNests(t1, t2);
      } else if |v| < |u| {
        LongerUserNests(t2, t1);
      } else {
        SameUser(t1, t2);
      }
    }
    if !Separate(u, v) {
      var t1, t2 := SharedDestination(u, v);
    }
  }

  /** Users that nest share a destination that either could add. */
  lemma SharedDestination(u: string, v: string) returns (x: Triple, y: Triple)
    requires !Separate(u, v)
    ensures x.user == u && y.user == v && Key(x) == Key(y) && y.chain != "" && y.address != ""
  {
    if Nested(u, v) {
      x, y := Triple(u, v[|u| + 1..] + "|c", "a"), Triple(v, "c", "a");
      assert v == u + "|" + v[|u| + 1..];
      assert Key(y) == u + "|" + v[|u| + 1..] + "|c|a";
    } else {
      x, y := Triple(u, "c", "a"), Triple(v, u[|v| + 1..] + "|c", "a");
      assert u == v + "|" + u[|v| + 1..];
      assert Key(x) == v + "|" + u[|v| + 1..] + "|c|a";
    }
    assert Key(x) == Key(y);
  }

  /** Separator-free users and chains make the key injective, whatever the address. */
  lemma CleanKeysInjective(t1: Triple, t2: Triple)
    requires Clean(t1) && Clean(t2) && Key(t1) == Key(t2)
    ensures t1 == t2
  {
    if |t1.user| < |t2.user| {
      LongerUserNests(t1, t2);
    } else if |t2.user| < |t1.user| {
      LongerUserNests(t2, t1);
    }
    SameUser(t1, t2);
    var n := |t1.user| + 1;
    assert Key(t1)[n..] == t1.chain + "|" + t1.address;
    assert Key(t2)[n..] == t2.chain + "|" + t2.address;
    var r1, r2 := Triple(t1.chain, t1.address, ""), Triple(t2.chain, t2.address, "");
    assert Key(r1) == Key(t1)[n..] + "|" && Key(r2) == Key(t2)[n..] + "|";
    if |t1.chain| < |t2.chain| {
      LongerUserNests(r1, r2);
    } else if |t2.chain| < |t1.chain| {
      LongerUserNests(r2, r1);
    }
    SameUser(r1, r2);
    assert t1.address == Key(t1)[n..][|t1.chain| + 1..];
    assert t2.address == Key(t2)[n..][|t2.chain| + 1..];
  }
}
