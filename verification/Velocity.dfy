/** The in-memory velocity counter: a map of TTL cells, one per (user, window). */
module Velocity {
  import opened Prelude

  const SECOND := 1_000_000_000
  const WINDOW_MINUTE := 60 * SECOND
  const WINDOW_HOUR := 3600 * SECOND
  const WINDOW_DAY := 86400 * SECOND

  datatype Entry = Entry(value: int, expiresAt: int)

  /** What the map holds for one key; `None` when the key is absent. */
  type Cell = Option<Entry>

  /** An entry is readable up to and including its expiry instant. */
  predicate Live(c: Cell, now: int) {
    c.Some? && now <= c.value.expiresAt
  }

  function Reading(c: Cell, now: int): int {
    if Live(c, now) then c.value.value else 0
  }

  /** The cell an increment leaves behind: the count goes up and the TTL restarts. */
  function Bump(c: Cell, w: int, now: int): Entry {
    Entry(Reading(c, now) + 1, now + w)
  }

  /** The cell a rollback leaves behind: clamped at zero, TTL untouched, dead cells untouched. */
  function Undo(c: Cell, now: int): Cell {
    if Live(c, now) then Some(c.value.(value := Max(c.value.value - 1, 0))) else c
  }

  // ---- Keys ------------------------------------------------------------

  /** `text` stands for the library's rendering of a duration. */
  function Suffix(w: int, text: int -> string): string {
    if w == WINDOW_MINUTE then "60s"
    else if w == WINDOW_HOUR then "1h"
    else if w == WINDOW_DAY then "1d"
    else text(w)
  }

  /** The canonical windows have short names: one minute, one hour, one day, in nanoseconds. */
  lemma SuffixNames(text: int -> string)
    ensures Suffix(60_000_000_000, text) == "60s"
    ensures Suffix(3_600_000_000_000, text) == "1h"
    ensures Suffix(86_400_000_000_000, text) == "1d"
  {}

  /** Different windows get different suffixes, unless the rendering itself runs into a short name. */
  lemma SuffixInjective(v: int, w: int, text: int -> string)
    requires forall x, y :: text(x) == text(y) ==> x == y
    requires forall x :: text(x) !in ["60s", "1h", "1d"]
    requires Suffix(v, text) == Suffix(w, text)
    ensures v == w
  {
    assert text(v) !in ["60s", "1h", "1d"] && text(w) !in ["60s", "1h", "1d"];
  }

  function Key(userID: string, suffix: string): string {
    "vel:" + userID + ":" + suffix
  }

  /** Colon-free suffixes make the key injective for every user id, colons included. */
  lemma KeyInjective(u1: string, s1: string, u2: string, s2: string)
    requires ':' !in s1 && ':' !in s2
    requires Key(u1, s1) == Key(u2, s2)
    ensures u1 == u2 && s1 == s2
  {
    if |u1| < |u2| {
      ColonInSuffix(u1, s1, u2, s2);
    } else if |u2| < |u1| {
      ColonInSuffix(u2, s2, u1, s1);
    }
    var k := Key(u1, s1);
    assert u1 == k[4..4 + |u1|] && u2 == Key(u2, s2)[4..4 + |u2|];
    assert s1 == k[4 + |u1| + 1..] && s2 == Key(u2, s2)[4 + |u2| + 1..];
  }

  lemma ColonInSuffix(u1: string, s1: string, u2: string, s2: string)
    requires Key(u1, s1) == Key(u2, s2) && |u1| < |u2|
    ensures ':' in s1
  {
    var k := Key(u1, s1);
    assert Key(u2, s2)[4 + |u2|] == ':';
    assert k[4 + |u2|] == s1[|u2| - |u1| - 1];
  }

  // ---- The counter -----------------------------------------------------

  /** Every method runs under the counter's mutex, with the clock read inside it as `now`. */
  class MemoryCounter {
    var mem: map<string, Entry>
    const text: int -> string

    constructor (text: int -> string)
      ensures mem == map[] && this.text == text
    {
      mem := map[];
      this.text := text;
    }

    method Increment(userID: string, w: int, now: int) returns (v: int)
      modifies this
      ensures var k := Key(userID, Suffix(w, text));
              mem == old(mem)[k := Bump(Lookup(old(mem), k), w, now)] && v == mem[k].value
    {
      var k := Key(userID, Suffix(w, text));
      var e := Entry(0, now + w);
      if k in mem && now <= mem[k].expiresAt {
        e := mem[k];
      }
      e := e.(value := e.value + 1);
      e := e.(expiresAt := now + w);
      mem := mem[k := e];
      v := e.value;
    }

    /** `negative` reports the clamp at zero, which the source returns as an error. */
    method Rollback(userID: string, w: int, now: int) returns (v: int, negative: bool)
      modifies this
      ensures var k := Key(userID, Suffix(w, text));
              && mem == Write(old(mem), k, Undo(Lookup(old(mem), k), now))
              && (negative <==> Live(Lookup(old(mem), k), now) && old(mem)[k].value <= 0)
              && v == Reading(Lookup(mem, k), now)
    {
      var k := Key(userID, Suffix(w, text));
      if k !in mem || mem[k].expiresAt < now {
        return 0, false;
      }
      var e := mem[k].(value := mem[k].value - 1);
      negative := e.value < 0;
      if negative {
        e := e.(value := 0);
      }
      mem := mem[k := e];
      v := e.value;
    }

    method Get(userID: string, w: int, now: int) returns (v: int)
      ensures v == Reading(Lookup(mem, Key(userID, Suffix(w, text))), now)
    {
      var k := Key(userID, Suffix(w, text));
      if k !in mem || mem[k].expiresAt < now {
        return 0;
      }
      return mem[k].value;
    }
  }
}
