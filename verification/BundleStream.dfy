/** The byte stream that hashBundle feeds to SHA-256: independent of map order, and decodable. */
module BundleStream {
  import opened Prelude

  type Files = map<Bytes, Bytes>

  // ---- Sorting names -----------------------------------------------------

  /** Bytewise lexicographic order, the order of sort.Strings. */
  predicate Le(a: Bytes, b: Bytes) {
    if a == [] then true
    else if b == [] then false
    else a[0] < b[0] || (a[0] == b[0] && Le(a[1..], b[1..]))
  }

  lemma {:induction false} LeTotal(a: Bytes, b: Bytes)
    ensures Le(a, b) || Le(b, a)
    ensures Le(a, b) && Le(b, a) ==> a == b
  {
    if a != [] && b != [] {
      LeTotal(a[1..], b[1..]);
      assert a == [a[0]] + a[1..] && b == [b[0]] + b[1..];
    }
  }

  lemma {:induction false} LeTransitive(a: Bytes, b: Bytes, c: Bytes)
    requires Le(a, b) && Le(b, c)
    ensures Le(a, c)
  {
    if a != [] && b != [] && c != [] {
      if a[0] == b[0] == c[0] {
        LeTransitive(a[1..], b[1..], c[1..]);
      }
    }
  }

  /** Position `i` is the first at which the two differ, and `a` has the smaller byte there. */
  predicate SmallerAt(a: Bytes, b: Bytes, i: nat) {
    i < |a| && i < |b| && a[..i] == b[..i] && a[i] < b[i]
  }

  lemma SmallerInTails(a: Bytes, b: Bytes, i: nat)
    requires a != [] && b != [] && a[0] == b[0]
    ensures SmallerAt(a, b, i + 1) <==> SmallerAt(a[1..], b[1..], i)
  {
    if i < |a| - 1 && i < |b| - 1 {
      assert a[..i + 1] == [a[0]] + a[1..][..i] && b[..i + 1] == [b[0]] + b[1..][..i];
      assert a[..i + 1][1..] == a[1..][..i] && b[..i + 1][1..] == b[1..][..i];
    }
  }

  lemma HeadsAgree(a: Bytes, b: Bytes, i: nat)
    requires SmallerAt(a, b, i) && i > 0
    ensures a[0] == b[0]
  {
    assert a[..i][0] == b[..i][0];
  }

  lemma PrefixOfTails(a: Bytes, b: Bytes)
    requires a != [] && b != [] && a[0] == b[0]
    ensures a <= b <==> a[1..] <= b[1..]
  {
    assert a == [a[0]] + a[1..] && b == [b[0]] + b[1..];
  }

  /** That order, said by the first difference: a prefix comes first, then the smaller byte. */
  lemma {:induction false} LeAtFirstDifference(a: Bytes, b: Bytes)
    ensures Le(a, b) <==> a <= b || exists i: nat :: SmallerAt(a, b, i)
  {
    if a != [] && b != [] {
      if a[0] == b[0] {
        LeAtFirstDifference(a[1..], b[1..]);
        PrefixOfTails(a, b);
        if i: nat :| SmallerAt(a, b, i) {
          SmallerInTails(a, b, i - 1);
        }
        if i: nat :| SmallerAt(a[1..], b[1..], i) {
          SmallerInTails(a, b, i);
        }
      } else {
        assert SmallerAt(a, b, 0) <==> a[0] < b[0];
        forall i: nat | SmallerAt(a, b, i) ensures i == 0 {
          if i > 0 {
            HeadsAgree(a, b, i);
          }
        }
      }
    }
  }

  predicate Sorted(s: seq<Bytes>) {
    forall i, j :: 0 <= i <= j < |s| ==> Le(s[i], s[j])
  }

  function Insert(x: Bytes, s: seq<Bytes>): seq<Bytes> {
    if s == [] || Le(x, s[0]) then [x] + s else [s[0]] + Insert(x, s[1..])
  }

  function Sort(s: seq<Bytes>): seq<Bytes> {
    if s == [] then [] else Insert(s[0], Sort(s[1..]))
  }

  /** A list stays sorted behind an element that is below all of it. */
  lemma SortedCons(x: Bytes, s: seq<Bytes>)
    requires Sorted(s) && forall j :: 0 <= j < |s| ==> Le(x, s[j])
    ensures Sorted([x] + s)
  {
    LeTotal(x, x);
  }

  lemma {:induction false} InsertCounts(x: Bytes, s: seq<Bytes>)
    ensures multiset(Insert(x, s)) == multiset(s) + multiset{x}
  {
    if s != [] && !Le(x, s[0]) {
      InsertCounts(x, s[1..]);
      assert s == [s[0]] + s[1..];
    }
  }

  lemma InsertedOrOld(x: Bytes, s: seq<Bytes>)
    ensures forall y :: y in Insert(x, s) ==> y == x || y in s
  {
    InsertCounts(x, s);
    forall y | y in Insert(x, s) ensures y == x || y in s {
      assert y in multiset(Insert(x, s));
    }
  }

  lemma {:induction false} InsertSorts(x: Bytes, s: seq<Bytes>)
    requires Sorted(s)
    ensures Sorted(Insert(x, s))
  {
    if s == [] {
      LeTotal(x, x);
    } else if Le(x, s[0]) {
      forall j | 0 <= j < |s| ensures Le(x, s[j]) { LeTransitive(x, s[0], s[j]); }
      SortedCons(x, s);
    } else {
      var r := Insert(x, s[1..]);
      InsertSorts(x, s[1..]);
      InsertedOrOld(x, s[1..]);
      LeTotal(x, s[0]);
      forall j | 0 <= j < |r| ensures Le(s[0], r[j]) {
        assert r[j] == x || r[j] in s[1..];
      }
      SortedCons(s[0], r);
    }
  }

  lemma {:induction false} SortSorts(s: seq<Bytes>)
    ensures Sorted(Sort(s)) && multiset(Sort(s)) == multiset(s)
  {
    if s != [] {
      SortSorts(s[1..]);
      InsertSorts(s[0], Sort(s[1..]));
      InsertCounts(s[0], Sort(s[1..]));
      assert s == [s[0]] + s[1..];
    }
  }

  lemma SameHead(a: seq<Bytes>, b: seq<Bytes>)
    requires Sorted(a) && Sorted(b) && multiset(a) == multiset(b) && a != [] && b != []
    ensures a[0] == b[0]
  {
    assert a[0] in multiset(b) && b[0] in multiset(a);
    assert a[0] in b && b[0] in a;
    LeTotal(a[0], b[0]);
  }

  lemma TailCount(s: seq<Bytes>)
    requires s != []
    ensures multiset(s[1..]) == multiset(s) - multiset{s[0]}
  {
    assert s == [s[0]] + s[1..];
  }

  /** Two sorted lists of the same elements are the same list. */
  lemma {:induction false} SortedIsUnique(a: seq<Bytes>, b: seq<Bytes>)
    requires Sorted(a) && Sorted(b) && multiset(a) == multiset(b)
    ensures a == b
  {
    assert |a| == |multiset(a)| && |b| == |multiset(b)|;
    if a != [] {
      SameHead(a, b);
      TailCount(a);
      TailCount(b);
      SortedIsUnique(a[1..], b[1..]);
      assert a == [a[0]] + a[1..] && b == [b[0]] + b[1..];
    }
  }

  // ---- The stream --------------------------------------------------------

  /** `names` lists the keys of `files` in ascending order, each once. */
  ghost predicate Lists(names: seq<Bytes>, files: Files) {
    Sorted(names) && multiset(names) == multiset(files.Keys)
  }

  lemma ListsNames(names: seq<Bytes>, files: Files)
    requires Lists(names, files)
    ensures forall n :: n in names <==> n in files
  {
    forall n ensures n in names <==> n in files {
      assert n in names <==> n in multiset(names);
      assert n in files.Keys <==> n in multiset(files.Keys);
    }
  }

  lemma {:induction false} SomeOrder(s: set<Bytes>) returns (names: seq<Bytes>)
    ensures multiset(names) == multiset(s)
  {
    if s == {} {
      names := [];
    } else {
      var x :| x in s;
      names := SomeOrder(s - {x});
      names := [x] + names;
      assert s == (s - {x}) + {x};
    }
  }

  lemma ListingExists(files: Files)
    ensures exists names :: Lists(names, files)
  {
    var names := SomeOrder(files.Keys);
    SortSorts(names);
    assert Lists(Sort(names), files);
  }

  /** The ascending list of a map's keys. */
  ghost function Listing(files: Files): (names: seq<Bytes>)
    ensures Lists(names, files) && forall n :: n in names <==> n in files
  {
    ListingExists(files);
    var names :| Lists(names, files);
    ListsNames(names, files);
    names
  }

  lemma ListingIs(names: seq<Bytes>, files: Files)
    requires Lists(names, files)
    ensures Listing(files) == names
  {
    SortedIsUnique(Listing(files), names);
  }

  function Frame(name: Bytes, body: Bytes): Bytes {
    name + [0] + body + [0]
  }

  function Frames(names: seq<Bytes>, files: Files): Bytes
    requires forall n :: n in names ==> n in files
  {
    if names == [] then []
    else Frames(names[..|names| - 1], files) + Frame(names[|names| - 1], files[names[|names| - 1]])
  }

  /** A function of the two maps alone: sources first, then the marshalled data. */
  ghost function Stream(sources: Files, data: Files): Bytes {
    Frames(Listing(sources), sources) + Frames(Listing(data), data)
  }

  /** A range over a map yields the keys in an arbitrary order. */
  method Keys(files: Files) returns (names: seq<Bytes>)
    ensures multiset(names) == multiset(files.Keys)
  {
    names := [];
    var rest := files.Keys;
    while rest != {}
      invariant rest <= files.Keys && multiset(names) == multiset(files.Keys - rest)
      decreases rest
    {
      var k :| k in rest;
      assert files.Keys - (rest - {k}) == files.Keys - rest + {k};
      names := names + [k];
      rest := rest - {k};
    }
    assert files.Keys - {} == files.Keys;
  }

  method WriteFrames(names: seq<Bytes>, files: Files) returns (out: Bytes)
    requires forall n :: n in names ==> n in files
    ensures out == Frames(names, files)
  {
    out := [];
    for i := 0 to |names|
      invariant out == Frames(names[..i], files)
    {
      var k := names[i];
      assert names[..i + 1][..i] == names[..i];
      out := out + k + [0];
      out := out + files[k] + [0];
    }
    assert names[..|names|] == names;
  }

  /** Whatever order the maps are ranged over in, the hash is fed the one stream. */
  method HashedBytes(sources: Files, data: Files) returns (out: Bytes)
    ensures out == Stream(sources, data)
  {
    var names := Keys(sources);
    SortSorts(names);
    names := Sort(names);
    ListingIs(names, sources);
    out := WriteFrames(names, sources);
    var keys := Keys(data);
    SortSorts(keys);
    keys := Sort(keys);
    ListingIs(keys, data);
    var more := WriteFrames(keys, data);
    out := out + more;
  }

  // ---- Decoding ----------------------------------------------------------

  /** The first NUL-terminated token, and what follows its terminator. */
  function Token(s: Bytes): Option<(Bytes, Bytes)> {
    if s == [] then None
    else if s[0] == 0 then Some(([], s[1..]))
    else
      var t := Token(s[1..]);
      if t.None? then None else Some(([s[0]] + t.value.0, t.value.1))
  }

  lemma {:induction false} TokenShrinks(s: Bytes)
    ensures Token(s).Some? ==> |Token(s).value.1| < |s|
  {
    if s != [] && s[0] != 0 {
      TokenShrinks(s[1..]);
    }
  }

  /** Name/body pairs, as long as whole frames remain. */
  function Pairs(s: Bytes): seq<(Bytes, Bytes)>
    decreases |s|
  {
    var name := Token(s);
    if name.None? then []
    else
      var body := Token(name.value.1);
      if body.None? then []
      else
        TokenShrinks(s);
        TokenShrinks(name.value.1);
        [(name.value.0, body.value.0)] + Pairs(body.value.1)
  }

  const REGO: Bytes := [46, 114, 101, 103, 111]  // ".rego"

  predicate IsRego(name: Bytes) {
    |name| >= 5 && name[|name| - 5..] == REGO
  }

  /** The pairs with a wanted name, as a map. */
  function Gather(pairs: seq<(Bytes, Bytes)>, want: Bytes -> bool): Files {
    if pairs == [] then map[]
    else
      var rest, last := Gather(pairs[..|pairs| - 1], want), pairs[|pairs| - 1];
      if want(last.0) then rest[last.0 := last.1] else rest
  }

  function Decode(s: Bytes): (Files, Files) {
    (Gather(Pairs(s), n => IsRego(n)), Gather(Pairs(s), n => !IsRego(n)))
  }

  predicate NulFree(s: Bytes) {
    0 !in s
  }

  lemma {:induction false} TokenOf(name: Bytes, rest: Bytes)
    requires NulFree(name)
    ensures Token(name + [0] + rest) == Some((name, rest))
  {
    var s := name + [0] + rest;
    if name == [] {
      assert s[1..] == rest;
    } else {
      TokenOf(name[1..], rest);
      assert s[1..] == name[1..] + [0] + rest;
      assert name == [name[0]] + name[1..];
    }
  }

  lemma PairsOfFrame(name: Bytes, body: Bytes, rest: Bytes)
    requires NulFree(name) && NulFree(body)
    ensures Pairs(Frame(name, body) + rest) == [(name, body)] + Pairs(rest)
  {
    var s := Frame(name, body) + rest;
    assert s == name + [0] + (body + [0] + rest);
    TokenOf(name, body + [0] + rest);
    TokenOf(body, rest);
  }

  function Listed(names: seq<Bytes>, files: Files): seq<(Bytes, Bytes)>
    requires forall n :: n in names ==> n in files
  {
    seq(|names|, i requires 0 <= i < |names| => (names[i], files[names[i]]))
  }

  ghost predicate AllNulFree(files: Files) {
    forall n :: n in files ==> NulFree(n) && NulFree(files[n])
  }

  lemma ListedSnoc(names: seq<Bytes>, files: Files)
    requires names != [] && forall n :: n in names ==> n in files
    ensures var p, n := names[..|names| - 1], names[|names| - 1];
            Listed(names, files) == Listed(p, files) + [(n, files[n])]
  {}

  lemma {:induction false} PairsOfFrames(names: seq<Bytes>, files: Files, rest: Bytes)
    requires (forall n :: n in names ==> n in files) && AllNulFree(files)
    ensures Pairs(Frames(names, files) + rest) == Listed(names, files) + Pairs(rest)
  {
    if names == [] {
      assert Frames(names, files) + rest == rest;
    } else {
      var p, n := names[..|names| - 1], names[|names| - 1];
      var f := Frame(n, files[n]);
      assert Frames(names, files) + rest == Frames(p, files) + (f + rest);
      PairsOfFrames(p, files, f + rest);
      PairsOfFrame(n, files[n], rest);
      ListedSnoc(names, files);
    }
  }

  lemma {:induction false} GatherWanted(names: seq<Bytes>, files: Files, want: Bytes -> bool)
    requires (forall n :: n in names ==> n in files) && (forall n :: n in files ==> want(n))
    ensures forall n :: Lookup(Gather(Listed(names, files), want), n) == if n in names then Some(files[n]) else None
  {
    if names != [] {
      var p, last := names[..|names| - 1], names[|names| - 1];
      GatherWanted(p, files, want);
      assert Listed(names, files)[..|p|] == Listed(p, files);
      assert names == p + [last];
    }
  }

  lemma {:induction false} GatherUnwanted(pairs: seq<(Bytes, Bytes)>, names: seq<Bytes>, files: Files,
                                          want: Bytes -> bool)
    requires (forall n :: n in names ==> n in files) && (forall n :: n in files ==> !want(n))
    ensures Gather(pairs + Listed(names, files), want) == Gather(pairs, want)
  {
    if names == [] {
      assert pairs + Listed(names, files) == pairs;
    } else {
      var p := names[..|names| - 1];
      GatherUnwanted(pairs, p, files, want);
      var whole := pairs + Listed(names, files);
      assert whole[..|whole| - 1] == pairs + Listed(p, files);
    }
  }

  /** Unwanted pairs in front leave the wanted ones behind them. */
  lemma {:induction false} GatherSkips(front: seq<(Bytes, Bytes)>, back: seq<(Bytes, Bytes)>, want: Bytes -> bool)
    requires Gather(front, want) == map[]
    ensures Gather(front + back, want) == Gather(back, want)
  {
    if back == [] {
      assert front + back == front;
    } else {
      var p := back[..|back| - 1];
      GatherSkips(front, p, want);
      assert (front + back)[..|front + back| - 1] == front + p;
    }
  }

  lemma GatherAll(files: Files, want: Bytes -> bool)
    requires forall n :: n in files ==> want(n)
    ensures Gather(Listed(Listing(files), files), want) == files
  {
    GatherWanted(Listing(files), files, want);
    var g := Gather(Listed(Listing(files), files), want);
    assert forall n :: Lookup(g, n) == Lookup(files, n);
    assert forall n :: n in g <==> Lookup(g, n).Some?;
    assert forall n :: n in files <==> Lookup(files, n).Some?;
    assert g.Keys == files.Keys;
    assert forall n :: n in g ==> g[n] == Lookup(g, n).value && files[n] == Lookup(files, n).value;
  }

  lemma PairsOfStream(sources: Files, data: Files)
    requires AllNulFree(sources) && AllNulFree(data)
    ensures Pairs(Stream(sources, data)) == Listed(Listing(sources), sources) + Listed(Listing(data), data)
  {
    PairsOfFrames(Listing(sources), sources, Frames(Listing(data), data));
    PairsOfFrames(Listing(data), data, []);
    assert Frames(Listing(data), data) + [] == Frames(Listing(data), data);
    assert Pairs([]) == [];
  }

  /**
   * Round trip: for NUL-free names and contents, sources named *.rego and data keys not so named,
   * the byte stream determines the sources and the marshalled data.
   */
  lemma StreamDecodes(sources: Files, data: Files)
    requires AllNulFree(sources) && AllNulFree(data)
    requires (forall n :: n in sources ==> IsRego(n)) && (forall n :: n in data ==> !IsRego(n))
    ensures Decode(Stream(sources, data)) == (sources, data)
  {
    PairsOfStream(sources, data);
    var a, b := Listed(Listing(sources), sources), Listed(Listing(data), data);
    var rego: Bytes -> bool, other: Bytes -> bool := n => IsRego(n), n => !IsRego(n);
    assert Gather([], other) == map[] && [] + a == a;
    GatherUnwanted(a, Listing(data), data, rego);
    GatherAll(sources, rego);
    GatherUnwanted([], Listing(sources), sources, other);
    GatherSkips(a, b, other);
    GatherAll(data, other);
    assert Gather(Pairs(Stream(sources, data)), rego) == sources;
    assert Gather(Pairs(Stream(sources, data)), other) == data;
  }

  lemma {:induction false} TokensAreNulFree(s: Bytes)
    ensures Token(s).Some? ==> NulFree(Token(s).value.0)
  {
    if s != [] && s[0] != 0 {
      TokensAreNulFree(s[1..]);
    }
  }

  lemma {:induction false} PairsAreNulFree(s: Bytes)
    ensures forall p :: p in Pairs(s) ==> NulFree(p.0) && NulFree(p.1)
    decreases |s|
  {
    var name := Token(s);
    TokensAreNulFree(s);
    TokenShrinks(s);
    if name.Some? && Token(name.value.1).Some? {
      TokensAreNulFree(name.value.1);
      TokenShrinks(name.value.1);
      PairsAreNulFree(Token(name.value.1).value.1);
    }
  }

  /** Whatever is gathered was wanted and comes from a pair. */
  lemma {:induction false} GatheredFromPairs(pairs: seq<(Bytes, Bytes)>, want: Bytes -> bool)
    ensures var g := Gather(pairs, want); forall n :: n in g ==> want(n) && (n, g[n]) in pairs
  {
    if pairs != [] {
      GatheredFromPairs(pairs[..|pairs| - 1], want);
    }
  }

  /** Whatever the bytes, decoding yields NUL-free names and contents, each under its own kind. */
  lemma DecodedIsClean(s: Bytes)
    ensures var (sources, data) := Decode(s);
            && AllNulFree(sources) && AllNulFree(data)
            && (forall n :: n in sources ==> IsRego(n)) && (forall n :: n in data ==> !IsRego(n))
  {
    PairsAreNulFree(s);
    GatheredFromPairs(Pairs(s), n => IsRego(n));
    GatheredFromPairs(Pairs(s), n => !IsRego(n));
  }

  /**
   * The round trip, exactly: decoding gives back the sources and the data if and only if no name and
   * no content holds a NUL, every source is named *.rego and no data key is.
   */
  lemma StreamDecodesExactly(sources: Files, data: Files)
    ensures Decode(Stream(sources, data)) == (sources, data) <==>
      && AllNulFree(sources) && AllNulFree(data)
      && (forall n :: n in sources ==> IsRego(n)) && (forall n :: n in data ==> !IsRego(n))
  {
    DecodedIsClean(Stream(sources, data));
    if AllNulFree(sources) && AllNulFree(data) && (forall n :: n in sources ==> IsRego(n)) {
      if forall n :: n in data ==> !IsRego(n) {
        StreamDecodes(sources, data);
      }
    }
  }

  /** The naming condition matters: without it sources and data feed the same bytes. */
  lemma KindsCollideWithoutSuffix(files: Files)
    ensures Stream(files, map[]) == Stream(map[], files)
  {
    ListingIs([], map[]);
  }

  /** So does the absence of NUL: a content that spells out a frame passes for a second file. */
  lemma NulContentsCollide(a: Bytes, x: Bytes, b: Bytes, y: Bytes)
    requires a != b && Le(a, b)
    ensures Stream(map[a := x + [0] + b + [0] + y], map[]) == Stream(map[a := x, b := y], map[])
  {
    var one, two := map[a := x + [0] + b + [0] + y], map[a := x, b := y];
    OneFile(a, one);
    TwoFiles(a, b, two);
    FrameInside(a, x, b, y);
  }

  lemma FrameInside(a: Bytes, x: Bytes, b: Bytes, y: Bytes)
    ensures Frame(a, x + [0] + b + [0] + y) == Frame(a, x) + Frame(b, y)
  {}

  lemma OneFile(name: Bytes, files: Files)
    requires files.Keys == {name}
    ensures Frames(Listing(files), files) == Frame(name, files[name])
  {
    LeTotal(name, name);
    assert multiset([name]) == multiset(files.Keys);
    ListingIs([name], files);
    assert [name][..0] == [];
  }

  lemma TwoFiles(a: Bytes, b: Bytes, files: Files)
    requires files.Keys == {a, b} && a != b && Le(a, b)
    ensures Frames(Listing(files), files) == Frame(a, files[a]) + Frame(b, files[b])
  {
    LeTotal(a, a);
    LeTotal(b, b);
    assert multiset([a, b]) == multiset(files.Keys);
    ListingIs([a, b], files);
    assert [a][..0] == [];
    assert Frames([a], files) == Frame(a, files[a]);
    assert [a, b][..1] == [a];
    assert Frames([a, b], files) == Frames([a], files) + Frame(b, files[b]);
  }
}
