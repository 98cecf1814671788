/** The integer a policy version is stored under: decimal text as itself, anything else by FNV-1a. */
module VersionNumber {
  import opened Prelude

  const MIN_INT := -0x8000_0000_0000_0000
  const MAX_INT := 0x7fff_ffff_ffff_ffff

  // ---- Decimal text ------------------------------------------------------

  function DigitValue(b: byte): Option<nat> {
    if 48 <= b <= 57 then Some(b - 48) else None
  }

  /** The value of a possibly empty run of digits. */
  function Digits(s: Bytes): Option<nat> {
    if s == [] then Some(0)
    else
      var hi, lo := Digits(s[..|s| - 1]), DigitValue(s[|s| - 1]);
      if hi.Some? && lo.Some? then Some(10 * hi.value + lo.value) else None
  }

  /** strconv.Atoi on a 64-bit platform: an optional sign, at least one digit, in range. */
  function Atoi(s: Bytes): Option<int> {
    var signed := s != [] && (s[0] == 43 || s[0] == 45);
    var body := if signed then s[1..] else s;
    var n := Digits(body);
    if body == [] || n.None? then None
    else
      var v: int := if signed && s[0] == 45 then 0 - n.value else n.value;
      if MIN_INT <= v <= MAX_INT then Some(v) else None
  }

  predicate IsDigit(b: byte) {
    48 <= b <= 57
  }

  lemma {:induction false} DigitsExactly(s: Bytes)
    ensures Digits(s).Some? <==> forall i :: 0 <= i < |s| ==> IsDigit(s[i])
  {
    if s != [] {
      DigitsExactly(s[..|s| - 1]);
    }
  }

  /** What Atoi accepts: an optional sign and then digits, at least one and nothing else, within 64 bits. */
  lemma AtoiExactly(s: Bytes)
    ensures var body := if s != [] && (s[0] == 43 || s[0] == 45) then s[1..] else s;
            Atoi(s).Some? <==>
              && body != [] && (forall i :: 0 <= i < |body| ==> IsDigit(body[i]))
              && Digits(body).Some?
              && var n := Digits(body).value;
                 if s[0] == 45 then n <= 0x8000_0000_0000_0000 else n < 0x8000_0000_0000_0000
  {
    DigitsExactly(if s != [] && (s[0] == 43 || s[0] == 45) then s[1..] else s);
  }

  function Decimal(n: nat): Bytes {
    if n < 10 then [48 + n] else Decimal(n / 10) + [48 + n % 10]
  }

  function Itoa(n: int): Bytes {
    if n < 0 then [45] + Decimal(-n) else Decimal(n)
  }

  lemma {:induction false} DecimalReadsBack(n: nat)
    ensures Decimal(n) != [] && Digits(Decimal(n)) == Some(n)
    ensures Decimal(n)[0] != 43 && Decimal(n)[0] != 45
  {
    if n < 10 {
      assert Decimal(n)[..0] == [];
    } else {
      DecimalReadsBack(n / 10);
      var hi := Decimal(n / 10);
      assert Decimal(n)[..|hi|] == hi && Decimal(n)[|hi|] == 48 + n % 10;
    }
  }

  lemma AtoiReadsItoa(n: int)
    requires MIN_INT <= n <= MAX_INT
    ensures Atoi(Itoa(n)) == Some(n)
  {
    var s := Itoa(n);
    if n < 0 {
      DecimalReadsBack(-n);
      assert s[0] == 45 && s[1..] == Decimal(-n);
    } else {
      DecimalReadsBack(n);
      assert s[0] != 43 && s[0] != 45;
    }
  }

  // ---- Exclusive or on 32-bit states -------------------------------------

  const WORD := 0x1_0000_0000
  type word = h: nat | h < WORD

  /** Bitwise exclusive or, bit by bit from the bottom. */
  function Xor(a: nat, b: nat): nat {
    if a == 0 then b else if b == 0 then a else (a + b) % 2 + 2 * Xor(a / 2, b / 2)
  }

  lemma XorBits(a: nat, b: nat)
    ensures Xor(a, b) == (a + b) % 2 + 2 * Xor(a / 2, b / 2)
  {}

  lemma XorHalves(a: nat, b: nat)
    ensures Xor(a, b) / 2 == Xor(a / 2, b / 2) && Xor(a, b) % 2 == (a + b) % 2
  {
    XorBits(a, b);
  }

  lemma ParityTwice(a: nat, b: nat, x: nat)
    requires x % 2 == (a + b) % 2
    ensures (x + b) % 2 == a % 2
  {}

  lemma {:induction false} XorTwice(a: nat, b: nat)
    ensures Xor(Xor(a, b), b) == a
    decreases a + b
  {
    if a > 0 || b > 0 {
      var x := Xor(a, b);
      XorTwice(a / 2, b / 2);
      XorHalves(a, b);
      XorHalves(x, b);
      ParityTwice(a, b, x);
    }
  }

  lemma {:induction false} XorCommutes(a: nat, b: nat)
    ensures Xor(a, b) == Xor(b, a)
  {
    if a > 0 && b > 0 {
      XorCommutes(a / 2, b / 2);
    }
  }

  function Two(k: nat): nat {
    if k == 0 then 1 else 2 * Two(k - 1)
  }

  lemma {:induction false} XorBelow(a: nat, b: nat, k: nat)
    requires a < Two(k) && b < Two(k)
    ensures Xor(a, b) < Two(k)
  {
    if k > 0 {
      XorBits(a, b);
      XorBelow(a / 2, b / 2, k - 1);
    }
  }

  lemma XorIsWord(a: word, b: word)
    ensures Xor(a, b) < WORD
  {
    assert Two(8) == 0x100;
    assert Two(16) == 0x1_0000;
    assert Two(24) == 0x100_0000;
    assert Two(32) == WORD;
    XorBelow(a, b, 32);
  }

  // ---- FNV-1a ------------------------------------------------------------

  const OFFSET := 2166136261
  const PRIME := 16777619
  const INVERSE := 899433627

  /** One round: exclusive or with the byte, then a wrapping multiplication. */
  function Absorb(h: word, b: byte): word {
    Xor(h, b) * PRIME % WORD
  }

  /** The state before a byte was absorbed. */
  function Release(h: word, b: byte): nat {
    Xor(h * INVERSE % WORD, b)
  }

  function Hash(h: word, s: Bytes): word {
    if s == [] then h else Absorb(Hash(h, s[..|s| - 1]), s[|s| - 1])
  }

  lemma RemainderOf(x: word, y: int, q: int)
    requires y == x + WORD * q
    ensures y % WORD == x
  {
    assert WORD * (y / WORD - q) == x - y % WORD;
  }

  /** PRIME * INVERSE is 1 + 3513497 * 2^32. */
  lemma PrimeIsInvertible(x: word)
    ensures x * PRIME % WORD * INVERSE % WORD == x
  {
    var k, r := x * PRIME / WORD, x * PRIME % WORD;
    assert r == x * PRIME - WORD * k;
    RemainderOf(x, r * INVERSE, 3513497 * x - INVERSE * k);
  }

  lemma InverseIsInvertible(x: word)
    ensures x * INVERSE % WORD * PRIME % WORD == x
  {
    var k, r := x * INVERSE / WORD, x * INVERSE % WORD;
    assert r == x * INVERSE - WORD * k;
    RemainderOf(x, r * PRIME, 3513497 * x - PRIME * k);
  }

  /** Each step is a bijection of the 32-bit states. */
  lemma AbsorbIsABijection(h: word, b: byte)
    ensures Release(Absorb(h, b), b) == h
    ensures Release(h, b) < WORD && Absorb(Release(h, b), b) == h
  {
    XorIsWord(h, b);
    PrimeIsInvertible(Xor(h, b));
    XorTwice(h, b);
    var x := h * INVERSE % WORD;
    XorIsWord(x, b);
    XorTwice(x, b);
    InverseIsInvertible(h);
  }

  lemma BytesTellStatesApart(h: word, a: byte, b: byte)
    requires a != b
    ensures Absorb(h, a) != Absorb(h, b)
  {
    XorIsWord(h, a);
    XorIsWord(h, b);
    PrimeIsInvertible(Xor(h, a));
    PrimeIsInvertible(Xor(h, b));
    XorCommutes(h, a);
    XorCommutes(h, b);
    XorTwice(a, h);
    XorTwice(b, h);
  }

  /** Different states stay different whatever follows. */
  lemma {:induction false} DifferenceSurvives(g: word, h: word, s: Bytes)
    requires g != h
    ensures Hash(g, s) != Hash(h, s)
  {
    if s != [] {
      var p, b := s[..|s| - 1], s[|s| - 1];
      DifferenceSurvives(g, h, p);
      AbsorbIsABijection(Hash(g, p), b);
      AbsorbIsABijection(Hash(h, p), b);
    }
  }

  lemma {:induction false} HashSplits(h: word, a: Bytes, b: Bytes)
    ensures Hash(h, a + b) == Hash(Hash(h, a), b)
  {
    if b == [] {
      assert a + b == a;
    } else {
      HashSplits(h, a, b[..|b| - 1]);
      assert (a + b)[..|a + b| - 1] == a + b[..|b| - 1];
    }
  }

  lemma HashHeadTail(h: word, a: Bytes, b: byte, c: Bytes)
    ensures Hash(h, a + [b] + c) == Hash(Absorb(Hash(h, a), b), c)
  {
    HashSplits(h, a + [b], c);
    assert (a + [b])[..|a|] == a;
  }

  /** Strings of one length that differ in exactly one byte have different 32-bit states. */
  lemma OneByteChangesTheState(s: Bytes, i: nat, b: byte)
    requires i < |s| && s[i] != b
    ensures Hash(OFFSET, s) != Hash(OFFSET, s[i := b])
  {
    var h := Hash(OFFSET, s[..i]);
    assert s == s[..i] + [s[i]] + s[i + 1..] && s[i := b] == s[..i] + [b] + s[i + 1..];
    HashHeadTail(OFFSET, s[..i], s[i], s[i + 1..]);
    HashHeadTail(OFFSET, s[..i], b, s[i + 1..]);
    BytesTellStatesApart(h, s[i], b);
    DifferenceSurvives(Absorb(h, s[i]), Absorb(h, b), s[i + 1..]);
  }

  lemma OffsetWithA()
    ensures Xor(OFFSET, 97) == 0x811c_9da4
  {
    XorBits(33845879, 1);
    assert Xor(33845879, 1) == 33845878;
    XorBits(67691758, 3);
    assert Xor(67691758, 3) == 67691757;
    XorBits(135383516, 6);
    assert Xor(135383516, 6) == 135383514;
    XorBits(270767032, 12);
    assert Xor(270767032, 12) == 270767028;
    XorBits(541534065, 24);
    assert Xor(541534065, 24) == 541534057;
    XorBits(1083068130, 48);
    assert Xor(1083068130, 48) == 1083068114;
    XorBits(2166136261, 97);
    assert Xor(2166136261, 97) == 2166136228;
  }

  /** FNV-1a's own first values: the offset basis for the empty string, and the state for "a". */
  lemma KnownStates()
    ensures Hash(OFFSET, []) == 0x811c_9dc5 && Hash(OFFSET, [97]) == 0xe40c_292c
  {
    var a: Bytes := [97];
    OffsetWithA();
    assert a[..0] == [];
    assert Hash(OFFSET, a) == Absorb(OFFSET, 97);
  }

  // ---- The stored number -------------------------------------------------

  function Number(version: Bytes): int {
    var n := Atoi(version);
    if n.Some? then n.value else Hash(OFFSET, version) % 9000000 + 1000000
  }

  /** A version that reads as an integer is stored as that integer; any other by its reduced state. */
  lemma NumberExactly(version: Bytes)
    ensures forall n :: Atoi(version) == Some(n) ==> Number(version) == n
    ensures Atoi(version).None? ==>
              var h := Hash(OFFSET, version);
              1000000 <= Number(version) <= 9999999 && Number(version) - 1000000 == h - 9000000 * (h / 9000000)
  {}

  method VersionToInt(version: Bytes) returns (n: int)
    ensures n == Number(version)
    ensures Atoi(version) == None ==> 1000000 <= n <= 9999999
  {
    var parsed := Atoi(version);
    if parsed.Some? {
      return parsed.value;
    }
    var h: word := OFFSET;
    for i := 0 to |version|
      invariant h == Hash(OFFSET, version[..i])
    {
      assert version[..i + 1][..i] == version[..i];
      XorIsWord(h, version[i]);
      h := Xor(h, version[i]);
      h := h * PRIME % WORD;
    }
    assert version[..|version|] == version;
    n := h % 9000000 + 1000000;
  }

  /** Reading a version column back: decimal text as itself, with the same fallback. */
  function ParseVersionInt(s: Bytes): int {
    var n := Atoi(s);
    if n.Some? then n.value else Number(s)
  }

  /** Read-back: for every version, the stored number printed as text is read back as itself. */
  lemma StoredNumberReadsBack(version: Bytes)
    ensures ParseVersionInt(Itoa(Number(version))) == Number(version)
    ensures Number(Itoa(Number(version))) == Number(version)
    ensures ParseVersionInt(version) == Number(version)
  {
    AtoiReadsItoa(Number(version));
  }
}
