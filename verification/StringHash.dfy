/** The 32-bit string hash that the server and the page each compute for themselves. */
module StringHash {
  const WORD := 0x1_0000_0000
  const HALF := 0x8000_0000
  /** Integers up to here are exact in the page's floating-point numbers. */
  const EXACT := 0x20_0000_0000_0000

  /** A character, by its Unicode code point; surrogates are no characters. */
  type CodePoint = c: nat | c <= 0x10FFFF && !(0xD800 <= c <= 0xDFFF)

  /** The signed 32-bit value of an integer (ToInt32, section 7.1.6 of ECMA-262). */
  function Signed(x: int): (r: int)
    ensures -HALF <= r < HALF && (r - x) % WORD == 0
  {
    var m := x % WORD;
    var r := if m >= HALF then m - WORD else m;
    ModOfDifference(x, r);
    r
  }

  lemma ModOfDifference(x: int, r: int)
    requires r == x % WORD || r == x % WORD - WORD
    ensures (r - x) % WORD == 0
  {
    var q := x / WORD;
    assert r - x == WORD * (if r == x % WORD then -q else -q - 1);
    Multiple(if r == x % WORD then -q else -q - 1);
  }

  lemma Multiple(k: int)
    ensures WORD * k % WORD == 0
  {
  }

  lemma WordFactor(x: int) returns (k: int)
    requires x % WORD == 0
    ensures x == WORD * k
  {
    k := x / WORD;
  }

  /** Two integers have the same signed value exactly when they differ by a multiple of 2^32. */
  lemma SameSigned(x: int, y: int)
    ensures Signed(x) == Signed(y) <==> (x - y) % WORD == 0
  {
    var a, b := Signed(x), Signed(y);
    hide Signed;
    var p := WordFactor(a - x);
    var q := WordFactor(b - y);
    if (x - y) % WORD == 0 {
      var d := WordFactor(x - y);
      assert a - b == WORD * (d + p - q);
    }
    if a == b {
      Multiple(q - p);
    }
  }

  function Abs(x: int): nat { if x < 0 then -x else x }

  /** The hash before any wrapping: 7 and then the codes, as digits in base 31. */
  function Poly(s: seq<nat>): nat { if s == [] then 7 else Poly(s[..|s| - 1]) * 31 + s[|s| - 1] }

  lemma WrapEachStep(h: int, p: nat, c: nat)
    requires h == Signed(p)
    ensures Signed(h * 31 + c) == Signed(p * 31 + c)
  {
    var k := (h - p) / WORD;
    assert h - p == WORD * k;
    assert h * 31 + c - (p * 31 + c) == WORD * (k * 31);
    Multiple(k * 31);
    SameSigned(h * 31 + c, p * 31 + c);
  }

  /** The server's loop: masked to 32 bits and made signed at every character. */
  method PyHash(s: seq<CodePoint>) returns (r: nat)
    ensures r == Abs(Signed(Poly(s))) && r <= HALF
  {
    var h: int := 7;
    var i := 0;
    while i < |s|
      invariant i <= |s| && h == Signed(Poly(s[..i]))
    {
      var ch := s[i];
      assert s[..i + 1][..i] == s[..i];
      WrapEachStep(h, Poly(s[..i]), ch);
      h := (h * 31 + ch) % WORD;
      if h >= HALF {
        h := h - WORD;
      }
      i := i + 1;
    }
    assert s[..i] == s;
    r := Abs(h);
  }

  /** What `charCodeAt(0)` gives for a character: its first UTF-16 unit, a high surrogate beyond the basic plane. */
  function FirstUnit(c: CodePoint): (u: nat)
    ensures u < 0x10000
  {
    if c < 0x10000 then c else 0xD800 + (c - 0x10000) / 0x400
  }

  function FirstUnits(s: seq<CodePoint>): seq<nat> { seq(|s|, k requires 0 <= k < |s| => FirstUnit(s[k])) }

  /** The page's loop over the characters of the string. The product stays where floating point is exact. */
  method JsHash(s: seq<CodePoint>) returns (r: nat)
    ensures r == Abs(Signed(Poly(FirstUnits(s)))) && r <= HALF
  {
    var h: int := 7;
    ghost var units := FirstUnits(s);
    for i := 0 to |s|
      invariant h == Signed(Poly(units[..i]))
    {
      var code := FirstUnit(s[i]);
      assert units[..i + 1][..i] == units[..i];
      WrapEachStep(h, Poly(units[..i]), code);
      assert -EXACT < h * 31 < EXACT && -EXACT < h * 31 + code < EXACT;
      h := Signed(h * 31 + code);
    }
    assert units[..|s|] == units;
    r := Abs(h);
  }

  predicate Basic(s: seq<CodePoint>) { forall c <- s :: c < 0x10000 }

  /** On strings of basic-plane characters the two hashes agree. */
  lemma HashesAgree(s: seq<CodePoint>)
    requires Basic(s)
    ensures Abs(Signed(Poly(s))) == Abs(Signed(Poly(FirstUnits(s))))
  {
    forall k | 0 <= k < |s|
      ensures FirstUnits(s)[k] == s[k]
    {
      assert s[k] in s;
    }
    assert FirstUnits(s) == s;
  }

  // --- the closed form ---

  function Pow31(n: nat): nat { if n == 0 then 1 else 31 * Pow31(n - 1) }

  /** The codes as a base-31 polynomial, highest power first. */
  function Value(s: seq<nat>): nat { if s == [] then 0 else s[0] * Pow31(|s| - 1) + Value(s[1..]) }

  lemma {:induction false} PolyIsPolynomial(s: seq<nat>)
    ensures Poly(s) == 7 * Pow31(|s|) + Value(s)
  {
    if s != [] {
      var n := |s| - 1;
      PolyIsPolynomial(s[..n]);
      ValueOfLast(s);
    }
  }

  lemma {:induction false} ValueOfLast(s: seq<nat>)
    requires s != []
    ensures Value(s) == Value(s[..|s| - 1]) * 31 + s[|s| - 1]
  {
    var n := |s| - 1;
    if n > 0 {
      ValueOfLast(s[1..]);
      assert s[1..][..n - 1] == s[..n][1..];
      var a, p := s[0], Pow31(n - 1);
      assert a * (31 * p) == a * p * 31;
    } else {
      assert s[1..] == [] && s[..0] == [];
    }
  }

  // --- beyond the basic plane ---

  /** 31 has an inverse modulo 2^32, so multiplying by it loses nothing. */
  lemma ThirtyOneCancels(x: int)
    ensures x * 31 % WORD == 0 <==> x % WORD == 0
  {
    if x * 31 % WORD == 0 {
      var q := x * 31 / WORD;
      assert x * 31 == WORD * q;
      assert x == WORD * (3186588639 * q - 23 * x);
    }
    if x % WORD == 0 {
      assert x * 31 == WORD * (x / WORD * 31);
      Multiple(x / WORD * 31);
    }
  }

  /** All characters but the one at k are in the basic plane. */
  predicate BasicBut(s: seq<CodePoint>, k: nat) { k < |s| && forall j :: 0 <= j < |s| && j != k ==> s[j] < 0x10000 }

  /** One character beyond the basic plane makes the two signed hashes differ, wherever it stands. */
  lemma {:induction false} OneAstralDiffers(s: seq<CodePoint>, k: nat)
    requires BasicBut(s, k)
    ensures Signed(Poly(s)) == Signed(Poly(FirstUnits(s))) <==> s[k] < 0x10000
  {
    var n, t := |s| - 1, FirstUnits(s);
    assert t[..n] == FirstUnits(s[..n]);
    SameSigned(Poly(s), Poly(t));
    if k == n {
      assert t[..n] == s[..n];
      assert Poly(s) - Poly(t) == s[n] - FirstUnit(s[n]);
    } else {
      OneAstralDiffers(s[..n], k);
      SameSigned(Poly(s[..n]), Poly(t[..n]));
      assert Poly(s) - Poly(t) == (Poly(s[..n]) - Poly(t[..n])) * 31;
      ThirtyOneCancels(Poly(s[..n]) - Poly(t[..n]));
    }
  }

  /** A single such character is enough for the hashes themselves to differ. */
  lemma AstralAloneDiffers(c: CodePoint)
    requires c >= 0x10000
    ensures Abs(Signed(Poly([c]))) != Abs(Signed(Poly(FirstUnits([c]))))
  {
    assert [c][..0] == [] && FirstUnits([c]) == [FirstUnit(c)] && [FirstUnit(c)][..0] == [];
    assert Poly([c]) == 217 + c && Poly([FirstUnit(c)]) == 217 + FirstUnit(c);
  }

  /** Two integers have the same hash exactly when their difference or their sum is a multiple of 2^32. */
  lemma SameHash(x: int, y: int)
    ensures Abs(Signed(x)) == Abs(Signed(y)) <==> (x - y) % WORD == 0 || (x + y) % WORD == 0
  {
    SameSigned(x, y);
    var a, b := Signed(x), Signed(y);
    hide Signed;
    var p := WordFactor(a - x);
    var q := WordFactor(b - y);
    if (x + y) % WORD == 0 {
      var d := WordFactor(x + y);
      assert a + b == WORD * (d + p + q);
    }
    if a == -b {
      assert x + y == WORD * (-p - q);
      Multiple(-p - q);
    }
  }

  /** With at most one character outside the basic plane the hashes agree exactly when there is none, or when the
      unwrapped numbers add up to a multiple of 2^32. */
  lemma OneAstralHash(s: seq<CodePoint>, k: nat)
    requires BasicBut(s, k)
    ensures Abs(Signed(Poly(s))) == Abs(Signed(Poly(FirstUnits(s))))
       <==> s[k] < 0x10000 || (Poly(s) + Poly(FirstUnits(s))) % WORD == 0
  {
    hide Signed, Poly, FirstUnits;
    OneAstralDiffers(s, k);
    SameSigned(Poly(s), Poly(FirstUnits(s)));
    SameHash(Poly(s), Poly(FirstUnits(s)));
  }

  lemma PolyAppend(s: seq<nat>, c: nat)
    ensures Poly(s + [c]) == Poly(s) * 31 + c
  {
    assert (s + [c])[..|s|] == s;
  }

  lemma PolyOfSeven(a: nat, b: nat, c: nat, d: nat, e: nat, f: nat, g: nat)
    ensures Poly([a] + [b] + [c] + [d] + [e] + [f] + [g])
        == ((((((217 + a) * 31 + b) * 31 + c) * 31 + d) * 31 + e) * 31 + f) * 31 + g
  {
    hide Poly;
    EmptyPoly();
    PolyAppend([], a);
    assert [] + [a] == [a];
    PolyAppend([a], b);
    PolyAppend([a] + [b], c);
    PolyAppend([a] + [b] + [c], d);
    PolyAppend([a] + [b] + [c] + [d], e);
    PolyAppend([a] + [b] + [c] + [d] + [e], f);
    PolyAppend([a] + [b] + [c] + [d] + [e] + [f], g);
  }

  lemma EmptyPoly()
    ensures Poly([]) == 7
  {
  }

  lemma SignedWithin(x: int, r: int, k: int)
    requires x == r + WORD * k && -HALF <= r < HALF
    ensures Signed(x) == r
  {
    var d := WordFactor(Signed(x) - x);
    assert Signed(x) - r == WORD * (d + k);
  }

  /** Staying in the basic plane is enough but not needed: on "bvtgeft" followed by U+1F44D both hashes are 36360,
      because the signed values are opposite. */
  lemma OppositeSignsMeet(s: seq<CodePoint>)
    requires s == [98, 118, 116, 103, 101, 102, 116, 0x1F44D]
    ensures !Basic(s) && Abs(Signed(Poly(s))) == Abs(Signed(Poly(FirstUnits(s)))) == 36360
  {
    assert s[7] in s;
    var word := [98] + [118] + [116] + [103] + [101] + [102] + [116];
    assert s == word + [0x1F44D] && FirstUnits(s) == word + [FirstUnit(0x1F44D)];
    hide Poly, FirstUnits, Signed;
    PolyOfSeven(98, 118, 116, 103, 101, 102, 116);
    PolyAppend(word, 0x1F44D);
    PolyAppend(word, FirstUnit(0x1F44D));
    SignedWithin(Poly(s), 36360, 2043);
    SignedWithin(Poly(FirstUnits(s)), -36360, 2043);
  }
}
