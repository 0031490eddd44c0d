/** Whitespace, stripping, splitting and joining, as Python's `str` does them. */
module Text {
  /** The characters `str.isspace` and the pattern `\s` accept. */
  predicate IsSpace(c: char) {
    var k := c as int;
    9 <= k <= 13 || 28 <= k <= 32 || k == 133 || k == 160 || k == 5760 || 8192 <= k <= 8202
    || k == 8232 || k == 8233 || k == 8239 || k == 8287 || k == 12288
  }

  /** The 29 whitespace characters, one by one. */
  lemma SpacesListed(c: char)
    ensures IsSpace(c) <==> c as int in {
      9, 10, 11, 12, 13, 28, 29, 30, 31, 32, 0x85, 0xa0, 0x1680,
      0x2000, 0x2001, 0x2002, 0x2003, 0x2004, 0x2005, 0x2006, 0x2007,
      0x2008, 0x2009, 0x200a, 0x2028, 0x2029, 0x202f, 0x205f, 0x3000}
  {
  }

  /** The first position at or after i that is not whitespace. */
  function SkipSpaces(s: string, i: nat): (r: nat)
    requires i <= |s|
    ensures i <= r <= |s| && (r < |s| ==> !IsSpace(s[r])) && forall k :: i <= k < r ==> IsSpace(s[k])
    decreases |s| - i
  {
    if i < |s| && IsSpace(s[i]) then SkipSpaces(s, i + 1) else i
  }

  /** One past the last position that is not whitespace, or 0. */
  function TrimmedEnd(s: string): (r: nat)
    ensures r <= |s| && (r > 0 ==> !IsSpace(s[r - 1])) && forall k :: r <= k < |s| ==> IsSpace(s[k])
  {
    if s != "" && IsSpace(s[|s| - 1]) then TrimmedEnd(s[..|s| - 1]) else |s|
  }

  function Strip(s: string): (r: string)
    ensures |r| <= |s|
  {
    var a, b := SkipSpaces(s, 0), TrimmedEnd(s);
    if a < b then s[a..b] else ""
  }

  predicate Stripped(s: string) { s != "" && !IsSpace(s[0]) && !IsSpace(s[|s| - 1]) }

  /** Stripping removes exactly the whitespace around a stripped core. */
  lemma StripCore(before: string, core: string, after: string)
    requires Stripped(core)
    requires (forall k :: 0 <= k < |before| ==> IsSpace(before[k]))
        && (forall k :: 0 <= k < |after| ==> IsSpace(after[k]))
    ensures Strip(before + core + after) == core
  {
    var s := before + core + after;
    var a, b := SkipSpaces(s, 0), TrimmedEnd(s);
    assert s[|before|] == core[0] && s[|before| + |core| - 1] == core[|core| - 1];
    assert forall k :: 0 <= k < |before| ==> s[k] == before[k];
    assert forall k :: |before| + |core| <= k < |s| ==> s[k] == after[k - |before| - |core|];
    assert a == |before|;
    assert b == |before| + |core|;
    assert s[a..b] == core;
  }

  /** t stands at position i of s. */
  predicate At(s: string, i: nat, t: string) { i + |t| <= |s| && s[i..i + |t|] == t }

  // --- words ---

  predicate IsWord(w: string) { w != "" && forall k :: 0 <= k < |w| ==> !IsSpace(w[k]) }

  /** The first position at or after i that is whitespace. */
  function SkipWord(s: string, i: nat): (r: nat)
    requires i <= |s|
    ensures i <= r <= |s| && (r < |s| ==> IsSpace(s[r])) && forall k :: i <= k < r ==> !IsSpace(s[k])
    decreases |s| - i
  {
    if i < |s| && !IsSpace(s[i]) then SkipWord(s, i + 1) else i
  }

  /** The words of s, like `split()`. */
  function Words(s: string): (ws: seq<string>)
    ensures forall k :: 0 <= k < |ws| ==> IsWord(ws[k])
    decreases |s|
  {
    var a := SkipSpaces(s, 0);
    if a == |s| then [] else
      var b := SkipWord(s, a);
      [s[a..b]] + Words(s[b..])
  }

  /** Joining with single spaces. */
  function Join(ws: seq<string>): string {
    if ws == [] then "" else if |ws| == 1 then ws[0] else ws[0] + (" " + Join(ws[1..]))
  }

  lemma SkipSpacesIs(s: string, i: nat, r: nat)
    requires i <= r <= |s| && (r < |s| ==> !IsSpace(s[r])) && forall k :: i <= k < r ==> IsSpace(s[k])
    ensures SkipSpaces(s, i) == r
  {
  }

  lemma SkipWordIs(s: string, i: nat, r: nat)
    requires i <= r <= |s| && (r < |s| ==> IsSpace(s[r])) && forall k :: i <= k < r ==> !IsSpace(s[k])
    ensures SkipWord(s, i) == r
  {
  }

  lemma LeadingSpace(s: string, t: string)
    requires s != "" && IsSpace(s[0]) && t == s[1..]
    ensures Words(s) == Words(t)
  {
    var a := SkipSpaces(t, 0);
    SkipSpacesIs(s, 0, a + 1);
    if a < |t| {
      var b := SkipWord(t, a);
      SkipWordIs(s, a + 1, b + 1);
      assert s[a + 1..b + 1] == t[a..b] && s[b + 1..] == t[b..];
    }
  }

  lemma WordThenRest(w: string, rest: string)
    requires IsWord(w) && (rest != "" ==> IsSpace(rest[0]))
    ensures Words(w + rest) == [w] + Words(rest)
  {
    var s := w + rest;
    SkipSpacesIs(s, 0, 0);
    SkipWordIs(s, 0, |w|);
    assert s[0..|w|] == w && s[|w|..] == rest;
  }

  /** Splitting what was joined gives the words back. */
  lemma {:induction false} WordsOfJoin(ws: seq<string>)
    requires forall k :: 0 <= k < |ws| ==> IsWord(ws[k])
    ensures Words(Join(ws)) == ws
  {
    assert Words("") == [];
    hide Words;
    if |ws| == 1 {
      WordThenRest(ws[0], "");
      assert ws[0] + "" == ws[0] && ws == [ws[0]];
    } else if ws != [] {
      var later := Join(ws[1..]);
      assert Join(ws) == ws[0] + (" " + later);
      hide Join;
      WordThenRest(ws[0], " " + later);
      LeadingSpace(" " + later, later);
      WordsOfJoin(ws[1..]);
      assert ws == [ws[0]] + ws[1..];
    }
  }
}
