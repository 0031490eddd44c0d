/** Pinned chunk ids: the printer of re-ingest, which writes a marker line before each chunk, and the parser of the
    markers. */
module Markers {
  import opened Basics
  import opened Text

  /** A marker match: the id and the position just after the match. */
  datatype Mark = Mark(id: string, end: nat)

  datatype Chunk = Chunk(id: string, text: string)

  predicate Alnum(c: char) { 'A' <= c <= 'Z' || 'a' <= c <= 'z' || '0' <= c <= '9' }

  /** One past the run of letters and digits that starts at i. */
  function SkipAlnum(s: string, i: nat): (r: nat)
    requires i <= |s|
    ensures i <= r <= |s| && (r < |s| ==> !Alnum(s[r])) && forall k :: i <= k < r ==> Alnum(s[k])
    decreases |s| - i
  {
    if i < |s| && Alnum(s[i]) then SkipAlnum(s, i + 1) else i
  }

  lemma AtChar(s: string, i: nat, t: string, k: nat)
    ensures At(s, i, t) && k < |t| ==> s[i + k] == t[k]
  {
    if At(s, i, t) && k < |t| {
      assert s[i..i + |t|][k] == s[i + k];
    }
  }

  lemma AtFits(s: string, i: nat, t: string)
    requires At(s, i, t)
    ensures i + |t| <= |s| && s[i..i + |t|] == t
  {
  }

  predicate LineStart(s: string, i: nat)
    requires i <= |s|
  {
    i == 0 || s[i - 1] == '\n'
  }

  /** The last line end of the whitespace run [d, e): where a greedy `\s*$` stops, if it can. */
  function LastLineEnd(s: string, d: nat, e: nat): (r: Option<nat>)
    requires d <= e <= |s|
    ensures r.Some? ==> d <= r.value <= e && (r.value == |s| || (r.value < e && s[r.value] == '\n'))
    ensures r.None? ==> e < |s| && forall k :: d <= k < e ==> s[k] != '\n'
    ensures r.Some? && r.value < e ==> e < |s| && forall k :: r.value < k < e ==> s[k] != '\n'
    decreases e - d
  {
    if e == |s| then Some(e)
    else if d == e then None
    else if s[e - 1] == '\n' then Some(e - 1)
    else LastLineEndBefore(s, d, e - 1)
  }

  function LastLineEndBefore(s: string, d: nat, e: nat): (r: Option<nat>)
    requires d <= e < |s|
    ensures r.Some? ==> d <= r.value < e && s[r.value] == '\n' && forall k :: r.value < k < e ==> s[k] != '\n'
    ensures r.None? ==> forall k :: d <= k < e ==> s[k] != '\n'
    decreases e - d
  {
    if d == e then None else if s[e - 1] == '\n' then Some(e - 1) else LastLineEndBefore(s, d, e - 1)
  }

  /** `-->` at c and nothing but whitespace up to the end of a line. */
  function CloseAt(s: string, id: string, c: nat): Option<Mark>
    requires c <= |s|
  {
    if !At(s, c, "-->") then None
    else
      var stop := LastLineEnd(s, c + 3, SkipSpaces(s, c + 3));
      if stop.None? then None else Some(Mark(id, stop.value))
  }

  /** An id at a, and the close after it. */
  function IdAt(s: string, a: nat): Option<Mark>
    requires a <= |s|
  {
    if !At(s, a, "K-") then None
    else
      var b := SkipAlnum(s, a + 2);
      if b == a + 2 then None else CloseAt(s, s[a..b], SkipSpaces(s, b))
  }

  /** The marker pattern tried at position i. Each run is taken whole: what must follow it can never be part of it. */
  function MarkAt(s: string, i: nat): Option<Mark>
    requires i <= |s|
  {
    if !LineStart(s, i) || !At(s, i, "<!--") then None else IdAt(s, SkipSpaces(s, i + 4))
  }

  /** The first position at or after i where the pattern matches, or |s| + 1. */
  function NextMark(s: string, i: nat): (r: nat)
    requires i <= |s|
    ensures i <= r <= |s| + 1 && (r <= |s| ==> MarkAt(s, r).Some?)
    ensures forall k :: i <= k < r && k <= |s| ==> MarkAt(s, k).None?
    decreases |s| - i
  {
    if MarkAt(s, i).Some? then i else if i == |s| then i + 1 else NextMark(s, i + 1)
  }

  function Emit(id: string, text: string): seq<Chunk> {
    if Strip(text) == "" then [] else [Chunk(id, Strip(text))]
  }

  lemma MarkAdvances(s: string, i: nat)
    requires i <= |s| && MarkAt(s, i).Some?
    ensures i < MarkAt(s, i).value.end <= |s|
  {
  }

  /** The chunks from position i on, where the text of chunk `id` begins. */
  function ChunksFrom(s: string, id: string, i: nat): seq<Chunk>
    requires i <= |s|
    decreases |s| - i
  {
    var k := NextMark(s, i);
    if k > |s| then Emit(id, s[i..])
    else
      MarkAdvances(s, k);
      var m := MarkAt(s, k).value;
      Emit(id, s[i..k]) + ChunksFrom(s, m.id, m.end)
  }

  /** The marker branch of the chunker; None when there is no marker and the other rules apply. */
  function Parse(s: string): Option<seq<Chunk>> {
    var k := NextMark(s, 0);
    if k > |s| then None
    else
      MarkAdvances(s, k);
      var m := MarkAt(s, k).value;
      Some(ChunksFrom(s, m.id, m.end))
  }

  // --- printing ---

  function Header(id: string): string { "<!-- " + id + " -->" }

  function PrintOne(c: Chunk): string { Header(c.id) + "\n" + c.text }

  /** The chunks with their marker lines, joined by blank lines. */
  function Print(cs: seq<Chunk>): string {
    if cs == [] then "" else if |cs| == 1 then PrintOne(cs[0]) else PrintOne(cs[0]) + ("\n\n" + Print(cs[1..]))
  }

  predicate ValidId(id: string) {
    |id| > 2 && id[..2] == "K-" && forall k :: 2 <= k < |id| ==> Alnum(id[k])
  }

  /** Letters and digits up to their last ones, and nothing next to them. */
  lemma AlnumEnds()
    ensures Alnum('A') && Alnum('Z') && Alnum('a') && Alnum('z') && Alnum('0') && Alnum('9')
    ensures !Alnum('@') && !Alnum('[') && !Alnum('`') && !Alnum('{') && !Alnum('/') && !Alnum(':')
  {
  }

  lemma ShortestId(c: char)
    requires Alnum(c)
    ensures ValidId("K-" + [c])
  {
    assert ("K-" + [c])[..2] == "K-";
  }

  /** Only whitespace from a to b. */
  predicate Blank(s: string, a: nat, b: nat) { a <= b <= |s| && forall k :: a <= k < b ==> IsSpace(s[k]) }

  /** A marker spelled out at i: an id from a to b between blanks, the close at c, and blanks up to a line end at d. */
  predicate Spelled(s: string, i: nat, a: nat, b: nat, c: nat, d: nat) {
    && i <= |s| && (i == 0 || s[i - 1] == '\n') && i + 4 <= |s| && s[i..i + 4] == "<!--" && Blank(s, i + 4, a)
    && a <= b && Blank(s, b, c) && ValidId(s[a..b]) && c + 3 <= |s| && s[c..c + 3] == "-->" && Blank(s, c + 3, d)
    && (d == |s| || s[d] == '\n')
  }

  /** The pattern matches exactly where a marker is spelled out; it names that id and reaches as far as it can. */
  lemma MarkIsThePattern(s: string, i: nat)
    requires i <= |s|
    ensures MarkAt(s, i).Some? <==> exists a: nat, b: nat, c: nat, d: nat :: Spelled(s, i, a, b, c, d)
    ensures MarkAt(s, i).Some? ==> forall a: nat, b: nat, c: nat, d: nat :: Spelled(s, i, a, b, c, d) ==>
      MarkAt(s, i).value.id == s[a..b] && d <= MarkAt(s, i).value.end
  {
    if MarkAt(s, i).Some? { MarkIsSpelled(s, i); }
    forall a: nat, b: nat, c: nat, d: nat | Spelled(s, i, a, b, c, d)
      ensures MarkAt(s, i).Some? && MarkAt(s, i).value.id == s[a..b] && d <= MarkAt(s, i).value.end
    {
      SpelledIsMark(s, i, a, b, c, d);
    }
    hide MarkAt, Spelled;
  }

  lemma MarkIsSpelled(s: string, i: nat)
    requires i <= |s| && MarkAt(s, i).Some?
    ensures exists a: nat, b: nat, c: nat, d: nat :: Spelled(s, i, a, b, c, d)
  {
    hide CloseAt, ValidId, Alnum;
    var a := SkipSpaces(s, i + 4);
    var b := SkipAlnum(s, a + 2);
    var c := SkipSpaces(s, b);
    IdIsValid(s, a, b);
    CloseIsSpelled(s, s[a..b], c);
    assert Spelled(s, i, a, b, c, MarkAt(s, i).value.end);
  }

  lemma IdIsValid(s: string, a: nat, b: nat)
    requires a + 2 < b <= |s| && At(s, a, "K-") && forall k :: a + 2 <= k < b ==> Alnum(s[k])
    ensures ValidId(s[a..b])
  {
    var id := s[a..b];
    assert id[..2] == s[a..a + 2];
    assert forall k :: 2 <= k < |id| ==> id[k] == s[a + k];
  }

  lemma CloseIsSpelled(s: string, id: string, c: nat)
    requires c <= |s| && CloseAt(s, id, c).Some?
    ensures c + 3 <= |s| && s[c..c + 3] == "-->"
    ensures var d := CloseAt(s, id, c).value.end; Blank(s, c + 3, d) && (d == |s| || s[d] == '\n')
  {
  }

  lemma CloseFits(s: string, id: string, c: nat, d: nat)
    requires c + 3 <= |s| && s[c..c + 3] == "-->" && Blank(s, c + 3, d) && (d == |s| || s[d] == '\n')
    ensures CloseAt(s, id, c).Some? && CloseAt(s, id, c).value.id == id && d <= CloseAt(s, id, c).value.end
  {
    var e := SkipSpaces(s, c + 3);
    hide SkipSpaces, LastLineEnd;
    assert c + 3 <= d <= e;
  }

  lemma RunEnds(s: string, i: nat, a: nat)
    requires i <= |s| && Blank(s, i, a) && (a < |s| ==> !IsSpace(s[a]))
    ensures SkipSpaces(s, i) == a
  {
  }

  lemma IdEnds(s: string, a: nat, b: nat)
    requires a <= b <= |s| && ValidId(s[a..b]) && b < |s| && !Alnum(s[b])
    ensures a + 2 < b && s[a] == 'K' && At(s, a, "K-") && SkipAlnum(s, a + 2) == b
  {
    var id := s[a..b];
    assert s[a] == id[0] == id[..2][0] && s[a + 1] == id[1] == id[..2][1];
    assert s[a..a + 2] == "K-";
    assert forall k :: 2 <= k < |id| ==> id[k] == s[a + k];
    assert forall k :: a + 2 <= k < b ==> Alnum(s[k]) by { assert forall k :: a + 2 <= k < b ==> s[k] == id[k - a]; }
  }

  lemma SpelledIsMark(s: string, i: nat, a: nat, b: nat, c: nat, d: nat)
    requires Spelled(s, i, a, b, c, d)
    ensures MarkAt(s, i).Some? && MarkAt(s, i).value.id == s[a..b] && d <= MarkAt(s, i).value.end
  {
    hide SkipSpaces, SkipAlnum, ValidId, CloseAt;
    assert s[c] == s[c..c + 3][0] == '-';
    assert b < c ==> IsSpace(s[b]);
    assert !Alnum(s[b]);
    IdEnds(s, a, b);
    RunEnds(s, i + 4, a);
    RunEnds(s, b, c);
    CloseFits(s, s[a..b], c, d);
  }

  /** No marker line begins anywhere in the text. */
  ghost predicate MarkFree(t: string) { forall k: nat :: k <= |t| ==> MarkAt(t, k).None? }

  ghost predicate Printable(c: Chunk) { ValidId(c.id) && Stripped(c.text) }

  // --- a content inside the printed body ---

  /** Content t sits at position u of s, on its own lines, and is followed by nothing or by the next marker line. */
  ghost predicate Holds(s: string, u: nat, t: string) {
    var v := u + |t|;
    v <= |s| && s[u..v] == t && Stripped(t) && LineStart(s, u) && (v == |s| || At(s, v, "\n\n<"))
  }

  lemma HeldChars(s: string, u: nat, t: string)
    requires Holds(s, u, t)
    ensures forall k :: 0 <= k < |t| ==> s[u + k] == t[k]
    ensures u + |t| < |s| ==> u + |t| + 2 < |s| && s[u + |t|] == '\n' && s[u + |t| + 1] == '\n' && s[u + |t| + 2] == '<'
  {
    var v := u + |t|;
    assert forall k :: 0 <= k < |t| ==> s[u..v][k] == t[k];
    if v < |s| {
      assert s[v..v + 3] == "\n\n<";
      assert s[v] == s[v..v + 3][0] && s[v + 1] == s[v..v + 3][1] && s[v + 2] == s[v..v + 3][2];
    }
  }

  /** A literal without line ends is found in the body exactly where it is found in the content. */
  lemma HeldLiteral(s: string, u: nat, t: string, i: nat, w: string)
    requires Holds(s, u, t) && i <= |t| && '\n' !in w && w != ""
    ensures At(s, u + i, w) <==> At(t, i, w)
  {
    HeldChars(s, u, t);
    if At(t, i, w) {
      assert s[u + i..u + i + |w|] == t[i..i + |w|];
    }
    if i + |w| > |t| {
      AtChar(s, u + i, w, |t| - i);
    } else if At(s, u + i, w) {
      assert s[u + i..u + i + |w|] == t[i..i + |w|];
    }
  }

  /** Whitespace runs agree, unless the run starts at the very end of the content. */
  lemma HeldSpaces(s: string, u: nat, t: string, i: nat)
    requires Holds(s, u, t) && i <= |t|
    ensures i < |t| ==> SkipSpaces(t, i) < |t| && SkipSpaces(s, u + i) == u + SkipSpaces(t, i)
    ensures i == |t| ==> SkipSpaces(t, i) == |t| && SkipSpaces(s, u + i) == if u + |t| == |s| then |s| else u + |t| + 2
  {
    HeldChars(s, u, t);
    if i < |t| {
      var a := SkipSpaces(t, i);
      assert a < |t|;
      assert forall k :: u + i <= k < u + a ==> s[k] == t[k - u];
      SkipSpacesIs(s, u + i, u + a);
    } else if u + |t| < |s| {
      SkipSpacesIs(s, u + i, u + |t| + 2);
    }
  }

  lemma SkipAlnumIs(s: string, i: nat, r: nat)
    requires i <= r <= |s| && (r < |s| ==> !Alnum(s[r])) && forall k :: i <= k < r ==> Alnum(s[k])
    ensures SkipAlnum(s, i) == r
  {
  }

  lemma HeldAlnum(s: string, u: nat, t: string, i: nat)
    requires Holds(s, u, t) && i <= |t|
    ensures SkipAlnum(s, u + i) == u + SkipAlnum(t, i)
  {
    HeldChars(s, u, t);
    var b := SkipAlnum(t, i);
    assert forall k :: u + i <= k < u + b ==> s[k] == t[k - u];
    SkipAlnumIs(s, u + i, u + b);
  }

  lemma LineEndFound(s: string, d: nat, e: nat, k: nat)
    requires d <= k < e <= |s| && s[k] == '\n'
    ensures LastLineEnd(s, d, e).Some?
  {
  }

  /** The rest of the line after `-->` is blank in the body exactly when it is in the content. */
  lemma HeldLineEnd(s: string, u: nat, t: string, d: nat)
    requires Holds(s, u, t) && d <= |t|
    ensures
      var inBody := LastLineEnd(s, u + d, SkipSpaces(s, u + d));
      var inText := LastLineEnd(t, d, SkipSpaces(t, d));
      && (inBody.Some? <==> inText.Some?)
      && (inBody.Some? ==> inBody.value <= u + |t| + 1)
  {
    hide LastLineEnd, SkipSpaces;
    HeldSpaces(s, u, t, d);
    HeldChars(s, u, t);
    var e, e' := SkipSpaces(t, d), SkipSpaces(s, u + d);
    var inBody, inText := LastLineEnd(s, u + d, e'), LastLineEnd(t, d, e);
    if d < |t| {
      if inBody.Some? {
        LineEndFound(t, d, e, inBody.value - u);
      }
      if inText.Some? {
        LineEndFound(s, u + d, e', u + inText.value);
      }
    } else if u + |t| < |s| {
      LineEndFound(s, u + d, e', u + d);
    }
  }

  /** After the content and the blank line that follows it stands either nothing or a '<'. */
  lemma NothingAtEnd(s: string, u: nat, t: string, w: string)
    requires Holds(s, u, t) && w != "" && w[0] != '<'
    ensures !At(t, |t|, w)
    ensures !At(s, if u + |t| == |s| then |s| else u + |t| + 2, w)
  {
    HeldChars(s, u, t);
    var p := if u + |t| == |s| then |s| else u + |t| + 2;
    AtChar(s, p, w, 0);
  }

  lemma HeldFits(s: string, u: nat, t: string, i: nat, w: string)
    requires Holds(s, u, t) && At(t, i, w)
    ensures i + |w| <= |t| && u + |t| <= |s|
  {
  }

  lemma HeldClose(s: string, u: nat, t: string, b: nat, id: string, id': string)
    requires Holds(s, u, t) && b <= |t|
    ensures
      var inBody := CloseAt(s, id, SkipSpaces(s, u + b));
      && (inBody.Some? <==> CloseAt(t, id', SkipSpaces(t, b)).Some?)
      && (inBody.Some? ==> inBody.value.end <= u + |t| + 1)
  {
    hide LastLineEnd, SkipSpaces;
    HeldSpaces(s, u, t, b);
    NothingAtEnd(s, u, t, "-->");
    var c := SkipSpaces(t, b);
    if c < |t| {
      HeldLiteral(s, u, t, c, "-->");
      if At(t, c, "-->") {
        HeldLineEnd(s, u, t, c + 3);
      }
    }
  }

  lemma HeldId(s: string, u: nat, t: string, x: nat)
    requires Holds(s, u, t) && x <= |t|
    ensures
      var inBody := IdAt(s, SkipSpaces(s, u + x));
      && (inBody.Some? <==> IdAt(t, SkipSpaces(t, x)).Some?)
      && (inBody.Some? ==> inBody.value.end <= u + |t| + 1)
  {
    hide SkipAlnum, SkipSpaces, CloseAt, Holds, At;
    HeldSpaces(s, u, t, x);
    NothingAtEnd(s, u, t, "K-");
    var a := SkipSpaces(t, x);
    if a < |t| {
      HeldLiteral(s, u, t, a, "K-");
      if At(t, a, "K-") {
        HeldFits(s, u, t, a, "K-");
        HeldAlnum(s, u, t, a + 2);
        var b := SkipAlnum(t, a + 2);
        HeldClose(s, u, t, b, s[u + a..u + b], t[a..b]);
      }
    }
  }

  /** A marker starts at a position of the body exactly when one starts at that position of the content. */
  lemma HeldMark(s: string, u: nat, t: string, x: nat)
    requires Holds(s, u, t) && x <= |t|
    ensures MarkAt(s, u + x).Some? <==> MarkAt(t, x).Some?
    ensures MarkAt(s, u + x).Some? ==> MarkAt(s, u + x).value.end <= u + |t| + 1
  {
    hide SkipSpaces, IdAt;
    HeldChars(s, u, t);
    HeldLiteral(s, u, t, x, "<!--");
    if At(t, x, "<!--") {
      HeldId(s, u, t, x + 4);
    }
  }

  lemma AtSplit(s: string, p: nat, x: string, y: string)
    ensures At(s, p, x + y) <==> At(s, p, x) && At(s, p + |x|, y)
  {
    var q := p + |x|;
    if At(s, p, x + y) {
      assert s[p..q] == s[p..q + |y|][..|x|] == x && s[q..q + |y|] == s[p..q + |y|][|x|..] == y;
    }
    if At(s, p, x) && At(s, q, y) {
      assert s[p..q + |y|] == s[p..q] + s[q..q + |y|];
    }
  }

  /** The marker line of a printed chunk is matched as written, and the match stops before its line end. */
  lemma HeaderMatches(s: string, p: nat, c: Chunk)
    requires Printable(c) && p <= |s| && At(s, p, PrintOne(c)) && LineStart(s, p)
    ensures MarkAt(s, p) == Some(Mark(c.id, p + |Header(c.id)|))
  {
    hide LastLineEnd, SkipSpaces, SkipAlnum, At;
    var a, b := p + 5, p + 5 + |c.id|;
    HeaderParts(s, p, c);
    HeaderChars(s, p, c);
    OneSpace(s, p + 4);
    IdRun(s, a, c.id);
    OneSpace(s, b);
    OneSpace(s, b + 4);
    OneLineEnd(s, b + 4, b + 5);
  }

  /** A whitespace run whose only line end is its first character. */
  lemma OneLineEnd(s: string, d: nat, e: nat)
    requires d < e < |s| && s[d] == '\n' && forall k :: d < k < e ==> s[k] != '\n'
    ensures LastLineEnd(s, d, e) == Some(d)
  {
    LineEndFound(s, d, e, d);
  }

  lemma OneSpace(s: string, i: nat)
    requires i + 1 < |s| && IsSpace(s[i]) && !IsSpace(s[i + 1])
    ensures SkipSpaces(s, i) == i + 1
  {
    SkipSpacesIs(s, i, i + 1);
  }

  lemma IdRun(s: string, a: nat, id: string)
    requires ValidId(id) && a + |id| < |s| && s[a..a + |id|] == id && !Alnum(s[a + |id|])
    ensures At(s, a, "K-") && SkipAlnum(s, a + 2) == a + |id|
  {
    assert s[a..a + 2] == s[a..a + |id|][..2];
    assert forall k :: a + 2 <= k < a + |id| ==> s[k] == s[a..a + |id|][k - a];
    SkipAlnumIs(s, a + 2, a + |id|);
  }

  /** The pieces of a printed chunk. */
  lemma HeaderParts(s: string, p: nat, c: Chunk)
    requires At(s, p, PrintOne(c))
    ensures
      var b := p + 5 + |c.id|;
      && b + 5 + |c.text| <= |s| && At(s, p, "<!--") && At(s, p + 4, " ") && At(s, p + 5, c.id) && At(s, b, " ")
      && At(s, b + 1, "-->") && At(s, b + 4, "\n") && At(s, b + 5, c.text)
  {
    hide At;
    PrintOneIs(c);
    HeaderPartsOf(s, p, c.id, c.text);
    AtFits(s, p + 10 + |c.id|, c.text);
  }

  lemma PrintOneIs(c: Chunk)
    ensures PrintOne(c) == "<!--" + (" " + (c.id + (" " + ("-->" + ("\n" + c.text)))))
  {
  }

  lemma HeaderPartsOf(s: string, p: nat, id: string, t: string)
    requires At(s, p, "<!--" + (" " + (id + (" " + ("-->" + ("\n" + t))))))
    ensures
      var b := p + 5 + |id|;
      && At(s, p, "<!--") && At(s, p + 4, " ") && At(s, p + 5, id) && At(s, b, " ")
      && At(s, b + 1, "-->") && At(s, b + 4, "\n") && At(s, b + 5, t)
  {
    hide At;
    var x1, x2 := "<!--", " ";
    var x3, x4 := "-->", "\n";
    assert |x1| == 4 && |x2| == 1 && |x3| == 3 && |x4| == 1;
    AtSplit(s, p, x1, x2 + (id + (x2 + (x3 + (x4 + t)))));
    AtSplit(s, p + 4, x2, id + (x2 + (x3 + (x4 + t))));
    AtSplit(s, p + 5, id, x2 + (x3 + (x4 + t)));
    AtSplit(s, p + 5 + |id|, x2, x3 + (x4 + t));
    AtSplit(s, p + 6 + |id|, x3, x4 + t);
    AtSplit(s, p + 9 + |id|, x4, t);
  }

  /** The characters next to the whitespace of a marker line. */
  lemma HeaderChars(s: string, p: nat, c: Chunk)
    requires Printable(c) && At(s, p, PrintOne(c))
    ensures
      var b := p + 5 + |c.id|;
      && b + 5 < |s| && s[p + 4] == ' ' && s[p + 5] == 'K' && s[b] == ' ' && s[b + 1] == '-' && s[b + 4] == '\n'
          && !IsSpace(s[b + 5])
      && s[p + 5..b] == c.id
  {
    hide PrintOne;
    HeaderParts(s, p, c);
    var b := p + 5 + |c.id|;
    AtChar(s, p + 4, " ", 0);
    AtChar(s, p + 5, c.id, 0);
    AtChar(s, b, " ", 0);
    AtChar(s, b + 1, "-->", 0);
    AtChar(s, b + 4, "\n", 0);
    AtChar(s, b + 5, c.text, 0);
    assert c.id[..2][0] == c.id[0];
  }

  // --- the round trip ---

  ghost predicate AllPrintable(cs: seq<Chunk>) { forall c <- cs :: Printable(c) }

  ghost predicate AllMarkFree(cs: seq<Chunk>) { forall c <- cs :: MarkFree(c.text) }

  /** Where the printed list cs stands in s: its first marker line at p, and nothing after its last content. */
  ghost predicate Stands(s: string, p: nat, cs: seq<Chunk>) {
    p <= |s| && cs != [] && AllPrintable(cs) && LineStart(s, p) && s[p..] == Print(cs)
  }

  /** What is printed after the first chunk. */
  function Tail(cs: seq<Chunk>): string
    requires cs != []
  {
    if |cs| == 1 then "" else "\n\n" + Print(cs[1..])
  }

  lemma PrintSplits(cs: seq<Chunk>)
    requires cs != []
    ensures Print(cs) == PrintOne(cs[0]) + Tail(cs)
  {
    hide PrintOne;
    if |cs| == 1 {
      assert PrintOne(cs[0]) == PrintOne(cs[0]) + "";
    }
  }

  lemma TailChars(cs: seq<Chunk>)
    requires |cs| > 1
    ensures |Tail(cs)| > 2 && Tail(cs)[0] == Tail(cs)[1] == '\n' && Tail(cs)[2] == '<'
        && Tail(cs)[2..] == Print(cs[1..])
  {
    PrintSplits(cs[1..]);
    hide Print;
    assert PrintOne(cs[1])[0] == '<';
  }

  lemma LayoutOfOne(s: string, p: nat, c: Chunk, rest: string)
    requires p <= |s| && s[p..] == PrintOne(c) + rest
    ensures
      var i := p + |Header(c.id)|;
      var v := i + 1 + |c.text|;
      At(s, p, PrintOne(c)) && v <= |s| && s[i] == '\n' && s[i + 1..v] == c.text && s[v..] == rest
  {
    var w, one := s[p..], PrintOne(c);
    var i := p + |Header(c.id)|;
    var v := i + 1 + |c.text|;
    assert one == Header(c.id) + ("\n" + c.text);
    hide Header, PrintOne;
    assert s[p..v] == w[..|one|] == one;
    assert s[v..] == w[|one|..] == rest;
    assert s[i..v] == one[i - p..] == "\n" + c.text;
    assert s[i] == s[i..v][0];
    assert s[i + 1..v] == s[i..v][1..];
  }

  lemma LayoutFirst(s: string, p: nat, cs: seq<Chunk>)
    requires Stands(s, p, cs)
    ensures
      var i := p + |Header(cs[0].id)|;
      var v := i + 1 + |cs[0].text|;
      MarkAt(s, p) == Some(Mark(cs[0].id, i)) && v <= |s| && s[i] == '\n' && s[i + 1..v] == cs[0].text
          && s[v..] == Tail(cs)
  {
    hide MarkAt, Print, Tail, PrintOne, Header;
    PrintSplits(cs);
    LayoutOfOne(s, p, cs[0], Tail(cs));
    HeaderMatches(s, p, cs[0]);
  }

  lemma RestLayout(s: string, v: nat, cs: seq<Chunk>)
    requires |cs| > 1 && AllPrintable(cs) && v <= |s| && s[v..] == Tail(cs)
    ensures v + 2 < |s| && s[v] == s[v + 1] == '\n' && At(s, v, "\n\n<") && Stands(s, v + 2, cs[1..])
  {
    hide Print, Tail, Printable;
    TailChars(cs);
    var w := s[v..];
    assert s[v] == w[0] && s[v + 1] == w[1] && s[v + 2] == w[2];
    assert s[v + 2..] == w[2..];
    assert s[v..v + 3] == "\n\n<";
  }

  lemma LayoutStep(s: string, p: nat, cs: seq<Chunk>, i: nat, v: nat)
    requires cs != [] && Stands(s, p, cs) && i == p + |Header(cs[0].id)| && v == i + 1 + |cs[0].text|
    ensures MarkAt(s, p) == Some(Mark(cs[0].id, i)) && v <= |s| && s[i] == '\n' && Holds(s, i + 1, cs[0].text)
    ensures |cs| == 1 ==> v == |s|
    ensures |cs| > 1 ==> v + 2 < |s| && s[v] == s[v + 1] == '\n' && Stands(s, v + 2, cs[1..])
  {
    hide MarkAt, Print, PrintOne, Header;
    LayoutFirst(s, p, cs);
    assert Printable(cs[0]);
    if |cs| == 1 {
      hide Stands;
      assert s[v..] == "";
    } else {
      RestLayout(s, v, cs);
      hide Stands, Tail;
    }
  }

  /** From position i on, s is the printed list without its first marker line: the contents, and the marker lines
      between them. */
  ghost predicate Laid(s: string, i: nat, cs: seq<Chunk>)
    decreases |cs|
  {
    cs != [] &&
    var v := i + 1 + |cs[0].text|;
    && i < v <= |s| && s[i] == '\n' && Holds(s, i + 1, cs[0].text)
    && if |cs| == 1 then v == |s| else v + 2 < |s| && s[v] == s[v + 1] == '\n' && MarkedAs(s, v + 2, cs[1].id)
                                       && Laid(s, MarkAt(s, v + 2).value.end, cs[1..])
  }

  lemma LaidBy(s: string, i: nat, v: nat, cs: seq<Chunk>)
    requires cs != [] && v == i + 1 + |cs[0].text| && v <= |s| && s[i] == '\n' && Holds(s, i + 1, cs[0].text)
    requires |cs| == 1 ==> v == |s|
    requires |cs| > 1 ==> v + 2 < |s| && s[v] == s[v + 1] == '\n'
    requires |cs| > 1 ==> MarkedAs(s, v + 2, cs[1].id) && Laid(s, MarkAt(s, v + 2).value.end, cs[1..])
    ensures Laid(s, i, cs)
  {
    hide MarkAt, Holds;
  }

  predicate MarkedAs(s: string, p: nat, id: string) { p <= |s| && MarkAt(s, p).Some? && MarkAt(s, p).value.id == id }

  lemma LaidWithNext(s: string, p: nat, cs: seq<Chunk>, i: nat, v: nat)
    requires cs != [] && Stands(s, p, cs) && i == p + |Header(cs[0].id)| && v == i + 1 + |cs[0].text|
    requires |cs| > 1 ==> MarkedAs(s, v + 2, cs[1].id) && Laid(s, MarkAt(s, v + 2).value.end, cs[1..])
    ensures MarkedAs(s, p, cs[0].id) && Laid(s, MarkAt(s, p).value.end, cs)
  {
    hide MarkAt, Header, Holds, Laid, Stands, IdAt, CloseAt, LastLineEnd, SkipSpaces, SkipAlnum, At;
    LayoutStep(s, p, cs, i, v);
    LaidBy(s, i, v, cs);
  }

  /** The printed list is laid out as it says. */
  lemma {:induction false} PrintedIsLaid(s: string, p: nat, cs: seq<Chunk>)
    requires cs != [] && Stands(s, p, cs)
    ensures MarkedAs(s, p, cs[0].id) && Laid(s, MarkAt(s, p).value.end, cs)
    decreases |cs|
  {
    hide MarkAt, Header, Holds, Laid, Stands;
    var i := p + |Header(cs[0].id)|;
    var v := i + 1 + |cs[0].text|;
    if |cs| > 1 {
      LayoutStep(s, p, cs, i, v);
      PrintedIsLaid(s, v + 2, cs[1..]);
    }
    LaidWithNext(s, p, cs, i, v);
  }

  lemma MarkStart(s: string, k: nat)
    requires k <= |s| && MarkAt(s, k).Some?
    ensures k < |s| && s[k] == '<' && LineStart(s, k)
  {
    AtChar(s, k, "<!--", 0);
  }

  /** The first marker at or after i is at r. */
  lemma NextMarkIs(s: string, i: nat, r: nat)
    requires i <= r <= |s| + 1 && (r <= |s| ==> MarkAt(s, r).Some?)
        && forall k :: i <= k < r && k <= |s| ==> MarkAt(s, k).None?
    ensures i <= |s| ==> NextMark(s, i) == r
  {
    hide MarkAt;
  }

  /** With no marker inside the first content, the next marker is the next printed one. */
  lemma NextPrinted(s: string, i: nat, cs: seq<Chunk>)
    requires Laid(s, i, cs) && MarkFree(cs[0].text)
    ensures NextMark(s, i) == if |cs| == 1 then |s| + 1 else i + 3 + |cs[0].text|
  {
    hide MarkAt, NextMark, Holds;
    var v := i + 1 + |cs[0].text|;
    var k := if |cs| == 1 then |s| + 1 else v + 2;
    forall x | i <= x < k && x <= |s|
      ensures MarkAt(s, x).None?
    {
      if i < x <= v {
        HeldMark(s, i + 1, cs[0].text, x - i - 1);
      } else if MarkAt(s, x).Some? {
        MarkStart(s, x);
      }
    }
    NextMarkIs(s, i, k);
  }

  /** What is stored for a content that runs up to the next marker line. */
  lemma EmitHeld(s: string, i: nat, c: Chunk)
    requires i < |s| && s[i] == '\n' && Holds(s, i + 1, c.text)
    ensures Emit(c.id, s[i..if i + 1 + |c.text| == |s| then |s| else i + 3 + |c.text|]) == [c]
  {
    hide Strip;
    HeldChars(s, i + 1, c.text);
    var v := i + 1 + |c.text|;
    var e := if v == |s| then |s| else v + 2;
    StripCore(s[i..i + 1], c.text, s[v..e]);
    assert s[i..e] == s[i..i + 1] + c.text + s[v..e];
  }

  /** Parsing from the end of a printed marker line gives back that chunk and all later ones. */
  lemma {:induction false} ChunksOfPrinted(s: string, i: nat, cs: seq<Chunk>)
    requires Laid(s, i, cs) && AllMarkFree(cs)
    ensures ChunksFrom(s, cs[0].id, i) == cs
    decreases |cs|
  {
    hide MarkAt, NextMark, Emit, Holds;
    NextPrinted(s, i, cs);
    EmitHeld(s, i, cs[0]);
    if |cs| == 1 {
      assert s[i..] == s[i..|s|];
      assert cs == [cs[0]];
    } else {
      var k := i + 3 + |cs[0].text|;
      assert cs[1] in cs;
      ChunksOfPrinted(s, MarkAt(s, k).value.end, cs[1..]);
      assert cs == [cs[0]] + cs[1..];
    }
  }

  /** Printing chunks and parsing the body gives the same chunks in the same order. */
  lemma PrintedParsesBack(cs: seq<Chunk>)
    requires cs != [] && AllPrintable(cs) && AllMarkFree(cs)
    ensures Parse(Print(cs)) == Some(cs)
  {
    hide MarkAt, Print, ChunksFrom;
    var s := Print(cs);
    assert s[0..] == s;
    PrintedIsLaid(s, 0, cs);
    ChunksOfPrinted(s, MarkAt(s, 0).value.end, cs);
  }

  // --- why no content may hold a marker ---

  /** The characters of all contents. */
  function Size(cs: seq<Chunk>): nat {
    if cs == [] then 0 else |cs[0].text| + Size(cs[1..])
  }

  lemma SizeOfFirst(cs: seq<Chunk>)
    requires cs != []
    ensures Size(cs) == |cs[0].text| + Size(cs[1..])
  {
  }

  lemma SizeOfSplit(front: seq<Chunk>, back: seq<Chunk>)
    requires |front| <= 1
    ensures Size(front + back) == Size(front) + Size(back)
  {
    if |front| == 1 {
      assert (front + back)[1..] == back && front[1..] == [];
    } else {
      assert front + back == back;
    }
  }

  /** Only what stands between the surrounding whitespace can be stored. */
  lemma EmitAtMost(id: string, s: string, a: nat, b: nat, from: nat, to: nat)
    requires a <= b <= |s| && a <= from && to <= b
    requires forall k :: a <= k < b && !(from <= k < to) ==> IsSpace(s[k])
    ensures |Emit(id, s[a..b])| <= 1 && Size(Emit(id, s[a..b])) <= if from <= to then to - from else 0
  {
    var x := s[a..b];
    var l, r := SkipSpaces(x, 0), TrimmedEnd(x);
    assert forall k :: 0 <= k < |x| ==> x[k] == s[a + k];
    if l < r {
      assert !IsSpace(x[l]) && !IsSpace(x[r - 1]);
      assert from <= a + l && a + r <= to;
    }
  }

  /** The characters of the first content from j on, the line end before it not counted. */
  function Left(i: nat, v: nat, j: nat): nat { if j <= i < v then v - i - 1 else if j <= v then v - j else 0 }

  /** Parsing from inside the first content keeps no more characters than stand there and later, and fewer when a marker
      is there. */
  lemma {:induction false} SizeBound(s: string, i: nat, cs: seq<Chunk>, id: string, j: nat)
    requires Laid(s, i, cs) && i <= j <= i + 2 + |cs[0].text| && j <= |s|
    ensures
      var v := i + 1 + |cs[0].text|;
      && Size(ChunksFrom(s, id, j)) <= Left(i, v, j) + Size(cs[1..])
      && (NextMark(s, j) < v ==> Size(ChunksFrom(s, id, j)) < Left(i, v, j) + Size(cs[1..]))
    decreases |cs|, |s| - j
  {
    hide MarkAt, NextMark, Emit, Holds, Size, ChunksFrom;
    var v := i + 1 + |cs[0].text|;
    var k := NextMark(s, j);
    var from := if j == i then i + 1 else j;
    if k <= |s| {
      MarkStart(s, k);
    }
    if k < v {
      HeldMark(s, i + 1, cs[0].text, k - i - 1);
      MarkAdvances(s, k);
      var m := MarkAt(s, k).value;
      SizeBound(s, i, cs, m.id, m.end);
      SizeOfStep(s, id, j, k, from, k);
    } else if |cs| == 1 {
      SizeOfLast(s, id, j, from, v);
    } else {
      assert k == v + 2;
      var end := MarkAt(s, k).value.end;
      SizeBound(s, end, cs[1..], cs[1].id, end);
      SizeOfStep(s, id, j, k, from, v);
      SizeOfFirst(cs[1..]);
    }
  }

  /** The characters kept up to the marker at k, and after it. */
  lemma SizeOfStep(s: string, id: string, j: nat, k: nat, from: nat, to: nat)
    requires j <= k <= |s| && NextMark(s, j) == k && MarkAt(s, k).Some? && j <= from && to <= k
    requires forall x :: j <= x < k && !(from <= x < to) ==> IsSpace(s[x])
    ensures
      var m := MarkAt(s, k).value;
      m.end <= |s| && Size(ChunksFrom(s, id, j)) <= (if from <= to then to - from else 0)
          + Size(ChunksFrom(s, m.id, m.end))
  {
    hide MarkAt, NextMark, Emit, Size;
    MarkAdvances(s, k);
    var m := MarkAt(s, k).value;
    EmitAtMost(id, s, j, k, from, to);
    SizeOfSplit(Emit(id, s[j..k]), ChunksFrom(s, m.id, m.end));
  }

  lemma SizeOfLast(s: string, id: string, j: nat, from: nat, to: nat)
    requires j <= |s| && NextMark(s, j) > |s| && j <= from && to <= |s|
    requires forall x :: j <= x < |s| && !(from <= x < to) ==> IsSpace(s[x])
    ensures Size(ChunksFrom(s, id, j)) <= if from <= to then to - from else 0
  {
    hide MarkAt, NextMark, Emit;
    EmitAtMost(id, s, j, |s|, from, to);
    assert s[j..] == s[j..|s|];
  }

  /** A marker inside a content costs characters. */
  lemma {:induction false} MarkedContentShrinks(s: string, i: nat, cs: seq<Chunk>)
    requires Laid(s, i, cs) && !AllMarkFree(cs)
    ensures Size(ChunksFrom(s, cs[0].id, i)) < Size(cs)
    decreases |cs|
  {
    hide MarkAt, NextMark, Emit, Holds, Size, ChunksFrom;
    var c := cs[0];
    var v := i + 1 + |c.text|;
    SizeOfFirst(cs);
    if !MarkFree(c.text) {
      var x: nat :| x <= |c.text| && MarkAt(c.text, x).Some?;
      MarkStart(c.text, x);
      HeldMark(s, i + 1, c.text, x);
      SizeBound(s, i, cs, c.id, i);
    } else {
      NextPrinted(s, i, cs);
      assert cs[1..] != [] && !AllMarkFree(cs[1..]);
      MarkedContentShrinks(s, MarkAt(s, v + 2).value.end, cs[1..]);
      SizeOfStep(s, c.id, i, v + 2, i + 1, v);
    }
  }

  /** Printing a document's chunks and parsing the body gives them back exactly when no content holds a marker line. */
  lemma ReingestRoundTrip(cs: seq<Chunk>)
    requires cs != [] && AllPrintable(cs)
    ensures Parse(Print(cs)) == Some(cs) <==> AllMarkFree(cs)
  {
    hide MarkAt, Print, ChunksFrom;
    if AllMarkFree(cs) {
      PrintedParsesBack(cs);
    } else {
      var s := Print(cs);
      assert s[0..] == s;
      PrintedIsLaid(s, 0, cs);
      MarkedContentShrinks(s, MarkAt(s, 0).value.end, cs);
    }
  }

  /** The chunker itself stores such a content when a marker is indented on the line after another marker line: after
      re-ingest the chunks are no longer the same. */
  lemma IndentedMarkerIsLost(id: string, c: Chunk)
    requires ValidId(id) && Printable(c) && '<' !in c.text
    ensures
      var cs := [Chunk(id, PrintOne(c))];
      AllPrintable(cs) && Parse(PrintOne(Chunk(id, " " + PrintOne(c)))) == Some(cs) && Parse(Print(cs)) != Some(cs)
  {
    var core := PrintOne(c);
    OneOpen(c);
    hide MarkAt, Parse, Print, PrintOne;
    assert core[0..|core|] == core;
    HeaderMatches(core, 0, c);
    ReingestRoundTrip([Chunk(id, core)]);
    IndentedParses(id, core);
  }

  /** A printed chunk starts with its only '<' and ends with its text. */
  lemma OneOpen(c: Chunk)
    requires Printable(c) && '<' !in c.text
    ensures var w := PrintOne(c); Stripped(w) && w[0] == '<' && forall x :: 0 < x < |w| ==> w[x] != '<'
  {
    var head := Header(c.id);
    HeaderOpensOnce(c.id);
    hide Header;
    var w := PrintOne(c);
    assert forall x :: 0 <= x < |head| ==> w[x] == head[x];
    assert w[|head|] == '\n';
    assert forall x :: |head| < x < |w| ==> w[x] == c.text[x - |head| - 1];
    assert w[|w| - 1] == c.text[|c.text| - 1];
  }

  lemma HeaderOpensOnce(id: string)
    requires ValidId(id)
    ensures var h := Header(id); h != "" && h[0] == '<' && forall x :: 0 < x < |h| ==> h[x] != '<'
  {
    assert id[0] == id[..2][0] && id[1] == id[..2][1];
    assert forall x :: 0 <= x < |id| ==> id[x] != '<';
  }

  lemma IndentedParses(id: string, core: string)
    requires ValidId(id) && Stripped(core) && core[0] == '<' && forall x :: 0 < x < |core| ==> core[x] != '<'
    ensures Parse(PrintOne(Chunk(id, " " + core))) == Some([Chunk(id, core)])
  {
    var src, head := PrintOne(Chunk(id, " " + core)), Header(id);
    assert src == head + "\n" + (" " + core) == head + ("\n " + core);
    hide MarkAt, Emit, NextMark, PrintOne, Header;
    IndentedHeader(src, id, core);
    IndentedEmit(src, head, id, core);
    NextMarkIs(src, 0, 0);
    IndentedHasOneMark(src, head, core);
    NextMarkIs(src, |head|, |src| + 1);
  }

  lemma IndentedEmit(src: string, head: string, id: string, core: string)
    requires src == head + ("\n " + core) && Stripped(core)
    ensures Emit(id, src[|head|..]) == [Chunk(id, core)]
  {
    hide Strip;
    var blank := "\n ";
    StripCore(blank, core, "");
    assert src[|head|..] == blank + core + "";
  }

  lemma IndentedHasOneMark(src: string, head: string, core: string)
    requires src == head + ("\n " + core) && forall x :: 0 < x < |core| ==> core[x] != '<'
    ensures forall x :: |head| <= x <= |src| ==> MarkAt(src, x).None?
  {
    var n := |head|;
    assert forall x :: n + 2 < x < |src| ==> src[x] == core[x - n - 2];
    assert src[n] == '\n' && src[n + 1] == ' ';
    forall x | n <= x <= |src|
      ensures MarkAt(src, x).None?
    {
      if MarkAt(src, x).Some? {
        MarkStart(src, x);
      }
    }
  }

  lemma IndentedHeader(src: string, id: string, core: string)
    requires ValidId(id) && Stripped(core) && src == PrintOne(Chunk(id, " " + core))
    ensures |Header(id)| < |src| && MarkAt(src, 0) == Some(Mark(id, |Header(id)|))
  {
    hide LastLineEnd, SkipSpaces, SkipAlnum, PrintOne, At;
    var b := 5 + |id|;
    IndentedChars(src, id, core);
    OneSpace(src, 4);
    IdRun(src, 5, id);
    OneSpace(src, b);
    SkipSpacesIs(src, b + 4, b + 6);
    OneLineEnd(src, b + 4, b + 6);
  }

  lemma AtWhole(s: string)
    ensures At(s, 0, s)
  {
    assert s[0..|s|] == s;
  }

  lemma IndentedChars(src: string, id: string, core: string)
    requires ValidId(id) && Stripped(core) && src == PrintOne(Chunk(id, " " + core))
    ensures
      var b := 5 + |id|;
      && b + 6 < |src| && src[4] == ' ' && src[5] == 'K' && src[b] == ' ' && src[b + 1] == '-'
      && src[b + 4] == '\n' && src[b + 5] == ' ' && !IsSpace(src[b + 6]) && src[5..b] == id
      && At(src, 0, "<!--") && At(src, b + 1, "-->")
  {
    hide PrintOne, At;
    var text := " " + core;
    var c := Chunk(id, text);
    var b := 5 + |id|;
    AtWhole(src);
    HeaderParts(src, 0, c);
    AtChar(src, 4, " ", 0);
    AtChar(src, 5, id, 0);
    AtChar(src, b, " ", 0);
    AtChar(src, b + 1, "-->", 0);
    AtChar(src, b + 4, "\n", 0);
    AtChar(src, b + 5, text, 0);
    AtChar(src, b + 5, text, 1);
    AtFits(src, 5, id);
    assert id[0] == id[..2][0];
  }
}
