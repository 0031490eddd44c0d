/** Cutting a draft's body around the claims it cites, for the evidence panel. */
module Segments {
  import opened Basics
  import opened Text

  datatype Claim = Claim(t: string, src: string)

  datatype Seg = Plain(t: string) | Cited(t: string, src: string)

  datatype Cut = Cut(segs: seq<Seg>, missing: seq<Claim>)

  /** Where a claim was found in the rest of the body: the index and the length of the cut. */
  datatype Hit = Hit(i: nat, n: nat)

  predicate IsDash(c: char) { 0x2010 <= c as int <= 0x2015 || c as int == 0x2212 }

  predicate IsWideSpace(c: char) {
    var k := c as int;
    k == 0xa0 || k == 0x1680 || 0x2000 <= k <= 0x200a || k == 0x2028 || k == 0x2029 || k == 0x202f || k == 0x205f
        || k == 0x3000 || k == 0xfeff
  }

  function Plainer(c: char): char { if IsDash(c) then '-' else if IsWideSpace(c) then ' ' else c }

  function Plained(s: string): string { seq(|s|, k requires 0 <= k < |s| => Plainer(s[k])) }

  /** Typographic dashes and spaces replaced, then stripped. */
  function Clean(s: string): string { Strip(Plained(s)) }

  const DASHES := {0x2010, 0x2011, 0x2012, 0x2013, 0x2014, 0x2015, 0x2212}

  const WIDE_SPACES := {
    0xa0, 0x1680, 0x2000, 0x2001, 0x2002, 0x2003, 0x2004, 0x2005, 0x2006, 0x2007, 0x2008, 0x2009, 0x200a,
    0x2028, 0x2029, 0x202f, 0x205f, 0x3000, 0xfeff}

  /** Cleaning turns seven dashes into a hyphen and the wide spaces into a space, and changes no other character. */
  lemma PlainerListed(c: char)
    ensures Plainer(c) == if c as int in DASHES then '-' else if c as int in WIDE_SPACES then ' ' else c
  {
  }

  predicate IsPunct(c: char) { c in " \t\n\r.,;:!?\"'()[]{}" }

  function TrimLeft(s: string): string { if s != "" && IsPunct(s[0]) then TrimLeft(s[1..]) else s }

  function TrimRight(s: string): string { if s != "" && IsPunct(s[|s| - 1]) then TrimRight(s[..|s| - 1]) else s }

  function Trim(s: string): string { TrimRight(TrimLeft(s)) }

  /** The first occurrence of t in s at or after i. */
  function Find(s: string, t: string, i: nat := 0): (r: Option<nat>)
    requires i <= |s|
    ensures r.Some? ==> i <= r.value && At(s, r.value, t) && forall k :: i <= k < r.value ==> !At(s, k, t)
    ensures r.None? ==> forall k :: i <= k <= |s| ==> !At(s, k, t)
    decreases |s| - i
  {
    if At(s, i, t) then Some(i) else if i == |s| then None else Find(s, t, i + 1)
  }

  /** As written first, then ignoring case. */
  function FindLoosely(lower: string -> string, rest: string, t: string): Option<nat> {
    var i := Find(rest, t);
    if i.Some? then i else Find(lower(rest), lower(t))
  }

  /** The whole claim first, then the claim without the punctuation around it. */
  function Locate(lower: string -> string, rest: string, t: string): Option<Hit> {
    var i := FindLoosely(lower, rest, t);
    if i.Some? then Some(Hit(i.value, |t|))
    else
      var core := Trim(t);
      var j := if core == "" then None else FindLoosely(lower, rest, core);
      if j.Some? then Some(Hit(j.value, |core|)) else None
  }

  /** Slices clamp to the string, as Python's do. */
  function Slice(s: string, a: nat, b: nat): string {
    var hi := if b <= |s| then b else |s|;
    if a <= hi then s[a..hi] else ""
  }

  function Pieces(rest: string, h: Hit, src: string): seq<Seg> {
    (if h.i > 0 then [Plain(Slice(rest, 0, h.i))] else []) + [Cited(Slice(rest, h.i, h.i + h.n), src)]
  }

  function After(rest: string, h: Hit): string { Slice(rest, h.i + h.n, |rest|) }

  /** The cut of `rest` around the claims, in claim order. */
  function CutAround(lower: string -> string, rest: string, claims: seq<Claim>): Cut
    decreases |claims|
  {
    if claims == [] then Cut(if rest == "" then [] else [Plain(rest)], [])
    else
      var t := Clean(claims[0].t);
      if t == "" then CutAround(lower, rest, claims[1..])
      else
        var h := Locate(lower, rest, t);
        if h.None? then
          var c := CutAround(lower, rest, claims[1..]);
          Cut(c.segs, [claims[0]] + c.missing)
        else
          var c := CutAround(lower, After(rest, h.value), claims[1..]);
          Cut(Pieces(rest, h.value, claims[0].src) + c.segs, c.missing)
  }

  /** What was cut before, then the cut of what was left. */
  function Then(a: Cut, b: Cut): Cut { Cut(a.segs + b.segs, a.missing + b.missing) }

  lemma ThenThen(a: Cut, b: Cut, c: Cut)
    ensures Then(a, Then(b, c)) == Then(Then(a, b), c)
  {
    assert a.segs + (b.segs + c.segs) == a.segs + b.segs + c.segs;
    assert a.missing + (b.missing + c.missing) == a.missing + b.missing + c.missing;
  }

  /** What one claim with text adds. */
  function OneCut(lower: string -> string, rest: string, cl: Claim): Cut {
    var h := Locate(lower, rest, Clean(cl.t));
    if h.None? then Cut([], [cl]) else Cut(Pieces(rest, h.value, cl.src), [])
  }

  lemma CutUnrolls(lower: string -> string, rest: string, claims: seq<Claim>, k: nat)
    requires k < |claims|
    ensures
      var h := Locate(lower, rest, Clean(claims[k].t));
      var whole := CutAround(lower, rest, claims[k..]);
      if Clean(claims[k].t) == "" then whole == CutAround(lower, rest, claims[k + 1..])
      else whole == Then(OneCut(lower, rest, claims[k]),
           CutAround(lower, if h.None? then rest else After(rest, h.value), claims[k + 1..]))
  {
    hide Locate, Clean, Pieces, After;
    assert claims[k..][0] == claims[k] && claims[k..][1..] == claims[k + 1..];
    var h := Locate(lower, rest, Clean(claims[k].t));
    if Clean(claims[k].t) != "" && h.Some? {
      var c := CutAround(lower, After(rest, h.value), claims[k + 1..]);
      assert [] + c.missing == c.missing;
    } else {
      var c := CutAround(lower, rest, claims[k + 1..]);
      assert [] + c.segs == c.segs;
    }
  }

  lemma CutOfNothing(lower: string -> string, rest: string)
    ensures CutAround(lower, rest, []) == Cut(if rest == "" then [] else [Plain(rest)], [])
  {
  }

  method SegsFromClaims(lower: string -> string, body: string, claims: seq<Claim>)
      returns (segs: seq<Seg>, missing: seq<Claim>)
    ensures Cut(segs, missing) == CutAround(lower, Clean(body), claims)
  {
    hide Clean, Locate, CutAround;
    segs, missing := [], [];
    var rest := Clean(body);
    var k := 0;
    assert claims[0..] == claims;
    while k < |claims|
      invariant k <= |claims|
      invariant CutAround(lower, Clean(body), claims) == Then(Cut(segs, missing), CutAround(lower, rest, claims[k..]))
    {
      var cl := claims[k];
      var t := Clean(cl.t);
      CutUnrolls(lower, rest, claims, k);
      if t != "" {
        var h := Locate(lower, rest, t);
        ghost var before := Cut(segs, missing);
        ghost var later := CutAround(lower, if h.None? then rest else After(rest, h.value), claims[k + 1..]);
        ghost var one := OneCut(lower, rest, cl);
        ThenThen(before, one, later);
        if h.None? {
          missing := missing + [cl];
        } else {
          if h.value.i > 0 {
            segs := segs + [Plain(Slice(rest, 0, h.value.i))];
          }
          segs := segs + [Cited(Slice(rest, h.value.i, h.value.i + h.value.n), cl.src)];
          rest := After(rest, h.value);
        }
        assert Cut(segs, missing) == Then(before, one);
      }
      k := k + 1;
    }
    assert claims[k..] == [];
    CutOfNothing(lower, rest);
    if rest != "" {
      segs := segs + [Plain(rest)];
    }
  }

  // --- nothing is lost ---

  function Whole(segs: seq<Seg>): string { if segs == [] then "" else segs[0].t + Whole(segs[1..]) }

  lemma WholeOfSplit(a: seq<Seg>, b: seq<Seg>)
    ensures Whole(a + b) == Whole(a) + Whole(b)
  {
    if a == [] {
      assert a + b == b;
    } else {
      assert (a + b)[1..] == a[1..] + b;
    }
  }

  lemma PiecesKeepAll(rest: string, h: Hit, src: string)
    ensures Whole(Pieces(rest, h, src)) + After(rest, h) == rest
  {
    var cited := Cited(Slice(rest, h.i, h.i + h.n), src);
    assert Whole([cited]) == cited.t;
    if h.i > 0 {
      var plain := Plain(Slice(rest, 0, h.i));
      assert [plain] + [cited] == [plain, cited] && [plain, cited][1..] == [cited];
    } else {
      assert [] + [cited] == [cited];
    }
  }

  /** The segments put together are the body they were cut from, wherever the claims were found. */
  lemma {:induction false} CutIsLossless(lower: string -> string, rest: string, claims: seq<Claim>)
    ensures Whole(CutAround(lower, rest, claims).segs) == rest
    decreases |claims|
  {
    hide Locate, Clean, Pieces, After;
    if claims == [] {
      assert Whole([Plain(rest)]) == rest + Whole([]);
    } else {
      var t := Clean(claims[0].t);
      var h := Locate(lower, rest, t);
      if t == "" || h.None? {
        CutIsLossless(lower, rest, claims[1..]);
      } else {
        CutIsLossless(lower, After(rest, h.value), claims[1..]);
        PiecesKeepAll(rest, h.value, claims[0].src);
        WholeOfSplit(Pieces(rest, h.value, claims[0].src), CutAround(lower, After(rest, h.value), claims[1..]).segs);
      }
    }
  }

  // --- every claim is cited or missing ---

  /** Folding the text, or any part of it, keeps every character in its place. */
  ghost predicate Steady(lower: string -> string, s: string) {
    |lower(s)| == |s| && forall i: nat, j: nat ::
        i <= j <= |s| ==> |lower(s[i..j])| == j - i && lower(s[i..j]) == lower(s)[i..j]
  }

  /** Folding the text, or the text without the punctuation around it, keeps its length. */
  predicate Level(lower: string -> string, t: string) { |lower(t)| == |t| && |lower(Trim(t))| == |Trim(t)| }

  ghost predicate Evenly(lower: string -> string, rest: string, claims: seq<Claim>) {
    Steady(lower, rest) && forall c <- claims :: Level(lower, Clean(c.t))
  }

  /** The segment reads as the text: up to case, and up to the punctuation around the text. */
  predicate Reads(lower: string -> string, seg: string, t: string) {
    lower(seg) == lower(t) || (Trim(t) != "" && lower(seg) == lower(Trim(t)))
  }

  function CitedOf(segs: seq<Seg>): seq<Seg> {
    if segs == [] then [] else (if segs[0].Cited? then [segs[0]] else []) + CitedOf(segs[1..])
  }

  lemma CitedOfSplit(a: seq<Seg>, b: seq<Seg>)
    ensures CitedOf(a + b) == CitedOf(a) + CitedOf(b)
  {
    if a == [] {
      assert a + b == b;
    } else {
      assert (a + b)[1..] == a[1..] + b;
    }
  }

  /** The claims with text for which the mask says `found`, in order. */
  function Picked(claims: seq<Claim>, mask: seq<bool>, found: bool): seq<Claim>
    requires |mask| == |claims|
  {
    if claims == [] then []
    else (if Clean(claims[0].t) != "" && mask[0] == found then [claims[0]] else [])
         + Picked(claims[1..], mask[1..], found)
  }

  /** The cited segments stand for the claims `found`, one for one and in order, and read as them if the folding is
      even. */
  ghost predicate StandFor(lower: string -> string, cited: seq<Seg>, found: seq<Claim>, even: bool) {
    && |cited| == |found|
    && (forall k :: 0 <= k < |cited| ==> cited[k].Cited? && cited[k].src == found[k].src)
    && (even ==> forall k :: 0 <= k < |cited| ==> Reads(lower, cited[k].t, Clean(found[k].t)))
  }

  lemma FoundReads(lower: string -> string, rest: string, t: string)
    requires Steady(lower, rest) && |lower(t)| == |t|
    ensures
      var i := FindLoosely(lower, rest, t);
      i.Some? ==> i.value + |t| <= |rest| && lower(rest[i.value..i.value + |t|]) == lower(t)
  {
  }

  lemma LocatedReads(lower: string -> string, rest: string, t: string)
    requires Steady(lower, rest) && Level(lower, t) && Locate(lower, rest, t).Some?
    ensures
      var h := Locate(lower, rest, t).value;
      Reads(lower, Slice(rest, h.i, h.i + h.n), t)
  {
    hide Trim, FindLoosely, Steady;
    FoundReads(lower, rest, t);
    FoundReads(lower, rest, Trim(t));
  }

  lemma SliceOfSlice(s: string, a: nat, i: nat, j: nat)
    requires i <= j && a + j <= |s|
    ensures s[a..][i..j] == s[a + i..a + j]
  {
  }

  lemma StaysSteady(lower: string -> string, rest: string, h: Hit)
    requires Steady(lower, rest)
    ensures Steady(lower, After(rest, h))
  {
    var a := if h.i + h.n <= |rest| then h.i + h.n else |rest|;
    var x, low := rest[a..], lower(rest);
    assert rest[0..|rest|] == rest && rest[a..|rest|] == x;
    assert |low| == |rest| && lower(x) == low[a..|rest|] == low[a..] && After(rest, h) == x;
    forall i: nat, j: nat | i <= j <= |x|
      ensures |lower(x[i..j])| == j - i && lower(x[i..j]) == lower(x)[i..j]
    {
      SliceOfSlice(rest, a, i, j);
      SliceOfSlice(low, a, i, j);
    }
  }

  lemma NothingCited(lower: string -> string, rest: string)
    ensures CitedOf([]) == [] && CitedOf([Plain(rest)]) == [] && forall even :: StandFor(lower, [], [], even)
  {
  }

  lemma OneMoreStands(lower: string -> string, seg: Seg, cl: Claim, cited: seq<Seg>, found: seq<Claim>, even: bool)
    requires StandFor(lower, cited, found, even)
    requires seg.Cited? && seg.src == cl.src && (even ==> Reads(lower, seg.t, Clean(cl.t)))
    ensures StandFor(lower, [seg] + cited, [cl] + found, even)
  {
    hide Reads, Clean;
  }

  /** Every claim with text ends in exactly one of the two lists, in claim order. When the folding moves no character of
      the body and lengthens no claim, each cited segment reads as its claim. */
  lemma CitedOrMissing(lower: string -> string, rest: string, claims: seq<Claim>) returns (mask: seq<bool>)
    ensures |mask| == |claims|
    ensures StandFor(lower, CitedOf(CutAround(lower, rest, claims).segs), Picked(claims, mask, true),
        Evenly(lower, rest, claims))
    ensures CutAround(lower, rest, claims).missing == Picked(claims, mask, false)
  {
    mask := CitedOrMissingIf(lower, rest, claims, Evenly(lower, rest, claims));
  }

  lemma {:induction false} CitedOrMissingIf(lower: string -> string, rest: string, claims: seq<Claim>, even: bool)
      returns (mask: seq<bool>)
    requires even ==> Evenly(lower, rest, claims)
    ensures |mask| == |claims|
    ensures StandFor(lower, CitedOf(CutAround(lower, rest, claims).segs), Picked(claims, mask, true), even)
    ensures CutAround(lower, rest, claims).missing == Picked(claims, mask, false)
    decreases |claims|
  {
    hide Locate, Clean, Slice, StandFor, CitedOf, Pieces, Steady, Level;
    if claims == [] {
      mask := [];
      NothingCited(lower, rest);
    } else {
      var t := Clean(claims[0].t);
      var h := Locate(lower, rest, t);
      var next := if t == "" || h.None? then rest else After(rest, h.value);
      if even && h.Some? {
        StaysSteady(lower, rest, h.value);
      }
      var mask' := CitedOrMissingIf(lower, next, claims[1..], even);
      mask := [h.Some?] + mask';
      assert mask[1..] == mask';
      var later := CutAround(lower, next, claims[1..]);
      if t != "" && h.Some? {
        var seg := Cited(Slice(rest, h.value.i, h.value.i + h.value.n), claims[0].src);
        CitedOfSplit(Pieces(rest, h.value, claims[0].src), later.segs);
        CitedInPieces(rest, h.value, claims[0].src);
        if even {
          LocatedReads(lower, rest, t);
        }
        OneMoreStands(lower, seg, claims[0], CitedOf(later.segs), Picked(claims[1..], mask', true), even);
        assert [] + Picked(claims[1..], mask', false) == Picked(claims[1..], mask', false);
      } else {
        assert [] + Picked(claims[1..], mask', true) == Picked(claims[1..], mask', true);
      }
    }
  }

  lemma CitedInPieces(rest: string, h: Hit, src: string)
    ensures CitedOf(Pieces(rest, h, src)) == [Cited(Slice(rest, h.i, h.i + h.n), src)]
  {
    var cited := Cited(Slice(rest, h.i, h.i + h.n), src);
    assert CitedOf([cited]) == [cited] + CitedOf([]);
    if h.i > 0 {
      var plain := Plain(Slice(rest, 0, h.i));
      assert [plain] + [cited] == [plain, cited] && [plain, cited][1..] == [cited];
    } else {
      assert [] + [cited] == [cited];
    }
  }

  lemma LocatedAsWritten(lower: string -> string, rest: string, t: string)
    requires Find(rest, t).Some?
    ensures Locate(lower, rest, t) == Some(Hit(Find(rest, t).value, |t|))
  {
  }

  /** A claim that occurs in the rest of the body as written is cut out, word for word, at its first occurrence. */
  lemma CutAtFirstOccurrence(lower: string -> string, rest: string, cl: Claim, later: seq<Claim>, i: nat)
    requires Clean(cl.t) != "" && At(rest, i, Clean(cl.t)) && forall k: nat :: k < i ==> !At(rest, k, Clean(cl.t))
    ensures
      var t := Clean(cl.t);
      CutAround(lower, rest, [cl] + later).segs
      == (if i > 0 then [Plain(rest[..i])] else []) + [Cited(t, cl.src)] + CutAround(lower, rest[i + |t|..], later).segs
  {
    hide Clean, Find, Locate, CutAround;
    var t := Clean(cl.t);
    var claims := [cl] + later;
    assert Find(rest, t) == Some(i);
    LocatedAsWritten(lower, rest, t);
    assert claims[0..] == claims && claims[1..] == later;
    CutUnrolls(lower, rest, claims, 0);
    assert After(rest, Hit(i, |t|)) == rest[i + |t|..] && Slice(rest, i, i + |t|) == t;
  }

  /** When the folding is even on the body and the claims no citation is empty, so each starts after the one
      before it. */
  lemma CitationsAdvance(lower: string -> string, body: string, claims: seq<Claim>)
    requires Evenly(lower, body, claims)
    ensures forall g <- CitedOf(CutAround(lower, body, claims).segs) :: g.t != ""
  {
    hide Clean, Trim, CutAround, CitedOf, Picked;
    var mask := CitedOrMissing(lower, body, claims);
    var cited, found := CitedOf(CutAround(lower, body, claims).segs), Picked(claims, mask, true);
    PickedHaveText(claims, mask, true);
    EmptyFoldsToEmpty(lower, body);
    forall k | 0 <= k < |cited|
      ensures cited[k].t != ""
    {
      assert Reads(lower, cited[k].t, Clean(found[k].t)) && found[k] in found && found[k] in claims;
    }
  }

  lemma EmptyFoldsToEmpty(lower: string -> string, s: string)
    requires Steady(lower, s)
    ensures lower("") == ""
  {
    assert s[0..0] == "";
  }

  lemma PickedHaveText(claims: seq<Claim>, mask: seq<bool>, found: bool)
    requires |mask| == |claims|
    ensures forall c <- Picked(claims, mask, found) :: Clean(c.t) != "" && c in claims
  {
    hide Clean;
  }

  // --- foldings that work character by character ---

  function Folded(fold: char -> string, s: string): string { if s == "" then "" else fold(s[0]) + Folded(fold, s[1..]) }

  function FoldBy(fold: char -> string): string -> string { s => Folded(fold, s) }

  /** Folding drops no character, and folded characters stay as they are. */
  ghost predicate Proper(fold: char -> string) { forall c :: fold(c) != "" && forall d <- fold(c) :: fold(d) == [d] }

  predicate OneEach(fold: char -> string, s: string) { forall c <- s :: |fold(c)| == 1 }

  lemma FoldedSplit(fold: char -> string, a: string, b: string)
    ensures Folded(fold, a + b) == Folded(fold, a) + Folded(fold, b)
  {
    if a == "" {
      assert a + b == b;
    } else {
      assert (a + b)[1..] == a[1..] + b;
      FoldedSplit(fold, a[1..], b);
    }
  }

  lemma FoldedOneEach(fold: char -> string, s: string)
    requires OneEach(fold, s)
    ensures |Folded(fold, s)| == |s|
  {
    if s != "" {
      assert s[0] in s;
      FoldedOneEach(fold, s[1..]);
    }
  }

  lemma OneEachIsSteady(fold: char -> string, s: string)
    requires OneEach(fold, s)
    ensures Steady(FoldBy(fold), s)
  {
    FoldedOneEach(fold, s);
    forall i: nat, j: nat | i <= j <= |s|
      ensures |Folded(fold, s[i..j])| == j - i && Folded(fold, s[i..j]) == Folded(fold, s)[i..j]
    {
      assert s == s[..i] + (s[i..j] + s[j..]);
      FoldedSplit(fold, s[..i], s[i..j] + s[j..]);
      FoldedSplit(fold, s[i..j], s[j..]);
      FoldedOneEach(fold, s[..i]);
      FoldedOneEach(fold, s[i..j]);
    }
  }

  lemma FoldedStays(fold: char -> string, s: string)
    requires forall d <- s :: fold(d) == [d]
    ensures Folded(fold, s) == s
  {
    if s != "" {
      assert s[0] in s;
      FoldedStays(fold, s[1..]);
    }
  }

  lemma FoldedIsFixed(fold: char -> string, s: string)
    requires Proper(fold)
    ensures |Folded(fold, s)| >= |s| && forall d <- Folded(fold, s) :: fold(d) == [d]
  {
    if s != "" {
      FoldedIsFixed(fold, s[1..]);
    }
  }

  lemma TrimWithin(t: string)
    ensures |Trim(t)| <= |t| && forall d <- Trim(t) :: d in t
  {
    TrimLeftWithin(t);
    TrimRightWithin(TrimLeft(t));
  }

  lemma TrimLeftWithin(t: string)
    ensures |TrimLeft(t)| <= |t| && forall d <- TrimLeft(t) :: d in t
  {
  }

  lemma TrimRightWithin(t: string)
    ensures |TrimRight(t)| <= |t| && forall d <- TrimRight(t) :: d in t
  {
  }

  /** The folded body up to the body's own length is found in the body, and what is cut out there reads otherwise. */
  lemma LongerFoldMisreads(fold: char -> string, body: string, k: nat)
    requires Proper(fold) && k < |body| && |fold(body[k])| > 1 && OneEach(fold, body[..k])
    ensures
      var lower, t := FoldBy(fold), Folded(fold, body)[..if |body| <= |Folded(fold, body)| then |body| else 0];
      && t != "" && OneEach(fold, t) && Locate(lower, body, t) == Some(Hit(0, |body|))
      && !Reads(lower, Slice(body, 0, |body|), t)
  {
    hide Trim, Reads;
    var n, low := |body|, Folded(fold, body);
    FoldedIsFixed(fold, body);
    LongerFold(fold, body, k);
    var t := low[..n];
    assert forall d <- t :: d in low;
    FoldedStays(fold, t);
    TrimWithin(t);
    FoldedStays(fold, Trim(t));
    assert !At(body, 0, t) by { assert body[0..n] == body && t[k] != body[k]; }
    assert Find(body, t).None?;
    assert At(low, 0, t);
    assert Find(low, t) == Some(0);
    assert Slice(body, 0, n) == body;
    Misread(fold, body, t);
  }

  lemma Misread(fold: char -> string, body: string, t: string)
    requires Folded(fold, t) == t && Folded(fold, Trim(t)) == Trim(t) && |Trim(t)| <= |t| < |Folded(fold, body)|
    ensures !Reads(FoldBy(fold), body, t)
  {
    hide Trim;
  }

  lemma LongerFold(fold: char -> string, body: string, k: nat)
    requires Proper(fold) && k < |body| && |fold(body[k])| > 1 && OneEach(fold, body[..k])
    ensures |Folded(fold, body)| > |body| && Folded(fold, body)[k] != body[k]
  {
    var c, low := body[k], Folded(fold, body);
    assert body == body[..k] + ([c] + body[k + 1..]);
    FoldedSplit(fold, body[..k], [c] + body[k + 1..]);
    FoldedSplit(fold, [c], body[k + 1..]);
    FoldedOneEach(fold, body[..k]);
    FoldedIsFixed(fold, body[k + 1..]);
    assert Folded(fold, [c]) == fold(c) + "" == fold(c);
    assert low[k] == fold(c)[0] && fold(c)[0] in fold(c);
  }

  lemma FirstLonger(fold: char -> string, s: string) returns (k: nat)
    requires Proper(fold) && !OneEach(fold, s)
    ensures k < |s| && |fold(s[k])| > 1 && OneEach(fold, s[..k])
  {
    var n := |s| - 1;
    if OneEach(fold, s[..n]) {
      k := n;
      assert s == s[..n] + [s[n]];
      var c :| c in s && |fold(c)| != 1;
    } else {
      k := FirstLonger(fold, s[..n]);
      assert s[..k] == s[..n][..k];
    }
  }

  /** If the text is found in the body, what is found there reads as the text. */
  predicate FoundAsRead(lower: string -> string, body: string, t: string)
    requires t != ""
  {
    Locate(lower, body, t).Some? ==>
      var h := Locate(lower, body, t).value; Reads(lower, Slice(body, h.i, h.i + h.n), t)
  }

  lemma OneEachIsLevel(fold: char -> string, t: string)
    requires OneEach(fold, t)
    ensures Level(FoldBy(fold), t)
  {
    hide Trim;
    TrimWithin(t);
    FoldedOneEach(fold, t);
    FoldedOneEach(fold, Trim(t));
  }

  lemma NothingGrowsSoItReads(fold: char -> string, body: string, t: string)
    requires Proper(fold) && OneEach(fold, body) && OneEach(fold, t) && t != ""
    ensures FoundAsRead(FoldBy(fold), body, t)
  {
    hide Locate, Reads, Steady, Level, OneEach, Proper, FoldBy, Slice;
    OneEachIsSteady(fold, body);
    OneEachIsLevel(fold, t);
    if Locate(FoldBy(fold), body, t).Some? { LocatedReads(FoldBy(fold), body, t); }
  }

  lemma GrownIsMisread(fold: char -> string, body: string) returns (t: string)
    requires Proper(fold) && !OneEach(fold, body)
    ensures t != "" && OneEach(fold, t) && !FoundAsRead(FoldBy(fold), body, t)
  {
    hide Locate, Reads, Proper, FoldBy, Folded, OneEach;
    var k := FirstLonger(fold, body);
    LongerFoldMisreads(fold, body, k);
    t := Folded(fold, body)[..if |body| <= |Folded(fold, body)| then |body| else 0];
  }

  /** Everything found in a body reads as what was looked for, exactly when the folding lengthens no character of the
      body. */
  lemma ReadsIffNothingGrows(fold: char -> string, body: string)
    requires Proper(fold)
    ensures OneEach(fold, body) <==> forall t :: t != "" && OneEach(fold, t) ==> FoundAsRead(FoldBy(fold), body, t)
  {
    hide FoundAsRead, OneEach, Proper;
    if OneEach(fold, body) {
      forall t | t != "" && OneEach(fold, t)
        ensures FoundAsRead(FoldBy(fold), body, t)
      {
        NothingGrowsSoItReads(fold, body, t);
      }
    } else {
      var t := GrownIsMisread(fold, body);
    }
  }

  /** A folding that lengthens a character moves the index: the body's capital dotted I makes this citation empty. */
  lemma FoldingCanMoveTheCut(lower: string -> string)
    requires lower("\U{130}a") == "i\U{307}a" && lower("A") == "a"
    ensures CutAround(lower, "\U{130}a", [Claim("A", "K-1")]) == Cut([Plain("\U{130}a"), Cited("", "K-1")], [])
  {
    hide Clean, Locate;
    var rest := "\U{130}a";
    var claims := [Claim("A", "K-1")];
    FoldingLocates(lower, rest);
    assert Slice(rest, 0, 2) == rest && Slice(rest, 2, 3) == "" && After(rest, Hit(2, 1)) == "";
    assert claims[0..] == claims && claims[1..] == [];
    CutUnrolls(lower, rest, claims, 0);
    assert CutAround(lower, "", []) == Cut([], []);
  }

  lemma FoldingLocates(lower: string -> string, rest: string)
    requires rest == "\U{130}a" && lower(rest) == "i\U{307}a" && lower("A") == "a"
    ensures Clean("A") == "A" && Locate(lower, rest, "A") == Some(Hit(2, 1))
  {
    hide Clean, At, Find;
    var low := "i\U{307}a";
    CleanLetter();
    AtLetter(rest, 'A');
    AtLetter(low, 'a');
    FirstAt(low, "a", 2);
    assert Find(rest, "A").None?;
  }

  lemma CleanLetter()
    ensures Clean("A") == "A"
  {
    hide Strip;
    assert Plained("A") == "A" == "" + "A" + "";
    StripCore("", "A", "");
  }

  lemma AtLetter(s: string, c: char)
    ensures forall i: nat :: At(s, i, [c]) <==> i < |s| && s[i] == c
  {
    assert forall i: nat :: i < |s| ==> s[i..i + 1] == [s[i]];
  }

  lemma FirstAt(s: string, t: string, i: nat)
    requires i <= |s| && At(s, i, t) && forall k :: 0 <= k < i ==> !At(s, k, t)
    ensures Find(s, t) == Some(i)
  {
    hide At, Find;
  }

  // --- the composed message ---

  lemma StripTwice(s: string)
    ensures Strip(Strip(s)) == Strip(s)
  {
    var x := Strip(s);
    if x != "" {
      StripCore("", x, "");
      assert "" + x + "" == x;
    }
  }

  lemma CleanTwice(s: string)
    ensures Clean(Clean(s)) == Clean(s)
  {
    var p := Plained(s);
    var x := Strip(p);
    assert forall k :: 0 <= k < |x| ==> x[k] in p;
    assert forall c <- p :: Plainer(c) == c;
    assert Plained(x) == x;
    StripTwice(p);
  }

  datatype Draft = Draft(subject: string, body: string, claims: seq<Claim>)

  datatype Comp = Comp(subject: Option<string>, segs: seq<Seg>, body: string, claims: seq<Claim>)

  function Sourced(segs: seq<Seg>): seq<Claim> {
    if segs == [] then []
    else (if segs[0].Cited? && segs[0].src != "" then [Claim(segs[0].t, segs[0].src)] else []) + Sourced(segs[1..])
  }

  function Unsourced(missing: seq<Claim>): seq<Claim> {
    seq(|missing|, k requires 0 <= k < |missing| => missing[k].(src := "?"))
  }

  function Cleaned(claims: seq<Claim>): seq<Claim> {
    seq(|claims|, k requires 0 <= k < |claims| => Claim(Clean(claims[k].t), claims[k].src))
  }

  function CompFromDraft(lower: string -> string, d: Draft, email: bool): Comp {
    var body := Clean(d.body);
    var c := CutAround(lower, Clean(body), Cleaned(d.claims));
    Comp(if email then Some(Clean(d.subject)) else None, c.segs, body, Sourced(c.segs) + Unsourced(c.missing))
  }

  function WithText(claims: seq<Claim>): seq<Claim> {
    if claims == [] then [] else (if Clean(claims[0].t) != "" then [claims[0]] else []) + WithText(claims[1..])
  }

  lemma PickedSplit(claims: seq<Claim>, mask: seq<bool>)
    requires |mask| == |claims|
    ensures |Picked(claims, mask, true)| + |Picked(claims, mask, false)| == |WithText(claims)|
    ensures forall c <- Picked(claims, mask, true) :: c in claims
  {
    hide Clean;
  }

  /** The citations that have a source, as they are listed. */
  function Listed(cited: seq<Seg>): seq<Claim> {
    if cited == [] then []
    else (if cited[0].Cited? && cited[0].src != "" then [Claim(cited[0].t, cited[0].src)] else []) + Listed(cited[1..])
  }

  lemma SourcedAreListed(segs: seq<Seg>)
    ensures Sourced(segs) == Listed(CitedOf(segs))
  {
    if segs != [] {
      SourcedAreListed(segs[1..]);
      if segs[0].Cited? {
        assert CitedOf(segs) == [segs[0]] + CitedOf(segs[1..]);
      } else {
        assert CitedOf(segs) == [] + CitedOf(segs[1..]) == CitedOf(segs[1..]);
      }
    }
  }

  lemma AllListed(cited: seq<Seg>)
    requires forall g <- cited :: g.Cited? && g.src != ""
    ensures |Listed(cited)| == |cited|
  {
    if cited != [] {
      assert cited[0] in cited;
      AllListed(cited[1..]);
    }
  }

  /** The composed segments spell the stored body. The list of claims is: the citations, standing for the found claims
      in draft order, without those that have no source, and then the claims not found, in draft order, with "?" as
      source. When every claim names a source, each claim with text is listed exactly once. */
  lemma CompAccountsForEverything(lower: string -> string, d: Draft, email: bool) returns (mask: seq<bool>)
    ensures |mask| == |d.claims|
    ensures
      var comp, claims := CompFromDraft(lower, d, email), Cleaned(d.claims);
      && Whole(comp.segs) == comp.body == Clean(d.body)
      && StandFor(lower, CitedOf(comp.segs), Picked(claims, mask, true), Evenly(lower, comp.body, claims))
      && comp.claims == Listed(CitedOf(comp.segs)) + Unsourced(Picked(claims, mask, false))
      && ((forall c <- d.claims :: c.src != "") ==> |comp.claims| == |WithText(claims)|)
  {
    hide Clean, CutAround, Whole, Picked, Sourced, Listed, CitedOf, Evenly, Reads, WithText;
    var claims := Cleaned(d.claims);
    CleanTwice(d.body);
    CutIsLossless(lower, Clean(d.body), claims);
    var c := CutAround(lower, Clean(d.body), claims);
    mask := CitedOrMissing(lower, Clean(d.body), claims);
    PickedSplit(claims, mask);
    SourcedAreListed(c.segs);
    var cited, found := CitedOf(c.segs), Picked(claims, mask, true);
    if forall c <- d.claims :: c.src != "" {
      forall g | g in cited
        ensures g.Cited? && g.src != ""
      {
        var k :| 0 <= k < |cited| && cited[k] == g;
        assert found[k] in found && found[k] in claims;
      }
      AllListed(cited);
    }
  }
}
