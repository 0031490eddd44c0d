/** The sliding-window chunker. */
module Windows {
  import opened Text

  /** The words of each window. */
  function Parts(out: seq<string>): (ps: seq<seq<string>>)
    ensures |ps| == |out|
  {
    seq(|out|, k requires 0 <= k < |out| => Words(out[k]))
  }

  /** Puts windows back together: the first whole, then each later one without its first `overlap` words. */
  function Reassemble(ps: seq<seq<string>>, overlap: nat): seq<string> {
    if ps == [] then []
    else if |ps| == 1 then ps[0]
    else
      var last := ps[|ps| - 1];
      Reassemble(ps[..|ps| - 1], overlap) + if overlap <= |last| then last[overlap..] else []
  }

  /** Window b follows window a: they share exactly `overlap` words and b brings more. */
  predicate Follows(a: seq<string>, b: seq<string>, overlap: nat) {
    overlap <= |a| && overlap < |b| && a[|a| - overlap..] == b[..overlap]
  }

  ghost predicate Overlapping(ps: seq<seq<string>>, overlap: nat) {
    forall k, l :: 0 <= k < l < |ps| && l == k + 1 ==> Follows(ps[k], ps[l], overlap)
  }

  /** Every window holds between one and `size` words; all but the last are full. */
  ghost predicate Sized(ps: seq<seq<string>>, size: nat) {
    (forall k :: 0 <= k < |ps| ==> 0 < |ps[k]| <= size) && forall k :: 0 <= k < |ps| - 1 ==> |ps[k]| == size
  }

  function Upto(i: nat, size: nat, n: nat): nat { if i + size < n then i + size else n }

  /** The windows built before the one that starts at i. */
  ghost predicate Built(ps: seq<seq<string>>, words: seq<string>, i: nat, size: nat, overlap: nat) {
    && overlap < size && i < |words| && Sized(ps, size) && Overlapping(ps, overlap)
    && if ps == [] then i == 0
       else i + overlap < |words| && |ps[|ps| - 1]| == size && ps[|ps| - 1][size - overlap..] == words[i..i + overlap]
            && Reassemble(ps, overlap) == words[..i + overlap]
  }

  lemma WindowAdded(ps: seq<seq<string>>, words: seq<string>, i: nat, size: nat, overlap: nat)
    requires Built(ps, words, i, size, overlap)
    ensures var qs := ps + [words[i..Upto(i, size, |words|)]];
      Sized(qs, size) && Overlapping(qs, overlap) && Reassemble(qs, overlap) == words[..Upto(i, size, |words|)]
  {
    var p := words[i..Upto(i, size, |words|)];
    var qs := ps + [p];
    assert qs[..|qs| - 1] == ps && forall k :: 0 <= k < |ps| ==> qs[k] == ps[k];
    if ps != [] {
      assert p[..overlap] == words[i..i + overlap] && Follows(ps[|ps| - 1], p, overlap);
      assert words[..Upto(i, size, |words|)] == words[..i + overlap] + p[overlap..];
      hide Reassemble, Follows;
    }
    hide Follows;
  }

  lemma WindowFollowed(ps: seq<seq<string>>, words: seq<string>, i: nat, size: nat, overlap: nat)
    requires overlap < size && i + size < |words| && Sized(ps, size) && Overlapping(ps, overlap)
    requires ps != [] && ps[|ps| - 1] == words[i..i + size] && Reassemble(ps, overlap) == words[..i + size]
    ensures i + size - overlap < |words| && Built(ps, words, i + size - overlap, size, overlap)
  {
    hide Reassemble, Overlapping, Sized;
  }

  lemma PartsOfJoins(ps: seq<seq<string>>, out: seq<string>)
    requires |ps| == |out| && forall k :: 0 <= k < |ps|
                                          ==> out[k] == Join(ps[k]) && forall w :: w in ps[k] ==> IsWord(w)
    ensures Parts(out) == ps
  {
    forall k | 0 <= k < |ps| ensures Words(out[k]) == ps[k] { WordsOfJoin(ps[k]); }
  }

  /** Splits a text of more than `size` words into windows. With an overlap below the size the loop ends; every window
      has at most `size` words, neighbours share exactly `overlap`, and dropping the shared words gives the text's words
      back. */
  method Window(text: string, size: nat, overlap: nat) returns (out: seq<string>)
    requires |Words(text)| <= size || overlap < size
    ensures |Words(text)| <= size ==> out == [Strip(text)]
    ensures |Words(text)| > size ==>
      Sized(Parts(out), size) && Overlapping(Parts(out), overlap) && Reassemble(Parts(out), overlap) == Words(text)
  {
    hide Words, Join, Strip, Built, Sized, Overlapping, Reassemble, Parts;
    var words := Words(text);
    if |words| <= size { return [Strip(text)]; }
    var i := 0;
    out := [];
    ghost var ps: seq<seq<string>> := [];
    NothingBuilt(words, size, overlap);
    while i < |words|
      invariant i < |words| && Built(ps, words, i, size, overlap) && |ps| == |out|
      invariant forall k :: 0 <= k < |ps| ==> out[k] == Join(ps[k]) && forall w :: w in ps[k] ==> IsWord(w)
      decreases |words| - i
    {
      var p := words[i..Upto(i, size, |words|)];
      out := out + [Join(p)];
      WindowAdded(ps, words, i, size, overlap);
      ps := ps + [p];
      if i + size >= |words| { break; }
      WindowFollowed(ps, words, i, size, overlap);
      i := i + size - overlap;
    }
    PartsOfJoins(ps, out);
    assert words[..|words|] == words;
  }

  lemma NothingBuilt(words: seq<string>, size: nat, overlap: nat)
    requires size < |words| && overlap < size
    ensures Built([], words, 0, size, overlap)
  {
  }

  /** The start of window n. */
  function Start(n: nat, size: nat, overlap: nat): int { n * (size - overlap) }

  /** With an overlap of at least the size, a text that needs a second window keeps the loop going forever. */
  lemma NeverEnds(words: nat, size: nat, overlap: nat, n: nat)
    requires size < words && size <= overlap
    ensures Start(n, size, overlap) < words && Start(n, size, overlap) + size < words
  {
    assert n * (size - overlap) <= 0 by { if n > 0 { NeverEnds(words, size, overlap, n - 1); } }
  }
}
