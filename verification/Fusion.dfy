/** Reciprocal rank fusion of the vector search and the full-text search, over real numbers. */
module Fusion {
  const K_RRF := 60

  type Id = nat

  function Term(rank: nat): (r: real)
    ensures r > 0.0
  {
    1.0 / (K_RRF + rank + 1) as real
  }

  predicate Distinct(s: seq<Id>) { forall i, j :: 0 <= i < j < |s| ==> s[i] != s[j] }

  /** What a list adds to the score of id: one term for each of its places. */
  function Part(lst: seq<Id>, id: Id): (r: real)
    ensures r >= 0.0
  {
    if lst == [] then 0.0
    else
      var n := |lst| - 1;
      Part(lst[..n], id) + if lst[n] == id then Term(n) else 0.0
  }

  function Score(vec: seq<Id>, fts: seq<Id>, id: Id): real { Part(vec, id) + Part(fts, id) }

  /** The keys of a dict in insertion order, after setting those of lst. */
  function Keys(keys: seq<Id>, lst: seq<Id>): seq<Id> {
    if lst == [] then keys
    else
      var before, id := Keys(keys, lst[..|lst| - 1]), lst[|lst| - 1];
      if id in before then before else before + [id]
  }

  // --- sorting ---

  predicate Scored(keys: seq<Id>, w: map<Id, real>) { forall id <- keys :: id in w }

  /** Puts x in front of the first key that does not outrank it. */
  function Insert(x: Id, s: seq<Id>, w: map<Id, real>): seq<Id>
    requires x in w && Scored(s, w)
  {
    if s == [] || w[s[0]] <= w[x] then [x] + s else [s[0]] + Insert(x, s[1..], w)
  }

  /** A stable sort by descending score, like `sorted` with the negated score as key. */
  function SortDesc(keys: seq<Id>, w: map<Id, real>): (s: seq<Id>)
    requires Scored(keys, w)
    ensures multiset(s) == multiset(keys)
    ensures Scored(s, w)
  {
    if keys == [] then []
    else
      var s := SortDesc(keys[1..], w);
      InsertKeeps(keys[0], s, w);
      assert keys == [keys[0]] + keys[1..];
      var r := Insert(keys[0], s, w);
      SameKeys(keys, r);
      r
  }

  lemma SameKeys(a: seq<Id>, b: seq<Id>)
    requires multiset(a) == multiset(b)
    ensures |a| == |b| && forall x :: x in a <==> x in b
  {
    assert |a| == |multiset(a)| && |b| == |multiset(b)|;
    forall x: Id
      ensures x in a <==> x in b
    {
      assert x in a <==> x in multiset(a);
      assert x in b <==> x in multiset(b);
    }
  }

  lemma InsertKeeps(x: Id, s: seq<Id>, w: map<Id, real>)
    requires x in w && Scored(s, w)
    ensures multiset(Insert(x, s, w)) == multiset([x]) + multiset(s)
  {
    if s != [] && w[s[0]] > w[x] {
      InsertKeeps(x, s[1..], w);
      assert s == [s[0]] + s[1..];
    }
  }

  lemma DistinctCounts(s: seq<Id>)
    ensures Distinct(s) <==> forall x :: multiset(s)[x] <= 1
  {
    if s != [] {
      var x, t := s[0], s[1..];
      assert s == [x] + t;
      DistinctCounts(t);
      assert forall y :: multiset(s)[y] == multiset(t)[y] + if y == x then 1 else 0;
      assert x in t <==> multiset(t)[x] > 0;
      if Distinct(s) {
        assert Distinct(t) && x !in t;
      }
    }
  }

  lemma DistinctAgain(a: seq<Id>, b: seq<Id>)
    requires multiset(a) == multiset(b) && Distinct(a)
    ensures Distinct(b)
  {
    DistinctCounts(a);
    DistinctCounts(b);
  }

  predicate Before(s: seq<Id>, a: Id, b: Id) { exists i, j :: 0 <= i < j < |s| && s[i] == a && s[j] == b }

  lemma BeforeInTail(x: Id, s: seq<Id>, a: Id, b: Id)
    ensures Before([x] + s, a, b) <==> (x == a && b in s) || Before(s, a, b)
  {
    var t := [x] + s;
    if Before(t, a, b) {
      var i, j :| 0 <= i < j < |t| && t[i] == a && t[j] == b;
      assert t[j] == s[j - 1];
      if i > 0 {
        assert s[i - 1] == a && s[j - 1] == b;
      }
    }
    if x == a && b in s {
      var j :| 0 <= j < |s| && s[j] == b;
      assert t[0] == a && t[j + 1] == b;
    }
    if Before(s, a, b) {
      var i, j :| 0 <= i < j < |s| && s[i] == a && s[j] == b;
      assert t[i + 1] == a && t[j + 1] == b;
    }
  }

  /** Sorted by descending score. */
  predicate Descending(s: seq<Id>, w: map<Id, real>)
    requires Scored(s, w)
  {
    forall i, j :: 0 <= i < j < |s| ==> w[s[i]] >= w[s[j]]
  }

  lemma {:induction false} InsertDescends(x: Id, s: seq<Id>, w: map<Id, real>)
    requires x in w && Scored(s, w) && Descending(s, w)
    ensures Scored(Insert(x, s, w), w) && Descending(Insert(x, s, w), w)
  {
    var t := Insert(x, s, w);
    InsertKeeps(x, s, w);
    SameKeys(t, [x] + s);
    if s != [] && w[s[0]] > w[x] {
      InsertDescends(x, s[1..], w);
      forall i, j | 0 <= i < j < |t|
        ensures w[t[i]] >= w[t[j]]
      {
        if i == 0 {
          assert t[j] in [x] + s;
        }
      }
    }
  }

  lemma {:induction false} SortDescends(keys: seq<Id>, w: map<Id, real>)
    requires Scored(keys, w)
    ensures Descending(SortDesc(keys, w), w)
  {
    if keys != [] {
      SortDescends(keys[1..], w);
      InsertDescends(keys[0], SortDesc(keys[1..], w), w);
    }
  }

  lemma BeforeMembers(s: seq<Id>, a: Id, b: Id)
    requires Before(s, a, b)
    ensures a in s && b in s
  {
  }

  lemma TailSorted(s: seq<Id>, w: map<Id, real>)
    requires s != [] && Scored(s, w) && Descending(s, w) && Distinct(s)
    ensures Scored(s[1..], w) && Descending(s[1..], w) && Distinct(s[1..])
    ensures s[0] !in s[1..] && forall b <- s :: w[b] <= w[s[0]]
  {
  }

  /** Inserting x leaves the others as they were and puts x before exactly those it ties or beats. */
  lemma {:induction false} InsertOrder(x: Id, s: seq<Id>, w: map<Id, real>, a: Id, b: Id)
    requires x in w && Scored(s, w) && Descending(s, w) && Distinct(s) && x !in s && a in w && b in w
    ensures a != x && b != x ==> (Before(Insert(x, s, w), a, b) <==> Before(s, a, b))
    ensures a == x && b in s ==> (Before(Insert(x, s, w), a, b) <==> w[b] <= w[x])
    ensures b == x && a in s ==> (Before(Insert(x, s, w), a, b) <==> w[a] > w[x])
  {
    hide Before, Distinct, Descending;
    if s == [] {
      BeforeInTail(x, s, a, b);
    } else if w[s[0]] <= w[x] {
      TailSorted(s, w);
      BeforeInTail(x, s, a, b);
      if Before(s, a, b) { BeforeMembers(s, a, b); }
    } else {
      TailSorted(s, w);
      InsertedAfterHead(x, s, w, a, b);
      InsertOrder(x, s[1..], w, a, b);
    }
  }

  /** Behind a head that beats x, the order is the order of the rest, and everything there comes after the head. */
  lemma InsertedAfterHead(x: Id, s: seq<Id>, w: map<Id, real>, a: Id, b: Id)
    requires x in w && Scored(s, w) && s != [] && s[0] !in s[1..] && x !in s && w[s[0]] > w[x]
    ensures a == s[0] ==> (Before(Insert(x, s, w), a, b) <==> b == x || b in s[1..]) && (Before(s, a, b)
                          <==> b in s[1..])
    ensures b == s[0] ==> !Before(Insert(x, s, w), a, b) && !Before(s, a, b)
    ensures a != s[0] ==> (Before(Insert(x, s, w), a, b) <==> Before(Insert(x, s[1..], w), a, b)) && (Before(s, a, b)
                          <==> Before(s[1..], a, b))
  {
    hide Before;
    var t := Insert(x, s[1..], w);
    InsertKeeps(x, s[1..], w);
    SameKeys(t, [x] + s[1..]);
    BeforeInTail(s[0], t, a, b);
    BeforeInTail(s[0], s[1..], a, b);
    assert s == [s[0]] + s[1..];
    if Before(t, a, b) { BeforeMembers(t, a, b); }
    if Before(s[1..], a, b) { BeforeMembers(s[1..], a, b); }
  }

  /** The sorted order: the higher score first, ties in the order of the keys. */
  lemma {:induction false} SortOrder(keys: seq<Id>, w: map<Id, real>, a: Id, b: Id)
    requires Scored(keys, w) && Distinct(keys) && a in keys && b in keys && a != b
    ensures Before(SortDesc(keys, w), a, b) <==> w[a] > w[b] || (w[a] == w[b] && Before(keys, a, b))
  {
    var x, s := keys[0], SortDesc(keys[1..], w);
    SortDescends(keys[1..], w);
    SameKeys(s, keys[1..]);
    DistinctAgain(keys[1..], s);
    InsertOrder(x, s, w, a, b);
    assert keys == [x] + keys[1..];
    BeforeInTail(x, keys[1..], a, b);
    if a != x && b != x {
      SortOrder(keys[1..], w, a, b);
    }
  }

  // --- the search ---

  function AllKeys(vec: seq<Id>, fts: seq<Id>): seq<Id> { Keys(Keys([], vec), fts) }

  function Weights(vec: seq<Id>, fts: seq<Id>): map<Id, real> {
    map id | id in AllKeys(vec, fts) :: Score(vec, fts, id)
  }

  /** The k best chunks of the two result lists. */
  function Fused(vec: seq<Id>, fts: seq<Id>, k: nat): seq<Id> {
    var s := SortDesc(AllKeys(vec, fts), Weights(vec, fts));
    if k <= |s| then s[..k] else s
  }

  function Get(scores: map<Id, real>, id: Id): real { if id in scores then scores[id] else 0.0 }

  /** Adds the terms of one result list to the scores dict; `keys` is the dict's insertion order. */
  method AddList(scores0: map<Id, real>, keys0: seq<Id>, lst: seq<Id>) returns (scores: map<Id, real>, keys: seq<Id>)
    requires forall id :: id in keys0 <==> id in scores0
    ensures keys == Keys(keys0, lst) && forall id :: id in keys <==> id in scores
    ensures forall id :: Get(scores, id) == Get(scores0, id) + Part(lst, id)
  {
    scores, keys := scores0, keys0;
    var rank := 0;
    while rank < |lst|
      invariant rank <= |lst| && keys == Keys(keys0, lst[..rank]) && forall id :: id in keys <==> id in scores
      invariant forall id :: Get(scores, id) == Get(scores0, id) + Part(lst[..rank], id)
    {
      var id := lst[rank];
      assert lst[..rank + 1][..rank] == lst[..rank];
      if id !in scores {
        keys := keys + [id];
      }
      scores := scores[id := Get(scores, id) + Term(rank)];
      rank := rank + 1;
    }
    assert lst[..rank] == lst;
  }

  method Search(vec: seq<Id>, fts: seq<Id>, k: nat) returns (out: seq<Id>)
    ensures out == Fused(vec, fts, k)
  {
    var scores, keys := AddList(map[], [], vec);
    scores, keys := AddList(scores, keys, fts);
    assert forall id <- keys :: scores[id] == Get(scores, id);
    assert scores == Weights(vec, fts);
    var s := SortDesc(keys, scores);
    out := if k <= |s| then s[..k] else s;
  }

  // --- what the ranking promises ---

  lemma KeysAreTheUnion(keys: seq<Id>, lst: seq<Id>)
    requires Distinct(keys)
    ensures Distinct(Keys(keys, lst)) && forall id :: id in Keys(keys, lst) <==> id in keys || id in lst
  {
    if lst != [] {
      KeysAreTheUnion(keys, lst[..|lst| - 1]);
      assert lst == lst[..|lst| - 1] + [lst[|lst| - 1]];
    }
  }

  function Elems(s: seq<Id>): set<Id> { set id | id in s }

  lemma DistinctSize(s: seq<Id>)
    requires Distinct(s)
    ensures |s| == |Elems(s)|
  {
    if s != [] {
      DistinctSize(s[1..]);
      assert s[0] !in s[1..] && s == [s[0]] + s[1..];
      assert s[0] !in Elems(s[1..]) && Elems(s) == {s[0]} + Elems(s[1..]);
    }
  }

  lemma BeforeInPrefix(s: seq<Id>, k: nat, a: Id, b: Id)
    requires k <= |s| && Distinct(s) && b in s[..k]
    ensures Before(s[..k], a, b) <==> Before(s, a, b)
  {
    if Before(s, a, b) {
      var i, j :| 0 <= i < j < |s| && s[i] == a && s[j] == b;
      var m :| 0 <= m < k && s[..k][m] == b;
      assert j == m && s[..k][i] == a;
    }
    if Before(s[..k], a, b) {
      var i, j :| 0 <= i < j < k && s[..k][i] == a && s[..k][j] == b;
      assert s[i] == a && s[j] == b;
    }
  }

  /** The result holds no chunk twice, only chunks that were found, and as many as asked for if so many were found. */
  lemma ResultSize(vec: seq<Id>, fts: seq<Id>, k: nat)
    ensures
      var out := Fused(vec, fts, k);
      var found := Elems(vec + fts);
      Distinct(out) && (forall id <- out :: id in found) && |out| == if k <= |found| then k else |found|
  {
    hide SortDesc, Keys, Weights, Score;
    SortedKeys(vec, fts);
    var s := SortDesc(AllKeys(vec, fts), Weights(vec, fts));
    DistinctSize(s);
    assert Elems(s) == Elems(vec + fts);
  }

  /** All found chunks, once each. */
  lemma SortedKeys(vec: seq<Id>, fts: seq<Id>)
    ensures Distinct(AllKeys(vec, fts)) && forall id :: id in AllKeys(vec, fts) <==> id in vec + fts
    ensures
      var s := SortDesc(AllKeys(vec, fts), Weights(vec, fts));
      Distinct(s) && forall id :: id in s <==> id in vec + fts
  {
    var keys := AllKeys(vec, fts);
    var s := SortDesc(keys, Weights(vec, fts));
    hide SortDesc, Weights, Score;
    KeysAreTheUnion([], vec);
    KeysAreTheUnion(Keys([], vec), fts);
    hide Keys;
    SameKeys(keys, s);
    DistinctAgain(keys, s);
  }

  /** One found chunk comes before another if its score is higher, or on a tie if it was seen first. */
  predicate Outranks(vec: seq<Id>, fts: seq<Id>, a: Id, b: Id) {
    Score(vec, fts, a) > Score(vec, fts, b) || (Score(vec, fts, a) == Score(vec, fts, b)
        && Before(AllKeys(vec, fts), a, b))
  }

  /** A chunk in the result is preceded by exactly those found chunks that outrank it. */
  lemma ResultOrder(vec: seq<Id>, fts: seq<Id>, k: nat, a: Id, b: Id)
    requires a in vec + fts && b in Fused(vec, fts, k) && a != b
    ensures Before(Fused(vec, fts, k), a, b) <==> Outranks(vec, fts, a, b)
  {
    var keys, w := AllKeys(vec, fts), Weights(vec, fts);
    SortedKeys(vec, fts);
    var s := SortDesc(keys, w);
    assert a in keys && b in s && b in keys;
    SortOrder(keys, w, a, b);
    assert s[..|s|] == s;
    BeforeInPrefix(s, if k <= |s| then k else |s|, a, b);
  }

  lemma PartWhereFound(lst: seq<Id>, j: nat)
    requires Distinct(lst) && j < |lst|
    ensures Part(lst, lst[j]) == Term(j)
  {
    var n := |lst| - 1;
    if j < n {
      PartWhereFound(lst[..n], j);
    } else {
      PartWhereAbsent(lst[..n], lst[n]);
    }
  }

  lemma PartWhereAbsent(lst: seq<Id>, id: Id)
    requires id !in lst
    ensures Part(lst, id) == 0.0
  {
  }

  lemma TermsFall(i: nat, j: nat)
    requires i < j
    ensures Term(i) > Term(j)
  {
    var x, y := (K_RRF + i + 1) as real, (K_RRF + j + 1) as real;
    assert x > 0.0 && y > x;
    assert 1.0 / x - 1.0 / y == (y - x) / (x * y);
    assert x * y > 0.0;
  }

  /** In lists of at most 61 chunks, one found by both searches scores more than any found by only one. */
  lemma BothBeatOne(vec: seq<Id>, fts: seq<Id>, a: Id, b: Id)
    requires Distinct(vec) && Distinct(fts) && |vec| <= 61 && |fts| <= 61
    requires a in vec && a in fts && (b in vec <==> b !in fts)
    ensures Outranks(vec, fts, a, b)
  {
    var i :| 0 <= i < |vec| && vec[i] == a;
    var j :| 0 <= j < |fts| && fts[j] == a;
    PartWhereFound(vec, i);
    PartWhereFound(fts, j);
    TermAtLeast(i);
    TermAtLeast(j);
    var one, other := if b in vec then vec else fts, if b in vec then fts else vec;
    var m :| 0 <= m < |one| && one[m] == b;
    PartWhereFound(one, m);
    PartWhereAbsent(other, b);
    if m > 0 {
      TermsFall(0, m);
    }
    assert Term(0) == 1.0 / 61.0 && Term(60) == 1.0 / 121.0;
    assert 2.0 * Term(60) > Term(0);
  }

  lemma TermAtLeast(i: nat)
    requires i <= 60
    ensures Term(i) >= Term(60)
  {
    if i < 60 {
      TermsFall(i, 60);
    }
  }

  /** With lists of 62 the promise ends: last in both lists only ties with first in one. */
  lemma SixtyTwoIsTooMany(vec: seq<Id>, fts: seq<Id>)
    requires vec == seq(62, i requires 0 <= i < 62 => i)
        && fts == seq(62, i requires 0 <= i < 62 => if i == 61 then 61 else 100 + i)
    ensures Distinct(vec) && Distinct(fts) && 61 in vec && 61 in fts && 0 in vec && 0 !in fts
    ensures !Outranks(vec, fts, 61, 0)
  {
    assert vec[61] == 61 && fts[61] == 61 && vec[0] == 0;
    PartWhereFound(vec, 61);
    PartWhereFound(fts, 61);
    PartWhereFound(vec, 0);
    PartWhereAbsent(fts, 0);
    assert Term(61) == 1.0 / 122.0 && Term(0) == 1.0 / 61.0;
    KeysAreTheUnion([], vec);
    KeysAreTheUnion(Keys([], vec), fts);
    FirstStaysFirst(vec, fts);
    var keys := AllKeys(vec, fts);
    assert keys[0] == 0;
  }

  lemma FirstStaysFirst(vec: seq<Id>, fts: seq<Id>)
    requires vec != []
    ensures AllKeys(vec, fts) != [] && AllKeys(vec, fts)[0] == vec[0]
  {
    FirstKey([], vec);
    FirstKey(Keys([], vec), fts);
  }

  lemma FirstKey(keys: seq<Id>, lst: seq<Id>)
    requires keys != [] || lst != []
    ensures Keys(keys, lst) != [] && Keys(keys, lst)[0] == if keys != [] then keys[0] else lst[0]
  {
    if |lst| > 1 || (keys != [] && lst != []) {
      FirstKey(keys, lst[..|lst| - 1]);
    }
  }

  /** The place of id in a list, or its length when it is not there. */
  function Place(lst: seq<Id>, id: Id): (r: nat)
    ensures r <= |lst| && (r < |lst| ==> lst[r] == id) && (r == |lst| ==> id !in lst)
  {
    if lst == [] || lst[0] == id then 0 else 1 + Place(lst[1..], id)
  }

  lemma PartByPlace(lst: seq<Id>, id: Id)
    requires Distinct(lst)
    ensures Part(lst, id) == if Place(lst, id) < |lst| then Term(Place(lst, id)) else 0.0
  {
    if id in lst {
      PartWhereFound(lst, Place(lst, id));
    } else {
      PartWhereAbsent(lst, id);
    }
  }

  /** A chunk that is no worse in each list and better in one outranks the other. */
  lemma DominanceOutranks(vec: seq<Id>, fts: seq<Id>, a: Id, b: Id)
    requires Distinct(vec) && Distinct(fts)
    requires Place(vec, a) <= Place(vec, b) && Place(fts, a) <= Place(fts, b)
    requires Place(vec, a) < Place(vec, b) || Place(fts, a) < Place(fts, b)
    ensures Outranks(vec, fts, a, b)
  {
    PartGrows(vec, a, b);
    PartGrows(fts, a, b);
  }

  lemma PartGrows(lst: seq<Id>, a: Id, b: Id)
    requires Distinct(lst) && Place(lst, a) <= Place(lst, b)
    ensures Part(lst, a) >= Part(lst, b) && (Place(lst, a) < Place(lst, b) ==> Part(lst, a) > Part(lst, b))
  {
    PartByPlace(lst, a);
    PartByPlace(lst, b);
    if Place(lst, a) < Place(lst, b) < |lst| {
      TermsFall(Place(lst, a), Place(lst, b));
    }
  }
}
