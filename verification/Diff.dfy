/** Prompt comparison: the longest-common-subsequence table with 16-bit cells, and the walk that marks what changed. */
module Diff {
  const CELL := 65536  // cells are unsigned 16-bit integers

  function Max(x: int, y: int): int { if x >= y then x else y }

  /** The length of the longest common subsequence. */
  function Lcs<T(==)>(a: seq<T>, b: seq<T>): nat
    decreases |a| + |b|
  {
    if a == [] || b == [] then 0
    else if a[0] == b[0] then 1 + Lcs(a[1..], b[1..])
    else Max(Lcs(a[1..], b), Lcs(a, b[1..]))
  }

  /** The value a table cell holds for the suffixes a and b, wrapping like a 16-bit integer. */
  function Cell<T(==)>(a: seq<T>, b: seq<T>): (r: nat)
    ensures r < CELL
    decreases |a| + |b|
  {
    if a == [] || b == [] then 0
    else if a[0] == b[0] then (Cell(a[1..], b[1..]) + 1) % CELL
    else Max(Cell(a[1..], b), Cell(a, b[1..]))
  }

  /** `s` can be read off `a` from left to right, skipping items. */
  predicate Subsequence<T(==)>(s: seq<T>, a: seq<T>) {
    s == [] || (a != [] && ((s[0] == a[0] && Subsequence(s[1..], a[1..])) || Subsequence(s, a[1..])))
  }

  // --- Lcs is what its name says ---

  lemma {:induction false} DropFirst<T>(s: seq<T>, a: seq<T>)
    requires s != [] && Subsequence(s, a)
    ensures a != [] && Subsequence(s[1..], a[1..])
  {
    if !(s[0] == a[0] && Subsequence(s[1..], a[1..])) {
      DropFirst(s, a[1..]);
      Weaken(s[1..], a[1..]);
    }
  }

  lemma {:induction false} Weaken<T>(s: seq<T>, a: seq<T>)
    requires a != [] && Subsequence(s, a[1..])
    ensures Subsequence(s, a)
  {
  }

  /** No common subsequence is longer. */
  lemma {:induction false} LcsIsUpperBound<T>(s: seq<T>, a: seq<T>, b: seq<T>)
    requires Subsequence(s, a) && Subsequence(s, b)
    ensures |s| <= Lcs(a, b)
    decreases |a| + |b|
  {
    if s != [] {
      DropFirst(s, a);
      DropFirst(s, b);
      if a[0] == b[0] { LcsIsUpperBound(s[1..], a[1..], b[1..]); }
      else if s[0] != a[0] { LcsIsUpperBound(s, a[1..], b); }
      else { LcsIsUpperBound(s, a, b[1..]); }
    }
  }

  /** And one common subsequence is that long. */
  lemma {:induction false} LcsIsReached<T>(a: seq<T>, b: seq<T>) returns (s: seq<T>)
    ensures Subsequence(s, a) && Subsequence(s, b) && |s| == Lcs(a, b)
    decreases |a| + |b|
  {
    if a == [] || b == [] {
      s := [];
    } else if a[0] == b[0] {
      var t := LcsIsReached(a[1..], b[1..]);
      s := [a[0]] + t;
      assert s[1..] == t;
    } else if Lcs(a[1..], b) >= Lcs(a, b[1..]) {
      s := LcsIsReached(a[1..], b);
      Weaken(s, a);
    } else {
      s := LcsIsReached(a, b[1..]);
      Weaken(s, b);
    }
  }

  lemma {:induction false} LcsOfSuffixes<T>(a: seq<T>, b: seq<T>, i: nat, j: nat)
    requires i <= |a| && j <= |b|
    ensures Lcs(a[i..], b[j..]) <= Lcs(a, b)
    decreases i + j
  {
    if i > 0 {
      LcsOfSuffixes(a, b, i - 1, j);
      LcsOfTail(a[i - 1..], b[j..]);
      assert a[i - 1..][1..] == a[i..];
    } else if j > 0 {
      LcsOfSuffixes(a, b, i, j - 1);
      LcsOfTail(b[j - 1..], a[i..]);
      assert b[j - 1..][1..] == b[j..];
      LcsSymmetric(a[i..], b[j..]);
      LcsSymmetric(a[i..], b[j - 1..]);
    } else {
      assert a[0..] == a && b[0..] == b;
    }
  }

  lemma LcsOfTail<T>(a: seq<T>, b: seq<T>)
    requires a != []
    ensures Lcs(a[1..], b) <= Lcs(a, b)
  {
    var s := LcsIsReached(a[1..], b);
    Weaken(s, a);
    LcsIsUpperBound(s, a, b);
  }

  lemma LcsSymmetric<T>(a: seq<T>, b: seq<T>)
    ensures Lcs(a, b) == Lcs(b, a)
  {
    var s := LcsIsReached(a, b);
    LcsIsUpperBound(s, b, a);
    var t := LcsIsReached(b, a);
    LcsIsUpperBound(t, a, b);
  }

  lemma {:induction false} LcsWithinBoth<T>(a: seq<T>, b: seq<T>)
    ensures Lcs(a, b) <= |a| && Lcs(a, b) <= |b|
    decreases |a| + |b|
  {
    if a != [] && b != [] {
      if a[0] == b[0] {
        LcsWithinBoth(a[1..], b[1..]);
      } else {
        LcsWithinBoth(a[1..], b);
        LcsWithinBoth(a, b[1..]);
      }
    }
  }

  // --- 16-bit cells ---

  lemma {:induction false} CellExact<T>(a: seq<T>, b: seq<T>)
    requires Lcs(a, b) < CELL
    ensures Cell(a, b) == Lcs(a, b)
    decreases |a| + |b|
  {
    if a != [] && b != [] {
      if a[0] == b[0] {
        CellExact(a[1..], b[1..]);
      } else {
        CellExact(a[1..], b);
        CellExact(a, b[1..]);
      }
    }
  }

  /** Every cell of the table is the true length exactly when the two sequences share fewer than 65536 items in order;
      a shorter sequence under 65536 items is enough. */
  lemma CellsExactIff<T>(a: seq<T>, b: seq<T>)
    ensures Lcs(a, b) < CELL
        <==> forall i, j :: 0 <= i <= |a| && 0 <= j <= |b| ==> Cell(a[i..], b[j..]) == Lcs(a[i..], b[j..])
    ensures |a| < CELL || |b| < CELL ==> Lcs(a, b) < CELL
  {
    LcsWithinBoth(a, b);
    if Lcs(a, b) < CELL {
      forall i, j | 0 <= i <= |a| && 0 <= j <= |b| ensures Cell(a[i..], b[j..]) == Lcs(a[i..], b[j..]) {
        LcsOfSuffixes(a, b, i, j);
        CellExact(a[i..], b[j..]);
      }
    } else {
      assert a[0..] == a && b[0..] == b;
      assert Cell(a[0..], b[0..]) < CELL;
    }
  }

  /** The cell the table should hold at [i, j]. */
  function CellAt<T(==)>(a: seq<T>, b: seq<T>, i: nat, j: nat): nat
    requires i <= |a| && j <= |b|
  {
    Cell(a[i..], b[j..])
  }

  lemma CellSteps<T>(a: seq<T>, b: seq<T>, i: nat, j: nat)
    requires i <= |a| && j <= |b|
    ensures CellAt(a, b, i, j)
         == if i == |a| || j == |b| then 0
            else if a[i] == b[j] then (CellAt(a, b, i + 1, j + 1) + 1) % CELL
            else Max(CellAt(a, b, i + 1, j), CellAt(a, b, i, j + 1))
  {
    if i < |a| && j < |b| {
      assert a[i..][1..] == a[i + 1..] && b[j..][1..] == b[j + 1..];
    }
  }

  /** Fills the table from the end, one row after the other. */
  method LcsTable<T(==)>(a: seq<T>, b: seq<T>) returns (d: array2<int>)
    ensures d.Length0 == |a| + 1 && d.Length1 == |b| + 1 && fresh(d)
    ensures forall i, j :: 0 <= i <= |a| && 0 <= j <= |b| ==> d[i, j] == CellAt(a, b, i, j)
  {
    hide CellAt;
    var n, m := |a|, |b|;
    d := new int[n + 1, m + 1]((_, _) => 0);
    forall y | 0 <= y <= m
      ensures CellAt(a, b, n, y) == 0
    {
      CellSteps(a, b, n, y);
    }
    var i := n;
    while i > 0
      invariant 0 <= i <= n
      invariant forall x, y :: i <= x <= n && 0 <= y <= m ==> d[x, y] == CellAt(a, b, x, y)
      invariant forall x, y :: 0 <= x < i && 0 <= y <= m ==> d[x, y] == 0
    {
      i := i - 1;
      var j := m;
      CellSteps(a, b, i, m);
      while j > 0
        invariant 0 <= j <= m
        invariant forall x, y :: i < x <= n && 0 <= y <= m ==> d[x, y] == CellAt(a, b, x, y)
        invariant forall y :: j <= y <= m ==> d[i, y] == CellAt(a, b, i, y)
        invariant forall x, y :: 0 <= x < i && 0 <= y <= m ==> d[x, y] == 0
      {
        j := j - 1;
        CellSteps(a, b, i, j);
        d[i, j] := if a[i] == b[j] then (d[i + 1, j + 1] + 1) % CELL else Max(d[i + 1, j], d[i, j + 1]);
      }
    }
  }

  // --- marked sequences ---

  /** One side of a comparison: items, and whether each is marked as changed. */
  type Side<T> = seq<(T, bool)>

  function Items<T>(s: Side<T>): (r: seq<T>)
    ensures |r| == |s|
  {
    if s == [] then [] else Items(s[..|s| - 1]) + [s[|s| - 1].0]
  }

  /** The unmarked items. */
  function Kept<T>(s: Side<T>): (r: seq<T>)
    ensures |r| <= |s|
  {
    if s == [] then [] else Kept(s[..|s| - 1]) + if s[|s| - 1].1 then [] else [s[|s| - 1].0]
  }

  function Marks<T>(s: Side<T>): nat { |s| - |Kept(s)| }

  lemma Push<T>(s: Side<T>, x: T, marked: bool)
    ensures Items(s + [(x, marked)]) == Items(s) + [x]
    ensures Kept(s + [(x, marked)]) == Kept(s) + if marked then [] else [x]
  {
    assert (s + [(x, marked)])[..|s|] == s;
  }

  lemma {:induction false} SubsequenceAppend<T>(s: seq<T>, a: seq<T>, x: T)
    requires Subsequence(s, a)
    ensures Subsequence(s, a + [x]) && Subsequence(s + [x], a + [x])
    decreases |a|
  {
    if a == [] {
      assert s == [] && s + [x] == [x] && a + [x] == [x];
      assert [x][1..] == [];
    } else {
      assert (a + [x])[1..] == a[1..] + [x] && (a + [x])[0] == a[0];
      if s == [] {
        SubsequenceAppend([], a[1..], x);
        assert [] + [x] == s + [x];
        assert Subsequence([] + [x], a[1..] + [x]);
      } else if s[0] == a[0] && Subsequence(s[1..], a[1..]) {
        SubsequenceAppend(s[1..], a[1..], x);
        assert (s + [x])[1..] == s[1..] + [x] && (s + [x])[0] == s[0];
      } else {
        SubsequenceAppend(s, a[1..], x);
      }
    }
  }

  lemma {:induction false} KeptIsSubsequence<T>(s: Side<T>)
    ensures Subsequence(Kept(s), Items(s))
  {
    if s != [] {
      var n := |s| - 1;
      KeptIsSubsequence(s[..n]);
      SubsequenceAppend(Kept(s[..n]), Items(s[..n]), s[n].0);
      assert s[n].1 ==> Kept(s) == Kept(s[..n]);
    }
  }

  /** A comparison of a with b: both sides spell their sequence and keep the same items. */
  predicate Compares<T(==)>(A: Side<T>, B: Side<T>, a: seq<T>, b: seq<T>) {
    Items(A) == a && Items(B) == b && Kept(A) == Kept(B)
  }

  /** No comparison of the two sequences keeps more than Lcs items, so one that keeps Lcs marks the fewest on either
      side. */
  lemma FewestMarks<T>(A: Side<T>, B: Side<T>, C: Side<T>, D: Side<T>, a: seq<T>, b: seq<T>)
    requires Compares(A, B, a, b) && Compares(C, D, a, b) && |Kept(A)| == Lcs(a, b)
    ensures Marks(A) <= Marks(C) && Marks(B) <= Marks(D)
  {
    KeptIsSubsequence(C);
    KeptIsSubsequence(D);
    LcsIsUpperBound(Kept(C), a, b);
  }

  /** What the walk learns from one pair of items and the two neighbouring cells. */
  lemma WalkStep<T>(a: seq<T>, b: seq<T>, i: nat, j: nat)
    requires i < |a| && j < |b|
    ensures a[i] == b[j] ==> Lcs(a[i..], b[j..]) == 1 + Lcs(a[i + 1..], b[j + 1..])
    ensures a[i] != b[j] && Lcs(a, b) < CELL ==>
      Lcs(a[i..], b[j..]) == if Cell(a[i + 1..], b[j..]) >= Cell(a[i..], b[j + 1..]) then Lcs(a[i + 1..], b[j..])
          else Lcs(a[i..], b[j + 1..])
  {
    assert a[i..][1..] == a[i + 1..] && b[j..][1..] == b[j + 1..];
    CellsExactIff(a, b);
    hide Cell;
  }

  lemma WalkEnds<T>(a: seq<T>, b: seq<T>)
    ensures Items<T>([]) == [] && Kept<T>([]) == [] && a[..0] == [] && b[..0] == [] && a[0..] == a && b[0..] == b
    ensures forall x, y :: 0 <= x <= |a| && 0 <= y <= |b| && (x == |a| || y == |b|) ==> Lcs(a[x..], b[y..]) == 0
  {
  }

  /** Walks the table from the start. Whatever the cells hold, both sides spell their sequence and keep the same items;
      with exact cells they keep as many as possible. */
  method DiffSeq<T(==)>(a: seq<T>, b: seq<T>) returns (A: Side<T>, B: Side<T>)
    ensures Compares(A, B, a, b)
    ensures Lcs(a, b) < CELL ==> |Kept(A)| == Lcs(a, b)
  {
    hide Cell, Items, Kept, Lcs, Subsequence;
    var d := LcsTable(a, b);
    var i, j := 0, 0;
    A, B := [], [];
    WalkEnds(a, b);
    while i < |a| && j < |b|
      invariant 0 <= i <= |a| && 0 <= j <= |b|
      invariant forall x, y :: 0 <= x <= |a| && 0 <= y <= |b| ==> d[x, y] == Cell(a[x..], b[y..])
      invariant Items(A) == a[..i] && Items(B) == b[..j] && Kept(A) == Kept(B)
      invariant Lcs(a, b) < CELL ==> |Kept(A)| + Lcs(a[i..], b[j..]) == Lcs(a, b)
      decreases |a| - i + |b| - j
    {
      WalkStep(a, b, i, j);
      assert a[..i + 1] == a[..i] + [a[i]] && b[..j + 1] == b[..j] + [b[j]];
      if a[i] == b[j] {
        Push(A, a[i], false);
        Push(B, b[j], false);
        A, B := A + [(a[i], false)], B + [(b[j], false)];
        i, j := i + 1, j + 1;
      } else if d[i + 1, j] >= d[i, j + 1] {
        Push(A, a[i], true);
        A := A + [(a[i], true)];
        i := i + 1;
      } else {
        Push(B, b[j], true);
        B := B + [(b[j], true)];
        j := j + 1;
      }
    }
    A := MarkRest(a, i, A);
    B := MarkRest(b, j, B);
  }

  /** Everything left over on one side is marked. */
  method MarkRest<T>(a: seq<T>, from: nat, side: Side<T>) returns (r: Side<T>)
    requires from <= |a| && Items(side) == a[..from]
    ensures Items(r) == a && Kept(r) == Kept(side)
  {
    var i := from;
    r := side;
    hide Items, Kept;
    while i < |a|
      invariant 0 <= i <= |a| && Items(r) == a[..i] && Kept(r) == Kept(side)
    {
      assert a[..i + 1] == a[..i] + [a[i]];
      Push(r, a[i], true);
      r := r + [(a[i], true)];
      i := i + 1;
    }
    assert a[..|a|] == a;
  }
}
