/** Why the quotas need their conditions: schedules that push a campaign over its cap, or a rep over the limit. */
module QuotaBreaks {
  import opened Basics
  import opened QuotaLocks

  // --- composing schedules ---

  lemma {:induction false} Join(l: Limits, m: Machine, v: Schedule, w: Schedule)
    requires Runs(l, m, v) && Runs(l, Final(l, m, v), w)
    ensures Runs(l, m, v + w) && Final(l, m, v + w) == Final(l, Final(l, m, v), w)
    decreases |v|
  {
    hide Enabled, Do;
    if v == [] {
      assert v + w == w;
    } else {
      assert (v + w)[1..] == v[1..] + w;
      Join(l, Do(l, m, v[0].0, v[0].1), v[1..], w);
    }
  }

  lemma OneStep(l: Limits, m: Machine, i: nat, a: Action)
    requires Enabled(m, i, a)
    ensures Runs(l, m, [(i, a)]) && Final(l, m, [(i, a)]) == Do(l, m, i, a)
  {
    hide Enabled, Do;
    var w: Schedule := [(i, a)];
    assert w[1..] == [];
  }

  lemma NoSteps(l: Limits, m: Machine)
    ensures Runs(l, m, []) && Final(l, m, []) == m
  {
  }

  // --- one transaction among idle ones ---

  /** Holds no lock. */
  predicate Idle(t: Tx) { t.got == 0 || t.phase == Finished }

  predicate AllFree(m: Machine, i: nat)
    requires i < |m.txs|
  {
    forall x :: 0 <= x < |LockList(m.txs[i])| ==> FreeFor(m, i, LockList(m.txs[i])[x])
  }

  function Prepared(t: Tx): Tx { t.(got := |LockList(t)|, phase := Ready) }

  function RowOf(t: Tx): Row { Row(t.campaign, t.ch, t.day) }

  /** A transaction whose locks are free and that has quota gets the gate's consent. */
  lemma {:induction false} Prepare(l: Limits, m: Machine, i: nat) returns (w: Schedule)
    requires i < |m.txs| && m.txs[i].phase == Locking && m.txs[i].got <= |LockList(m.txs[i])|
        && QuotaOk(l, m.rows, m.txs[i]) && AllFree(m, i)
    ensures Runs(l, m, w) && Final(l, m, w) == Machine(m.rows, m.txs[i := Prepared(m.txs[i])])
    ensures forall x <- w :: x.1 != Commit
    decreases |LockList(m.txs[i])| - m.txs[i].got
  {
    hide Runs, Final, Holds;
    var t := m.txs[i];
    if t.got < |LockList(t)| {
      var n := Do(l, m, i, Acquire);
      assert LockList(n.txs[i]) == LockList(t);
      OneStep(l, m, i, Acquire);
      StillFree(l, m, i);
      var rest := Prepare(l, n, i);
      w := [(i, Acquire)] + rest;
      Join(l, m, [(i, Acquire)], rest);
      assert n.txs[i := Prepared(n.txs[i])] == m.txs[i := Prepared(t)];
    } else {
      OneStep(l, m, i, Evaluate(true));
      w := [(i, Evaluate(true))];
    }
  }

  lemma StillFree(l: Limits, m: Machine, i: nat)
    requires i < |m.txs| && AllFree(m, i) && Enabled(m, i, Acquire)
    ensures AllFree(Do(l, m, i, Acquire), i) && QuotaOk(l, m.rows, Do(l, m, i, Acquire).txs[i])
        == QuotaOk(l, m.rows, m.txs[i])
  {
    hide Holds, RepRoom, CapRoom, ChannelRoom;
    assert LockList(Do(l, m, i, Acquire).txs[i]) == LockList(m.txs[i]);
  }

  /** A transaction with consent sends. */
  lemma SendReady(l: Limits, m: Machine, i: nat) returns (w: Schedule)
    requires i < |m.txs| && m.txs[i].phase == Ready
    ensures Runs(l, m, w) && Final(l, m, w) == Machine(m.rows + [RowOf(m.txs[i])],
        m.txs[i := m.txs[i].(phase := Finished)])
    ensures w == [(i, Insert), (i, Commit)]
  {
    hide Runs, Final, LockList, QuotaOk, FreeFor;
    var n := Do(l, m, i, Insert);
    OneStep(l, m, i, Insert);
    OneStep(l, n, i, Commit);
    w := [(i, Insert)] + [(i, Commit)];
    Join(l, m, [(i, Insert)], [(i, Commit)]);
    assert n.txs[i := n.txs[i].(phase := Finished)] == m.txs[i := m.txs[i].(phase := Finished)];
  }

  lemma IdleIsFree(m: Machine, i: nat)
    requires i < |m.txs| && forall j :: 0 <= j < |m.txs| && j != i ==> Idle(m.txs[j])
    ensures AllFree(m, i)
  {
  }

  /** A transaction that has quota sends when no other holds a lock. */
  lemma AloneItSends(l: Limits, m: Machine, i: nat) returns (w: Schedule)
    requires i < |m.txs| && m.txs[i].phase == Locking && m.txs[i].got <= |LockList(m.txs[i])|
        && QuotaOk(l, m.rows, m.txs[i])
    requires forall j :: 0 <= j < |m.txs| && j != i ==> Idle(m.txs[j])
    ensures Runs(l, m, w)
    ensures Final(l, m, w) == Machine(m.rows + [RowOf(m.txs[i])], m.txs[i := Prepared(m.txs[i]).(phase := Finished)])
  {
    hide Runs, Final, LockList, QuotaOk, AllFree;
    IdleIsFree(m, i);
    var v := Prepare(l, m, i);
    var n := Machine(m.rows, m.txs[i := Prepared(m.txs[i])]);
    var u := SendReady(l, n, i);
    w := v + u;
    Join(l, m, v, u);
    assert n.txs[i := n.txs[i].(phase := Finished)] == m.txs[i := Prepared(m.txs[i]).(phase := Finished)];
  }

  // --- filling a campaign up to its cap ---

  /** No channel limit and no rep limit stands in the way. */
  predicate OnlyCaps(l: Limits) { l.chLimit == map[] && l.repLimit == map[] }

  /** Waits to send for campaign c on the given date. */
  predicate Waits(t: Tx, c: nat, day: int) {
    t.phase == Locking && t.got == 0 && t.campaign == c && t.day == day && t.rep.Some?
  }

  predicate Distinct(s: seq<nat>) { forall i, j :: 0 <= i < j < |s| ==> s[i] != s[j] }

  lemma WaitsWithRoom(l: Limits, rows: seq<Row>, t: Tx, c: nat, day: int)
    requires OnlyCaps(l) && Waits(t, c, day) && c in l.cap && CountSent(rows, c, None, day) < l.cap[c]
    ensures QuotaOk(l, rows, t)
  {
  }

  /** The listed transactions send one after the other. */
  lemma {:induction false} FillUp(l: Limits, m: Machine, fill: seq<nat>, c: nat, day: int) returns (w: Schedule)
    requires OnlyCaps(l) && c in l.cap && CountSent(m.rows, c, None, day) + |fill| <= l.cap[c]
    requires Distinct(fill) && (forall x <- fill :: x < |m.txs| && Waits(m.txs[x], c, day))
        && forall j :: 0 <= j < |m.txs| ==> Idle(m.txs[j])
    ensures Runs(l, m, w)
    ensures var n := Final(l, m, w);
      && CountSent(n.rows, c, None, day) == CountSent(m.rows, c, None, day) + |fill|
      && |n.txs| == |m.txs| && (forall j: nat :: j < |m.txs| && j !in fill ==> n.txs[j] == m.txs[j])
          && forall j :: 0 <= j < |n.txs| ==> Idle(n.txs[j])
    decreases |fill|
  {
    hide Runs, Final, CountSent, LockList, QuotaOk;
    if fill == [] {
      NoSteps(l, m);
      w := [];
    } else {
      var x := fill[0];
      assert x in fill;
      WaitsWithRoom(l, m.rows, m.txs[x], c, day);
      var v := AloneItSends(l, m, x);
      var n := Final(l, m, v);
      CountSentAppend(m.rows, RowOf(m.txs[x]), c, None, day);
      assert forall y <- fill[1..] :: y in fill && y != x;
      var rest := FillUp(l, n, fill[1..], c, day);
      w := v + rest;
      Join(l, m, v, rest);
    }
  }

  // --- replies ---

  /** The two transactions want no common lock, the first being a reply. */
  predicate NoCommonLock(x: Tx, y: Tx) { y.kind == ApproveTx || y.prospect != x.prospect }

  lemma ReplyLeavesFree(m: Machine, x: nat, y: nat)
    requires x < |m.txs| && y < |m.txs| && x != y && m.txs[x].kind == ReplyTx && NoCommonLock(m.txs[x], m.txs[y])
    requires forall j :: 0 <= j < |m.txs| && j != x ==> Idle(m.txs[j])
    ensures AllFree(m, y)
  {
    assert LockList(m.txs[x]) == [ProspectLock(m.txs[x].prospect)];
  }

  /** When a campaign is one send below its cap, a reply and another transaction that wants no common lock
      overrun it. */
  lemma LastSlotTwice(l: Limits, m: Machine, c: nat, day: int, x: nat, y: nat) returns (w: Schedule)
    requires OnlyCaps(l) && c in l.cap && CountSent(m.rows, c, None, day) == l.cap[c] - 1
    requires x < |m.txs| && y < |m.txs| && x != y && Waits(m.txs[x], c, day) && Waits(m.txs[y], c, day)
    requires m.txs[x].kind == ReplyTx && NoCommonLock(m.txs[x], m.txs[y])
        && forall j :: 0 <= j < |m.txs| ==> Idle(m.txs[j])
    ensures Runs(l, m, w) && CountSent(Final(l, m, w).rows, c, None, day) == l.cap[c] + 1
  {
    hide Runs, Final, CountSent, LockList, QuotaOk, AllFree;
    WaitsWithRoom(l, m.rows, m.txs[x], c, day);
    WaitsWithRoom(l, m.rows, m.txs[y], c, day);
    IdleIsFree(m, x);
    var w1 := Prepare(l, m, x);
    var m1 := Final(l, m, w1);
    ReplyLeavesFree(m1, x, y);
    var w2 := Prepare(l, m1, y);
    var m2 := Final(l, m1, w2);
    var w3 := SendReady(l, m2, x);
    var m3 := Final(l, m2, w3);
    var w4 := SendReady(l, m3, y);
    CountSentAppend(m2.rows, RowOf(m2.txs[x]), c, None, day);
    CountSentAppend(m3.rows, RowOf(m3.txs[y]), c, None, day);
    Join(l, m2, w3, w4);
    Join(l, m1, w2, w3 + w4);
    Join(l, m, w1, w2 + (w3 + w4));
    w := w1 + (w2 + (w3 + w4));
  }

  /** With enough other transactions to fill the campaign up to its last slot, one reply is enough to push it over its
      cap. */
  lemma ReplyOverruns(l: Limits, m: Machine, c: nat, day: int, x: nat, y: nat, fill: seq<nat>) returns (w: Schedule)
    requires OnlyCaps(l) && c in l.cap && CountSent(m.rows, c, None, day) + |fill| == l.cap[c] - 1
    requires Distinct(fill) && (forall z <- fill :: z < |m.txs| && Waits(m.txs[z], c, day))
        && forall j :: 0 <= j < |m.txs| ==> Idle(m.txs[j])
    requires x < |m.txs| && y < |m.txs| && x != y && x !in fill && y !in fill && Waits(m.txs[x], c, day)
        && Waits(m.txs[y], c, day)
    requires m.txs[x].kind == ReplyTx && NoCommonLock(m.txs[x], m.txs[y])
    ensures Runs(l, m, w) && CountSent(Final(l, m, w).rows, c, None, day) == l.cap[c] + 1
  {
    hide Runs, Final, CountSent, Idle;
    var v := FillUp(l, m, fill, c, day);
    var u := LastSlotTwice(l, Final(l, m, v), c, day, x, y);
    w := v + u;
    Join(l, m, v, u);
  }

  function Others(n: nat, x: nat, y: nat): seq<nat> {
    if n == 0 then [] else Others(n - 1, x, y) + if n - 1 != x && n - 1 != y then [n - 1] else []
  }

  lemma {:induction false} OthersAreOthers(n: nat, x: nat, y: nat)
    ensures Distinct(Others(n, x, y)) && (forall z <- Others(n, x, y) :: z < n && z != x && z != y)
    ensures |Others(n, x, y)| == n - (if x < n then 1 else 0) - (if y < n && y != x then 1 else 0)
  {
    if n > 0 {
      OthersAreOthers(n - 1, x, y);
      var r := Others(n - 1, x, y);
      assert forall i :: 0 <= i < |r| ==> r[i] in r;
    }
  }

  /** The first of the other transactions, all distinct. */
  lemma SomeOthers(n: nat, x: nat, y: nat, k: nat) returns (r: seq<nat>)
    requires x < n && y < n && x != y && k <= n - 2
    ensures |r| == k && Distinct(r) && x !in r && y !in r && forall z <- r :: z < n
  {
    OthersAreOthers(n, x, y);
    var s := Others(n, x, y);
    r := s[..k];
    assert forall z <- r :: z in s;
  }

  /** The transactions of a campaign for different prospects, more of them than there is room for: every interleaving
      keeps the cap exactly when none of them is a reply. */
  lemma RepliesDecideTheCap(l: Limits, m: Machine, c: nat, day: int)
    requires OnlyCaps(l) && c in l.cap && CountSent(m.rows, c, None, day) < l.cap[c]
        && |m.txs| > l.cap[c] - CountSent(m.rows, c, None, day)
    requires forall j :: 0 <= j < |m.txs| ==> Waits(m.txs[j], c, day)
    requires forall i, j :: 0 <= i < j < |m.txs| ==> m.txs[i].prospect != m.txs[j].prospect
    ensures (forall w :: Runs(l, m, w) ==> CapWithin(l, Final(l, m, w).rows, c, day)) <==> NoReplies(m, {c})
  {
    hide Runs, Final, CountSent;
    if NoReplies(m, {c}) {
      hide NoReplies;
      forall w | Runs(l, m, w)
        ensures CapWithin(l, Final(l, m, w).rows, c, day)
      {
        QuotaSafety(l, m, w, c, 0, 0, day);
      }
    } else {
      var x: nat :| x < |m.txs| && m.txs[x].kind == ReplyTx;
      var y := if x == 0 then 1 else 0;
      var fill := SomeOthers(|m.txs|, x, y, l.cap[c] - 1 - CountSent(m.rows, c, None, day));
      var w := ReplyOverruns(l, m, c, day, x, y, fill);
      assert !CapWithin(l, Final(l, m, w).rows, c, day);
    }
  }

  /** Two replies of an empty campaign with a cap of one both send: neither takes the campaign lock. */
  lemma RepliesOverrunTheCap() returns (l: Limits, m: Machine, w: Schedule)
    ensures 1 in l.cap && Fresh(m) && Runs(l, m, w)
    ensures CapWithin(l, m.rows, 1, 0) && !CapWithin(l, Final(l, m, w).rows, 1, 0)
    ensures forall t <- m.txs :: t.kind == ReplyTx
  {
    hide Runs, Final, CountSent, LockList;
    l := Limits(map[1 := 1], map[], map[], map[]);
    m := Machine([], [Tx(ReplyTx, 1, Some(7), 1, 0, 0, 0, Locking), Tx(ReplyTx, 2, Some(7), 1, 0, 0, 0, Locking)]);
    NoneSent(1, 0);
    w := ReplyOverruns(l, m, 1, 0, 0, 1, []);
  }

  lemma NoneSent(c: nat, day: int)
    ensures CountSent([], c, None, day) == 0
  {
  }

  // --- reps ---

  /** Rep r has a limit; no other rep and no channel has one. */
  predicate OnlyRep(l: Limits, r: nat) {
    r in l.counted && r in l.repLimit && l.repLimit[r] > 0 && l.repLimit.Keys == {r} && l.chLimit == map[]
  }

  /** Waits to send for one of the campaigns counted for r on the given date. */
  predicate WaitsFor(l: Limits, t: Tx, r: nat, day: int)
    requires r in l.counted
  {
    t.phase == Locking && t.got == 0 && t.day == day && t.rep.Some? && t.campaign in l.counted[r]
  }

  /** After k sends each campaign counted for r still has room. */
  predicate Roomy(l: Limits, rows: seq<Row>, r: nat, day: int, k: nat)
    requires r in l.counted
  {
    forall c <- l.counted[r] :: c in l.cap && CountSent(rows, c, None, day) + k < l.cap[c]
  }

  lemma RoomyFewer(l: Limits, rows: seq<Row>, r: nat, day: int, k: nat, i: nat)
    requires r in l.counted && i <= k && Roomy(l, rows, r, day, k)
    ensures Roomy(l, rows, r, day, i)
  {
    hide CountSent;
  }

  lemma RoomyAfter(l: Limits, rows: seq<Row>, row: Row, r: nat, day: int, k: nat)
    requires r in l.counted && Roomy(l, rows, r, day, k + 1)
    ensures Roomy(l, rows + [row], r, day, k)
  {
    hide CountSent;
    forall c <- l.counted[r] ensures CountSent(rows + [row], c, None, day) <= CountSent(rows, c, None, day) + 1 {
      CountSentAppend(rows, row, c, None, day);
    }
  }

  /** Rep r's own transactions need an open slot; those of other reps do not. */
  lemma WaitsForWithRoom(l: Limits, rows: seq<Row>, t: Tx, r: nat, day: int)
    requires OnlyRep(l, r) && WaitsFor(l, t, r, day) && Roomy(l, rows, r, day, 0)
    requires t.rep == Some(r) ==> CountRep(rows, l.counted[r], day) < l.repLimit[r]
    ensures QuotaOk(l, rows, t)
  {
    hide CountSent, CountRep;
  }

  /** The listed transactions send one after the other. */
  lemma {:induction false} FillUpRep(l: Limits, m: Machine, fill: seq<nat>, r: nat, day: int) returns (w: Schedule)
    requires OnlyRep(l, r) && CountRep(m.rows, l.counted[r], day) + |fill| <= l.repLimit[r]
    requires Roomy(l, m.rows, r, day, |fill|) && forall j :: 0 <= j < |m.txs| ==> Idle(m.txs[j])
    requires Distinct(fill) && forall x <- fill :: x < |m.txs| && WaitsFor(l, m.txs[x], r, day)
    ensures Runs(l, m, w)
    ensures var n := Final(l, m, w);
      && CountRep(n.rows, l.counted[r], day) == CountRep(m.rows, l.counted[r], day) + |fill|
          && Roomy(l, n.rows, r, day, 0)
      && |n.txs| == |m.txs| && (forall j: nat :: j < |m.txs| && j !in fill ==> n.txs[j] == m.txs[j])
      && forall j :: 0 <= j < |n.txs| ==> Idle(n.txs[j])
    decreases |fill|
  {
    hide Runs, Final, CountSent, CountRep, LockList, QuotaOk, Roomy;
    if fill == [] {
      NoSteps(l, m);
      w := [];
    } else {
      var x := fill[0];
      assert x in fill;
      RoomyFewer(l, m.rows, r, day, |fill|, 0);
      WaitsForWithRoom(l, m.rows, m.txs[x], r, day);
      var v := AloneItSends(l, m, x);
      var n := Final(l, m, v);
      CountRepAppend(m.rows, RowOf(m.txs[x]), l.counted[r], day);
      RoomyAfter(l, m.rows, RowOf(m.txs[x]), r, day, |fill| - 1);
      assert forall y <- fill[1..] :: y in fill && y != x;
      var rest := FillUpRep(l, n, fill[1..], r, day);
      w := v + rest;
      Join(l, m, v, rest);
    }
  }

  /** When others can fill the open slots of rep r, a transaction of another rep sends beyond the limit. */
  lemma ForeignRepOverruns(l: Limits, m: Machine, r: nat, day: int, x: nat, fill: seq<nat>) returns (w: Schedule)
    requires OnlyRep(l, r) && CountRep(m.rows, l.counted[r], day) + |fill| == l.repLimit[r]
    requires Roomy(l, m.rows, r, day, |fill|) && forall j :: 0 <= j < |m.txs| ==> Idle(m.txs[j])
    requires Distinct(fill) && forall y <- fill :: y < |m.txs| && WaitsFor(l, m.txs[y], r, day)
    requires x < |m.txs| && x !in fill && WaitsFor(l, m.txs[x], r, day) && m.txs[x].rep != Some(r)
    ensures Runs(l, m, w) && CountRep(Final(l, m, w).rows, l.counted[r], day) == l.repLimit[r] + 1
  {
    hide Runs, Final, CountSent, CountRep, LockList, QuotaOk, Roomy;
    var v := FillUpRep(l, m, fill, r, day);
    var n := Final(l, m, v);
    WaitsForWithRoom(l, n.rows, n.txs[x], r, day);
    var u := AloneItSends(l, n, x);
    CountRepAppend(n.rows, RowOf(n.txs[x]), l.counted[r], day);
    w := v + u;
    Join(l, m, v, u);
  }

  /** The first k transactions other than x. */
  lemma SomeOthersThan(n: nat, x: nat, k: nat) returns (r: seq<nat>)
    requires x < n && k < n
    ensures |r| == k && Distinct(r) && x !in r && forall z <- r :: z < n
  {
    OthersAreOthers(n, x, n);
    var s := Others(n, x, n);
    r := s[..k];
    assert forall z <- r :: z in s;
  }

  /** Drafts and approvals of campaigns counted for rep r, more of them than r has open slots, with caps that hold them
      all: every interleaving keeps r's limit exactly when each of them resolves to r. */
  lemma RepsDecideTheLimit(l: Limits, m: Machine, r: nat, day: int)
    requires OnlyRep(l, r) && CountRep(m.rows, l.counted[r], day) <= l.repLimit[r]
        && |m.txs| > l.repLimit[r] - CountRep(m.rows, l.counted[r], day)
    requires Roomy(l, m.rows, r, day, |m.txs|)
    requires forall j :: 0 <= j < |m.txs| ==> WaitsFor(l, m.txs[j], r, day) && m.txs[j].kind != ReplyTx
    ensures (forall w :: Runs(l, m, w) ==> RepWithin(l, Final(l, m, w).rows, r, day)) <==> RepConsistent(l, m, r)
  {
    hide Runs, Final, CountSent, CountRep, Roomy;
    if RepConsistent(l, m, r) {
      hide RepConsistent;
      forall w | Runs(l, m, w)
        ensures RepWithin(l, Final(l, m, w).rows, r, day)
      {
        QuotaSafety(l, m, w, 0, 0, r, day);
      }
    } else {
      var x: nat :| x < |m.txs| && m.txs[x].rep != Some(r);
      var open := l.repLimit[r] - CountRep(m.rows, l.counted[r], day);
      var fill := SomeOthersThan(|m.txs|, x, open);
      RoomyFewer(l, m.rows, r, day, |m.txs|, open);
      var w := ForeignRepOverruns(l, m, r, day, x, fill);
      assert !RepWithin(l, Final(l, m, w).rows, r, day);
    }
  }

  /** One enrollment that resolves to another rep is enough to push a rep over the limit, without any concurrency. */
  lemma ForeignRepOverrunsTheLimit() returns (l: Limits, m: Machine, w: Schedule)
    ensures 7 in l.counted && Fresh(m) && NoReplies(m, l.counted[7])
    ensures Runs(l, m, w) && RepWithin(l, m.rows, 7, 0) && !RepWithin(l, Final(l, m, w).rows, 7, 0)
    ensures |m.txs| == 1 && m.txs[0].rep == Some(8) && m.txs[0].campaign in l.counted[7]
  {
    hide Runs, Final, LockList;
    l := Limits(map[1 := 5], map[], map[7 := 1], map[7 := {1}]);
    var row := Row(1, 0, 0);
    var t := Tx(ApproveTx, 2, Some(8), 1, 0, 0, 0, Locking);
    m := Machine([] + [row], [t]);
    CountSentAppend([], row, 1, None, 0);
    CountRepAppend([], row, {1}, 0);
    CountRepAppend([] + [row], row, {1}, 0);
    hide CountRep, CountSent;
    assert QuotaOk(l, m.rows, t);
    w := AloneItSends(l, m, 0);
  }
}
