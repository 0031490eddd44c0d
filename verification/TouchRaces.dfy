/** The spacing of touches at the grain of the locks: two touches of a prospect can pass the frequency check side by
    side exactly when their transactions share no lock. */
module TouchRaces {
  import opened QuotaLocks
  import opened QuotaBreaks

  /** The transactions that the frequency check looks at: all but replies. */
  predicate IsTouch(t: Tx) { t.kind != ReplyTx }

  /** The transactions whose touch is committed, after one step more. */
  function SentAfter(m: Machine, i: nat, a: Action, sent: set<nat>): set<nat>
    requires i < |m.txs|
  {
    if a == Commit && m.txs[i].phase == Inserted && IsTouch(m.txs[i]) then sent + {i} else sent
  }

  /** No committed touch went to the prospect of transaction i. */
  predicate Untouched(m: Machine, i: nat, sent: set<nat>)
    requires i < |m.txs|
  {
    forall j <- sent :: j < |m.txs| ==> m.txs[j].prospect != m.txs[i].prospect
  }

  /** Within one window: whenever the checks of a touch come out well, its prospect has no committed touch yet. */
  predicate Checked(l: Limits, m: Machine, w: Schedule, sent: set<nat>)
    requires Runs(l, m, w)
    decreases |w|
  {
    w == [] || (
      && (w[0].1 == Evaluate(true) && IsTouch(m.txs[w[0].0]) ==> Untouched(m, w[0].0, sent))
      && Checked(l, Do(l, m, w[0].0, w[0].1), w[1..], SentAfter(m, w[0].0, w[0].1, sent)))
  }

  /** The transactions whose touch is committed in the end. */
  function SentBy(l: Limits, m: Machine, w: Schedule, sent: set<nat>): set<nat>
    requires Runs(l, m, w)
    decreases |w|
  {
    if w == [] then sent
    else SentBy(l, Do(l, m, w[0].0, w[0].1), w[1..], SentAfter(m, w[0].0, w[0].1, sent))
  }

  /** No prospect was touched twice. */
  ghost predicate OneTouchEach(m: Machine, sent: set<nat>) {
    forall i, j :: i in sent && j in sent && i != j && i < |m.txs| && j < |m.txs|
                   ==> m.txs[i].prospect != m.txs[j].prospect
  }

  // --- which locks two touches of a prospect share ---

  /** Two drafts share the prospect's lock; an approval takes none, and shares a lock only through campaign or rep. */
  predicate Meet(x: Tx, y: Tx) {
    (x.kind == DraftTx && y.kind == DraftTx) || x.campaign == y.campaign || (x.rep.Some? && x.rep == y.rep)
  }

  /** Two touches of one prospect. */
  predicate SameTarget(x: Tx, y: Tx) { IsTouch(x) && IsTouch(y) && x.prospect == y.prospect }

  ghost predicate AllMeet(m: Machine) {
    forall i, j :: 0 <= i < j < |m.txs| && SameTarget(m.txs[i], m.txs[j]) ==> Meet(m.txs[i], m.txs[j])
  }

  lemma MeetIsSharedLock(x: Tx, y: Tx)
    requires SameTarget(x, y)
    ensures Meet(x, y) <==> exists k :: k in LockList(x) && k in LockList(y)
  {
    InLockList(x);
    InLockList(y);
    hide LockList;
    if Meet(x, y) {
      var k := if x.campaign == y.campaign then CapLock(x.campaign)
               else if x.kind == DraftTx && y.kind == DraftTx then ProspectLock(x.prospect) else RepLock(x.rep.value);
      assert k in LockList(x) && k in LockList(y);
    }
  }

  lemma InLockList(t: Tx)
    requires IsTouch(t)
    ensures forall k :: k in LockList(t) <==>
      k == CapLock(t.campaign) || (t.rep.Some? && k == RepLock(t.rep.value))
      || (t.kind == DraftTx && k == ProspectLock(t.prospect))
  {
    var q := QuotaLockList(t);
    assert forall k :: k in q <==> k == CapLock(t.campaign) || (t.rep.Some? && k == RepLock(t.rep.value));
  }

  // --- transactions that meet are safe ---

  /** Whoever has consent goes to a prospect without a committed touch. */
  ghost predicate ConsentUntouched(m: Machine, sent: set<nat>) {
    forall i :: 0 <= i < |m.txs| && Consenting(m.txs[i]) && IsTouch(m.txs[i]) ==> Untouched(m, i, sent)
  }

  /** Transactions with consent that meet exclude each other. */
  lemma ConsentExcludes(m: Machine, i: nat, j: nat)
    requires Mutex(m) && Bounded(m) && i < |m.txs| && j < |m.txs| && i != j
    requires Consenting(m.txs[i]) && Consenting(m.txs[j]) && SameTarget(m.txs[i], m.txs[j])
    ensures !Meet(m.txs[i], m.txs[j])
  {
    MeetIsSharedLock(m.txs[i], m.txs[j]);
    if k :| k in LockList(m.txs[i]) && k in LockList(m.txs[j]) {
      HoldsAll(m.txs[i], k);
      HoldsAll(m.txs[j], k);
    }
    hide LockList, Holds, Meet;
  }

  lemma HoldsAll(t: Tx, k: LockKey)
    requires Consenting(t) && t.got == |LockList(t)| && k in LockList(t)
    ensures Holds(t, k)
  {
  }

  lemma SameTransactions(l: Limits, m: Machine, i: nat, a: Action)
    requires Enabled(m, i, a)
    ensures var n := Do(l, m, i, a);
      |n.txs| == |m.txs| && forall j :: 0 <= j < |m.txs| ==>
        n.txs[j] == m.txs[j].(got := n.txs[j].got, phase := n.txs[j].phase) && (j != i ==> n.txs[j] == m.txs[j])
  {
    hide LockList, FreeFor, QuotaOk;
  }

  lemma ConsentComes(l: Limits, m: Machine, i: nat, a: Action)
    requires Enabled(m, i, a) && Consenting(Do(l, m, i, a).txs[i])
    ensures Consenting(m.txs[i]) || a == Evaluate(true)
    ensures a != Commit
  {
    hide LockList, FreeFor, QuotaOk;
  }

  lemma StepKeepsUntouched(l: Limits, m: Machine, i: nat, a: Action, sent: set<nat>)
    requires Mutex(m) && Bounded(m) && AllMeet(m) && i < |m.txs| && Enabled(m, i, a)
    requires ConsentUntouched(m, sent) && OneTouchEach(m, sent)
    requires a == Evaluate(true) && IsTouch(m.txs[i]) ==> Untouched(m, i, sent)
    ensures var n, more := Do(l, m, i, a), SentAfter(m, i, a, sent);
      ConsentUntouched(n, more) && OneTouchEach(n, more) && AllMeet(n)
  {
    hide Mutex, Bounded, Do, Enabled;
    var n, more := Do(l, m, i, a), SentAfter(m, i, a, sent);
    SameTransactions(l, m, i, a);
    forall j: nat | j < |n.txs| && Consenting(n.txs[j]) && IsTouch(n.txs[j])
      ensures Untouched(n, j, more)
    {
      if j == i {
        ConsentComes(l, m, i, a);
      } else if more != sent && m.txs[i].prospect == m.txs[j].prospect {
        ConsentExcludes(m, i, j);
      }
    }
  }

  lemma EnabledExists(m: Machine, i: nat, a: Action)
    requires Enabled(m, i, a)
    ensures i < |m.txs|
  {
  }

  lemma {:induction false} MeetingIsSafe(l: Limits, m: Machine, w: Schedule, sent: set<nat>)
    requires Mutex(m) && Bounded(m) && AllMeet(m) && Runs(l, m, w) && Checked(l, m, w, sent)
    requires ConsentUntouched(m, sent) && OneTouchEach(m, sent)
    ensures OneTouchEach(m, SentBy(l, m, w, sent))
    decreases |w|
  {
    hide Mutex, Bounded, AllMeet, ConsentUntouched, Enabled, Do, Untouched;
    if w != [] {
      var (i, a) := w[0];
      EnabledExists(m, i, a);
      StepKeepsMutex(l, m, i, a);
      StepKeepsUntouched(l, m, i, a, sent);
      SameTransactions(l, m, i, a);
      MeetingIsSafe(l, Do(l, m, i, a), w[1..], SentAfter(m, i, a, sent));
    }
  }

  // --- transactions that do not meet race ---

  lemma {:induction false} NothingCommitted(l: Limits, m: Machine, w: Schedule)
    requires Runs(l, m, w) && forall x <- w :: x.1 != Commit
    ensures Checked(l, m, w, {}) && SentBy(l, m, w, {}) == {}
    decreases |w|
  {
    hide Enabled, Do;
    if w != [] {
      assert w[0] in w && forall x <- w[1..] :: x in w;
      EnabledExists(m, w[0].0, w[0].1);
      NothingCommitted(l, Do(l, m, w[0].0, w[0].1), w[1..]);
    }
  }

  lemma {:induction false} CheckedJoin(l: Limits, m: Machine, v: Schedule, w: Schedule, sent: set<nat>)
    requires Runs(l, m, v) && Runs(l, Final(l, m, v), w)
    requires Checked(l, m, v, sent) && Checked(l, Final(l, m, v), w, SentBy(l, m, v, sent))
    ensures Runs(l, m, v + w) && Checked(l, m, v + w, sent)
    ensures SentBy(l, m, v + w, sent) == SentBy(l, Final(l, m, v), w, SentBy(l, m, v, sent))
    decreases |v|
  {
    hide Enabled, Do, Untouched;
    Join(l, m, v, w);
    if v == [] {
      assert v + w == w;
    } else {
      assert (v + w)[1..] == v[1..] + w;
      EnabledExists(m, v[0].0, v[0].1);
      CheckedJoin(l, Do(l, m, v[0].0, v[0].1), v[1..], w, SentAfter(m, v[0].0, v[0].1, sent));
    }
  }

  /** Inserting and committing asks no check. */
  lemma SendIsChecked(l: Limits, m: Machine, i: nat, sent: set<nat>)
    requires i < |m.txs| && m.txs[i].phase == Ready && IsTouch(m.txs[i]) && Runs(l, m, [(i, Insert), (i, Commit)])
    ensures Checked(l, m, [(i, Insert), (i, Commit)], sent)
    ensures SentBy(l, m, [(i, Insert), (i, Commit)], sent) == sent + {i}
  {
    hide LockList, FreeFor, QuotaOk, Untouched, Runs, Final, Checked, SentBy;
    var n := Do(l, m, i, Insert);
    OneStep(l, m, i, Insert);
    OneStep(l, n, i, Commit);
    OneChecked(l, m, i, Insert, sent);
    OneChecked(l, n, i, Commit, sent);
    CheckedJoin(l, m, [(i, Insert)], [(i, Commit)], sent);
    assert [(i, Insert)] + [(i, Commit)] == [(i, Insert), (i, Commit)];
  }

  lemma OneChecked(l: Limits, m: Machine, i: nat, a: Action, sent: set<nat>)
    requires i < |m.txs| && Enabled(m, i, a) && a != Evaluate(true) && Runs(l, m, [(i, a)])
    ensures Checked(l, m, [(i, a)], sent) && SentBy(l, m, [(i, a)], sent) == SentAfter(m, i, a, sent)
  {
    hide Enabled, Do;
    var w: Schedule := [(i, a)];
    assert w[1..] == [];
  }

  lemma LeavesFree(m: Machine, x: nat, y: nat)
    requires x < |m.txs| && y < |m.txs| && x != y && SameTarget(m.txs[x], m.txs[y]) && !Meet(m.txs[x], m.txs[y])
    requires forall j :: 0 <= j < |m.txs| && j != x ==> Idle(m.txs[j])
    ensures AllFree(m, y)
  {
    MeetIsSharedLock(m.txs[x], m.txs[y]);
    hide Meet, LockList;
    forall k: nat | k < |LockList(m.txs[y])|
      ensures FreeFor(m, y, LockList(m.txs[y])[k])
    {
      var key := LockList(m.txs[y])[k];
      assert key in LockList(m.txs[y]);
      HoldsOnlyListed(m.txs[x], key);
    }
  }

  lemma HoldsOnlyListed(t: Tx, k: LockKey)
    ensures Holds(t, k) ==> k in LockList(t)
  {
  }

  lemma PreparedMeets(x: Tx, y: Tx)
    ensures Meet(Prepared(x), y) == Meet(x, y) && SameTarget(Prepared(x), y) == SameTarget(x, y)
  {
  }

  /** Two touches that share no lock both pass the check, then both send. */
  lemma BothSend(l: Limits, m: Machine, x: nat, y: nat) returns (w: Schedule)
    requires Fresh(m) && x < |m.txs| && y < |m.txs| && x != y && SameTarget(m.txs[x], m.txs[y])
        && !Meet(m.txs[x], m.txs[y])
    requires QuotaOk(l, m.rows, m.txs[x]) && QuotaOk(l, m.rows, m.txs[y])
    ensures Runs(l, m, w) && Checked(l, m, w, {}) && SentBy(l, m, w, {}) == {x, y}
  {
    hide Runs, Final, LockList, QuotaOk, AllFree, Checked, SentBy, Meet;
    IdleIsFree(m, x);
    var w1 := Prepare(l, m, x);
    var m1 := Final(l, m, w1);
    PreparedMeets(m.txs[x], m.txs[y]);
    LeavesFree(m1, x, y);
    var w2 := Prepare(l, m1, y);
    var m2 := Final(l, m1, w2);
    PreparedMeets(m.txs[y], m.txs[x]);
    var w3 := SendReady(l, m2, x);
    var m3 := Final(l, m2, w3);
    var w4 := SendReady(l, m3, y);
    NothingCommitted(l, m, w1);
    NothingCommitted(l, m1, w2);
    SendIsChecked(l, m2, x, {});
    SendIsChecked(l, m3, y, {x});
    assert {} + {x} == {x} && {x} + {y} == {x, y};
    CheckedJoin(l, m2, w3, w4, {});
    CheckedJoin(l, m1, w2, w3 + w4, {});
    CheckedJoin(l, m, w1, w2 + (w3 + w4), {});
    w := w1 + (w2 + (w3 + w4));
  }

  /** Touches that all have quota, within one window: no schedule sends a prospect two of them exactly when any two of a
      prospect share a lock, because both are drafts, or of one campaign, or of one rep. */
  lemma MeetingDecidesTheSpacing(l: Limits, m: Machine)
    requires Fresh(m) && forall i :: 0 <= i < |m.txs| && IsTouch(m.txs[i]) ==> QuotaOk(l, m.rows, m.txs[i])
    ensures (forall w :: Runs(l, m, w) && Checked(l, m, w, {}) ==> OneTouchEach(m, SentBy(l, m, w, {}))) <==> AllMeet(m)
  {
    hide Runs, Checked, SentBy, QuotaOk;
    if AllMeet(m) {
      forall w | Runs(l, m, w) && Checked(l, m, w, {})
        ensures OneTouchEach(m, SentBy(l, m, w, {}))
      {
        FreshStart(l, m, 0, 0);
        MeetingIsSafe(l, m, w, {});
      }
    } else {
      var x, y :| 0 <= x < y < |m.txs| && SameTarget(m.txs[x], m.txs[y]) && !Meet(m.txs[x], m.txs[y]);
      var w := BothSend(l, m, x, y);
      assert x in {x, y} && y in {x, y};
      assert !OneTouchEach(m, SentBy(l, m, w, {}));
    }
  }
}
