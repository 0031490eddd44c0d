/** The send transactions at the grain of their advisory locks: acquire prospect, rep and cap locks,
    evaluate the quotas, insert, commit or abort, interleaved in any way. */
module QuotaLocks {
  import opened Basics

  datatype LockKey = ProspectLock(p: nat) | RepLock(r: nat) | CapLock(c: nat)

  /** `do_draft`, `approve_item` and `send_reply`. */
  datatype Kind = DraftTx | ApproveTx | ReplyTx

  /** Locking: `got` locks are held and the next is wanted. Ready: the gate gave its consent. Refused: it did not.
      Inserted: the row is written but not visible to others. */
  datatype Phase = Locking | Ready | Refused | Inserted | Finished

  /** One transaction: what it is for, the date it stamps, and how far it has come. */
  datatype Tx = Tx(kind: Kind, prospect: nat, rep: Option<nat>, campaign: nat, ch: nat, day: int, got: nat,
      phase: Phase)

  datatype Row = Row(campaign: nat, ch: nat, day: int)

  /** Fixed limits. `counted` lists the campaigns whose sends count for a rep; limit 0 means no limit for reps and
      channels. */
  datatype Limits = Limits(cap: map<nat, int>, chLimit: map<(nat, nat), int>, repLimit: map<nat, int>, counted: map<nat,
      set<nat>>)

  datatype Machine = Machine(rows: seq<Row>, txs: seq<Tx>)

  // --- locks ---

  function QuotaLockList(t: Tx): seq<LockKey> {
    (if t.rep.Some? then [RepLock(t.rep.value)] else []) + [CapLock(t.campaign)]
  }

  /** The locks a transaction takes, in order. Replies take no quota lock. */
  function LockList(t: Tx): seq<LockKey> {
    match t.kind
    case DraftTx => [ProspectLock(t.prospect)] + QuotaLockList(t)
    case ApproveTx => QuotaLockList(t)
    case ReplyTx => [ProspectLock(t.prospect)]
  }

  function Rank(k: LockKey): nat {
    match k
    case ProspectLock(_) => 0
    case RepLock(_) => 1
    case CapLock(_) => 2
  }

  /** Advisory locks are released only when the transaction ends. */
  predicate Holds(t: Tx, k: LockKey) {
    t.phase != Finished && exists i :: 0 <= i < t.got && i < |LockList(t)| && LockList(t)[i] == k
  }

  predicate FreeFor(m: Machine, i: nat, k: LockKey) {
    forall j :: 0 <= j < |m.txs| && j != i ==> !Holds(m.txs[j], k)
  }

  // --- quotas ---

  function CountSent(rows: seq<Row>, c: nat, ch: Option<nat>, day: int): nat {
    if rows == [] then 0
    else
      var r := rows[|rows| - 1];
      CountSent(rows[..|rows| - 1], c, ch, day) + if r.campaign == c && r.day == day && (ch == None || ch == Some(r.ch))
          then 1 else 0
  }

  function CountRep(rows: seq<Row>, campaigns: set<nat>, day: int): nat {
    if rows == [] then 0
    else
      var r := rows[|rows| - 1];
      CountRep(rows[..|rows| - 1], campaigns, day) + if r.campaign in campaigns && r.day == day then 1 else 0
  }

  predicate CapRoom(l: Limits, rows: seq<Row>, c: nat, day: int) {
    c in l.cap && l.cap[c] > 0 && CountSent(rows, c, None, day) < l.cap[c]
  }

  predicate ChannelRoom(l: Limits, rows: seq<Row>, c: nat, ch: nat, day: int) {
    (c, ch) in l.chLimit && l.chLimit[(c, ch)] != 0 ==> CountSent(rows, c, Some(ch), day) < l.chLimit[(c, ch)]
  }

  predicate RepRoom(l: Limits, rows: seq<Row>, r: nat, day: int) {
    r in l.repLimit && l.repLimit[r] != 0 && r in l.counted ==> CountRep(rows, l.counted[r], day) < l.repLimit[r]
  }

  /** Checks 8 and 9 on what is committed; a transaction without a rep fails check 8. */
  predicate QuotaOk(l: Limits, rows: seq<Row>, t: Tx) {
    t.rep.Some? && RepRoom(l, rows, t.rep.value, t.day) && CapRoom(l, rows, t.campaign, t.day)
        && ChannelRoom(l, rows, t.campaign, t.ch, t.day)
  }

  // --- steps ---

  /** `Evaluate(ok)`: `ok` is the outcome of the eight checks that are not quotas. */
  datatype Action = Acquire | Evaluate(ok: bool) | Insert | Commit | Abort

  predicate Enabled(m: Machine, i: nat, a: Action) {
    i < |m.txs| && var t := m.txs[i];
    match a
    case Acquire => t.phase == Locking && t.got < |LockList(t)| && FreeFor(m, i, LockList(t)[t.got])
    case Evaluate(_) => t.phase == Locking && t.got >= |LockList(t)|
    case Insert => t.phase == Ready
    case Commit => t.phase in {Refused, Inserted}
    case Abort => t.phase != Finished
  }

  function Do(l: Limits, m: Machine, i: nat, a: Action): Machine
    requires Enabled(m, i, a)
  {
    var t := m.txs[i];
    match a
    case Acquire => m.(txs := m.txs[i := t.(got := t.got + 1)])
    case Evaluate(ok) => m.(txs := m.txs[i := t.(phase := if ok && QuotaOk(l, m.rows, t) then Ready else Refused)])
    case Insert => m.(txs := m.txs[i := t.(phase := Inserted)])
    case Commit =>
      Machine(if t.phase == Inserted then m.rows + [Row(t.campaign, t.ch, t.day)]
          else m.rows, m.txs[i := t.(phase := Finished)])
    case Abort => m.(txs := m.txs[i := t.(phase := Finished)])
  }

  /** A schedule: which transaction moves, and how. */
  type Schedule = seq<(nat, Action)>

  /** Schedule `w` can be followed from m. */
  predicate Runs(l: Limits, m: Machine, w: Schedule)
    decreases |w|
  {
    w == [] || (Enabled(m, w[0].0, w[0].1) && Runs(l, Do(l, m, w[0].0, w[0].1), w[1..]))
  }

  function Final(l: Limits, m: Machine, w: Schedule): (n: Machine)
    requires Runs(l, m, w)
    ensures |n.txs| == |m.txs|
    decreases |w|
  {
    if w == [] then m else Final(l, Do(l, m, w[0].0, w[0].1), w[1..])
  }

  /** Every transaction starts without locks. */
  predicate Fresh(m: Machine) {
    forall i :: 0 <= i < |m.txs| ==> m.txs[i].got == 0 && m.txs[i].phase == Locking
  }

  // --- mutual exclusion ---

  ghost predicate Mutex(m: Machine) {
    forall i, j, k :: 0 <= i < |m.txs| && 0 <= j < |m.txs| && i != j && Holds(m.txs[i], k) ==> !Holds(m.txs[j], k)
  }

  /** A transaction with the gate's consent holds all its locks. */
  ghost predicate Bounded(m: Machine) {
    forall i :: 0 <= i < |m.txs| ==>
      m.txs[i].got <= |LockList(m.txs[i])| && (m.txs[i].phase in {Ready, Refused, Inserted}
          ==> m.txs[i].got == |LockList(m.txs[i])|)
  }

  lemma HoldsAfterAcquire(t: Tx, k: LockKey)
    requires t.phase == Locking && t.got < |LockList(t)|
    ensures Holds(t.(got := t.got + 1), k) <==> Holds(t, k) || k == LockList(t)[t.got]
  {
    var u := t.(got := t.got + 1);
    assert LockList(u) == LockList(t);
    if k == LockList(t)[t.got] { assert LockList(u)[t.got] == k; }
    if Holds(t, k) {
      var x :| 0 <= x < t.got && x < |LockList(t)| && LockList(t)[x] == k;
      assert LockList(u)[x] == k;
    }
  }

  lemma HoldsSame(t: Tx, p: Phase, k: LockKey)
    requires t.phase != Finished && p != Finished
    ensures Holds(t.(phase := p), k) <==> Holds(t, k)
  {
    assert LockList(t.(phase := p)) == LockList(t);
  }

  lemma StepKeepsMutex(l: Limits, m: Machine, i: nat, a: Action)
    requires Mutex(m) && Bounded(m) && Enabled(m, i, a)
    ensures Mutex(Do(l, m, i, a)) && Bounded(Do(l, m, i, a)) 
    ensures forall cs :: NoReplies(m, cs) ==> NoReplies(Do(l, m, i, a), cs)
  {
    var n := Do(l, m, i, a);
    var t := m.txs[i];
    assert LockList(n.txs[i]) == LockList(t);
    forall k ensures Holds(n.txs[i], k) ==> Holds(t, k) || (a == Acquire && k == LockList(t)[t.got]) {
      if a == Acquire { HoldsAfterAcquire(t, k); }
      else if n.txs[i].phase != Finished { HoldsSame(t, n.txs[i].phase, k); }
    }
    hide Holds, QuotaOk;
  }

  // --- quotas ---

  predicate Consenting(t: Tx) { t.phase in {Ready, Inserted} }

  lemma HoldsOwnCap(t: Tx)
    requires Consenting(t) && t.got == |LockList(t)| && t.kind != ReplyTx
    ensures Holds(t, CapLock(t.campaign)) && (t.rep.Some? ==> Holds(t, RepLock(t.rep.value)))
  {
    var n := |LockList(t)|;
    assert LockList(t)[n - 1] == CapLock(t.campaign);
    if t.rep.Some? { assert LockList(t)[n - 2] == RepLock(t.rep.value); }
  }

  lemma CountSentAppend(rows: seq<Row>, r: Row, c: nat, ch: Option<nat>, day: int)
    ensures CountSent(rows + [r], c, ch, day)
         == CountSent(rows, c, ch, day) + if r.campaign == c && r.day == day && (ch == None || ch == Some(r.ch)) then 1
             else 0
  {
    assert (rows + [r])[..|rows|] == rows;
  }

  lemma CountRepAppend(rows: seq<Row>, r: Row, cs: set<nat>, day: int)
    ensures CountRep(rows + [r], cs, day) == CountRep(rows, cs, day) + if r.campaign in cs && r.day == day then 1 else 0
  {
    assert (rows + [r])[..|rows|] == rows;
  }

  /** None of the given campaigns has a reply among its transactions. */
  ghost predicate NoReplies(m: Machine, cs: set<nat>) {
    forall i :: 0 <= i < |m.txs| && m.txs[i].campaign in cs ==> m.txs[i].kind != ReplyTx
  }

  /** Every enrollment in the campaigns counted for rep r resolves to r. */
  ghost predicate RepConsistent(l: Limits, m: Machine, r: nat) {
    r in l.counted && forall i :: 0 <= i < |m.txs| && m.txs[i].campaign in l.counted[r] ==> m.txs[i].rep == Some(r)
  }

  /** Consent given for campaign c still has room there. */
  ghost predicate CapConsent(l: Limits, m: Machine, c: nat) {
    forall i :: 0 <= i < |m.txs| && Consenting(m.txs[i]) && m.txs[i].campaign == c ==>
      CapRoom(l, m.rows, c, m.txs[i].day) && ChannelRoom(l, m.rows, c, m.txs[i].ch, m.txs[i].day)
  }

  ghost predicate RepConsent(l: Limits, m: Machine, r: nat) {
    forall i :: 0 <= i < |m.txs| && Consenting(m.txs[i]) && r in l.counted && m.txs[i].campaign in l.counted[r]
                ==> RepRoom(l, m.rows, r, m.txs[i].day)
  }

  predicate CapWithin(l: Limits, rows: seq<Row>, c: nat, day: int) {
    c in l.cap ==> CountSent(rows, c, None, day) <= if l.cap[c] > 0 then l.cap[c] else 0
  }

  predicate ChannelWithin(l: Limits, rows: seq<Row>, c: nat, ch: nat, day: int) {
    (c, ch) in l.chLimit && l.chLimit[(c, ch)] > 0 ==> CountSent(rows, c, Some(ch), day) <= l.chLimit[(c, ch)]
  }

  predicate RepWithin(l: Limits, rows: seq<Row>, r: nat, day: int) {
    r in l.repLimit && l.repLimit[r] > 0 && r in l.counted ==> CountRep(rows, l.counted[r], day) <= l.repLimit[r]
  }

  /** Two consenting transactions, no replies, never share a campaign or a rep. */
  lemma ConsentIsExclusive(m: Machine, i: nat, j: nat)
    requires Mutex(m) && Bounded(m) && i < |m.txs| && j < |m.txs| && i != j && Consenting(m.txs[i])
        && Consenting(m.txs[j])
    requires m.txs[i].kind != ReplyTx && m.txs[j].kind != ReplyTx
    ensures m.txs[i].campaign != m.txs[j].campaign
    ensures m.txs[i].rep.Some? ==> m.txs[i].rep != m.txs[j].rep
  {
    hide Holds, LockList;
    HoldsOwnCap(m.txs[i]);
    HoldsOwnCap(m.txs[j]);
  }

  /** Only a commit of an inserted row changes what is committed, and it leaves the consent of the others alone. */
  lemma RowsChange(l: Limits, m: Machine, i: nat, a: Action)
    requires Enabled(m, i, a) && Do(l, m, i, a).rows != m.rows
    ensures
      var t, n := m.txs[i], Do(l, m, i, a);
      && t.phase == Inserted && n.rows == m.rows + [Row(t.campaign, t.ch, t.day)] && |n.txs| == |m.txs|
          && n.txs[i].phase == Finished
      && forall j :: 0 <= j < |m.txs| && j != i ==> n.txs[j] == m.txs[j]
  {
    hide LockList, FreeFor, QuotaOk;
  }

  lemma OneMoreRow(rows: seq<Row>, r: Row)
    ensures rows + [r] != rows
  {
    assert |rows + [r]| == |rows| + 1;
  }

  /** A step that commits nothing gives consent only where there is room. */
  lemma RowsStay(l: Limits, m: Machine, i: nat, a: Action)
    requires Enabled(m, i, a) && Do(l, m, i, a).rows == m.rows
    ensures
      var n := Do(l, m, i, a);
      && |n.txs| == |m.txs| && (forall j :: 0 <= j < |m.txs| && j != i ==> n.txs[j] == m.txs[j])
      && n.txs[i].campaign == m.txs[i].campaign && n.txs[i].ch == m.txs[i].ch && n.txs[i].day == m.txs[i].day
          && n.txs[i].rep == m.txs[i].rep
      && (Consenting(n.txs[i]) ==> Consenting(m.txs[i]) || QuotaOk(l, m.rows, m.txs[i]))
  {
    hide LockList, FreeFor, QuotaOk, CountSent;
    OneMoreRow(m.rows, Row(m.txs[i].campaign, m.txs[i].ch, m.txs[i].day));
  }

  /** What one more committed row does to the counts of a campaign. */
  lemma SentOneMore(rows: seq<Row>, r: Row, c: nat)
    ensures forall ch, day ::
      (CountSent(rows + [r], c, ch, day)
       == CountSent(rows, c, ch, day) + if r.campaign == c && r.day == day && (ch == None || ch == Some(r.ch)) then 1
           else 0)
  {
    forall ch, day
      ensures CountSent(rows + [r], c, ch, day)
           == CountSent(rows, c, ch, day) + if r.campaign == c && r.day == day && (ch == None || ch == Some(r.ch))
               then 1 else 0
    {
      CountSentAppend(rows, r, c, ch, day);
    }
  }

  lemma CommitKeepsConsent(l: Limits, m: Machine, i: nat, a: Action, c: nat)
    requires i < |m.txs|
    requires Mutex(m) && Bounded(m) && NoReplies(m, {c}) && Enabled(m, i, a) && Do(l, m, i, a).rows != m.rows
        && CapConsent(l, m, c)
    ensures CapConsent(l, Do(l, m, i, a), c)
  {
    hide Mutex, Bounded, CountSent, Enabled, Do;
    var t, n := m.txs[i], Do(l, m, i, a);
    RowsChange(l, m, i, a);
    SentOneMore(m.rows, Row(t.campaign, t.ch, t.day), c);
    forall j: nat | j < |n.txs| && Consenting(n.txs[j]) && n.txs[j].campaign == c
      ensures CapRoom(l, n.rows, c, n.txs[j].day) && ChannelRoom(l, n.rows, c, n.txs[j].ch, n.txs[j].day)
    {
      if t.campaign == c {
        ConsentIsExclusive(m, i, j);
      }
    }
  }

  lemma CommitKeepsCap(l: Limits, m: Machine, i: nat, a: Action, c: nat, day: int)
    requires i < |m.txs|
    requires Enabled(m, i, a) && Do(l, m, i, a).rows != m.rows && CapConsent(l, m, c) && CapWithin(l, m.rows, c, day)
    ensures CapWithin(l, Do(l, m, i, a).rows, c, day)
  {
    hide CountSent, Enabled, Do, ChannelRoom;
    var t := m.txs[i];
    RowsChange(l, m, i, a);
    CountSentAppend(m.rows, Row(t.campaign, t.ch, t.day), c, None, day);
    if t.campaign == c && t.day == day {
      assert CapRoom(l, m.rows, c, day);
    }
  }

  lemma CommitKeepsChannel(l: Limits, m: Machine, i: nat, a: Action, c: nat, ch: nat, day: int)
    requires i < |m.txs|
    requires Enabled(m, i, a) && Do(l, m, i, a).rows != m.rows && CapConsent(l, m, c)
        && ChannelWithin(l, m.rows, c, ch, day)
    ensures ChannelWithin(l, Do(l, m, i, a).rows, c, ch, day)
  {
    hide CountSent, Enabled, Do, CapRoom;
    var t := m.txs[i];
    RowsChange(l, m, i, a);
    CountSentAppend(m.rows, Row(t.campaign, t.ch, t.day), c, Some(ch), day);
    if t.campaign == c && t.day == day && t.ch == ch {
      assert ChannelRoom(l, m.rows, c, ch, day);
    }
  }

  lemma StepKeepsCap(l: Limits, m: Machine, i: nat, a: Action, c: nat, ch: nat, day: int)
    requires i < |m.txs|
    requires Mutex(m) && Bounded(m) && NoReplies(m, {c}) && Enabled(m, i, a)
    requires CapConsent(l, m, c) && CapWithin(l, m.rows, c, day) && ChannelWithin(l, m.rows, c, ch, day)
    ensures var n := Do(l, m, i, a);
        CapConsent(l, n, c) && CapWithin(l, n.rows, c, day) && ChannelWithin(l, n.rows, c, ch, day)
  {
    hide Mutex, Bounded, NoReplies, Enabled, Do, CapWithin, ChannelWithin, CapRoom, ChannelRoom, RepRoom;
    if Do(l, m, i, a).rows != m.rows {
      CommitKeepsConsent(l, m, i, a, c);
      CommitKeepsCap(l, m, i, a, c, day);
      CommitKeepsChannel(l, m, i, a, c, ch, day);
    } else {
      RowsStay(l, m, i, a);
    }
  }

  lemma CommitKeepsRep(l: Limits, m: Machine, i: nat, a: Action, r: nat, day: int)
    requires i < |m.txs|
    requires Mutex(m) && Bounded(m) && RepConsistent(l, m, r) && NoReplies(m, l.counted[r]) && Enabled(m, i, a)
        && Do(l, m, i, a).rows != m.rows
    requires RepConsent(l, m, r) && RepWithin(l, m.rows, r, day)
    ensures var n := Do(l, m, i, a); RepConsent(l, n, r) && RepWithin(l, n.rows, r, day)
  {
    hide Mutex, Bounded, CountRep, Enabled, Do;
    var t, n := m.txs[i], Do(l, m, i, a);
    var row := Row(t.campaign, t.ch, t.day);
    RowsChange(l, m, i, a);
    CountRepAppend(m.rows, row, l.counted[r], day);
    forall j: nat | j < |n.txs| && Consenting(n.txs[j]) && n.txs[j].campaign in l.counted[r]
      ensures RepRoom(l, n.rows, r, n.txs[j].day)
    {
      CountRepAppend(m.rows, row, l.counted[r], n.txs[j].day);
      if t.campaign in l.counted[r] {
        ConsentIsExclusive(m, i, j);
      }
    }
  }

  lemma StepKeepsRep(l: Limits, m: Machine, i: nat, a: Action, r: nat, day: int)
    requires i < |m.txs|
    requires Mutex(m) && Bounded(m) && RepConsistent(l, m, r) && NoReplies(m, l.counted[r]) && Enabled(m, i, a)
    requires RepConsent(l, m, r) && RepWithin(l, m.rows, r, day)
    ensures var n := Do(l, m, i, a); RepConsent(l, n, r) && RepWithin(l, n.rows, r, day) && RepConsistent(l, n, r)
  {
    hide Mutex, Bounded, NoReplies, Enabled, Do, CountRep, RepWithin, RepRoom, CapRoom, ChannelRoom;
    SameReps(l, m, i, a, r);
    if Do(l, m, i, a).rows != m.rows {
      CommitKeepsRep(l, m, i, a, r, day);
    } else {
      RowsStay(l, m, i, a);
    }
  }

  lemma SameReps(l: Limits, m: Machine, i: nat, a: Action, r: nat)
    requires RepConsistent(l, m, r) && Enabled(m, i, a)
    ensures RepConsistent(l, Do(l, m, i, a), r)
  {
    hide LockList, FreeFor, QuotaOk;
  }

  lemma FreshStart(l: Limits, m: Machine, c: nat, r: nat)
    requires Fresh(m)
    ensures Mutex(m) && Bounded(m) && CapConsent(l, m, c) && RepConsent(l, m, r)
  {
  }

  lemma {:induction false} CapSafeFrom(l: Limits, m: Machine, w: Schedule, c: nat, ch: nat, day: int)
    requires Mutex(m) && Bounded(m) && NoReplies(m, {c}) && Runs(l, m, w)
    requires CapConsent(l, m, c) && CapWithin(l, m.rows, c, day) && ChannelWithin(l, m.rows, c, ch, day)
    ensures CapWithin(l, Final(l, m, w).rows, c, day) && ChannelWithin(l, Final(l, m, w).rows, c, ch, day)
    decreases |w|
  {
    hide Mutex, Bounded, NoReplies, CapConsent, CapWithin, ChannelWithin;
    if w != [] {
      var (i, a) := w[0];
      StepKeepsMutex(l, m, i, a);
      StepKeepsCap(l, m, i, a, c, ch, day);
      hide Do;
      CapSafeFrom(l, Do(l, m, i, a), w[1..], c, ch, day);
    }
  }

  lemma {:induction false} RepSafeFrom(l: Limits, m: Machine, w: Schedule, r: nat, day: int)
    requires r in l.counted && Mutex(m) && Bounded(m) && Runs(l, m, w) && RepConsistent(l, m, r)
        && NoReplies(m, l.counted[r])
    requires RepConsent(l, m, r) && RepWithin(l, m.rows, r, day)
    ensures RepWithin(l, Final(l, m, w).rows, r, day)
    decreases |w|
  {
    hide Mutex, Bounded, NoReplies, RepConsistent, RepConsent, RepWithin;
    if w != [] {
      var (i, a) := w[0];
      StepKeepsMutex(l, m, i, a);
      assert NoReplies(Do(l, m, i, a), l.counted[r]);
      StepKeepsRep(l, m, i, a, r, day);
      hide Do;
      RepSafeFrom(l, Do(l, m, i, a), w[1..], r, day);
    }
  }

  /** Quota safety: however many transactions interleave, and in whatever way, the sends of any date of a campaign
      without replies stay within its daily cap and within each non-zero channel limit. A rep's stay within the non-zero
      rep limit when the campaigns counted for the rep have no replies and every enrollment in them resolves to that
      rep. */
  lemma QuotaSafety(l: Limits, m: Machine, w: Schedule, c: nat, ch: nat, r: nat, day: int)
    requires Fresh(m) && Runs(l, m, w)
    ensures NoReplies(m, {c}) && CapWithin(l, m.rows, c, day) && ChannelWithin(l, m.rows, c, ch, day) ==>
              CapWithin(l, Final(l, m, w).rows, c, day) && ChannelWithin(l, Final(l, m, w).rows, c, ch, day)
    ensures RepConsistent(l, m, r) && NoReplies(m, l.counted[r]) && RepWithin(l, m.rows, r, day)
        ==> RepWithin(l, Final(l, m, w).rows, r, day)
  {
    hide Mutex, Bounded, NoReplies, CapConsent, RepConsent, CapWithin, ChannelWithin, RepWithin, Runs, Final;
    FreshStart(l, m, c, r);
    if NoReplies(m, {c}) && CapWithin(l, m.rows, c, day) && ChannelWithin(l, m.rows, c, ch, day) {
      CapSafeFrom(l, m, w, c, ch, day);
    }
    if RepConsistent(l, m, r) && NoReplies(m, l.counted[r]) && RepWithin(l, m.rows, r, day) {
      RepSafeFrom(l, m, w, r, day);
    }
  }

  // --- progress ---

  /** Locks are listed in strictly increasing rank: prospect, rep, cap. */
  lemma RanksIncrease(t: Tx, x: nat, y: nat)
    requires x < y < |LockList(t)|
    ensures Rank(LockList(t)[x]) < Rank(LockList(t)[y])
  {
  }

  /** From any unfinished transaction the chain of lock holders leads to one that can move without aborting. */
  lemma {:induction false} SomeoneCanMove(m: Machine, i: nat) returns (k: nat, a: Action)
    requires Bounded(m) && i < |m.txs| && m.txs[i].phase != Finished
    ensures Enabled(m, k, a) && a != Abort
    decreases if m.txs[i].got < |LockList(m.txs[i])| then 3 - Rank(LockList(m.txs[i])[m.txs[i].got]) else 0
  {
    var t := m.txs[i];
    if t.phase == Ready { return i, Insert; }
    if t.phase in {Refused, Inserted} { return i, Commit; }
    if t.got >= |LockList(t)| { return i, Evaluate(false); }
    var key := LockList(t)[t.got];
    if FreeFor(m, i, key) { return i, Acquire; }
    var j :| 0 <= j < |m.txs| && j != i && Holds(m.txs[j], key);
    var u := m.txs[j];
    var x :| 0 <= x < u.got && x < |LockList(u)| && LockList(u)[x] == key;
    if u.got < |LockList(u)| { RanksIncrease(u, x, u.got); }
    k, a := SomeoneCanMove(m, j);
  }

  function WorkLeft(t: Tx): nat {
    match t.phase
    case Locking => (if t.got < |LockList(t)| then |LockList(t)| - t.got else 0) + 3
    case Ready => 2
    case Refused => 1
    case Inserted => 1
    case Finished => 0
  }

  function TotalWork(txs: seq<Tx>): nat {
    if txs == [] then 0 else WorkLeft(txs[|txs| - 1]) + TotalWork(txs[..|txs| - 1])
  }

  lemma {:induction false} WorkOfUpdate(txs: seq<Tx>, i: nat, t: Tx)
    requires i < |txs|
    ensures TotalWork(txs[i := t]) == TotalWork(txs) - WorkLeft(txs[i]) + WorkLeft(t)
    decreases |txs|
  {
    var n := |txs| - 1;
    if i < n {
      WorkOfUpdate(txs[..n], i, t);
      assert txs[i := t][..n] == txs[..n][i := t];
    } else {
      assert txs[i := t][..n] == txs[..n];
    }
  }

  lemma StepWorks(l: Limits, m: Machine, i: nat, a: Action)
    requires Enabled(m, i, a)
    ensures TotalWork(Do(l, m, i, a).txs) < TotalWork(m.txs)
  {
    var n := Do(l, m, i, a);
    assert LockList(n.txs[i]) == LockList(m.txs[i]);
    WorkOfUpdate(m.txs, i, n.txs[i]);
    hide LockList, QuotaOk, FreeFor, TotalWork;
  }

  lemma {:induction false} RunKeepsBounded(l: Limits, m: Machine, w: Schedule)
    requires Mutex(m) && Bounded(m) && Runs(l, m, w)
    ensures Mutex(Final(l, m, w)) && Bounded(Final(l, m, w)) && |w| + TotalWork(Final(l, m, w).txs) <= TotalWork(m.txs)
    decreases |w|
  {
    if w != [] {
      StepKeepsMutex(l, m, w[0].0, w[0].1);
      StepWorks(l, m, w[0].0, w[0].1);
      RunKeepsBounded(l, Do(l, m, w[0].0, w[0].1), w[1..]);
    }
    hide Mutex, Bounded, TotalWork, Enabled;
  }

  /** Deadlock freedom: no schedule is longer than the work there is, and one after which nobody can move has finished
      every transaction, so some transaction can always take a step that is not an abort while any is unfinished. */
  lemma DeadlockFreedom(l: Limits, m: Machine, w: Schedule)
    requires Fresh(m) && Runs(l, m, w)
    ensures |w| <= TotalWork(m.txs)
    ensures (exists i :: 0 <= i < |m.txs| && Final(l, m, w).txs[i].phase != Finished) ==>
              exists k: nat, a: Action :: a != Abort && Enabled(Final(l, m, w), k, a)
  {
    FreshStart(l, m, 0, 0);
    RunKeepsBounded(l, m, w);
    var n := Final(l, m, w);
    hide Final, Runs, TotalWork, Enabled, Mutex;
    if i :| 0 <= i < |m.txs| && n.txs[i].phase != Finished {
      var k, a := SomeoneCanMove(n, i);
    }
    hide Bounded;
  }
}
