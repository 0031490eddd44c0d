/** Frequency safety: the spacing of touches over whole runs, and what a late rejection does to it. */
module Frequency {
  import opened Basics
  import opened Model
  import opened Gate
  import opened Handlers
  import opened Replies
  import opened Machine
  import opened Wellformed
  import opened Effects
  import opened Outbox

  /** Kinds of sends that are touches, not replies: gated ones, same-day ones and voice calls. */
  predicate TouchKind(k: SendKind) { k in {FullGate, SameDay, Call} }

  /** The message row of send event i still shows the send. */
  ghost predicate Shows(msgs: seq<Message>, ev: SendEvent) {
    ev.row < |msgs| && IsTouch(msgs[ev.row], ev.prospect) && !msgs[ev.row].isAck && msgs[ev.row].createdAt == ev.at
  }

  /** Every touch in the history is still visible in the message table the gate reads. */
  ghost predicate HistoryVisible(msgs: seq<Message>, log: seq<SendEvent>) {
    forall i :: 0 <= i < |log| && TouchKind(log[i].kind) ==> Shows(msgs, log[i])
  }

  ghost predicate InTime(log: seq<SendEvent>, now: int) {
    && (forall i :: 0 <= i < |log| ==> 0 < log[i].at <= now)
    && (forall i, j :: 0 <= i < j < |log| ==> log[i].at <= log[j].at)
  }

  /** Every message that has left is in the history, as a touch unless it is a reply. */
  ghost predicate SentIsLogged(msgs: seq<Message>, log: seq<SendEvent>) {
    forall r :: 0 <= r < |msgs| && !msgs[r].inbound && msgs[r].status == Sent ==> Logged(log, r, !msgs[r].isReply)
  }

  ghost predicate Logged(log: seq<SendEvent>, r: nat, touch: bool) {
    exists i :: 0 <= i < |log| && log[i].row == r && TouchKind(log[i].kind) == touch
  }

  /** Touches of the same prospect up to event j and less than fourteen days before it, itself included. */
  function RecentTouches(log: seq<SendEvent>, j: nat): set<nat>
    requires j < |log|
  {
    set i: nat | i <= j && TouchKind(log[i].kind) && log[i].prospect == log[j].prospect
        && log[i].at > log[j].at - 14 * DAY
  }

  /** Each fully gated touch comes at least `window` after every earlier touch of the prospect. */
  ghost predicate Apart(log: seq<SendEvent>, window: int) {
    forall i, j :: 0 <= i < j < |log| && log[j].kind == FullGate && TouchKind(log[i].kind)
                   && log[i].prospect == log[j].prospect
      ==> log[j].at - log[i].at >= window
  }

  ghost predicate AtMostFour(log: seq<SendEvent>) {
    forall j: nat :: j < |log| && log[j].kind == FullGate ==> |RecentTouches(log, j)| <= 4
  }

  ghost predicate FreqInv(s: State) {
    MailInv(s) && HistoryVisible(s.msgs, s.log) && InTime(s.log, s.clock) && Apart(s.log, s.window) && AtMostFour(s.log)
        && s.clock > 0
  }

  /** A set of positions with distinct rows in B is no larger than B. */
  lemma {:induction false} DistinctRows(log: seq<SendEvent>, A: set<nat>, B: set<nat>)
    requires forall i :: i in A ==> i < |log| && log[i].row in B
    requires forall i, j :: i in A && j in A && i != j ==> log[i].row != log[j].row
    ensures |A| <= |B|
    decreases |A|
  {
    if A != {} {
      var i :| i in A;
      DistinctRows(log, A - {i}, B - {log[i].row});
    }
  }

  /** At most three touches of the last fourteen days precede a touch the gate allows. */
  lemma ThreeBefore(s: State, p: nat, A: set<nat>)
    requires HistoryVisible(s.msgs, s.log) && OneEventPerRow(s.msgs, s.log) && FrequencyOk(s, p, TouchFlags(false))
    requires forall i :: i in A ==> i < |s.log| && TouchKind(s.log[i].kind) && s.log[i].prospect == p
                                    && s.log[i].at > s.clock - 14 * DAY
    ensures |A| <= 3
  {
    var B := TouchesSince(s.msgs, p, s.clock - 14 * DAY);
    forall i | i in A ensures s.log[i].row in B {
      assert Shows(s.msgs, s.log[i]);
    }
    DistinctRows(s.log, A, B);
    hide LastMs;
  }

  lemma OlderEventsSame(log: seq<SendEvent>, ev: SendEvent, j: nat)
    requires j < |log|
    ensures RecentTouches(log + [ev], j) == RecentTouches(log, j)
  {
  }

  lemma OtherKindKeepsFour(log: seq<SendEvent>, ev: SendEvent)
    requires AtMostFour(log) && ev.kind != FullGate
    ensures AtMostFour(log + [ev])
  {
    forall j: nat | j < |log| ensures RecentTouches(log + [ev], j) == RecentTouches(log, j) {
      OlderEventsSame(log, ev, j);
    }
    hide RecentTouches;
  }

  lemma TouchKeepsApart(s: State, ev: SendEvent)
    requires HistoryVisible(s.msgs, s.log) && InTime(s.log, s.clock) && Apart(s.log, s.window)
    requires FrequencyOk(s, ev.prospect, TouchFlags(false)) && ev.at == s.clock && ev.kind == FullGate
    ensures Apart(s.log + [ev], s.window)
  {
  }

  lemma NewTouchWithinFour(s: State, ev: SendEvent)
    requires HistoryVisible(s.msgs, s.log) && OneEventPerRow(s.msgs, s.log)
    requires FrequencyOk(s, ev.prospect, TouchFlags(false)) && ev.at == s.clock && ev.kind == FullGate
    ensures |RecentTouches(s.log + [ev], |s.log|)| <= 4
  {
    var log, n := s.log + [ev], |s.log|;
    var R := RecentTouches(log, n);
    forall i | i in R - {n} ensures i < n && log[i] == s.log[i] && log[n] == ev {
    }
    ThreeBefore(s, ev.prospect, R - {n});
    hide FrequencyOk, HistoryVisible, OneEventPerRow, RecentTouches;
    assert n in R ==> |R| == |R - {n}| + 1;
    assert n !in R ==> R - {n} == R;
  }

  lemma TouchKeepsFour(s: State, ev: SendEvent)
    requires HistoryVisible(s.msgs, s.log) && OneEventPerRow(s.msgs, s.log) && AtMostFour(s.log)
    requires FrequencyOk(s, ev.prospect, TouchFlags(false)) && ev.at == s.clock && ev.kind == FullGate
    ensures AtMostFour(s.log + [ev])
  {
    var log, n := s.log + [ev], |s.log|;
    NewTouchWithinFour(s, ev);
    hide FrequencyOk, HistoryVisible, OneEventPerRow;
    forall j: nat | j < n ensures RecentTouches(log, j) == RecentTouches(s.log, j) {
      OlderEventsSame(s.log, ev, j);
    }
    hide RecentTouches;
  }

  // --- effects ---

  /** The row is a touch that has left. */
  predicate SentTouch(s: State, row: Option<nat>) {
    row.Some? && row.value < |s.msgs| && !s.msgs[row.value].inbound && s.msgs[row.value].status == Sent
        && !s.msgs[row.value].isReply
  }

  /** A rejection, if it is one, is not of a touch that has left. */
  ghost predicate Timely(s: State, eff: Effect) {
    eff.Decided? && eff.st == Declined && eff.a < |s.approvals| ==> !SentTouch(s, s.approvals[eff.a].msg)
  }

  lemma EffectKeepsVisible(s: State, t: State, eff: Effect)
    requires MailInv(s) && HistoryVisible(s.msgs, s.log) && Does(s, t, eff) && Timely(s, eff)
    ensures HistoryVisible(t.msgs, t.log)
  {
    hide Evaluate, Extends, UniqueKeys, MessageRefs;
  }

  lemma EffectKeepsTime(s: State, t: State, eff: Effect)
    requires InTime(s.log, s.clock) && s.clock > 0 && Does(s, t, eff)
    ensures InTime(t.log, t.clock) && t.clock > 0 && t.window == s.window
  {
    assert s.clock <= t.clock && t.window == s.window;
    hide Evaluate, Extends, Authorised, MayRelease;
  }

  /** A fully gated touch leaves only with the frequency check passed for its prospect. */
  lemma FullGatePassedFrequency(s: State, t: State, eff: Effect)
    requires MailInv(s) && Does(s, t, eff) && |t.log| > |s.log| && t.log[|s.log|].kind == FullGate
    ensures FrequencyOk(s, t.log[|s.log|].prospect, TouchFlags(false)) && t.log == s.log + [t.log[|s.log|]]
        && t.log[|s.log|].at == s.clock
  {
    match eff {
      case Send(m, kind) =>
        ConsentMeansNinePass(s, m.enr, m.ch, TouchFlags(false));
        hide FrequencyOk;
        assert Passes(s, m.enr, m.ch, TouchFlags(false), 7);
      case Release(a, kind) =>
        var e, m := s.approvals[a].enr, s.msgs[s.approvals[a].msg.value];
        ConsentMeansNinePass(s, e, m.ch, ApprovedFlags(m));
        assert Passes(s, e, m.ch, ApprovedFlags(m), 7);
      case _ =>
    }
    hide Evaluate, LastMs, TouchesSince;
  }

  lemma EffectKeepsSpacing(s: State, t: State, eff: Effect)
    requires FreqInv(s) && Does(s, t, eff)
    ensures Apart(t.log, t.window) && AtMostFour(t.log)
  {
    assert t.window == s.window;
    if t.log != s.log {
      var ev := t.log[|s.log|];
      assert t.log == s.log + [ev];
      if ev.kind == FullGate {
        FullGatePassedFrequency(s, t, eff);
        TouchKeepsApart(s, ev);
        TouchKeepsFour(s, ev);
      } else {
        OtherKindKeepsFour(s.log, ev);
        hide Does, MailInv, HistoryVisible, InTime, AtMostFour;
      }
    }
    hide Does, MailInv, HistoryVisible, InTime, AtMostFour, FrequencyOk;
  }

  lemma LoggedStays(log: seq<SendEvent>, ev: SendEvent, r: nat, touch: bool)
    requires Logged(log, r, touch)
    ensures Logged(log + [ev], r, touch)
  {
    var i :| 0 <= i < |log| && log[i].row == r && TouchKind(log[i].kind) == touch;
    assert (log + [ev])[i] == log[i];
  }

  lemma EffectKeepsLogged(s: State, t: State, eff: Effect)
    requires SentIsLogged(s.msgs, s.log) && Does(s, t, eff)
    ensures SentIsLogged(t.msgs, t.log)
  {
    if t.log != s.log {
      var ev := t.log[|s.log|];
      assert t.log == s.log + [ev];
      assert t.log[|s.log|] == ev && Logged(t.log, ev.row, TouchKind(ev.kind));
      forall r | 0 <= r < |t.msgs| && !t.msgs[r].inbound
          && t.msgs[r].status == Sent ensures Logged(t.log, r, !t.msgs[r].isReply) {
        if r != ev.row { LoggedStays(s.log, ev, r, !t.msgs[r].isReply); }
      }
    }
    hide Evaluate, Extends, HasKey;
  }

  // --- runs ---

  /** No manager rejects an approval whose touch has left. */
  ghost predicate TimelyRun(s: State, steps: seq<Step>) {
    forall k: nat :: k < |steps| ==> TimelyStep(After(s, steps, k), steps[k])
  }

  ghost predicate TimelyStep(s: State, step: Step) {
    step.Decline? && step.approval < |s.approvals| ==> !SentTouch(s, s.approvals[step.approval].msg)
  }

  lemma EffectKeepsFreqInv(s: State, t: State, eff: Effect)
    requires FreqInv(s) && Does(s, t, eff) && Timely(s, eff)
    ensures FreqInv(t)
  {
    EffectKeepsMailInv(s, t, eff);
    EffectKeepsVisible(s, t, eff);
    EffectKeepsTime(s, t, eff);
    EffectKeepsSpacing(s, t, eff);
    hide Does, MailInv, HistoryVisible, InTime, Apart, AtMostFour;
  }

  lemma StepKeepsFreqInv(s: State, step: Step)
    requires FreqInv(s) && TimelyStep(s, step)
    ensures FreqInv(Next(s, step)) && Next(s, step).window == s.window
  {
    var u, a, b := StepEffects(s, step);
    EffectKeepsFreqInv(s, u, a);
    EffectKeepsFreqInv(u, Next(s, step), b);
    NextExtends(s, step);
    hide FreqInv, Does, Next;
  }

  lemma FreqInvAtFirst(s: State)
    requires Initial(s)
    ensures FreqInv(s)
  {
  }

  lemma {:induction false} FreqInvAlways(s: State, steps: seq<Step>, n: nat)
    requires Initial(s) && TimelyRun(s, steps) && n <= |steps|
    ensures FreqInv(After(s, steps, n)) && After(s, steps, n).window == s.window
  {
    hide FreqInv, Next, Initial;
    if n > 0 {
      FreqInvAlways(s, steps, n - 1);
      StepKeepsFreqInv(After(s, steps, n - 1), steps[n - 1]);
    } else {
      FreqInvAtFirst(s);
    }
  }

  /** Fully gated touches of a prospect in the fourteen days after x. */
  function GatedTouches(log: seq<SendEvent>, p: nat, x: int): set<nat> {
    set i: nat | i < |log| && log[i].kind == FullGate && log[i].prospect == p && x < log[i].at <= x + 14 * DAY
  }

  lemma LatestOf(A: set<nat>) returns (m: nat)
    requires A != {}
    ensures m in A && forall i :: i in A ==> i <= m
    decreases |A|
  {
    m :| m in A;
    if A != {m} {
      var k := LatestOf(A - {m});
      assert forall i :: i in A ==> i == m || i in A - {m};
      if k > m { m := k; }
    }
  }

  lemma WindowHoldsFour(log: seq<SendEvent>, now: int, p: nat, x: int)
    requires InTime(log, now) && AtMostFour(log)
    ensures |GatedTouches(log, p, x)| <= 4
  {
    var A := GatedTouches(log, p, x);
    if A != {} {
      var j := LatestOf(A);
      forall i | i in A ensures i in RecentTouches(log, j) {
        assert log[i].at > log[j].at - 14 * DAY;
      }
      SubsetSize(A, RecentTouches(log, j));
    }
  }

  /** Over every run in which no touch that has left is rejected: a gated touch that is not a same-day companion comes
      at least the frequency window after every earlier touch of the prospect from any campaign, and any fourteen days
      hold at most four. */
  lemma {:induction false} FrequencySafety(s: State, steps: seq<Step>, p: nat, x: int)
    requires Initial(s) && TimelyRun(s, steps)
    ensures var log := After(s, steps, |steps|).log;
      && (forall i, j :: 0 <= i < j < |log| && log[j].kind == FullGate && TouchKind(log[i].kind)
                         && log[i].prospect == log[j].prospect
            ==> log[j].at - log[i].at >= s.window)
      && |GatedTouches(log, p, x)| <= 4
  {
    FreqInvAlways(s, steps, |steps|);
    var t := After(s, steps, |steps|);
    WindowHoldsFour(t.log, t.clock, p, x);
    hide MailInv, HistoryVisible, InTime, AtMostFour, After, GatedTouches;
  }

  // --- late rejections ---

  lemma NothingSentAtFirst(s: State)
    requires Initial(s)
    ensures SentIsLogged(s.msgs, s.log)
  {
  }

  lemma {:induction false} SentIsLoggedAlways(s: State, steps: seq<Step>, n: nat)
    requires Initial(s) && n <= |steps|
    ensures SentIsLogged(After(s, steps, n).msgs, After(s, steps, n).log)
  {
    hide Does, SentIsLogged, Next, Initial;
    if n > 0 {
      SentIsLoggedAlways(s, steps, n - 1);
      var t := After(s, steps, n - 1);
      var u, a, b := StepEffects(t, steps[n - 1]);
      EffectKeepsLogged(t, u, a);
      EffectKeepsLogged(u, Next(t, steps[n - 1]), b);
    } else {
      NothingSentAtFirst(s);
    }
  }

  /** Every touch of the prospect is at least `window` old. */
  ghost predicate Spaced(log: seq<SendEvent>, now: int, window: int, p: nat) {
    forall i :: 0 <= i < |log| && TouchKind(log[i].kind) && log[i].prospect == p ==> now - log[i].at >= window
  }

  /** A fully gated touch that leaves now keeps the spacing exactly when every earlier touch is old enough. */
  lemma ApartIffSpaced(log: seq<SendEvent>, ev: SendEvent, window: int)
    requires Apart(log, window) && ev.kind == FullGate
    ensures Apart(log + [ev], window) <==> Spaced(log, ev.at, window, ev.prospect)
  {
    var more := log + [ev];
    if Apart(more, window) {
      forall i | 0 <= i < |log| && TouchKind(log[i].kind) && log[i].prospect == ev.prospect
        ensures ev.at - log[i].at >= window
      {
        assert more[i] == log[i] && more[|log|] == ev;
      }
    }
  }

  // --- the check and the history ---

  /** Touches of the prospect in the history of the last fourteen days. */
  function RecentEvents(log: seq<SendEvent>, now: int, p: nat): set<nat> {
    set i: nat | i < |log| && TouchKind(log[i].kind) && log[i].prospect == p && log[i].at > now - 14 * DAY
  }

  /** Rows that all have an event in A are no more than A. */
  lemma {:induction false} DistinctEvents(log: seq<SendEvent>, B: set<nat>, A: set<nat>)
    requires forall r :: r in B ==> exists i :: i in A && i < |log| && log[i].row == r
    ensures |B| <= |A|
    decreases |B|
  {
    if B != {} {
      var r :| r in B;
      var i :| i in A && i < |log| && log[i].row == r;
      forall q | q in B - {r}
        ensures exists k :: k in A - {i} && k < |log| && log[k].row == q
      {
        var k :| k in A && k < |log| && log[k].row == q;
        assert k in A - {i};
      }
      DistinctEvents(log, B - {r}, A - {i});
    }
  }

  /** A message table that shows every touch of the history and nothing else. */
  ghost predicate Faithful(msgs: seq<Message>, log: seq<SendEvent>) {
    HistoryVisible(msgs, log) && SentIsLogged(msgs, log) && OneEventPerRow(msgs, log)
  }

  /** The event of a touch that the table shows. */
  lemma TouchEvent(msgs: seq<Message>, log: seq<SendEvent>, r: nat, p: nat) returns (i: nat)
    requires Faithful(msgs, log) && r < |msgs| && IsTouch(msgs[r], p)
    ensures i < |log| && log[i].row == r && TouchKind(log[i].kind) && log[i].prospect == p
    ensures log[i].at == msgs[r].createdAt && !msgs[r].isAck
  {
    assert Logged(log, r, true);
    i :| 0 <= i < |log| && log[i].row == r && TouchKind(log[i].kind);
    assert Shows(msgs, log[i]);
  }

  /** The query of check 7 counts exactly the touches of the history. */
  lemma CountsAgree(msgs: seq<Message>, log: seq<SendEvent>, now: int, p: nat)
    requires Faithful(msgs, log)
    ensures |TouchesSince(msgs, p, now - 14 * DAY)| == |RecentEvents(log, now, p)|
  {
    hide Faithful;
    var A, B := RecentEvents(log, now, p), TouchesSince(msgs, p, now - 14 * DAY);
    FaithfulRows(msgs, log);
    forall i | i in A ensures log[i].row in B {
      assert Shows(msgs, log[i]);
    }
    DistinctRows(log, A, B);
    forall r | r in B ensures exists i :: i in A && i < |log| && log[i].row == r {
      var i := TouchEvent(msgs, log, r, p);
    }
    DistinctEvents(log, B, A);
  }

  lemma FaithfulRows(msgs: seq<Message>, log: seq<SendEvent>)
    requires Faithful(msgs, log)
    ensures HistoryVisible(msgs, log) && forall i, j ::
        0 <= i < |log| && 0 <= j < |log| && i != j ==> log[i].row != log[j].row
  {
    hide HistoryVisible, SentIsLogged;
  }

  /** A fully gated touch that leaves now keeps four in fourteen days exactly when at most three came before. */
  lemma FourIffThree(log: seq<SendEvent>, ev: SendEvent)
    requires AtMostFour(log) && ev.kind == FullGate
    ensures AtMostFour(log + [ev]) <==> |RecentEvents(log, ev.at, ev.prospect)| <= 3
  {
    var more, n := log + [ev], |log|;
    var R := RecentEvents(log, ev.at, ev.prospect);
    assert RecentTouches(more, n) == R + {n};
    assert |R + {n}| == |R| + 1;
    forall j: nat | j < n ensures RecentTouches(more, j) == RecentTouches(log, j) {
      OlderEventsSame(log, ev, j);
    }
    hide RecentTouches, RecentEvents;
    assert more[n] == ev && forall j :: 0 <= j < n ==> more[j] == log[j];
  }

  /** The touch of row `row` went to p less than a window ago. */
  predicate YoungTouch(s: State, row: Option<nat>, p: nat) {
    SentTouch(s, row) && s.msgs[row.value].prospect == p && s.clock - s.msgs[row.value].createdAt < s.window
  }

  /** The touch of row `row` went to p in the last fourteen days, in which p had four touches or more. */
  predicate FourthTouch(s: State, row: Option<nat>, p: nat) {
    && SentTouch(s, row) && s.msgs[row.value].prospect == p && s.msgs[row.value].createdAt > s.clock - 14 * DAY
    && |TouchesSince(s.msgs, p, s.clock - 14 * DAY)| >= 4
  }

  /** Once the rejected row is gone from the table, the check passes four in fourteen days only for such a touch. */
  lemma RejectedCount(t: State, a: nat, p: nat)
    requires a < |t.approvals| && t.approvals[a].enr < |t.enrs| && FrequencyOk(RejectItem(t, a), p, TouchFlags(false))
    ensures |TouchesSince(t.msgs, p, t.clock - 14 * DAY)| <= 3 <==> !FourthTouch(t, t.approvals[a].msg, p)
  {
    hide RejectItem, LastMs;
    var u, row, since := RejectItem(t, a), t.approvals[a].msg, t.clock - 14 * DAY;
    RejectionKeepsHistory(t, a);
    RowGone(t.msgs, u.msgs, row, p, since);
    assert row.Some? && row.value in TouchesSince(t.msgs, p, since) ==> SentTouch(t, row);
    hide TouchesSince;
  }

  /** A rejected row counts no more, and nothing else changes. */
  lemma RowGone(a: seq<Message>, b: seq<Message>, row: Option<nat>, p: nat, since: int)
    requires |a| == |b|
    requires forall r: nat :: r < |a| ==> b[r] == if row == Some(r) then a[r].(status := RejectedByManager) else a[r]
    ensures var A, B := TouchesSince(a, p, since), TouchesSince(b, p, since);
      if row.Some? && row.value in A then |B| == |A| - 1 else B == A
  {
    var A := TouchesSince(a, p, since);
    if row.Some? && row.value in A {
      assert TouchesSince(b, p, since) == A - {row.value};
    } else {
      assert TouchesSince(b, p, since) == A;
    }
  }

  lemma RejectedHistory(t: State, a: nat, p: nat)
    requires FreqInv(t) && SentIsLogged(t.msgs, t.log) && a < |t.approvals| && t.approvals[a].enr < |t.enrs|
    requires FrequencyOk(RejectItem(t, a), p, TouchFlags(false))
    ensures var u := RejectItem(t, a); Spaced(u.log, u.clock, u.window, p) <==> !YoungTouch(t, t.approvals[a].msg, p)
  {
    hide StopProspect, MailInv, Apart, AtMostFour;
    var u, row := RejectItem(t, a), t.approvals[a].msg;
    RejectionKeepsHistory(t, a);
    hide RejectItem;
    if YoungTouch(t, row, p) {
      assert Logged(t.log, row.value, true);
      var i :| 0 <= i < |t.log| && t.log[i].row == row.value && TouchKind(t.log[i].kind);
      assert Shows(t.msgs, t.log[i]);
    } else {
      forall i | 0 <= i < |t.log| && TouchKind(t.log[i].kind) && t.log[i].prospect == p
        ensures t.clock - t.log[i].at >= t.window
      {
        assert Shows(t.msgs, t.log[i]);
        if row != Some(t.log[i].row) {
          assert Shows(u.msgs, t.log[i]);
        }
      }
    }
  }

  lemma RejectionKeepsHistory(t: State, a: nat)
    requires a < |t.approvals| && t.approvals[a].enr < |t.enrs|
    ensures var u, row := RejectItem(t, a), t.approvals[a].msg;
      && u.log == t.log && u.clock == t.clock && u.window == t.window && |u.msgs| == |t.msgs|
      && forall r: nat :: r < |t.msgs| ==> u.msgs[r] == if row == Some(r) then t.msgs[r].(status := RejectedByManager)
                                           else t.msgs[r]
  {
    hide StopProspect;
  }

  /** The rejection itself does not check. After it, a touch that passes the frequency check keeps the spacing exactly
      when the rejected item was not a touch that went to the same prospect less than a window ago, and keeps four in
      fourteen days exactly when it was not one of four or more touches of the prospect in fourteen days. */
  lemma {:induction false} LateRejection(s: State, steps: seq<Step>, a: nat, ev: SendEvent)
    requires Initial(s) && TimelyRun(s, steps)
    requires var t := After(s, steps, |steps|); a < |t.approvals| && t.approvals[a].enr < |t.enrs|
    requires var u := RejectItem(After(s, steps, |steps|), a);
      ev.kind == FullGate && ev.at == u.clock && FrequencyOk(u, ev.prospect, TouchFlags(false))
    ensures var t := After(s, steps, |steps|); var u := RejectItem(t, a);
      && (Apart(u.log + [ev], u.window) <==> !YoungTouch(t, t.approvals[a].msg, ev.prospect))
      && (AtMostFour(u.log + [ev]) <==> !FourthTouch(t, t.approvals[a].msg, ev.prospect))
  {
    hide After, Initial, TimelyRun, RejectItem, MailInv, HistoryVisible, SentIsLogged, FrequencyOk, InTime, AtMostFour,
        Apart, Spaced, Faithful, YoungTouch, FourthTouch;
    var t := After(s, steps, |steps|);
    FreqInvAlways(s, steps, |steps|);
    SentIsLoggedAlways(s, steps, |steps|);
    RejectedHistory(t, a, ev.prospect);
    RejectionKeepsHistory(t, a);
    ApartIffSpaced(t.log, ev, t.window);
    FourIffThree(t.log, ev);
    TableIsFaithful(t);
    CountsAgree(t.msgs, t.log, t.clock, ev.prospect);
    RejectedCount(t, a, ev.prospect);
  }

  lemma TableIsFaithful(t: State)
    requires FreqInv(t) && SentIsLogged(t.msgs, t.log)
    ensures Faithful(t.msgs, t.log)
  {
    hide HistoryVisible, SentIsLogged, Apart, AtMostFour;
  }

  /** When the rejected item is a prospect's only touch and left less than a window ago, the frequency check passes at
      once, and the touch it lets through breaks the spacing. */
  lemma {:induction false} LateRejectionOpensTheWindow(s: State, steps: seq<Step>, a: nat, ev: SendEvent)
    requires Initial(s) && TimelyRun(s, steps)
    requires var t := After(s, steps, |steps|);
      && a < |t.approvals| && t.approvals[a].enr < |t.enrs| && YoungTouch(t, t.approvals[a].msg, ev.prospect)
      && (forall r :: 0 <= r < |t.msgs| && IsTouch(t.msgs[r], ev.prospect) ==> t.approvals[a].msg == Some(r))
      && ev.kind == FullGate && ev.at == t.clock
    ensures var u := RejectItem(After(s, steps, |steps|), a);
      FrequencyOk(u, ev.prospect, TouchFlags(false)) && !Apart(u.log + [ev], u.window)
  {
    hide After, Initial, TimelyRun, RejectItem, Apart, AtMostFour, FourthTouch;
    var t := After(s, steps, |steps|);
    RejectionKeepsHistory(t, a);
    NoTouchIsFine(RejectItem(t, a), ev.prospect);
    LateRejection(s, steps, a, ev);
  }

  /** When the rejected item is one of exactly four touches in fourteen days and no touch but it is younger than the
      window, the frequency check passes, and the touch it lets through is the fifth. */
  lemma {:induction false} LateRejectionLetsAFifthThrough(s: State, steps: seq<Step>, a: nat, ev: SendEvent)
    requires Initial(s) && TimelyRun(s, steps)
    requires var t := After(s, steps, |steps|);
      && a < |t.approvals| && t.approvals[a].enr < |t.enrs| && FourthTouch(t, t.approvals[a].msg, ev.prospect)
      && |TouchesSince(t.msgs, ev.prospect, t.clock - 14 * DAY)| == 4
      && (forall r :: 0 <= r < |t.msgs| && IsTouch(t.msgs[r], ev.prospect) && t.approvals[a].msg != Some(r) ==>
            t.clock - t.msgs[r].createdAt >= t.window)
      && ev.kind == FullGate && ev.at == t.clock
    ensures var u := RejectItem(After(s, steps, |steps|), a);
      FrequencyOk(u, ev.prospect, TouchFlags(false)) && !AtMostFour(u.log + [ev])
  {
    hide After, Initial, TimelyRun, RejectItem, Apart, AtMostFour;
    var t := After(s, steps, |steps|);
    RejectionKeepsHistory(t, a);
    FourthRejectedPasses(t, RejectItem(t, a), t.approvals[a].msg.value, ev.prospect);
    LateRejection(s, steps, a, ev);
  }

  lemma FourthRejectedPasses(t: State, u: State, row: nat, p: nat)
    requires FourthTouch(t, Some(row), p) && |TouchesSince(t.msgs, p, t.clock - 14 * DAY)| == 4
    requires forall r :: 0 <= r < |t.msgs| && IsTouch(t.msgs[r], p) && row != r
                         ==> t.clock - t.msgs[r].createdAt >= t.window
    requires u.clock == t.clock && u.window == t.window && |u.msgs| == |t.msgs|
    requires forall r: nat :: r < |t.msgs| ==>
      u.msgs[r] == if row == r then t.msgs[r].(status := RejectedByManager) else t.msgs[r]
    ensures FrequencyOk(u, p, TouchFlags(false))
  {
    var B := TouchesSince(t.msgs, p, t.clock - 14 * DAY);
    assert TouchesSince(u.msgs, p, u.clock - 14 * DAY) == B - {row};
  }

  lemma NoTouchIsFine(s: State, p: nat)
    requires forall r :: 0 <= r < |s.msgs| ==> !IsTouch(s.msgs[r], p)
    ensures FrequencyOk(s, p, TouchFlags(false))
  {
    assert TouchesSince(s.msgs, p, s.clock - 14 * DAY) == {};
  }
}
