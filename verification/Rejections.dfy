/** Frequency safety over every run, late rejections included: it holds exactly when each gated touch would have passed
    the check with the rejected touches counted. */
module Rejections {
  import opened Basics
  import opened Model
  import opened Gate
  import opened Handlers
  import opened Machine
  import opened Wellformed
  import opened Effects
  import opened Outbox
  import opened Frequency

  // --- the message table with the rejected touches put back ---

  /** The message row has left, whatever became of its status. */
  predicate HasLeft(log: seq<SendEvent>, r: nat) { exists i | 0 <= i < |log| :: log[i].row == r }

  function Restored(msgs: seq<Message>, log: seq<SendEvent>): (r: seq<Message>)
    ensures |r| == |msgs|
  {
    seq(|msgs|, i requires 0 <= i < |msgs| => if HasLeft(log, i) then msgs[i].(status := Sent) else msgs[i])
  }

  /** The state in which no message that has left was marked rejected afterwards. */
  function Recount(s: State): State { s.(msgs := Restored(s.msgs, s.log)) }

  /** A row of the table as its touch left it, but for the status. */
  predicate Departed(m: Message, ev: SendEvent) {
    m.prospect == ev.prospect && !m.inbound && !m.isReply && !m.isAck && m.createdAt == ev.at
  }

  /** Every touch of the history has its row, rejected or not, and the kinds of rows and events agree. */
  ghost predicate RowsKept(msgs: seq<Message>, log: seq<SendEvent>) {
    forall i :: 0 <= i < |log| ==>
      && log[i].row < |msgs| && (TouchKind(log[i].kind) <==> !msgs[log[i].row].isReply)
      && (TouchKind(log[i].kind) ==> Departed(msgs[log[i].row], log[i]))
  }

  ghost predicate RecountInv(s: State) {
    MailInv(s) && RowsKept(s.msgs, s.log) && SentIsLogged(s.msgs, s.log) && InTime(s.log, s.clock) && s.clock > 0
  }

  lemma EffectKeepsRows(s: State, t: State, eff: Effect)
    requires MailInv(s) && RowsKept(s.msgs, s.log) && Does(s, t, eff)
    ensures RowsKept(t.msgs, t.log)
  {
    hide Evaluate, Extends, UniqueKeys, MessageRefs;
  }

  lemma EffectKeepsRecount(s: State, t: State, eff: Effect)
    requires RecountInv(s) && Does(s, t, eff)
    ensures RecountInv(t) && t.window == s.window
  {
    hide Does, MailInv, RowsKept, SentIsLogged, InTime;
    EffectKeepsMailInv(s, t, eff);
    EffectKeepsRows(s, t, eff);
    EffectKeepsLogged(s, t, eff);
    EffectKeepsTime(s, t, eff);
  }

  lemma RecountAtFirst(s: State)
    requires Initial(s)
    ensures RecountInv(s)
  {
  }

  lemma {:induction false} RecountInvAlways(s: State, steps: seq<Step>, n: nat)
    requires Initial(s) && n <= |steps|
    ensures RecountInv(After(s, steps, n)) && After(s, steps, n).window == s.window
  {
    hide Does, RecountInv, Next, Initial;
    if n > 0 {
      RecountInvAlways(s, steps, n - 1);
      var t := After(s, steps, n - 1);
      var u, a, b := StepEffects(t, steps[n - 1]);
      EffectKeepsRecount(t, u, a);
      EffectKeepsRecount(u, Next(t, steps[n - 1]), b);
    } else {
      RecountAtFirst(s);
    }
  }

  // --- the check on the restored table is the spacing of the history ---

  lemma RestoredShows(s: State)
    requires RecountInv(s)
    ensures HistoryVisible(Recount(s).msgs, s.log)
  {
    hide MailInv, SentIsLogged, InTime;
    forall i | 0 <= i < |s.log| && TouchKind(s.log[i].kind)
      ensures Shows(Recount(s).msgs, s.log[i])
    {
      assert HasLeft(s.log, s.log[i].row);
    }
  }

  lemma RestoredIsLogged(s: State)
    requires RecountInv(s)
    ensures SentIsLogged(Recount(s).msgs, s.log)
  {
    hide MailInv, InTime, Departed;
    var msgs := Recount(s).msgs;
    forall r | 0 <= r < |msgs| && !msgs[r].inbound && msgs[r].status == Sent
      ensures Frequency.Logged(s.log, r, !msgs[r].isReply)
    {
      if HasLeft(s.log, r) {
        var i :| 0 <= i < |s.log| && s.log[i].row == r;
        assert TouchKind(s.log[i].kind) == !msgs[r].isReply;
      }
    }
  }

  lemma RestoredRows(s: State)
    requires RecountInv(s)
    ensures OneEventPerRow(Recount(s).msgs, s.log)
  {
    hide RowsKept, SentIsLogged, InTime, HasLeft;
  }

  lemma RestoredIsFaithful(s: State)
    requires RecountInv(s)
    ensures Faithful(Recount(s).msgs, s.log)
  {
    hide RecountInv, Recount, HistoryVisible, SentIsLogged, OneEventPerRow;
    RestoredShows(s);
    RestoredIsLogged(s);
    RestoredRows(s);
  }

  /** On a table that shows the whole history, the newest touch is old enough exactly when every touch is. */
  lemma LastMsIsNewest(s: State, p: nat)
    requires Faithful(s.msgs, s.log) && InTime(s.log, s.clock)
    ensures LastMs(s, p) == 0 || s.clock - LastMs(s, p) >= s.window <==> Spaced(s.log, s.clock, s.window, p)
  {
    hide Faithful;
    FaithfulRows(s.msgs, s.log);
    var last := LastTouch(s.msgs, p);
    if last.Some? {
      var r :| 0 <= r < |s.msgs| && IsTouch(s.msgs[r], p) && !s.msgs[r].isAck && s.msgs[r].createdAt == last.value;
      var k := TouchEvent(s.msgs, s.log, r, p);
      assert 0 < s.log[k].at == last.value;
    }
    forall i | 0 <= i < |s.log| && TouchKind(s.log[i].kind) && s.log[i].prospect == p
      ensures last.Some? && s.log[i].at <= last.value
    {
      assert Shows(s.msgs, s.log[i]);
    }
  }

  /** The check reads the message table. On a table that shows the whole history it decides what the history says. */
  lemma CheckReadsHistory(s: State, p: nat)
    requires Faithful(s.msgs, s.log) && InTime(s.log, s.clock)
    ensures FrequencyOk(s, p, TouchFlags(false))
       <==> Spaced(s.log, s.clock, s.window, p) && |RecentEvents(s.log, s.clock, p)| <= 3
  {
    hide Faithful, InTime, Spaced, RecentEvents, LastMs, TouchesSince;
    LastMsIsNewest(s, p);
    CountsAgree(s.msgs, s.log, s.clock, p);
  }

  // --- runs ---

  /** Spacing and four in fourteen days. */
  ghost predicate Kept(log: seq<SendEvent>, window: int) { Apart(log, window) && AtMostFour(log) }

  /** If a fully gated touch leaves, the check passes for its prospect also with the rejected touches counted. */
  ghost predicate CountedStep(s: State, t: State) {
    forall j :: |s.log| <= j < |t.log| && t.log[j].kind == FullGate ==>
      FrequencyOk(Recount(s), t.log[j].prospect, TouchFlags(false))
  }

  ghost predicate CountedRun(s: State, steps: seq<Step>, n: nat)
    requires n <= |steps|
  {
    forall k: nat :: k < n ==> CountedStep(After(s, steps, k), Next(After(s, steps, k), steps[k]))
  }

  lemma PrefixKept(log: seq<SendEvent>, ev: SendEvent, window: int)
    requires Kept(log + [ev], window)
    ensures Kept(log, window)
  {
    var more := log + [ev];
    forall j: nat | j < |log| && log[j].kind == FullGate ensures |RecentTouches(log, j)| <= 4 {
      OlderEventsSame(log, ev, j);
      assert more[j] == log[j];
    }
    hide RecentTouches;
    assert forall j :: 0 <= j < |log| ==> more[j] == log[j];
  }

  lemma OtherKindKept(log: seq<SendEvent>, ev: SendEvent, window: int)
    requires Kept(log, window) && ev.kind != FullGate
    ensures Kept(log + [ev], window)
  {
    hide AtMostFour;
    OtherKindKeepsFour(log, ev);
  }

  /** One event more, at the time of state s. */
  lemma EventKept(s: State, ev: SendEvent)
    requires RecountInv(s) && ev.at == s.clock
    ensures Kept(s.log + [ev], s.window)
       <==> Kept(s.log, s.window) && (ev.kind == FullGate ==> FrequencyOk(Recount(s), ev.prospect, TouchFlags(false)))
  {
    hide Apart, AtMostFour, FrequencyOk, Spaced, RecentEvents, Faithful, InTime, MailInv, RowsKept, SentIsLogged,
        Restored;
    if Kept(s.log + [ev], s.window) { PrefixKept(s.log, ev, s.window); }
    if Kept(s.log, s.window) {
      if ev.kind == FullGate {
        RestoredIsFaithful(s);
        CheckReadsHistory(Recount(s), ev.prospect);
        ApartIffSpaced(s.log, ev, s.window);
        FourIffThree(s.log, ev);
      } else {
        OtherKindKept(s.log, ev, s.window);
      }
    }
  }

  /** A step adds at most one event, at its own time. */
  lemma OneEvent(s: State, step: Step)
    ensures var t := Next(s, step);
      t.log == s.log || (|t.log| == |s.log| + 1 && t.log == s.log + [t.log[|s.log|]] && t.log[|s.log|].at == s.clock)
  {
    hide Next;
    var u, a, b := StepEffects(s, step);
    EffectLogs(u, Next(s, step), b);
    hide Does;
  }

  lemma EffectLogs(s: State, t: State, eff: Effect)
    requires Does(s, t, eff)
    ensures t.log == s.log || (|t.log| == |s.log| + 1 && t.log == s.log + [t.log[|s.log|]]
        && t.log[|s.log|].at == s.clock)
  {
    hide Extends, Authorised, MayRelease, HasKey;
  }

  lemma StepKept(s: State, step: Step)
    requires RecountInv(s)
    ensures Kept(Next(s, step).log, s.window) <==> Kept(s.log, s.window) && CountedStep(s, Next(s, step))
  {
    hide Kept, RecountInv, Recount, FrequencyOk, Next;
    OneEvent(s, step);
    var t := Next(s, step);
    if t.log != s.log {
      EventKept(s, t.log[|s.log|]);
    }
  }

  lemma NothingLogged(s: State)
    requires Initial(s)
    ensures Kept(s.log, s.window)
  {
  }

  lemma {:induction false} KeptExactly(s: State, steps: seq<Step>, n: nat)
    requires Initial(s) && n <= |steps|
    ensures Kept(After(s, steps, n).log, s.window) <==> CountedRun(s, steps, n)
  {
    hide Kept, CountedStep, Next, Initial, RecountInv;
    if n > 0 {
      var t := After(s, steps, n - 1);
      KeptExactly(s, steps, n - 1);
      RecountInvAlways(s, steps, n - 1);
      StepKept(t, steps[n - 1]);
    } else {
      NothingLogged(s);
    }
  }

  // --- what the gate does not see ---

  /** Touches of the prospect after `since` that have left and do not count any more. */
  function HiddenSince(s: State, p: nat, since: int): set<nat> {
    set r: nat | r < |s.msgs| && HasLeft(s.log, r) && s.msgs[r].status != Sent && IsTouch(s.msgs[r].(status := Sent), p)
        && s.msgs[r].createdAt > since
  }

  /** No hidden touch of the prospect is younger than the window; with the hidden ones fewer than four are recent. */
  predicate NothingHidden(s: State, p: nat) {
    && HiddenSince(s, p, s.clock - s.window) == {}
    && |HiddenSince(s, p, s.clock - 14 * DAY)| + |TouchesSince(s.msgs, p, s.clock - 14 * DAY)| <= 3
  }

  lemma RestoredTouches(s: State, p: nat, since: int)
    ensures TouchesSince(Recount(s).msgs, p, since) == TouchesSince(s.msgs, p, since) + HiddenSince(s, p, since)
    ensures |TouchesSince(Recount(s).msgs, p, since)| == |TouchesSince(s.msgs, p, since)| + |HiddenSince(s, p, since)|
  {
    hide HasLeft;
    var A, B := TouchesSince(s.msgs, p, since), HiddenSince(s, p, since);
    assert TouchesSince(Recount(s).msgs, p, since) == A + B;
    assert A !! B;
  }

  /** The newest touch is old enough exactly when none is younger than the window. */
  lemma NewestIsOld(s: State, p: nat)
    requires Faithful(s.msgs, s.log) && InTime(s.log, s.clock)
    ensures LastMs(s, p) == 0 || s.clock - LastMs(s, p) >= s.window
        <==> TouchesSince(s.msgs, p, s.clock - s.window) == {}
  {
    hide Faithful, LastMs;
    LastMsIsNewest(s, p);
    FaithfulRows(s.msgs, s.log);
    var B := TouchesSince(s.msgs, p, s.clock - s.window);
    if r: nat :| r in B {
      var k := TouchEvent(s.msgs, s.log, r, p);
    }
    forall i | B == {} && 0 <= i < |s.log| && TouchKind(s.log[i].kind) && s.log[i].prospect == p
      ensures s.clock - s.log[i].at >= s.window
    {
      assert Shows(s.msgs, s.log[i]) && s.log[i].row !in B;
    }
  }

  /** What the check sees may pass; with the rejected touches counted it passes exactly when nothing is hidden. */
  lemma HiddenDecides(s: State, p: nat)
    requires RecountInv(s) && FrequencyOk(s, p, TouchFlags(false))
    ensures FrequencyOk(Recount(s), p, TouchFlags(false)) <==> NothingHidden(s, p)
  {
    hide RecountInv, Recount, Faithful, InTime, LastMs, TouchesSince, HiddenSince;
    RestoredIsFaithful(s);
    RecountKeeps(s);
    NewestIsOld(Recount(s), p);
    NoneSeenIsYoung(s, p);
    RestoredTouches(s, p, s.clock - s.window);
    RestoredTouches(s, p, s.clock - 14 * DAY);
  }

  lemma RecountKeeps(s: State)
    ensures Recount(s).clock == s.clock && Recount(s).window == s.window && Recount(s).log == s.log
    ensures RecountInv(s) ==> InTime(s.log, s.clock)
  {
  }

  lemma NoneSeenIsYoung(s: State, p: nat)
    requires RecountInv(s) && FrequencyOk(s, p, TouchFlags(false))
    ensures TouchesSince(s.msgs, p, s.clock - s.window) == {}
  {
    hide MailInv, InTime;
    var last := LastTouch(s.msgs, p);
    forall r: nat | r < |s.msgs| && IsTouch(s.msgs[r], p)
      ensures last.Some? && s.msgs[r].createdAt <= last.value
    {
      assert Frequency.Logged(s.log, r, true);
      var i :| 0 <= i < |s.log| && s.log[i].row == r && TouchKind(s.log[i].kind);
      assert Departed(s.msgs[r], s.log[i]);
    }
    if last == Some(0) { NewestIsPositive(s, p); }
  }

  lemma NewestIsPositive(s: State, p: nat)
    requires RecountInv(s) && LastTouch(s.msgs, p).Some?
    ensures LastTouch(s.msgs, p).value > 0
  {
    hide MailInv;
    var r :| 0 <= r < |s.msgs| && IsTouch(s.msgs[r], p) && !s.msgs[r].isAck
      && s.msgs[r].createdAt == LastTouch(s.msgs, p).value;
    assert Frequency.Logged(s.log, r, true);
    var i :| 0 <= i < |s.log| && s.log[i].row == r && TouchKind(s.log[i].kind);
    assert Departed(s.msgs[r], s.log[i]);
  }

  /** A fully gated touch leaves only from a state in which the check passes. */
  lemma GateChecked(s: State, step: Step)
    requires MailInv(s)
    ensures var t := Next(s, step);
      forall j :: |s.log| <= j < |t.log| && t.log[j].kind == FullGate ==>
        FrequencyOk(s, t.log[j].prospect, TouchFlags(false))
  {
    hide Next, MailInv, FrequencyOk;
    var t := Next(s, step);
    var u, a, b := StepEffects(s, step);
    EffectLogs(u, t, b);
    if |t.log| > |s.log| && t.log[|s.log|].kind == FullGate {
      FullGateIsGated(u, t, b);
      FullGatePassedFrequency(u, t, b);
    }
    hide Does;
  }

  lemma FullGateIsGated(s: State, t: State, eff: Effect)
    requires Does(s, t, eff) && |t.log| > |s.log| && t.log[|s.log|].kind == FullGate
    ensures !eff.Silent? && !eff.Ask? && !(eff.Send? && eff.kind == Call)
  {
    hide Extends, Authorised, MayRelease, HasKey;
  }

  /** A fully gated touch leaves only with nothing of its prospect hidden. */
  ghost predicate HarmlessStep(s: State, t: State) {
    forall j :: |s.log| <= j < |t.log| && t.log[j].kind == FullGate ==> NothingHidden(s, t.log[j].prospect)
  }

  lemma HarmlessIsCounted(s: State, step: Step)
    requires RecountInv(s)
    ensures HarmlessStep(s, Next(s, step)) <==> CountedStep(s, Next(s, step))
  {
    hide Next, FrequencyOk, NothingHidden, Recount, RecountInv;
    var t := Next(s, step);
    MailOf(s);
    GateChecked(s, step);
    forall j | |s.log| <= j < |t.log| && t.log[j].kind == FullGate
      ensures FrequencyOk(Recount(s), t.log[j].prospect, TouchFlags(false)) <==> NothingHidden(s, t.log[j].prospect)
    {
      HiddenDecides(s, t.log[j].prospect);
    }
  }

  lemma MailOf(s: State)
    requires RecountInv(s)
    ensures MailInv(s)
  {
    hide MailInv;
  }

  ghost predicate HarmlessRun(s: State, steps: seq<Step>) {
    forall k: nat :: k < |steps| ==> HarmlessStep(After(s, steps, k), Next(After(s, steps, k), steps[k]))
  }

  /** Over every run, with whatever rejections: each gated touch that is not a same-day companion comes at least a
      window after every earlier touch of the prospect, and is with at most three others in fourteen days, exactly when
      at every such touch no rejected touch of the prospect was younger than the window, and fewer than four were recent
      with the rejected ones. */
  lemma FrequencyExactly(s: State, steps: seq<Step>)
    requires Initial(s)
    ensures var log := After(s, steps, |steps|).log;
      Apart(log, s.window) && AtMostFour(log) <==> HarmlessRun(s, steps)
  {
    hide Apart, AtMostFour, HarmlessStep, CountedStep, Initial, After, Next, RecountInv;
    KeptExactly(s, steps, |steps|);
    forall k: nat | k < |steps|
      ensures HarmlessStep(After(s, steps, k), Next(After(s, steps, k), steps[k]))
         <==> CountedStep(After(s, steps, k), Next(After(s, steps, k), steps[k]))
    {
      RecountInvAlways(s, steps, k);
      HarmlessIsCounted(After(s, steps, k), steps[k]);
    }
  }
}
