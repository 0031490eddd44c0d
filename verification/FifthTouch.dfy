/** A run from the start in which a late rejection lets a fifth touch through in fourteen days. */
module FifthTouch {
  import opened Basics
  import opened Model
  import opened Gate
  import opened Claims
  import opened Handlers
  import opened Replies
  import opened Machine
  import opened Outbox
  import opened Frequency
  import opened Witnesses

  // --- one touch and n calls ---

  /** The one enrollment of the desk, with two planned e-mails on different days. */
  predicate TheOne(e: Enrollment) {
    && e.prospect == 0 && e.campaign == 0 && e.rep == None
    && |e.plan| == 2 && e.plan[0].day == 0 && e.plan[1].day == 1 && e.plan[1].ch == Email
  }

  ghost predicate OnlyHolder(claims: seq<Claim>) {
    forall i :: 0 <= i < |claims| ==> claims[i].prospect == 0 && claims[i].campaign == 0
  }

  ghost predicate AllAtOnce(msgs: seq<Message>) {
    forall r :: 0 <= r < |msgs| ==> msgs[r].key == None && msgs[r].createdAt == 1
  }

  ghost predicate AllDecided(aps: seq<Approval>) { forall a :: 0 <= a < |aps| ==> aps[a].status != Undecided }

  /** The approved touch and n calls have left at time 1, and the second draft is under way. */
  ghost predicate Called(s: State, n: nat) {
    && s.clock == 1 && s.window == 48 * HOUR && s.cfg == Settings(9) && s.suppressed == {}
    && |s.enrs| == 1 && TheOne(s.enrs[0]) && |s.jobs| >= 5 && s.jobs[4] == Row(0, DraftJob(1), Running)
    && |s.msgs| > 0 && s.msgs[0] == PARKED.(status := Sent) && AllAtOnce(s.msgs) && OnlyHolder(s.claims)
    && |s.approvals| > 0 && s.approvals[0] == Approval(TouchApproval, 0, Approved, Some(0), Some(0))
    && CallLog(s.log, n)
  }

  ghost predicate CallLog(log: seq<SendEvent>, n: nat) {
    && |log| == n + 1 && log[0] == SendEvent(0, 0, 1, FullGate)
    && forall i :: 1 <= i <= n ==> log[i].kind == Call && log[i].prospect == 0 && log[i].at == 1
  }

  lemma TouchLeft()
    ensures Called(OneSent(), 0) && AllDecided(OneSent().approvals)
  {
  }

  /** A hot positive reply asks for a call. */
  lemma ReplyAsks(s: State, n: nat)
    requires Called(s, n) && AllDecided(s.approvals)
    ensures var t := Next(s, Reply(0, Email, Positive, true));
      Called(t, n) && t.approvals == s.approvals + [Approval(VoiceApproval, 0, Undecided, None, None)]
  {
    hide OnlyHolder;
    var r := Received(s, 0, Email);
    var u := CancelPending(r, 0, true);
    assert u.jobs[4] == s.jobs[4] && TheOne(u.enrs[0]) && AllAtOnce(u.msgs) && u.approvals == s.approvals;
    hide CancelPending, TheOne, AllAtOnce;
    assert !OpenVoiceApproval(s.approvals, 0);
    assert Next(s, Reply(0, Email, Positive, true)) == Offer(u, 0, Email, |s.msgs|, true);
  }

  /** With one enrollment nobody is woken when the claim is given up. */
  lemma ReleaseAlone(s: State)
    requires |s.enrs| == 1 && TheOne(s.enrs[0]) && OnlyHolder(s.claims)
    ensures var t := ReleaseClaim(s, 0); t == s.(claims := t.claims) && OnlyHolder(t.claims)
  {
    assert DeferredElsewhere(s.enrs, 0, 0) == None;
  }

  lemma ManagerSteps(s: State, a: nat)
    requires a < |s.approvals| && s.approvals[a].enr < |s.enrs|
    ensures Next(s, Approve(a, false, false, false)) == ApproveItem(s, a, false, false, false)
    ensures Next(s, Decline(a)) == RejectItem(s, a)
  {
    hide ApproveItem, RejectItem;
  }

  lemma WaitStep(s: State, ms: nat)
    ensures Next(s, Wait(ms)) == s.(clock := s.clock + ms)
  {
  }

  /** The approved call leaves without the gate. */
  lemma CallLeaves(s: State, n: nat)
    requires Called(s, n) && |s.approvals| > 1 && AllDecided(s.approvals[..|s.approvals| - 1])
    requires s.approvals[|s.approvals| - 1] == Approval(VoiceApproval, 0, Undecided, None, None)
    ensures var t := Next(s, Approve(|s.approvals| - 1, false, false, false));
      Called(t, n + 1) && AllDecided(t.approvals)
  {
    hide Next, OnlyHolder, ReleaseClaim, ApprovalVerdict;
    var a := |s.approvals| - 1;
    var d := Decide(s, a, Approved);
    var u := AddSent(d, MakeMessage(d, 0, Voice, false, Sent, false, false, None, None), Call);
    ReleaseAlone(SetState(u, 0, MeetingBooked));
    assert AllDecided(d.approvals) by { assert forall i :: 0 <= i < a ==> s.approvals[..a][i] == s.approvals[i]; }
    ManagerSteps(s, a);
    assert ApproveItem(s, a, false, false, false) == CallPlaced(d, 0, false);
  }

  /** From n calls to one more. */
  lemma OneMoreCall(s: State, steps: seq<Step>, t: State, n: nat) returns (more: seq<Step>, u: State)
    requires After(s, steps, |steps|) == t && Called(t, n) && AllDecided(t.approvals)
    ensures After(s, more, |more|) == u && Called(u, n + 1) && AllDecided(u.approvals)
  {
    hide Next, Called, AllDecided;
    var reply := Reply(0, Email, Positive, true);
    var v := Next(t, reply);
    ReplyAsks(t, n);
    OneMore(s, steps, reply, t);
    var call := Approve(|v.approvals| - 1, false, false, false);
    assert v.approvals[..|v.approvals| - 1] == t.approvals;
    SomeApproval(t, n);
    CallLeaves(v, n);
    OneMore(s, steps + [reply], call, v);
    more, u := steps + [reply] + [call], Next(v, call);
  }

  lemma SomeApproval(t: State, n: nat)
    requires Called(t, n)
    ensures |t.approvals| > 0
  {
  }

  // --- the rejection, and the fifth touch ---

  /** Two days later the first touch is rejected, and nothing else of the table has changed. */
  ghost predicate FirstRejected(s: State) {
    && s.clock == 1 + 48 * HOUR && s.window == 48 * HOUR && s.cfg == Settings(9) && s.suppressed == {}
    && |s.enrs| == 1 && TheOne(s.enrs[0]) && |s.jobs| >= 5 && s.jobs[4] == Row(0, DraftJob(1), Running)
    && |s.msgs| > 0 && s.msgs[0] == PARKED.(status := RejectedByManager) && AllAtOnce(s.msgs) && OnlyHolder(s.claims)
    && AllDecided(s.approvals) && CallLog(s.log, 3)
  }

  lemma FirstIsRejected(s: State)
    requires Called(s, 3) && AllDecided(s.approvals)
    ensures FirstRejected(Next(Next(s, Wait(48 * HOUR)), Decline(0)))
  {
    hide Next, OnlyHolder, ReleaseClaim;
    WaitStep(s, 48 * HOUR);
    var w := Next(s, Wait(48 * HOUR));
    ManagerSteps(w, 0);
    var u := MarkDeclined(w, 0);
    var v := CancelPending(SetState(u, 0, Stopped), 0, true);
    assert v.jobs[4] == s.jobs[4] && TheOne(v.enrs[0]) && AllAtOnce(v.msgs) && AllDecided(v.approvals);
    ReleaseAlone(v);
    hide CancelPending, MarkDeclined, TheOne, AllAtOnce, AllDecided;
    assert RejectItem(w, 0) == ReleaseClaim(v, 0);
  }

  /** What the message table still shows are at most the three calls. */
  lemma ThreeShow(s: State)
    requires FirstRejected(s) && SentIsLogged(s.msgs, s.log)
    ensures FrequencyOk(s, 0, TouchFlags(false)) && forall ch :: SentToday(s.msgs, 0, ch, s.clock) == {}
  {
    hide OnlyHolder, AllDecided, TheOne;
    var B := TouchesSince(s.msgs, 0, s.clock - 14 * DAY);
    var A := {1, 2, 3};
    forall r | r in B ensures exists i :: i in A && i < |s.log| && s.log[i].row == r {
      assert Frequency.Logged(s.log, r, true);
      var i: nat :| i < |s.log| && s.log[i].row == r && TouchKind(s.log[i].kind);
      assert i in A;
    }
    DistinctEvents(s.log, B, A);
  }

  lemma GateAllows(s: State)
    requires FirstRejected(s) && SentIsLogged(s.msgs, s.log)
    ensures Evaluate(s, 0, Email, TouchFlags(false)).dec == Allow
  {
    hide LastMs, TouchesSince, SentToday, RepSentToday, AllAtOnce, CallLog, AllDecided, FrequencyOk;
    ThreeShow(s);
    var x, fl := s.enrs[0], TouchFlags(false);
    assert RepOf(s.cfg, x) == Rep(true, 0, {Email}) && CampaignOf(s.cfg, 0) == Desk(9);
    assert Holder(s.claims, 0) in {None, Some(0)};
    assert |SentToday(s.msgs, 0, None, s.clock)| == 0;
    hide Holder;
    assert forall n: nat :: 1 <= n <= 10 ==> Passes(s, 0, Email, fl, n);
    AllowIffAllPass(s, 0, Email, fl);
  }

  lemma FifthLeaves(s: State)
    requires FirstRejected(s) && SentIsLogged(s.msgs, s.log)
    ensures Next(s, RunJob(4, Draft(false))).log == s.log + [SendEvent(|s.msgs|, 0, s.clock, FullGate)]
  {
    hide Evaluate, OnlyHolder, CallLog;
    GateAllows(s);
    assert !SameDayDone(s.enrs[0].plan, 1) && !OpenApprovalElsewhere(s.approvals, 0, 1);
    assert !HasKey(s.msgs, StepKey(0, 1, Email));
    hide FirstRejected, HasKey, OpenApprovalElsewhere, SameDayDone;
    assert RunOne(s, 4, Draft(false)) == SendStep(s, 4, 0, 1, FullGate);
  }

  lemma FiveIsTooMany(log: seq<SendEvent>, row: nat)
    requires CallLog(log, 3)
    ensures var more := log + [SendEvent(row, 0, 1 + 48 * HOUR, FullGate)];
      !AtMostFour(more) && Apart(more, 48 * HOUR)
  {
    var more := log + [SendEvent(row, 0, 1 + 48 * HOUR, FullGate)];
    assert forall i :: 0 <= i < 4 ==> more[i] == log[i];
    assert RecentTouches(more, 4) == {0, 1, 2, 3, 4};
    assert |RecentTouches(more, 4)| == 5 && more[4].kind == FullGate;
  }

  /** A touch, three calls, and after two days the rejection of the touch: the gate counts three and lets a fifth
      through. */
  lemma FiveTouches() returns (s: State, steps: seq<Step>)
    ensures Initial(s) && !AtMostFour(After(s, steps, |steps|).log) && Apart(After(s, steps, |steps|).log, s.window)
  {
    hide Next, Called, AllDecided, Initial, OneSent, FirstRejected, CallLog, AtMostFour, Apart;
    s := Start(9);
    StartIsInitial(9);
    assert s.window == 48 * HOUR;
    steps := ToOneSent();
    TouchLeft();
    var t := OneSent();
    steps, t := OneMoreCall(s, steps, t, 0);
    steps, t := OneMoreCall(s, steps, t, 1);
    steps, t := OneMoreCall(s, steps, t, 2);
    FirstIsRejected(t);
    OneMore(s, steps, Wait(48 * HOUR), t);
    steps := steps + [Wait(48 * HOUR)];
    OneMore(s, steps, Decline(0), Next(t, Wait(48 * HOUR)));
    steps := steps + [Decline(0)];
    var u := Next(Next(t, Wait(48 * HOUR)), Decline(0));
    FifthComes(s, steps, u);
    steps := steps + [RunJob(4, Draft(false))];
  }

  lemma FifthComes(s: State, steps: seq<Step>, u: State)
    requires Initial(s) && After(s, steps, |steps|) == u && FirstRejected(u)
    ensures var log := After(s, steps + [RunJob(4, Draft(false))], |steps| + 1).log;
      !AtMostFour(log) && Apart(log, 48 * HOUR)
  {
    hide Next, Initial, CallLog, AtMostFour, Apart, SentIsLogged, AllDecided, AllAtOnce, OnlyHolder;
    SentIsLoggedAlways(s, steps, |steps|);
    FifthLeaves(u);
    OneMore(s, steps, RunJob(4, Draft(false)), u);
    FiveIsTooMany(u.log, |u.msgs|);
  }
}
