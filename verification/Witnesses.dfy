/** Runs from the start that show what the conditions of the run theorems are for. */
module Witnesses {
  import opened Basics
  import opened Model
  import opened Gate
  import opened Claims
  import opened Handlers
  import opened Replies
  import opened Queue
  import opened Machine
  import opened Outbox
  import opened DraftJobs
  import opened FairShare
  import opened Frequency
  import opened Ladders

  // --- runs, one step at a time ---

  lemma {:induction false} SamePrefix(s: State, steps: seq<Step>, x: Step, n: nat)
    requires n <= |steps|
    ensures After(s, steps + [x], n) == After(s, steps, n)
  {
    hide Next;
    if n > 0 {
      SamePrefix(s, steps, x, n - 1);
      assert (steps + [x])[n - 1] == steps[n - 1];
    }
  }

  lemma OneMore(s: State, steps: seq<Step>, x: Step, t: State)
    requires After(s, steps, |steps|) == t
    ensures After(s, steps + [x], |steps| + 1) == Next(t, x)
  {
    hide Next;
    SamePrefix(s, steps, x, |steps|);
    assert (steps + [x])[|steps|] == x;
  }

  // --- a small desk ---

  /** A live campaign that writes e-mail, with cap `cap` and no approval rules. */
  function Desk(cap: int): Campaign {
    Campaign(LiveCampaign, map[Writer := true], {Email}, map[], cap, 0, false,
        ApprovalRules(false, false, false, false), [0])
  }

  /** Two such campaigns and one rep without a limit. */
  function Settings(cap: int): Config { Config(false, {}, false, [Desk(cap), Desk(cap)], [Rep(true, 0, {Email})]) }

  const SOMEONE := Prospect("someone@example.com", "example.com", "555")

  function At(cap: int, enrs: seq<Enrollment>, jobs: seq<Job>, msgs: seq<Message>, claims: seq<Claim>,
              approvals: seq<Approval>, log: seq<SendEvent>): State {
    State(1, 48 * HOUR, [SOMEONE], Settings(cap), enrs, jobs, msgs, claims, [], approvals, {}, log)
  }

  function Person(c: nat, st: EnrState, score: Option<int>, plan: seq<PlanStep>): Enrollment {
    Enrollment(0, c, st, score, plan, None, 0, false, false)
  }

  function Row(e: nat, kind: JobKind, st: JobStatus): Job {
    if st == Queued then Job(e, kind, st, 1, 1, 0, 0) else Job(e, kind, st, 1, 1, 1, 1)
  }

  function Draft(bad: bool): Work { Work(RuleReject, [], Drafted(bad, bad)) }

  function Scored(score: int): Work { Work(Judged(Qualify, score), [], KnowledgeGap) }

  // --- claiming ---

  /** When nothing runs and at most two jobs wait, both due and allowed, the worker claims them all. */
  lemma ClaimsAll(s: State, a: nat, b: nat)
    requires !s.cfg.kill && forall j :: 0 <= j < |s.jobs| ==> s.jobs[j].status != Running
    requires forall j :: 0 <= j < |s.jobs| && s.jobs[j].status == Queued ==> j == a || j == b
    requires forall j :: 0 <= j < |s.jobs| && s.jobs[j].status == Queued ==>
      && s.jobs[j].runAt <= s.clock && s.jobs[j].enr < |s.enrs| && Served(s.cfg, None, s.enrs[s.jobs[j].enr].campaign)
      && AgentMayRun(CampaignOf(s.cfg, s.enrs[s.jobs[j].enr].campaign), AgentOf(s.jobs[j].kind))
    ensures |Next(s, ClaimDue(None)).jobs| == |s.jobs|
        && Next(s, ClaimDue(None)) == s.(jobs := Next(s, ClaimDue(None)).jobs)
    ensures forall j :: 0 <= j < |s.jobs| ==>
      Next(s, ClaimDue(None)).jobs[j] == if s.jobs[j].status == Queued then Started(s.jobs[j], s.clock) else s.jobs[j]
  {
    forall j: nat | j < |s.jobs|
      ensures Claimed(s, None, j) <==> s.jobs[j].status == Queued
    {
      if s.jobs[j].status == Queued {
        var c := s.enrs[s.jobs[j].enr].campaign;
        ClaimsCampaign(s, c, a, b);
        assert j in EligibleSet(s, c);
      }
    }
    hide Claimed;
  }

  lemma ClaimsCampaign(s: State, c: nat, a: nat, b: nat)
    requires forall j :: 0 <= j < |s.jobs| ==> s.jobs[j].status != Running
    requires forall j :: 0 <= j < |s.jobs| && s.jobs[j].status == Queued ==> j == a || j == b
    ensures TopRows(s, c, Room(s, c)) == EligibleSet(s, c)
  {
    assert RunningIn(s.enrs, s.jobs, c) == {};
    assert Room(s, c) == 3;
    var E := EligibleSet(s, c);
    assert E <= {a, b};
    SubsetSize(E, {a, b});
    hide Eligible, Room;
    TopRowsAreTheTop(s, c, 3);
    SubsetOfSameSize(TopRows(s, c, 3), E);
  }

  lemma SubsetOfSameSize(x: set<nat>, y: set<nat>)
    requires x <= y && |x| == |y|
    ensures x == y
  {
    if i :| i in y && i !in x {
      SubsetSize(x, y - {i});
    }
  }

  // --- the gate on the small desk ---

  /** Nothing has left: the gate only asks for the cap. */
  lemma GateOnEmptyDesk(s: State, cap: int, e: nat, fl: Flags)
    requires s.cfg == Settings(cap) && e < |s.enrs| && s.enrs[e].campaign < 2 && s.enrs[e].rep == None
        && s.suppressed == {}
    requires HoldsClaim(s, s.enrs[e]) && forall r :: 0 <= r < |s.msgs| ==> s.msgs[r].status != Sent
    ensures Evaluate(s, e, Email, fl).dec == (if cap > 0 then Allow else Defer)
        && Evaluate(s, e, Email, fl).until == None
  {
    hide Holder, HoldsClaim, LastTouch;
    var x := s.enrs[e];
    assert RepOf(s.cfg, x) == Rep(true, 0, {Email}) && CampaignOf(s.cfg, x.campaign) == Desk(cap);
    NothingCounts(s, x.prospect, x.campaign);
    assert forall n: nat :: 1 <= n <= 8 ==> Passes(s, e, Email, fl, n);
    assert Passes(s, e, Email, fl, 9) <==> cap > 0;
    assert Passes(s, e, Email, fl, 10);
    hide Passes;
    var f := FirstFailing(s, e, Email, fl, 1);
    assert cap > 0 ==> f == 11;
    assert cap <= 0 ==> f == 9;
  }

  lemma NothingCounts(s: State, p: nat, c: nat)
    requires forall r :: 0 <= r < |s.msgs| ==> s.msgs[r].status != Sent
    ensures LastMs(s, p) == 0 && TouchesSince(s.msgs, p, s.clock - 14 * DAY) == {}
    ensures forall ch :: SentToday(s.msgs, c, ch, s.clock) == {}
  {
  }

  // --- from research to two running drafts ---

  const TWO_TOUCHES := [PlanStep(Email, 0, 1, Pending, false, Always), PlanStep(Email, 1, 1, Pending, false, Always)]

  const TWO_QUEUED := [PlanStep(Email, 0, 1, Pending, true, Always), PlanStep(Email, 1, 1, Pending, true, Always)]

  const HELD := [Claim(0, 0, Active, 1)]

  function Start(cap: int): State { At(cap, [Person(0, New, None, [])], [Row(0, ResearchJob, Queued)], [], [], [], []) }

  function Researching(cap: int): State {
    At(cap, [Person(0, New, None, [])], [Row(0, ResearchJob, Running)], [], [], [], [])
  }

  function ToQualify(cap: int, st: JobStatus): State {
    At(cap, [Person(0, Researched, None, [])], [Row(0, ResearchJob, Finished), Row(0, QualifyJob, st)], [], [], [], [])
  }

  function ToPlan(cap: int, st: JobStatus): State {
    At(cap, [Person(0, Qualified, Some(50), [])],
        [Row(0, ResearchJob, Finished), Row(0, QualifyJob, Finished), Row(0, PlanJob, st)], [], HELD, [], [])
  }

  function ToDraft(cap: int, st: JobStatus): State {
    At(cap, [Person(0, Qualified, Some(50), TWO_QUEUED)],
       [Row(0, ResearchJob, Finished), Row(0, QualifyJob, Finished), Row(0, PlanJob, Finished), Row(0, DraftJob(0), st),
           Row(0, DraftJob(1), st)],
       [], HELD, [], [])
  }

  const CLAIM := ClaimDue(None)

  const PLAN := RunJob(2, Work(RuleReject, TWO_TOUCHES, KnowledgeGap))

  lemma ResearchRuns(cap: int)
    ensures Next(Start(cap), CLAIM) == Researching(cap)
        && Next(Researching(cap), RunJob(0, Scored(50))) == ToQualify(cap, Queued)
  {
    hide Claimed, ClaimJobs;
    ClaimsAll(Start(cap), 0, 0);
  }

  lemma QualifyRuns(cap: int)
    ensures Next(ToQualify(cap, Queued), CLAIM) == ToQualify(cap, Running)
    ensures Next(ToQualify(cap, Running), RunJob(1, Scored(50))) == ToPlan(cap, Queued)
  {
    hide Claimed, ClaimJobs;
    ClaimsAll(ToQualify(cap, Queued), 1, 1);
  }

  lemma PlanClaimed(cap: int)
    ensures Next(ToPlan(cap, Queued), CLAIM) == ToPlan(cap, Running)
    ensures Next(ToDraft(cap, Queued), CLAIM) == ToDraft(cap, Running)
  {
    hide Claimed, ClaimJobs;
    ClaimsAll(ToPlan(cap, Queued), 2, 2);
    ClaimsAll(ToDraft(cap, Queued), 3, 4);
  }

  lemma PlanRuns(cap: int)
    ensures Next(ToPlan(cap, Running), PLAN) == ToDraft(cap, Queued)
  {
    hide ClaimJobs;
    var s := ToPlan(cap, Running);
    var t := SetJobStatus(SetEnr(s, 0, s.enrs[0].(plan := TWO_TOUCHES)), 2, Finished);
    assert ActionAt(t, 0, 0) == Dispatch && ActionAt(t, 0, 1) == Dispatch;
    assert DispatchedPlan(t, 0) == TWO_QUEUED;
    assert DispatchedJobs(t, 0, 1) == [Row(0, DraftJob(0), Queued)];
    assert DispatchedJobs(t, 0, 2) == [Row(0, DraftJob(0), Queued), Row(0, DraftJob(1), Queued)];
  }

  /** Seven steps from an enrolled prospect to two running draft jobs. */
  lemma ToDrafts(cap: int) returns (steps: seq<Step>)
    ensures |steps| == 7 && After(Start(cap), steps, 7) == ToDraft(cap, Running)
  {
    hide Next, Start, Researching, ToQualify, ToPlan, ToDraft;
    ResearchRuns(cap);
    QualifyRuns(cap);
    PlanClaimed(cap);
    PlanRuns(cap);
    var s := Start(cap);
    assert After(s, [], 0) == s;
    OneMore(s, [], CLAIM, s);
    steps := [] + [CLAIM];
    OneMore(s, steps, RunJob(0, Scored(50)), Researching(cap));
    steps := steps + [RunJob(0, Scored(50))];
    OneMore(s, steps, CLAIM, ToQualify(cap, Queued));
    steps := steps + [CLAIM];
    OneMore(s, steps, RunJob(1, Scored(50)), ToQualify(cap, Running));
    steps := steps + [RunJob(1, Scored(50))];
    OneMore(s, steps, CLAIM, ToPlan(cap, Queued));
    steps := steps + [CLAIM];
    OneMore(s, steps, PLAN, ToPlan(cap, Running));
    steps := steps + [PLAN];
    OneMore(s, steps, CLAIM, ToDraft(cap, Queued));
    steps := steps + [CLAIM];
  }

  lemma StartIsInitial(cap: int)
    ensures Initial(Start(cap))
  {
  }

  // --- two live drafts of one touch ---

  /** The deferred draft job has ended, its successor is alive. */
  lemma DraftDefers()
    ensures var t := Next(ToDraft(0, Running), RunJob(3, Draft(false)));
      && |t.jobs| == 6 && t.jobs[3] == Row(0, DraftJob(0), Running).(status := Finished)
      && Live(t.jobs[5]) && SameTouch(t.jobs[3], t.jobs[5])
  {
    hide Evaluate;
    var s := ToDraft(0, Running);
    GateOnEmptyDesk(s, 0, 0, TouchFlags(false));
    assert !SameDayDone(s.enrs[0].plan, 0) && !OpenApprovalElsewhere(s.approvals, 0, 0);
    assert RunOne(s, 3, Draft(false)) == Conclude(s, 3, 0, 0, false, Evaluate(s, 0, Email, TouchFlags(false)), false);
  }

  /** A failure recorded late, for a draft job that was deferred and replaced: two live draft jobs of one touch. */
  lemma LateFailureDoubles() returns (s: State, steps: seq<Step>)
    ensures Initial(s) && !OnePerTouch(After(s, steps, |steps|).jobs)
  {
    hide Next, Start, ToDraft, RecordFailure, OnePerTouch;
    s := Start(0);
    StartIsInitial(0);
    steps := ToDrafts(0);
    DraftDefers();
    var t := Next(ToDraft(0, Running), RunJob(3, Draft(false)));
    OneMore(s, steps, RunJob(3, Draft(false)), ToDraft(0, Running));
    steps := steps + [RunJob(3, Draft(false))];
    OneMore(s, steps, Fail(3, 1), t);
    steps := steps + [Fail(3, 1)];
    FailReopens(t);
  }

  lemma FailReopens(t: State)
    requires |t.jobs| == 6 && t.jobs[3].kind.DraftJob? && Live(t.jobs[5]) && SameTouch(t.jobs[3], t.jobs[5])
    ensures !OnePerTouch(Next(t, Fail(3, 1)).jobs)
  {
    var u := Next(t, Fail(3, 1));
    assert Live(u.jobs[3]) && u.jobs[5] == t.jobs[5] && SameTouch(u.jobs[3], u.jobs[5]);
  }

  // --- a touch that comes too early ---

  const PARKED := Message(0, 0, 0, Email, false, AwaitingDecision, 1, false, false, Some(0), None)

  function Jobs(first: JobStatus, second: JobStatus): seq<Job> {
    [Row(0, ResearchJob, Finished), Row(0, QualifyJob, Finished), Row(0, PlanJob, Finished), Row(0, DraftJob(0), first),
        Row(0, DraftJob(1), second)]
  }

  function Waiting(): State {
    At(9, [Person(0, AwaitingApproval, Some(50), TWO_QUEUED)], Jobs(Finished, Running), [PARKED], HELD,
       [Approval(TouchApproval, 0, Undecided, Some(0), Some(0))], [])
  }

  function OneSent(): State {
    At(9, [Person(0, Contacted, Some(50), TWO_QUEUED[0 := TWO_QUEUED[0].(status := Done, queued := false)])],
        Jobs(Finished, Running),
       [PARKED.(status := Sent)], HELD, [Approval(TouchApproval, 0, Approved, Some(0), Some(0))],
           [SendEvent(0, 0, 1, FullGate)])
  }

  function Rejected(): State {
    At(9, [Person(0, Stopped, Some(50), [TWO_QUEUED[0].(status := Done, queued := false),
        TWO_QUEUED[1].(status := Cancelled)])], Jobs(Finished, Running),
       [PARKED.(status := RejectedByManager)], [HELD[0].(status := Released)],
           [Approval(TouchApproval, 0, Declined, Some(0), Some(0))],
       [SendEvent(0, 0, 1, FullGate)])
  }

  lemma DraftParks()
    ensures Next(ToDraft(9, Running), RunJob(3, Draft(true))) == Waiting()
  {
    hide Evaluate;
    var s := ToDraft(9, Running);
    GateOnEmptyDesk(s, 9, 0, TouchFlags(false));
    assert !SameDayDone(s.enrs[0].plan, 0) && !OpenApprovalElsewhere(s.approvals, 0, 0);
    assert RunOne(s, 3, Draft(true)) == ParkTouch(s, 3, 0, 0);
  }

  lemma ApprovalSends()
    ensures Next(Waiting(), Approve(0, false, false, false)) == OneSent()
  {
    hide Evaluate;
    GateOnEmptyDesk(Waiting(), 9, 0, ApprovedFlags(PARKED));
    assert ApproveItem(Waiting(), 0, false, false, false) == ReleaseMessage(Waiting(), 0, 0, 0);
  }

  lemma LateRejectionHides()
    ensures Next(OneSent(), Decline(0)) == Rejected()
  {
    var u := MarkDeclined(OneSent(), 0);
    var v := CancelPending(SetState(u, 0, Stopped), 0, true);
    assert CancelledPlan(u.enrs[0].plan) == Rejected().enrs[0].plan;
    assert v.enrs == Rejected().enrs;
    assert v.jobs == Rejected().jobs;
    assert ActiveClaim(v.claims, 0) == Some(0) && DeferredElsewhere(v.enrs, 0, 0) == None;
  }

  lemma SecondDraftSends()
    ensures var t := Next(Rejected(), RunJob(4, Draft(false)));
      t.log == [SendEvent(0, 0, 1, FullGate)] + [SendEvent(1, 0, 1, FullGate)] && t.window == 48 * HOUR
  {
    hide Evaluate;
    var s := Rejected();
    GateOnEmptyDesk(s, 9, 0, TouchFlags(false));
    assert !SameDayDone(s.enrs[0].plan, 1) && !OpenApprovalElsewhere(s.approvals, 0, 1);
    assert !HasKey(s.msgs, StepKey(0, 1, Email));
    assert RunOne(s, 4, Draft(false)) == SendStep(s, 4, 0, 1, FullGate);
  }

  /** Nine steps from an enrolled prospect to an approved touch that has left, with a second draft under way. */
  lemma ToOneSent() returns (steps: seq<Step>)
    ensures |steps| == 9 && After(Start(9), steps, 9) == OneSent()
  {
    hide Next, Start, ToDraft, Waiting, OneSent;
    steps := ToDrafts(9);
    DraftParks();
    ApprovalSends();
    OneMore(Start(9), steps, RunJob(3, Draft(true)), ToDraft(9, Running));
    steps := steps + [RunJob(3, Draft(true))];
    OneMore(Start(9), steps, Approve(0, false, false, false), Waiting());
    steps := steps + [Approve(0, false, false, false)];
  }

  /** Approve, send, reject: the gate forgets the touch and lets the next one through in the same instant. */
  lemma TouchTooEarly() returns (s: State, steps: seq<Step>)
    ensures Initial(s) && !Apart(After(s, steps, |steps|).log, s.window)
  {
    hide Next, OneSent, Rejected, Initial;
    s := Start(9);
    StartIsInitial(9);
    steps := ToOneSent();
    LateRejectionHides();
    SecondDraftSends();
    OneMore(s, steps, Decline(0), OneSent());
    steps := steps + [Decline(0)];
    OneMore(s, steps, RunJob(4, Draft(false)), Rejected());
    steps := steps + [RunJob(4, Draft(false))];
    var log := After(s, steps, |steps|).log;
    assert log[0].kind == log[1].kind == FullGate && log[1].at - log[0].at == 0;
  }

  // --- a claim that changes hands ---

  const TWO_HELD := [Claim(0, 0, Lost, 1), Claim(0, 1, Active, 1)]

  function Both(a: EnrState, b: EnrState, x: Option<int>, y: Option<int>): seq<Enrollment> {
    [Person(0, a, x, []), Person(1, b, y, [])]
  }

  function Research(st: JobStatus): seq<Job> { [Row(0, ResearchJob, st), Row(1, ResearchJob, st)] }

  function TwoNew(st: JobStatus): State { At(9, Both(New, New, None, None), Research(st), [], [], [], []) }

  function OneResearched(): State {
    At(9, Both(Researched, New, None, None), [Row(0, ResearchJob, Finished), Row(1, ResearchJob, Running),
        Row(0, QualifyJob, Queued)], [], [], [], [])
  }

  function TwoResearched(st: JobStatus): State {
    At(9, Both(Researched, Researched, None, None),
        Research(Finished) + [Row(0, QualifyJob, st), Row(1, QualifyJob, st)], [], [], [], [])
  }

  function OneQualified(): State {
    At(9, Both(Qualified, Researched, Some(50), None),
       Research(Finished) + [Row(0, QualifyJob, Finished), Row(1, QualifyJob, Running), Row(0, PlanJob, Queued)], [],
           HELD, [], [])
  }

  lemma BothResearched()
    ensures Next(TwoNew(Queued), CLAIM) == TwoNew(Running)
    ensures Next(TwoNew(Running), RunJob(0, Scored(50))) == OneResearched()
    ensures Next(OneResearched(), RunJob(1, Scored(50))) == TwoResearched(Queued)
  {
    hide Claimed, ClaimJobs;
    ClaimsAll(TwoNew(Queued), 0, 1);
  }

  lemma BothStart()
    ensures Next(TwoResearched(Queued), CLAIM) == TwoResearched(Running)
  {
    hide Claimed, ClaimJobs;
    ClaimsAll(TwoResearched(Queued), 2, 3);
  }

  lemma FirstQualifies()
    ensures Next(TwoResearched(Running), RunJob(2, Scored(50))) == OneQualified()
  {
  }

  lemma SecondTakesOver()
    ensures var t := Next(OneQualified(), RunJob(3, Scored(80)));
      && t.claims == TWO_HELD && t.cfg == Settings(9) && |t.enrs| == 2
      && t.enrs[0] == OneQualified().enrs[0].(plan := t.enrs[0].plan) && t.enrs[1].prospect == 0
          && t.enrs[1].campaign == 1
  {
    var s := OneQualified();
    var u := SetEnr(SetJobStatus(s, 3, Finished), 1, s.enrs[1].(state := Researched, score := Some(80)));
    assert ActiveClaim(u.claims, 0) == Some(0) && EnrollmentOf(u.enrs, 0, 0) == Some(0);
    assert Ladder(u, 0, 1, u.claims[0]) == Some(1);
    assert Retire(HELD, 0, Lost) + [Claim(0, 1, Active, 1)] == TWO_HELD;
    assert !HasInbound(u.msgs, 0);
  }

  /** One step more of a contest. */
  lemma ContestGoesOn(s: State, steps: seq<Step>, x: Step, t: State, p: nat)
    requires Contest(s, steps, p) && After(s, steps, |steps|) == t && ContestStep(t, x, p)
    ensures Contest(s, steps + [x], p) && After(s, steps + [x], |steps| + 1) == Next(t, x)
  {
    hide Next, ContestStep;
    OneMore(s, steps, x, t);
    forall k: nat | k < |steps| + 1
      ensures ContestStep(After(s, steps + [x], k), (steps + [x])[k], p)
    {
      SamePrefix(s, steps, x, k);
    }
  }

  lemma Holders()
    ensures Holder([], 0) == None && Holder(HELD, 0) == Some(0) && Holder(TWO_HELD, 0) == Some(1)
  {
    assert TWO_HELD[..1] == [TWO_HELD[0]];
  }

  lemma StandsStill(s: State, x: Step, t: State)
    requires Next(s, x) == t && !x.Override? && t.cfg == s.cfg && |s.enrs| == 2 && |t.enrs| == 2
    requires forall i :: 0 <= i < 2 ==> t.enrs[i].prospect == s.enrs[i].prospect
                                        && t.enrs[i].campaign == s.enrs[i].campaign
    requires forall i :: 0 <= i < 2 && s.enrs[i].score.Some? ==> t.enrs[i].score == s.enrs[i].score
    requires Holder(s.claims, 0).Some? ==> Holder(t.claims, 0).Some?
    ensures ContestStep(s, x, 0)
  {
    hide Next, Holder;
  }

  lemma EveryStepStands()
    ensures ContestStep(TwoNew(Queued), CLAIM, 0) && ContestStep(TwoNew(Running), RunJob(0, Scored(50)), 0)
    ensures ContestStep(OneResearched(), RunJob(1, Scored(50)), 0) && ContestStep(TwoResearched(Queued), CLAIM, 0)
    ensures ContestStep(TwoResearched(Running), RunJob(2, Scored(50)), 0)
        && ContestStep(OneQualified(), RunJob(3, Scored(80)), 0)
  {
    hide Next, ContestStep, Holder;
    Holders();
    BothResearched();
    BothStart();
    FirstQualifies();
    SecondTakesOver();
    StandsStill(TwoNew(Queued), CLAIM, TwoNew(Running));
    StandsStill(TwoNew(Running), RunJob(0, Scored(50)), OneResearched());
    StandsStill(OneResearched(), RunJob(1, Scored(50)), TwoResearched(Queued));
    StandsStill(TwoResearched(Queued), CLAIM, TwoResearched(Running));
    StandsStill(TwoResearched(Running), RunJob(2, Scored(50)), OneQualified());
    StandsStill(OneQualified(), RunJob(3, Scored(80)), Next(OneQualified(), RunJob(3, Scored(80))));
  }

  lemma FromNewToTakenOver()
    ensures Initial(TwoNew(Queued)) && Holder(OneQualified().claims, 0) == Some(0)
    ensures Holder(Next(OneQualified(), RunJob(3, Scored(80))).claims, 0) == Some(1)
  {
    hide Next, Holder;
    Holders();
    SecondTakesOver();
  }

  /** The conditions of the claim theorems are met by a run in which the second campaign qualifies better and takes the
      claim. */
  lemma ClaimChangesHands() returns (s: State, steps: seq<Step>)
    ensures Initial(s) && Contest(s, steps, 0) && |steps| == 6
    ensures HolderAt(s, steps, 0, 5) == Some(0) && HolderAt(s, steps, 0, 6) == Some(1)
  {
    hide Next, Contest, ContestStep, Holder, Initial, TwoNew, OneResearched, TwoResearched, OneQualified;
    s := TwoNew(Queued);
    FromNewToTakenOver();
    BothResearched();
    BothStart();
    FirstQualifies();
    EveryStepStands();
    EmptyContest(s);
    ContestGoesOn(s, [], CLAIM, s, 0);
    steps := [] + [CLAIM];
    ContestGoesOn(s, steps, RunJob(0, Scored(50)), TwoNew(Running), 0);
    steps := steps + [RunJob(0, Scored(50))];
    ContestGoesOn(s, steps, RunJob(1, Scored(50)), OneResearched(), 0);
    steps := steps + [RunJob(1, Scored(50))];
    ContestGoesOn(s, steps, CLAIM, TwoResearched(Queued), 0);
    steps := steps + [CLAIM];
    ContestGoesOn(s, steps, RunJob(2, Scored(50)), TwoResearched(Running), 0);
    steps := steps + [RunJob(2, Scored(50))];
    ContestGoesOn(s, steps, RunJob(3, Scored(80)), OneQualified(), 0);
    SamePrefix(s, steps, RunJob(3, Scored(80)), 5);
    steps := steps + [RunJob(3, Scored(80))];
  }

  lemma EmptyContest(s: State)
    ensures Contest(s, [], 0) && After(s, [], 0) == s
  {
  }
}
