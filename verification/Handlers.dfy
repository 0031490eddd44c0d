/** The job handlers: research, qualification, planning, dispatch of due touches, drafting and sending. */
module Handlers {
  import opened Basics
  import opened Model
  import opened Gate
  import opened Claims

  // --- enrolling ---

  /** A new enrollment of the prospect; a campaign enrolls nobody twice. Research starts at once unless the campaign is
      a draft. */
  function EnrollProspect(s: State, p: nat, c: nat, rep: Option<nat>): (r: State)
    ensures NoNewRunning(s.jobs, r.jobs)
  {
    if p >= |s.prospects| || c >= |s.cfg.campaigns| || EnrollmentOf(s.enrs, p, c).Some? then s
    else
      var t := s.(enrs := s.enrs + [Enrollment(p, c, New, None, [], rep, s.clock, false, false)]);
      if s.cfg.campaigns[c].status == DraftCampaign then t else Enqueue(t, |s.enrs|, ResearchJob, s.clock)
  }

  predicate HasResearch(jobs: seq<Job>, e: nat) {
    exists j | 0 <= j < |jobs| :: jobs[j].enr == e && jobs[j].kind == ResearchJob
  }

  /** What activation does for one new enrollment of the campaign: research, unless it was queued before. */
  function LaunchOne(s: State, e: nat): (r: State)
    requires e < |s.enrs|
    ensures NoNewRunning(s.jobs, r.jobs)
  {
    if s.enrs[e].state != New || HasResearch(s.jobs, e) then s else Enqueue(s, e, ResearchJob, s.clock)
  }

  // --- research and qualification ---

  datatype Judgement = Reject | Review | Qualify
  /** What the rules and the Qualifier answer: a rule rejection, or a judgement with its score. */
  datatype QualifyOutcome = RuleReject | Judged(dec: Judgement, score: int)

  function DoResearch(s: State, j: nat): (r: State)
    requires j < |s.jobs| && s.jobs[j].enr < |s.enrs|
    ensures NoNewRunning(s.jobs, r.jobs)
  {
    var e := s.jobs[j].enr;
    Enqueue(SetJobStatus(SetState(s, e, Researched), j, Finished), e, QualifyJob, s.clock)
  }

  function QualifyOrDefer(s: State, e: nat): (r: State)
    requires e < |s.enrs|
    ensures |r.enrs| == |s.enrs| && KeepsMail(s, r)
    ensures NoNewRunning(s.jobs, r.jobs)
  {
    var (t, dec) := ResolveClaim(s, e);
    match dec
    case ClaimBlock => SetState(t, e, Stopped)
    case ClaimDefer => SetState(t, e, Deferred)
    case ClaimAllow => Enqueue(SetState(t, e, Qualified), e, PlanJob, t.clock)
    case ClaimError => s
  }

  /** The transaction rolls back when resolution finds a claim without its enrollment. */
  predicate QualifyFails(s: State, e: nat)
    requires e < |s.enrs|
  {
    ResolveClaim(s, e).1 == ClaimError
  }

  function DoQualify(s: State, j: nat, q: QualifyOutcome): (r: State)
    requires j < |s.jobs| && s.jobs[j].enr < |s.enrs|
    ensures NoNewRunning(s.jobs, r.jobs)
  {
    var e := s.jobs[j].enr;
    var t := SetJobStatus(s, j, Finished);
    match q
    case RuleReject => SetEnr(t, e, t.enrs[e].(state := Rejected, score := None))
    case Judged(Reject, score) => SetEnr(t, e, t.enrs[e].(state := Rejected, score := Some(score)))
    case Judged(Review, score) =>
      var u := SetEnr(t, e, t.enrs[e].(state := Borderline, score := Some(score)));
      u.(approvals := u.approvals + [Approval(BorderlineReview, e, Undecided, None, None)])
    case Judged(Qualify, score) =>
      var u := SetEnr(t, e, t.enrs[e].(state := Researched, score := Some(score)));
      if QualifyFails(u, e) then s else QualifyOrDefer(u, e)
  }

  // --- dispatch ---

  datatype StepAction = Keep | Skip | Dispatch

  /** What `dispatch_due` does with one plan step. */
  function ActionFor(st: PlanStep, now: int, engaged: bool, warm: bool, mayQueue: bool): StepAction {
    if st.status != Pending || st.due > now || st.queued then Keep
    else if st.cond == IfEngaged && !engaged then Keep
    else if st.cond == IfWarm && !engaged && !warm then Skip
    else if mayQueue then Dispatch
    else Keep
  }

  predicate MayQueue(s: State, e: nat)
    requires e < |s.enrs|
  {
    s.enrs[e].state in {Qualified, Contacted} && !OpenGateApproval(s.approvals, e)
  }

  function ActionAt(s: State, e: nat, i: nat): StepAction
    requires e < |s.enrs| && i < |s.enrs[e].plan|
  {
    ActionFor(s.enrs[e].plan[i], s.clock, HasInbound(s.msgs, e), s.enrs[e].warm, MayQueue(s, e))
  }

  function Acted(st: PlanStep, a: StepAction): PlanStep {
    match a
    case Keep => st
    case Skip => st.(status := Skipped)
    case Dispatch => st.(queued := true)
  }

  function DispatchedPlan(s: State, e: nat): (r: seq<PlanStep>)
    requires e < |s.enrs|
    ensures |r| == |s.enrs[e].plan|
  {
    var plan := s.enrs[e].plan;
    seq(|plan|, i requires 0 <= i < |plan| => Acted(plan[i], ActionAt(s, e, i)))
  }

  /** The draft jobs for the first n steps, in plan order. */
  function DispatchedJobs(s: State, e: nat, n: nat): (r: seq<Job>)
    requires e < |s.enrs| && n <= |s.enrs[e].plan|
    ensures forall k :: 0 <= k < |r| ==>
      (r[k].enr == e && r[k].status == Queued && r[k].kind.DraftJob? && r[k].kind.stepNo < n
          && ActionAt(s, e, r[k].kind.stepNo) == Dispatch)
    ensures forall k, l :: 0 <= k < l < |r| ==> r[k].kind.stepNo < r[l].kind.stepNo
  {
    if n == 0 then []
    else
      DispatchedJobs(s, e, n - 1)
      + if ActionAt(s, e, n - 1) == Dispatch
          then [Job(e, DraftJob(n - 1), Queued, s.enrs[e].plan[n - 1].due, s.clock, 0, 0)] else []
  }

  function DispatchDue(s: State, e: nat): (r: State)
    requires e < |s.enrs|
    ensures |r.enrs| == |s.enrs| && KeepsMail(s, r) && r.claims == s.claims && r.conflicts == s.conflicts
    ensures NoNewRunning(s.jobs, r.jobs)
  {
    SetEnr(s, e, s.enrs[e].(plan := DispatchedPlan(s, e))).(jobs := s.jobs + DispatchedJobs(s, e, |s.enrs[e].plan|))
  }

  function DoPlan(s: State, j: nat, plan: seq<PlanStep>): (r: State)
    requires j < |s.jobs| && s.jobs[j].enr < |s.enrs|
    ensures NoNewRunning(s.jobs, r.jobs)
  {
    var e := s.jobs[j].enr;
    DispatchDue(SetJobStatus(SetEnr(s, e, s.enrs[e].(plan := plan)), j, Finished), e)
  }

  /** Touches already sent to the enrollment. */
  function TouchesSent(msgs: seq<Message>, e: nat): set<nat> {
    set i: nat | i < |msgs| && msgs[i].enr == e && !msgs[i].inbound && !msgs[i].isReply && msgs[i].status == Sent
  }

  predicate PendingLeft(plan: seq<PlanStep>) {
    exists i | 0 <= i < |plan| :: plan[i].status == Pending
  }

  predicate Exhausted(s: State, e: nat)
    requires e < |s.enrs|
  {
    s.enrs[e].state == Contacted && |TouchesSent(s.msgs, e)| >= 4 && PendingLeft(s.enrs[e].plan)
  }

  predicate ScanRow(s: State, e: nat, c: nat)
    requires e < |s.enrs|
  {
    s.enrs[e].campaign == c && s.enrs[e].state in {Qualified, Contacted} && s.enrs[e].plan != []
  }

  function ScanOne(s: State, e: nat): (r: State)
    requires e < |s.enrs|
    ensures |r.enrs| == |s.enrs| && KeepsMail(s, r)
    ensures NoNewRunning(s.jobs, r.jobs)
  {
    if Exhausted(s, e) then SetState(ReleaseClaim(CancelPending(s, e, false), e), e, Stopped)
    else DispatchDue(s, e)
  }

  function ScanFrom(s: State, c: nat, e: nat): (r: State)
    requires e <= |s.enrs|
    ensures |r.enrs| == |s.enrs| && KeepsMail(s, r)
    decreases |s.enrs| - e
    ensures NoNewRunning(s.jobs, r.jobs)
  {
    if e == |s.enrs| then s
    else ScanFrom(if ScanRow(s, e, c) then ScanOne(s, e) else s, c, e + 1)
  }

  /** The due scan of one campaign; a campaign that is not live yields no rows. */
  function ScanDue(s: State, c: nat): (r: State)
    ensures |r.enrs| == |s.enrs| && KeepsMail(s, r)
    ensures NoNewRunning(s.jobs, r.jobs)
  {
    if CampaignOf(s.cfg, c).status == LiveCampaign then ScanFrom(s, c, 0) else s
  }

  // --- draft and send ---

  /** What the Writer answers: no knowledge, or a draft and, should the touch move to e-mail, a second one.
      `bad` says that the grounding check found a claim without evidence. */
  datatype DraftOutcome = KnowledgeGap | Drafted(bad: bool, badEmail: bool)

  predicate Allowed(s: State, e: Enrollment, ch: Channel) {
    ChannelOn(s, CampaignOf(s.cfg, e.campaign), ch) && ch in RepOf(s.cfg, e).channels
  }

  predicate SameDayDone(plan: seq<PlanStep>, n: nat)
    requires n < |plan|
  {
    exists i | 0 <= i < |plan| :: i != n && plan[i].status == Done && plan[i].day == plan[n].day
  }

  function SetStep(s: State, e: nat, n: nat, st: PlanStep): State
    requires e < |s.enrs| && n < |s.enrs[e].plan|
  {
    SetEnr(s, e, s.enrs[e].(plan := s.enrs[e].plan[n := st]))
  }

  function Advance(s: State, e: nat, from: set<EnrState>, to: EnrState): (r: State)
    requires e < |s.enrs|
    ensures |r.enrs| == |s.enrs| && KeepsMail(s, r) && r.claims == s.claims && r.conflicts == s.conflicts
        && r.jobs == s.jobs
  {
    if s.enrs[e].state in from then SetState(s, e, to) else s
  }

  /** A drafted touch that waits for a manager. */
  function ParkTouch(s: State, j: nat, e: nat, n: nat): (r: State)
    requires j < |s.jobs| && e < |s.enrs| && n < |s.enrs[e].plan|
    ensures NoNewRunning(s.jobs, r.jobs)
  {
    var ch := s.enrs[e].plan[n].ch;
    var t := AddMessage(s, MakeMessage(s, e, ch, false, AwaitingDecision, false, false, Some(n), None));
    var kind := if ch == Voice then VoiceApproval else TouchApproval;
    var u := SetJobStatus(t, j, Finished).(approvals :=
        t.approvals + [Approval(kind, e, Undecided, Some(|s.msgs|), Some(n))]);
    Advance(u, e, {Qualified}, AwaitingApproval)
  }

  /** Writes the outbound message under its idempotency key and advances the enrollment. */
  function SendStep(s: State, j: nat, e: nat, n: nat, kind: SendKind): (r: State)
    requires j < |s.jobs| && e < |s.enrs| && n < |s.enrs[e].plan|
    ensures NoNewRunning(s.jobs, r.jobs)
  {
    var st := s.enrs[e].plan[n];
    var key := StepKey(e, n, st.ch);
    if HasKey(s.msgs, key) then SetJobStatus(s, j, Finished)
    else
      var t := AddSent(s, MakeMessage(s, e, st.ch, false, Sent, false, false, Some(n), Some(key)), kind);
      var u := SetStep(t, e, n, st.(status := Done, queued := false));
      SetJobStatus(Advance(u, e, {Qualified, AwaitingApproval}, Contacted), j, Finished)
  }

  /** The branches of `do_draft` after the gate answered `g` for step n. */
  function Conclude(s: State, j: nat, e: nat, n: nat, bad: bool, g: Verdict, sameDay: bool): (r: State)
    requires j < |s.jobs| && e < |s.enrs| && n < |s.enrs[e].plan|
    ensures NoNewRunning(s.jobs, r.jobs)
  {
    var st := s.enrs[e].plan[n];
    if g.dec == Hold then s.(jobs := s.jobs[j := s.jobs[j].(status := Queued, runAt := s.clock + MINUTE)])
    else if bad && g.dec != Block && g.dec != Defer then ParkTouch(s, j, e, n)
    else if g.dec == Block then SetJobStatus(SetStep(s, e, n, st.(status := Blocked)), j, Finished)
    else if g.dec == Defer then
      var until := if g.until.Some? && g.until.value != 0 then g.until.value else s.clock + 6 * HOUR;
      Enqueue(SetJobStatus(SetStep(s, e, n, st.(due := until, queued := true)), j, Finished), e, DraftJob(n), until)
    else if g.dec == NeedsApproval then ParkTouch(s, j, e, n)
    else SendStep(s, j, e, n, if sameDay then SameDay else FullGate)
  }

  function TouchFlags(sameDay: bool): Flags { Flags(false, false, false, false, sameDay) }

  /** `do_draft` with the verdicts the gate gives for the planned channel and, after a replan, for e-mail. */
  function DraftWith(s: State, j: nat, e: nat, n: nat, d: DraftOutcome, g: Verdict, gEmail: Verdict): (r: State)
    requires j < |s.jobs| && e < |s.enrs|
    ensures NoNewRunning(s.jobs, r.jobs)
  {
    if n >= |s.enrs[e].plan| then s
    else
      var st := s.enrs[e].plan[n];
      var sameDay := SameDayDone(s.enrs[e].plan, n);
      if OpenApprovalElsewhere(s.approvals, e, n)
          then SetJobStatus(SetStep(s, e, n, st.(queued := false)), j, JobCancelled)
      else if d.KnowledgeGap? then SetJobStatus(s, j, Finished)
      else if g.dec == Replan then
        if st.ch != Email && Allowed(s, s.enrs[e], Email) then
          Conclude(SetStep(s, e, n, st.(ch := Email)), j, e, n, d.badEmail, gEmail, sameDay)
        else SetJobStatus(SetStep(s, e, n, st.(status := Skipped)), j, Finished)
      else Conclude(s, j, e, n, d.bad, g, sameDay)
  }

  function PlannedVerdict(s: State, e: nat, n: nat): Verdict
    requires e < |s.enrs|
  {
    if n < |s.enrs[e].plan| then Evaluate(s, e, s.enrs[e].plan[n].ch, TouchFlags(SameDayDone(s.enrs[e].plan, n)))
    else Verdict(Block, NoReason, None)
  }

  function EmailVerdict(s: State, e: nat, n: nat): Verdict
    requires e < |s.enrs|
  {
    if n < |s.enrs[e].plan| then Evaluate(s, e, Email, TouchFlags(SameDayDone(s.enrs[e].plan, n)))
    else Verdict(Block, NoReason, None)
  }

  function DoDraft(s: State, j: nat, n: nat, d: DraftOutcome): (r: State)
    requires j < |s.jobs| && s.jobs[j].enr < |s.enrs|
    ensures NoNewRunning(s.jobs, r.jobs)
  {
    var e := s.jobs[j].enr;
    DraftWith(s, j, e, n, d, PlannedVerdict(s, e, n), EmailVerdict(s, e, n))
  }
}
