/** Inbound replies, the answers to them, and what managers decide: approvals, conflicts, stops. */
module Replies {
  import opened Basics
  import opened Model
  import opened Gate
  import opened Claims
  import opened Handlers

  /** The class of an inbound reply. */
  datatype ReplyClass =
    | OutOfOffice | Unsubscribe | Escalate | NotInterested | Positive | Book
    | Objection(sub: nat, pricing: bool) | NotNowReply | OtherReply

  function EnqueueReply(s: State, e: nat, ch: Channel, compose: Compose, inbound: nat, ack: bool,
      pricing: bool): State {
    Enqueue(s, e, ReplyJob(ReplyPayload(ch, compose, inbound, ack, pricing)), s.clock)
  }

  /** Every enrollment of the prospect becomes opted out and loses its pending steps. */
  function OptOutAll(enrs: seq<Enrollment>, p: nat): (r: seq<Enrollment>)
    ensures |r| == |enrs|
  {
    seq(|enrs|, i requires 0 <= i < |enrs| =>
      if enrs[i].prospect == p then enrs[i].(state := OptedOut, plan := CancelledPlan(enrs[i].plan)) else enrs[i])
  }

  /** Every queued draft job of the prospect's enrollments is cancelled. */
  function CancelJobsOf(jobs: seq<Job>, enrs: seq<Enrollment>, p: nat): (r: seq<Job>)
    ensures |r| == |jobs|
  {
    seq(|jobs|, i requires 0 <= i < |jobs| =>
      if jobs[i].enr < |enrs| && enrs[jobs[i].enr].prospect == p && jobs[i].status == Queued && jobs[i].kind.DraftJob?
      then jobs[i].(status := JobCancelled) else jobs[i])
  }

  function OptOut(s: State, p: nat): State {
    var supp := if p < |s.prospects| then s.suppressed + {ByEmail(s.prospects[p].email)} else s.suppressed;
    s.(suppressed := supp, enrs := OptOutAll(s.enrs, p), jobs := CancelJobsOf(s.jobs, s.enrs, p), claims :=
        Retire(s.claims, p, Released))
  }

  function BookMeeting(s: State, e: nat): (r: State)
    requires e < |s.enrs|
    ensures |r.enrs| == |s.enrs| && KeepsMail(s, r)
    ensures NoNewRunning(s.jobs, r.jobs)
  {
    ReleaseClaim(SetState(s, e, MeetingBooked), e)
  }

  predicate OpenVoiceApproval(approvals: seq<Approval>, e: nat) {
    exists i | 0 <= i < |approvals| :: approvals[i].enr == e && approvals[i].status == Undecided
                                       && approvals[i].kind == VoiceApproval
  }

  function PlanCall(s: State, e: nat): (r: State)
    requires e < |s.enrs|
    ensures |r.enrs| == |s.enrs|
    ensures NoNewRunning(s.jobs, r.jobs)
  {
    if OpenVoiceApproval(s.approvals, e) then s
    else SetState(s.(approvals := s.approvals + [Approval(VoiceApproval, e, Undecided, None, None)]), e, AwaitingVoice)
  }

  /** The inbound row and the warm mark, common to every class. */
  function Received(s: State, e: nat, ch: Channel): (r: State)
    requires e < |s.enrs|
    ensures |r.enrs| == |s.enrs| && |r.msgs| == |s.msgs| + 1
  {
    var t := AddMessage(s, MakeMessage(s, e, ch, true, Sent, false, false, None, None));
    SetEnr(t, e, t.enrs[e].(warm := true))
  }

  /** What each class does once the pending steps are cancelled. */
  function React(s: State, e: nat, ch: Channel, cls: ReplyClass, inbound: nat, hotCall: bool): (r: State)
    requires e < |s.enrs|
    ensures NoNewRunning(s.jobs, r.jobs)
  {
    match cls
    case OutOfOffice => s
    case Unsubscribe => EnqueueReply(OptOut(s, s.enrs[e].prospect), e, ch, Unsub, inbound, true, false)
    case Escalate => EnqueueReply(SetState(s, e, Escalated), e, ch, EscalationNote, inbound, true, false)
    case NotInterested => ReleaseClaim(SetState(s, e, Stopped), e)
    case Positive => Offer(s, e, ch, inbound, hotCall)
    case Book =>
      if !s.enrs[e].slots then Offer(s, e, ch, inbound, hotCall)
      else EnqueueReply(BookMeeting(s, e), e, ch, Confirm, inbound, false, false)
    case Objection(sub, pricing) => EnqueueReply(SetState(s, e, RepliedObj), e, ch, ObjectionAnswer(sub), inbound,
        false, pricing)
    case NotNowReply => EnqueueReply(SetState(s, e, RepliedNotNow), e, ch, NotNow, inbound, false, false)
    case OtherReply => EnqueueReply(SetState(s, e, RepliedObj), e, ch, AnswerQuestion, inbound, false, false)
  }

  /** `hotCall` stands for the conditions under which a positive reply also plans a voice call. */
  function IngestReply(s: State, e: nat, ch: Channel, cls: ReplyClass, hotCall: bool): (r: State)
    requires e < |s.enrs|
    ensures NoNewRunning(s.jobs, r.jobs)
  {
    var r := Received(s, e, ch);
    if cls == OutOfOffice then r else React(CancelPending(r, e, true), e, ch, cls, |s.msgs|, hotCall)
  }

  function Offer(s: State, e: nat, ch: Channel, inbound: nat, hotCall: bool): (r: State)
    requires e < |s.enrs|
    ensures |r.enrs| == |s.enrs|
    ensures NoNewRunning(s.jobs, r.jobs)
  {
    var t := EnqueueReply(SetEnr(s, e, s.enrs[e].(state := RepliedPos, slots := true)), e, ch, OfferSlots, inbound,
        false, false);
    if hotCall then PlanCall(t, e) else t
  }

  // --- answering ---

  function ReplyFlags(pl: ReplyPayload): Flags { Flags(pl.ack, true, pl.pricing, false, false) }

  /** `send_reply` with the gate's verdict `g0`. An acknowledgement overrides block, defer and replan. */
  function ReplyWith(s: State, j: nat, e: nat, pl: ReplyPayload, g0: Verdict): (r: State)
    requires j < |s.jobs| && e < |s.enrs|
    ensures NoNewRunning(s.jobs, r.jobs)
  {
    var dec := if pl.ack && g0.dec in {Block, Defer, Replan} then Allow else g0.dec;
    if dec == Hold then s.(jobs := s.jobs[j := s.jobs[j].(status := Queued, runAt := s.clock + MINUTE)])
    else if dec in {Block, Defer, Replan} then SetJobStatus(s, j, Finished)
    else if dec == NeedsApproval then
      var t := AddMessage(s, MakeMessage(s, e, pl.ch, false, AwaitingDecision, true, false, None, None));
      SetJobStatus(t, j, Finished).(approvals := t.approvals
          + [Approval(ReplyApproval, e, Undecided, Some(|s.msgs|), None)])
    else
      var key := ReplyKey(e, pl.inbound, pl.compose);
      if HasKey(s.msgs, key) then SetJobStatus(s, j, Finished)
      else
        SetJobStatus(AddSent(s, MakeMessage(s, e, pl.ch, false, Sent, true, pl.ack, None, Some(key)), if pl.ack then Ack
            else GatedReply), j, Finished)
  }

  function SendReply(s: State, j: nat, pl: ReplyPayload): (r: State)
    requires j < |s.jobs| && s.jobs[j].enr < |s.enrs|
    ensures NoNewRunning(s.jobs, r.jobs)
  {
    var e := s.jobs[j].enr;
    ReplyWith(s, j, e, pl, Evaluate(s, e, pl.ch, ReplyFlags(pl)))
  }

  // --- approvals ---

  function Decide(s: State, a: nat, st: ApprovalStatus): State
    requires a < |s.approvals|
  {
    s.(approvals := s.approvals[a := s.approvals[a].(status := st)])
  }

  function ApprovedFlags(m: Message): Flags { Flags(false, m.isReply, false, true, false) }

  /** The pending message leaves now; its plan step is done. */
  function ReleaseMessage(s: State, a: nat, e: nat, row: nat): State
    requires a < |s.approvals| && e < |s.enrs| && row < |s.msgs|
  {
    var m := s.msgs[row];
    var t := Decide(s, a, Approved).(
      msgs := s.msgs[row := m.(status := Sent, createdAt := s.clock)],
      log := s.log + [SendEvent(row, m.prospect, s.clock, if m.isReply then GatedReply else FullGate)]);
    var plan := t.enrs[e].plan;
    var u := if m.stepNo.Some? && m.stepNo.value < |plan|
             then SetStep(t, e, m.stepNo.value, plan[m.stepNo.value].(status := Done, queued := false)) else t;
    Advance(u, e, {AwaitingApproval, Qualified}, Contacted)
  }

  /** A call without a pending outcome is recorded as a message and ends in a meeting. */
  function CallPlaced(s: State, e: nat, awaiting: bool): (r: State)
    requires e < |s.enrs|
    ensures NoNewRunning(s.jobs, r.jobs)
  {
    if awaiting then s
    else
      var t := AddSent(s, MakeMessage(s, e, Voice, false, Sent, false, false, None, None), Call);
      if t.enrs[e].state == MeetingBooked then t else BookMeeting(t, e)
  }

  /** `unsupported` says that a segment of the draft has no evidence, `edited` that the manager changed the text,
      `awaiting` that a live call was dispatched and its outcome is still to come. */
  function ApproveWith(s: State, a: nat, unsupported: bool, edited: bool, awaiting: bool, g: Verdict): (r: State)
    requires a < |s.approvals| && s.approvals[a].enr < |s.enrs|
    ensures NoNewRunning(s.jobs, r.jobs)
  {
    var ap := s.approvals[a];
    if ap.status != Undecided then s
    else if ap.kind == BorderlineReview then
      var t := Decide(s, a, Approved);
      if QualifyFails(t, ap.enr) then s else QualifyOrDefer(t, ap.enr)
    else if ap.kind == VoiceApproval then CallPlaced(Decide(s, a, Approved), ap.enr, awaiting)
    else if ap.msg.None? || ap.msg.value >= |s.msgs| then s
    else if unsupported && !edited then s
    else if g.dec != Allow && g.dec != NeedsApproval then s
    else ReleaseMessage(s, a, ap.enr, ap.msg.value)
  }

  function ApprovalVerdict(s: State, a: nat): Verdict
    requires a < |s.approvals| && s.approvals[a].enr < |s.enrs|
  {
    var ap := s.approvals[a];
    if ap.msg.Some? && ap.msg.value < |s.msgs|
        then Evaluate(s, ap.enr, s.msgs[ap.msg.value].ch, ApprovedFlags(s.msgs[ap.msg.value]))
    else Verdict(Block, NoReason, None)
  }

  function ApproveItem(s: State, a: nat, unsupported: bool, edited: bool, awaiting: bool): (r: State)
    requires a < |s.approvals| && s.approvals[a].enr < |s.enrs|
    ensures NoNewRunning(s.jobs, r.jobs)
  {
    ApproveWith(s, a, unsupported, edited, awaiting, ApprovalVerdict(s, a))
  }

  /** The decision and the message row of a rejection. */
  function MarkDeclined(s: State, a: nat): State
    requires a < |s.approvals|
  {
    var t := Decide(s, a, Declined);
    var row := s.approvals[a].msg;
    if row.Some? && row.value < |t.msgs|
        then t.(msgs := t.msgs[row.value := t.msgs[row.value].(status := RejectedByManager)]) else t
  }

  /** Rejecting does not look at the approval's status, so a decided approval can be rejected as well. */
  function RejectItem(s: State, a: nat): (r: State)
    requires a < |s.approvals| && s.approvals[a].enr < |s.enrs|
    ensures NoNewRunning(s.jobs, r.jobs)
  {
    var u, e := MarkDeclined(s, a), s.approvals[a].enr;
    match s.approvals[a].kind
    case BorderlineReview => SetState(u, e, Rejected)
    case VoiceApproval => SetState(u, e, RepliedPos)
    case TouchApproval => StopProspect(u, e)
    case ReplyApproval => u
  }

  /** The enrollment stops, its pending touches go, and the claim is given up. */
  function StopProspect(s: State, e: nat): (r: State)
    requires e < |s.enrs|
    ensures |r.enrs| == |s.enrs| && KeepsMail(s, r)
    ensures NoNewRunning(s.jobs, r.jobs)
  {
    ReleaseClaim(CancelPending(SetState(s, e, Stopped), e, true), e)
  }

  // --- conflicts, stops and people ---

  /** A manager gives the prospect of conflict `x` to campaign `c`. */
  function ResolveConflict(s: State, x: nat, c: nat): (r: State)
    requires x < |s.conflicts|
    ensures |r.enrs| == |s.enrs| && NoNewRunning(s.jobs, r.jobs)
  {
    var k := s.conflicts[x];
    if c != k.holder && c != k.wanting then s
    else if k.holder == k.wanting then s
    else
      var lose := if c == k.holder then k.wanting else k.holder;
      var w, l := EnrollmentOf(s.enrs, k.prospect, c), EnrollmentOf(s.enrs, k.prospect, lose);
      var s1 := TransferClaim(s.(conflicts := s.conflicts[x := k.(status := Resolved, winner := Some(c))]), k.prospect,
          c);
      var s2 := if l.None? then s1
          else Advance(CancelPending(s1, l.value, true), l.value, {Qualified, Contacted}, Deferred);
      if w.Some? && s2.enrs[w.value].state == Deferred
      then Enqueue(SetState(s2, w.value, Qualified), w.value, PlanJob, s2.clock) else s2
  }

  function EscalateByHand(s: State, e: nat): (r: State)
    requires e < |s.enrs|
    ensures NoNewRunning(s.jobs, r.jobs)
  {
    CancelPending(SetState(s, e, Escalated), e, true)
  }

  /** A person writes to the prospect; closing an escalation also moves the enrollment on. */
  function HumanMessage(s: State, e: nat, ch: Channel, closes: bool): State
    requires e < |s.enrs|
  {
    var t := AddSent(s, MakeMessage(s, e, ch, false, Sent, true, false, None, None), ByHuman);
    if closes then SetState(t, e, RepliedPos) else t
  }
}
