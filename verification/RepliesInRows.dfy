/** What an inbound reply, its answer and a manager's decision leave in the tables. */
module RepliesInRows {
  import opened Basics
  import opened Model
  import opened Gate
  import opened Claims
  import opened Handlers
  import opened Replies
  import opened Deferrals
  import opened GateInRows
  import opened ClaimsInRows
  import opened HandlersInRows

  // --- inbound replies ---

  /** The row of the inbound message. */
  function InboundRow(s: State, e: nat, ch: Channel): Message
    requires e < |s.enrs|
  {
    Message(e, s.enrs[e].prospect, s.enrs[e].campaign, ch, true, Sent, s.clock, false, false, None, None)
  }

  /** An out-of-office note is filed and warms the prospect; nothing else happens. */
  lemma OutOfOfficeInRows(s: State, e: nat, ch: Channel, hotCall: bool)
    requires e < |s.enrs|
    ensures IngestReply(s, e, ch, OutOfOffice, hotCall)
         == s.(msgs := s.msgs + [InboundRow(s, e, ch)], enrs := s.enrs[e := s.enrs[e].(warm := true)])
  {
  }

  /** A hot positive answer asks for a call, unless one is asked for already. */
  predicate AsksForCall(s: State, e: nat, cls: ReplyClass, hotCall: bool)
    requires e < |s.enrs|
  {
    && hotCall && (cls == Positive || (cls == Book && !s.enrs[e].slots))
    && forall i | 0 <= i < |s.approvals| ::
      !(s.approvals[i].kind == VoiceApproval && s.approvals[i].enr == e && s.approvals[i].status == Undecided)
  }

  /** Where the reply moves the enrollment. */
  function MovesTo(s: State, e: nat, cls: ReplyClass, hotCall: bool): EnrState
    requires e < |s.enrs| && cls != OutOfOffice
  {
    match cls
    case Unsubscribe => OptedOut
    case Escalate => Escalated
    case NotInterested => Stopped
    case Positive => if AsksForCall(s, e, cls, hotCall) then AwaitingVoice else RepliedPos
    case Book =>
      if s.enrs[e].slots then MeetingBooked
      else if AsksForCall(s, e, cls, hotCall) then AwaitingVoice else RepliedPos
    case Objection(_, _) => RepliedObj
    case NotNowReply => RepliedNotNow
    case OtherReply => RepliedObj
  }

  /** The answer that is queued: what it says, whether it is an acknowledgement, and whether it speaks of prices. */
  function AnswerTo(s: State, e: nat, cls: ReplyClass): Option<(Compose, bool, bool)>
    requires e < |s.enrs| && cls != OutOfOffice
  {
    match cls
    case Unsubscribe => Some((Unsub, true, false))
    case Escalate => Some((EscalationNote, true, false))
    case NotInterested => None
    case Positive => Some((OfferSlots, false, false))
    case Book => Some((if s.enrs[e].slots then Confirm else OfferSlots, false, false))
    case Objection(sub, pricing) => Some((ObjectionAnswer(sub), false, pricing))
    case NotNowReply => Some((NotNow, false, false))
    case OtherReply => Some((AnswerQuestion, false, false))
  }

  /** Reply classes after which the enrollment gives the claim up. */
  predicate EndsHere(s: State, e: nat, cls: ReplyClass)
    requires e < |s.enrs|
  {
    cls == NotInterested || (cls == Book && s.enrs[e].slots)
  }

  /** No step of the enrollment is pending any more, the other steps are as they were. */
  ghost predicate NothingPending(a: seq<PlanStep>, b: seq<PlanStep>) {
    StepsCancelled(a, b) && forall k :: 0 <= k < |b| ==> b[k].status != Pending
  }

  /** No queued draft job of the enrollment is left, and the first |a| jobs are otherwise as they were. */
  ghost predicate NoQueuedDraft(a: seq<Job>, b: seq<Job>, e: nat) {
    && |a| <= |b| && DraftsCancelled(a, b[..|a|], e)
    && forall j :: 0 <= j < |b| ==> !(b[j].enr == e && b[j].status == Queued && b[j].kind.DraftJob?)
  }

  /** The job that answers, for the same channel and the inbound row. */
  function AnswerJob(s: State, e: nat, ch: Channel, a: Option<(Compose, bool, bool)>): seq<Job> {
    if a.None? then []
    else [Job(e, ReplyJob(ReplyPayload(ch, a.value.0, |s.msgs|, a.value.1, a.value.2)), Queued, s.clock, s.clock, 0, 0)]
  }

  /** The tables once the inbound row is filed and the pending work is cancelled. */
  function Superseded(s: State, e: nat, ch: Channel): State
    requires e < |s.enrs|
  {
    CancelPending(Received(s, e, ch), e, true)
  }

  lemma SupersededInRows(s: State, e: nat, ch: Channel)
    requires e < |s.enrs|
    ensures var u := Superseded(s, e, ch);
      && u == s.(msgs := s.msgs + [InboundRow(s, e, ch)], enrs := u.enrs, jobs := u.jobs)
      && u.enrs == s.enrs[e := s.enrs[e].(warm := true, plan := u.enrs[e].plan)]
      && NothingPending(s.enrs[e].plan, u.enrs[e].plan) && |u.jobs| == |s.jobs| && NoQueuedDraft(s.jobs, u.jobs, e)
  {
    hide CancelPending, StepsCancelled, DraftsCancelled;
    var r := Received(s, e, ch);
    CancelInRows(r, e);
    CancelledIsNotPending(r.enrs[e].plan, CancelPending(r, e, true).enrs[e].plan);
    NoneQueued(r.jobs, CancelPending(r, e, true).jobs, e);
    assert CancelPending(r, e, true).jobs[..|s.jobs|] == CancelPending(r, e, true).jobs;
  }

  lemma CancelledIsNotPending(a: seq<PlanStep>, b: seq<PlanStep>)
    requires StepsCancelled(a, b)
    ensures forall k :: 0 <= k < |b| ==> b[k].status != Pending
  {
  }

  lemma NoneQueued(a: seq<Job>, b: seq<Job>, e: nat)
    requires DraftsCancelled(a, b, e)
    ensures |b| == |a| && forall j :: 0 <= j < |b| ==> !(b[j].enr == e && b[j].status == Queued && b[j].kind.DraftJob?)
  {
  }

  /** Any reply but an absence note or an opt-out: the pending steps and queued drafts of the enrollment go, the state
      follows the class, its answer is queued, and the claim is given up exactly by the classes that end here. */
  lemma ReplyInRows(s: State, e: nat, ch: Channel, cls: ReplyClass, hotCall: bool)
    requires e < |s.enrs| && cls != OutOfOffice && cls != Unsubscribe && !EndsHere(s, e, cls)
    ensures
      var t, calls := IngestReply(s, e, ch, cls, hotCall), AsksForCall(s, e, cls, hotCall);
      && t == s.(msgs := s.msgs + [InboundRow(s, e, ch)], enrs := t.enrs, jobs := t.jobs, approvals := t.approvals)
      && |t.enrs| == |s.enrs|
      && t.enrs == s.enrs[e := s.enrs[e].(warm := true, plan := t.enrs[e].plan, state := MovesTo(s, e, cls, hotCall),
                                          slots := s.enrs[e].slots || cls == Positive || cls == Book)]
      && NothingPending(s.enrs[e].plan, t.enrs[e].plan) && NoQueuedDraft(s.jobs, t.jobs, e)
      && t.jobs[|s.jobs|..] == AnswerJob(s, e, ch, AnswerTo(s, e, cls))
      && t.approvals == s.approvals + if calls then [Approval(VoiceApproval, e, Undecided, None, None)] else []
  {
    hide CancelPending, NothingPending, NoQueuedDraft, OpenVoiceApproval, AsksForCall;
    CallAsked(s, e, cls, hotCall);
    var u := Superseded(s, e, ch);
    SupersededInRows(s, e, ch);
    StillNoDraft(s.jobs, u.jobs, AnswerJob(s, e, ch, AnswerTo(s, e, cls)), e);
  }

  lemma CallAsked(s: State, e: nat, cls: ReplyClass, hotCall: bool)
    requires e < |s.enrs|
    ensures AsksForCall(s, e, cls, hotCall)
       <==> hotCall && (cls == Positive || (cls == Book && !s.enrs[e].slots)) && !OpenVoiceApproval(s.approvals, e)
  {
  }

  lemma StillNoDraft(a: seq<Job>, b: seq<Job>, more: seq<Job>, e: nat)
    requires NoQueuedDraft(a, b, e) && |b| == |a| && forall k :: 0 <= k < |more| ==> !more[k].kind.DraftJob?
    ensures NoQueuedDraft(a, b + more, e) && (b + more)[|a|..] == more
  {
    assert (b + more)[..|a|] == b[..|a|];
  }

  /** The prospect's active claim of campaign c is released, all other rows stay. */
  ghost predicate ClaimGivenUp(a: seq<Claim>, b: seq<Claim>, q: nat, c: nat) {
    |b| == |a| && forall k :: 0 <= k < |a| ==>
      b[k] == if a[k].prospect == q && a[k].campaign == c && a[k].status == Active
              then a[k].(status := Released) else a[k]
  }

  lemma ReleaseKeepsOwnRow(s: State, e: nat)
    requires OneActive(s.claims) && e < |s.enrs|
    ensures
      var t := ReleaseClaim(s, e);
      && ClaimGivenUp(s.claims, t.claims, s.enrs[e].prospect, s.enrs[e].campaign) && t.enrs[e] == s.enrs[e]
      && |t.jobs| >= |s.jobs| && t.jobs[..|s.jobs|] == s.jobs
      && forall j :: |s.jobs| <= j < |t.jobs| ==> !t.jobs[j].kind.DraftJob?
  {
    var q, c := s.enrs[e].prospect, s.enrs[e].campaign;
    var a := ActiveClaim(s.claims, q);
    hide ActiveClaim, DeferredElsewhere;
    forall k: nat | k < |s.claims| && s.claims[k].prospect == q && s.claims[k].status == Active
      ensures a == Some(k)
    {
      SameClaim(s.claims, k, a.value);
    }
  }

  /** A refusal, or the choice of an offered slot: as before, and the claim is given up, which may wake another
      campaign. */
  lemma EndingReplyInRows(s: State, e: nat, ch: Channel, cls: ReplyClass, hotCall: bool)
    requires e < |s.enrs| && EndsHere(s, e, cls) && OneActive(s.claims)
    ensures
      var t, u := IngestReply(s, e, ch, cls, hotCall), Superseded(s, e, ch);
      var r := ReleaseClaim(u.(enrs := u.enrs[e := u.enrs[e].(state := MovesTo(s, e, cls, hotCall))]), e);
      && t == r.(jobs := r.jobs + AnswerJob(s, e, ch, AnswerTo(s, e, cls)))
      && t.enrs[e] == s.enrs[e].(warm := true, plan := t.enrs[e].plan, state := MovesTo(s, e, cls, hotCall))
      && NothingPending(s.enrs[e].plan, t.enrs[e].plan) && NoQueuedDraft(s.jobs, t.jobs, e)
      && ClaimGivenUp(s.claims, t.claims, s.enrs[e].prospect, s.enrs[e].campaign)
  {
    hide CancelPending, ReleaseClaim, NothingPending, NoQueuedDraft, ClaimGivenUp, OneActive;
    var u := Superseded(s, e, ch);
    SupersededInRows(s, e, ch);
    var v := u.(enrs := u.enrs[e := u.enrs[e].(state := MovesTo(s, e, cls, hotCall))]);
    ReleaseKeepsOwnRow(v, e);
    var r := ReleaseClaim(v, e);
    var answer := AnswerJob(s, e, ch, AnswerTo(s, e, cls));
    assert IngestReply(s, e, ch, cls, hotCall) == r.(jobs := r.jobs + answer);
    MoreJobs(s.jobs, u.jobs, r.jobs + answer, e);
  }

  lemma MoreJobs(a: seq<Job>, b: seq<Job>, c: seq<Job>, e: nat)
    requires NoQueuedDraft(a, b, e) && |b| == |a| <= |c| && c[..|a|] == b
    requires forall j :: |a| <= j < |c| ==> !c[j].kind.DraftJob?
    ensures NoQueuedDraft(a, c, e)
  {
    assert b[..|a|] == b;
    forall j | 0 <= j < |a| ensures c[j] == b[j] { assert c[..|a|][j] == c[j]; }
  }

  /** An opt-out: every enrollment of the prospect is opted out without pending steps or queued drafts, the address is
      listed, every active claim on the prospect is released, and the confirmation is queued. */
  lemma OptOutInRows(s: State, e: nat, ch: Channel, hotCall: bool)
    requires e < |s.enrs| && s.enrs[e].prospect < |s.prospects|
    ensures
      var t, p := IngestReply(s, e, ch, Unsubscribe, hotCall), s.enrs[e].prospect;
      && t == s.(msgs := s.msgs + [InboundRow(s, e, ch)], enrs := t.enrs, jobs := t.jobs, claims := t.claims,
                 suppressed := s.suppressed + {ByEmail(s.prospects[p].email)})
      && |t.enrs| == |s.enrs| && |t.claims| == |s.claims| && |t.jobs| == |s.jobs| + 1
      && (forall i :: 0 <= i < |s.enrs| && s.enrs[i].prospect != p ==> t.enrs[i] == s.enrs[i])
      && (forall i :: 0 <= i < |s.enrs| && s.enrs[i].prospect == p ==>
            && t.enrs[i] == s.enrs[i].(state := OptedOut, plan := t.enrs[i].plan, warm := s.enrs[i].warm || i == e)
            && NothingPending(s.enrs[i].plan, t.enrs[i].plan))
      && (forall k :: 0 <= k < |s.claims| ==>
            t.claims[k] == if s.claims[k].prospect == p && s.claims[k].status == Active
                           then s.claims[k].(status := Released) else s.claims[k])
      && (forall j :: 0 <= j < |s.jobs| ==>
            t.jobs[j] == if s.jobs[j].enr < |s.enrs| && s.enrs[s.jobs[j].enr].prospect == p
                            && s.jobs[j].status == Queued && s.jobs[j].kind.DraftJob?
                         then s.jobs[j].(status := JobCancelled) else s.jobs[j])
      && t.jobs[|s.jobs|..] == AnswerJob(s, e, ch, Some((Unsub, true, false)))
  {
    hide CancelPending;
    var u, p := Superseded(s, e, ch), s.enrs[e].prospect;
    SupersededInRows(s, e, ch);
    var o := OptOut(u, p);
    OptOutTables(u, p);
    hide OptOut;
    assert IngestReply(s, e, ch, Unsubscribe, hotCall)
        == o.(jobs := o.jobs + AnswerJob(s, e, ch, Some((Unsub, true, false))));
    forall i | 0 <= i < |s.enrs| && s.enrs[i].prospect == p
      ensures NothingPending(s.enrs[i].plan, o.enrs[i].plan)
    {
    }
  }

  lemma OptOutTables(s: State, p: nat)
    requires p < |s.prospects|
    ensures
      var t := OptOut(s, p);
      && t == s.(enrs := t.enrs, jobs := t.jobs, claims := t.claims,
                 suppressed := s.suppressed + {ByEmail(s.prospects[p].email)})
      && |t.enrs| == |s.enrs| && |t.claims| == |s.claims| && |t.jobs| == |s.jobs|
      && (forall i :: 0 <= i < |s.enrs| ==>
            if s.enrs[i].prospect == p
            then t.enrs[i] == s.enrs[i].(state := OptedOut, plan := t.enrs[i].plan)
                 && StepsCancelled(s.enrs[i].plan, t.enrs[i].plan)
            else t.enrs[i] == s.enrs[i])
      && (forall k :: 0 <= k < |s.claims| ==>
            t.claims[k] == if s.claims[k].prospect == p && s.claims[k].status == Active
                           then s.claims[k].(status := Released) else s.claims[k])
      && (forall j :: 0 <= j < |s.jobs| ==>
            t.jobs[j] == if s.jobs[j].enr < |s.enrs| && s.enrs[s.jobs[j].enr].prospect == p
                            && s.jobs[j].status == Queued && s.jobs[j].kind.DraftJob?
                         then s.jobs[j].(status := JobCancelled) else s.jobs[j])
  {
  }

  // --- answering ---

  /** The reply waits for a manager. */
  ghost predicate ReplyParked(s: State, t: State, j: nat, e: nat, ch: Channel)
    requires j < |s.jobs| && e < |s.enrs|
  {
    t == s.(jobs := s.jobs[j := s.jobs[j].(status := Finished)],
            msgs := s.msgs + [Message(e, s.enrs[e].prospect, s.enrs[e].campaign, ch, false, AwaitingDecision, s.clock,
                                      true, false, None, None)],
            approvals := s.approvals + [Approval(ReplyApproval, e, Undecided, Some(|s.msgs|), None)])
  }

  /** The reply leaves under its key, once. */
  ghost predicate ReplyLeft(s: State, t: State, j: nat, e: nat, pl: ReplyPayload)
    requires j < |s.jobs| && e < |s.enrs|
  {
    var key, over := ReplyKey(e, pl.inbound, pl.compose), s.(jobs := s.jobs[j := s.jobs[j].(status := Finished)]);
    if exists r | 0 <= r < |s.msgs| :: s.msgs[r].key == Some(key) then t == over
    else
      t == over.(
        msgs := s.msgs + [Message(e, s.enrs[e].prospect, s.enrs[e].campaign, pl.ch, false, Sent, s.clock,
                                  true, pl.ack, None, Some(key))],
        log := s.log + [SendEvent(|s.msgs|, s.enrs[e].prospect, s.clock, if pl.ack then Ack else GatedReply)])
  }

  /** An answer: held ones wait a minute, refused ones end unless they are acknowledgements, and the rest leaves or
      waits for a manager. */
  lemma AnswerInRows(s: State, j: nat, e: nat, pl: ReplyPayload)
    requires j < |s.jobs| && s.jobs[j].enr == e < |s.enrs|
    ensures
      var t, g := SendReply(s, j, pl), Evaluate(s, e, pl.ch, Flags(pl.ack, true, pl.pricing, false, false)).dec;
      if g == Hold then Requeued(s, t, j)
      else if g == NeedsApproval then ReplyParked(s, t, j, e, pl.ch)
      else if g == Allow || pl.ack then ReplyLeft(s, t, j, e, pl)
      else t == s.(jobs := s.jobs[j := s.jobs[j].(status := Finished)])
  {
    hide Evaluate, HasKey;
    KeyInRows(s.msgs, ReplyKey(e, pl.inbound, pl.compose));
  }

  /** An answer that meets the kill switch, a paused campaign or a paused Writer is kept for a minute later, an
      acknowledgement too. */
  lemma HeldReplyWaits(s: State, j: nat, e: nat, pl: ReplyPayload)
    requires j < |s.jobs| && s.jobs[j].enr == e < |s.enrs|
    requires var c := CampaignOf(s.cfg, s.enrs[e].campaign);
      || s.cfg.kill || c.status == PausedCampaign
      || (c.status == LiveCampaign && !(Writer in c.agents && c.agents[Writer]))
    ensures SendReply(s, j, pl) == s.(jobs := s.jobs[j := s.jobs[j].(status := Queued, runAt := s.clock + 60000)])
  {
    hide Evaluate;
    SwitchHolds(s, e, pl.ch, Flags(pl.ack, true, pl.pricing, false, false));
    AnswerInRows(s, j, e, pl);
  }

  // --- managers ---

  /** The message of an approval that is one for a draft. */
  predicate DraftOf(s: State, a: nat, e: nat, row: nat) {
    && a < |s.approvals| && s.approvals[a].enr == e < |s.enrs| && s.approvals[a].msg == Some(row) && row < |s.msgs|
    && s.approvals[a].kind in {TouchApproval, ReplyApproval}
  }

  /** The draft leaves with a new time stamp, and its plan step is done. */
  ghost predicate DraftReleased(s: State, t: State, a: nat, e: nat, row: nat)
    requires DraftOf(s, a, e, row)
  {
    var m, x := s.msgs[row], s.enrs[e];
    var plan := if m.stepNo.Some? && m.stepNo.value < |x.plan|
                then x.plan[m.stepNo.value := x.plan[m.stepNo.value].(status := Done, queued := false)] else x.plan;
    var state := if x.state in {AwaitingApproval, Qualified} then Contacted else x.state;
    t == s.(approvals := s.approvals[a := s.approvals[a].(status := Approved)],
            msgs := s.msgs[row := m.(status := Sent, createdAt := s.clock)],
            log := s.log + [SendEvent(row, m.prospect, s.clock, if m.isReply then GatedReply else FullGate)],
            enrs := s.enrs[e := x.(plan := plan, state := state)])
  }

  /** A draft is released exactly when it is undecided, its claims have evidence or the manager changed it, and the
      gate, told that a manager approves, does not object. Otherwise approving changes nothing. */
  lemma ApprovalInRows(s: State, a: nat, e: nat, row: nat, unsupported: bool, edited: bool, awaiting: bool)
    requires DraftOf(s, a, e, row)
    ensures
      var t, m := ApproveItem(s, a, unsupported, edited, awaiting), s.msgs[row];
      if s.approvals[a].status == Undecided && (unsupported ==> edited)
         && Consents(Evaluate(s, e, m.ch, Flags(false, m.isReply, false, true, false)))
      then DraftReleased(s, t, a, e, row) else t == s
  {
    hide Evaluate;
  }

  /** An unedited draft with an unsupported claim is not approved. */
  lemma UnsupportedIsRefused(s: State, a: nat, e: nat, row: nat, awaiting: bool)
    requires DraftOf(s, a, e, row)
    ensures ApproveItem(s, a, true, false, awaiting) == s
  {
    ApprovalInRows(s, a, e, row, true, false, awaiting);
    hide Evaluate, ApproveItem;
  }

  /** A decided approval is not approved again. */
  lemma DecidedStays(s: State, a: nat, unsupported: bool, edited: bool, awaiting: bool)
    requires a < |s.approvals| && s.approvals[a].enr < |s.enrs| && s.approvals[a].status != Undecided
    ensures ApproveItem(s, a, unsupported, edited, awaiting) == s
  {
  }

  /** A review ends in the question who holds the prospect. */
  lemma ReviewInRows(s: State, a: nat, e: nat, unsupported: bool, edited: bool, awaiting: bool)
    requires ClaimInv(s) && a < |s.approvals| && s.approvals[a].enr == e < |s.enrs|
    requires s.approvals[a].status == Undecided && s.approvals[a].kind == BorderlineReview
    ensures ApproveItem(s, a, unsupported, edited, awaiting)
         == QualifyOrDefer(s.(approvals := s.approvals[a := s.approvals[a].(status := Approved)]), e)
  {
    hide QualifyOrDefer, ResolveClaim, ClaimInv, ApprovalVerdict;
    var u := s.(approvals := s.approvals[a := s.approvals[a].(status := Approved)]);
    SameClaims(s, u, e);
    Decided(u, e);
  }

  /** An approved call: with a live call under way only the approval changes; otherwise the call is recorded without the
      gate and ends in a meeting, which gives the claim up. */
  lemma CallInRows(s: State, a: nat, e: nat, unsupported: bool, edited: bool, awaiting: bool)
    requires a < |s.approvals| && s.approvals[a].enr == e < |s.enrs|
    requires s.approvals[a].status == Undecided && s.approvals[a].kind == VoiceApproval
    ensures
      var d, x := s.(approvals := s.approvals[a := s.approvals[a].(status := Approved)]), s.enrs[e];
      var v := d.(msgs := s.msgs + [Message(e, x.prospect, x.campaign, Voice, false, Sent, s.clock,
                                            false, false, None, None)],
                  log := s.log + [SendEvent(|s.msgs|, x.prospect, s.clock, Call)]);
      ApproveItem(s, a, unsupported, edited, awaiting)
        == if awaiting then d else if x.state == MeetingBooked then v
           else ReleaseClaim(v.(enrs := s.enrs[e := x.(state := MeetingBooked)]), e)
  {
    hide ReleaseClaim, ApprovalVerdict;
  }

  /** Enrollment e stops for good: pending steps and queued drafts go, and the claim is given up. */
  lemma StopInRows(s: State, e: nat)
    requires e < |s.enrs| && OneActive(s.claims)
    ensures
      var t := StopProspect(s, e);
      && t.enrs[e] == s.enrs[e].(state := Stopped, plan := t.enrs[e].plan)
      && NothingPending(s.enrs[e].plan, t.enrs[e].plan)
      && NoQueuedDraft(s.jobs, t.jobs, e) && ClaimGivenUp(s.claims, t.claims, s.enrs[e].prospect, s.enrs[e].campaign)
  {
    hide CancelPending, ReleaseClaim, StepsCancelled, DraftsCancelled, ClaimGivenUp, OneActive;
    var r := SetState(s, e, Stopped);
    var u := CancelPending(r, e, true);
    CancelInRows(r, e);
    CancelledIsNotPending(r.enrs[e].plan, u.enrs[e].plan);
    NoneQueued(r.jobs, u.jobs, e);
    assert u.jobs[..|s.jobs|] == u.jobs;
    ReleaseKeepsOwnRow(u, e);
    MoreJobs(s.jobs, u.jobs, ReleaseClaim(u, e).jobs, e);
  }

  /** A rejection marks approval and message whatever the status was; the kind of approval moves the enrollment. */
  lemma RejectionInRows(s: State, a: nat, e: nat)
    requires a < |s.approvals| && s.approvals[a].enr == e < |s.enrs|
    ensures
      var ap := s.approvals[a];
      var u := s.(approvals := s.approvals[a := ap.(status := Declined)],
                  msgs := if ap.msg.Some? && ap.msg.value < |s.msgs|
                          then s.msgs[ap.msg.value := s.msgs[ap.msg.value].(status := RejectedByManager)] else s.msgs);
      RejectItem(s, a) ==
        match ap.kind
        case BorderlineReview => u.(enrs := s.enrs[e := s.enrs[e].(state := Rejected)])
        case VoiceApproval => u.(enrs := s.enrs[e := s.enrs[e].(state := RepliedPos)])
        case TouchApproval => StopProspect(u, e)
        case ReplyApproval => u
  {
    hide StopProspect;
  }

  /** A manual escalation cancels the pending work and keeps the claim. */
  lemma EscalationInRows(s: State, e: nat)
    requires e < |s.enrs|
    ensures
      var t := EscalateByHand(s, e);
      && t == s.(enrs := s.enrs[e := s.enrs[e].(state := Escalated, plan := t.enrs[e].plan)], jobs := t.jobs)
      && NothingPending(s.enrs[e].plan, t.enrs[e].plan) && |t.jobs| == |s.jobs| && NoQueuedDraft(s.jobs, t.jobs, e)
  {
    hide CancelPending, StepsCancelled, DraftsCancelled;
    var r := SetState(s, e, Escalated);
    var u := CancelPending(r, e, true);
    CancelInRows(r, e);
    CancelledIsNotPending(r.enrs[e].plan, u.enrs[e].plan);
    NoneQueued(r.jobs, u.jobs, e);
    assert u.jobs[..|s.jobs|] == u.jobs;
  }

  /** A person's own message leaves without the gate; closing an escalation moves the enrollment on. */
  lemma HumanMessageInRows(s: State, e: nat, ch: Channel, closes: bool)
    requires e < |s.enrs|
    ensures
      var x := s.enrs[e];
      HumanMessage(s, e, ch, closes)
        == s.(msgs := s.msgs + [Message(e, x.prospect, x.campaign, ch, false, Sent, s.clock, true, false, None, None)],
              log := s.log + [SendEvent(|s.msgs|, x.prospect, s.clock, ByHuman)],
              enrs := s.enrs[e := x.(state := if closes then RepliedPos else x.state)])
  {
    assert s.enrs[e := s.enrs[e]] == s.enrs;
  }
}
