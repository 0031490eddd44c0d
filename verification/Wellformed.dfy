/** What every step keeps: identities of rows never change, tables only grow, references stay valid. */
module Wellformed {
  import opened Basics
  import opened Model
  import opened Gate
  import opened Claims
  import opened Handlers
  import opened Replies
  import opened Queue
  import opened Machine

  ghost predicate SameIds(a: seq<Enrollment>, b: seq<Enrollment>) {
    |a| <= |b| && forall i :: 0 <= i < |a| ==> a[i].prospect == b[i].prospect && a[i].campaign == b[i].campaign
  }

  /** The same enrollments, none added. */
  ghost predicate SameRows(a: seq<Enrollment>, b: seq<Enrollment>) { |a| == |b| && SameIds(a, b) }

  ghost predicate SameJobs(a: seq<Job>, b: seq<Job>) {
    |a| <= |b| && forall i :: 0 <= i < |a| ==> a[i].enr == b[i].enr && a[i].kind == b[i].kind
  }

  ghost predicate SameMessages(a: seq<Message>, b: seq<Message>) {
    |a| <= |b| && forall i :: 0 <= i < |a| ==>
      b[i] == a[i].(status := b[i].status, createdAt := b[i].createdAt)
  }

  ghost predicate SameApprovals(a: seq<Approval>, b: seq<Approval>) {
    |a| <= |b| && forall i :: 0 <= i < |a| ==> b[i] == a[i].(status := b[i].status)
                                               && (a[i].status != Undecided ==> b[i].status != Undecided)
  }

  ghost predicate SameConflicts(a: seq<Conflict>, b: seq<Conflict>) {
    |a| <= |b| && forall i :: 0 <= i < |a| ==> b[i] == a[i].(status := b[i].status, winner := b[i].winner)
  }

  /** Row identities survive, tables grow, the suppression list and the send history are never cut. */
  ghost predicate Extends(s: State, t: State) {
    && t.window == s.window && t.prospects == s.prospects && s.clock <= t.clock
    && SameIds(s.enrs, t.enrs) && SameJobs(s.jobs, t.jobs) && SameMessages(s.msgs, t.msgs)
    && SameApprovals(s.approvals, t.approvals) && SameConflicts(s.conflicts, t.conflicts)
    && s.suppressed <= t.suppressed && s.log <= t.log
  }

  lemma ExtendsTrans(s: State, t: State, u: State)
    requires Extends(s, t) && Extends(t, u)
    ensures Extends(s, u)
  {
  }

  lemma EnrExtends(s: State, e: nat, x: Enrollment)
    requires e < |s.enrs| && x.prospect == s.enrs[e].prospect && x.campaign == s.enrs[e].campaign
    ensures Extends(s, SetEnr(s, e, x))
  {
  }

  lemma JobExtends(s: State, j: nat, x: Job)
    requires j < |s.jobs| && x.enr == s.jobs[j].enr && x.kind == s.jobs[j].kind
    ensures Extends(s, s.(jobs := s.jobs[j := x]))
  {
  }

  lemma EnqueueExtends(s: State, e: nat, kind: JobKind, due: int)
    ensures Extends(s, Enqueue(s, e, kind, due))
  {
  }

  lemma MessageExtends(s: State, m: Message, kind: SendKind)
    ensures Extends(s, AddMessage(s, m)) && Extends(s, AddSent(s, m, kind))
  {
  }

  lemma DecideExtends(s: State, a: nat, st: ApprovalStatus)
    requires a < |s.approvals| && st != Undecided
    ensures Extends(s, Decide(s, a, st))
  {
  }

  lemma ClaimsExtend(s: State, claims: seq<Claim>)
    ensures Extends(s, s.(claims := claims))
  {
  }

  lemma ConflictExtends(s: State, p: nat, h: nat, c: nat, w: Option<nat>, st: ConflictStatus)
    ensures Extends(s, AddConflict(s, p, h, c, w, st))
  {
  }

  lemma AdvanceExtends(s: State, e: nat, from: set<EnrState>, to: EnrState)
    requires e < |s.enrs|
    ensures Extends(s, Advance(s, e, from, to))
  {
  }

  lemma CancelPendingExtends(s: State, e: nat, c: bool)
    requires e < |s.enrs|
    ensures Extends(s, CancelPending(s, e, c))
  {
  }

  lemma ReleaseExtends(s: State, e: nat)
    requires e < |s.enrs|
    ensures Extends(s, ReleaseClaim(s, e))
  {
  }

  lemma ResolveExtends(s: State, e: nat)
    requires e < |s.enrs|
    ensures Extends(s, ResolveClaim(s, e).0)
  {
    var p, c := s.enrs[e].prospect, s.enrs[e].campaign;
    var a := ActiveClaim(s.claims, p);
    ClaimsExtend(s, CreateClaim(s, p, c).claims);
    if a.Some? {
      var h := s.claims[a.value].campaign;
      var t := TransferClaim(s, p, c);
      var u := t.(enrs := CancelOthers(t.enrs, p, c));
      assert Extends(s, u);
      ConflictExtends(s, p, h, c, None, Open);
      ConflictExtends(s, p, h, c, Some(h), Open);
      ConflictExtends(u, p, h, c, Some(c), Logged);
      hide Extends, AddConflict, Ladder, TransferClaim, CancelOthers;
      ExtendsTrans(s, u, AddConflict(u, p, h, c, Some(c), Logged));
    }
  }

  lemma QualifyExtends(s: State, e: nat)
    requires e < |s.enrs|
    ensures Extends(s, QualifyOrDefer(s, e))
  {
    ResolveExtends(s, e);
    var t := ResolveClaim(s, e).0;
    hide ResolveClaim;
    EnrExtends(t, e, t.enrs[e].(state := Stopped));
    EnrExtends(t, e, t.enrs[e].(state := Deferred));
    EnrExtends(t, e, t.enrs[e].(state := Qualified));
    EnqueueExtends(SetState(t, e, Qualified), e, PlanJob, t.clock);
  }

  lemma DispatchExtends(s: State, e: nat)
    requires e < |s.enrs|
    ensures Extends(s, DispatchDue(s, e))
  {
  }

  lemma ScanExtends(s: State, c: nat, e: nat)
    requires e <= |s.enrs|
    ensures Extends(s, ScanFrom(s, c, e))
    decreases |s.enrs| - e
  {
    if e < |s.enrs| {
      var t := CancelPending(s, e, false);
      var u := ReleaseClaim(t, e);
      CancelPendingExtends(s, e, false);
      ReleaseExtends(t, e);
      EnrExtends(u, e, u.enrs[e].(state := Stopped));
      DispatchExtends(s, e);
      var next := if ScanRow(s, e, c) then ScanOne(s, e) else s;
      ScanExtends(next, c, e + 1);
      hide Extends, CancelPending, ReleaseClaim, DispatchDue, Exhausted, ScanRow;
      ExtendsTrans(s, t, u);
      ExtendsTrans(s, u, SetState(u, e, Stopped));
      ExtendsTrans(s, next, ScanFrom(next, c, e + 1));
    }
  }

  lemma ParkExtends(s: State, j: nat, e: nat, n: nat)
    requires j < |s.jobs| && e < |s.enrs| && n < |s.enrs[e].plan|
    ensures Extends(s, ParkTouch(s, j, e, n))
  {
  }

  lemma SendExtends(s: State, j: nat, e: nat, n: nat, kind: SendKind)
    requires j < |s.jobs| && e < |s.enrs| && n < |s.enrs[e].plan|
    ensures Extends(s, SendStep(s, j, e, n, kind))
  {
    var st := s.enrs[e].plan[n];
    var m := MakeMessage(s, e, st.ch, false, Sent, false, false, Some(n), Some(StepKey(e, n, st.ch)));
    var t := AddSent(s, m, kind);
    var u := SetStep(t, e, n, st.(status := Done, queued := false));
    var v := Advance(u, e, {Qualified, AwaitingApproval}, Contacted);
    MessageExtends(s, m, kind);
    EnrExtends(t, e, u.enrs[e]);
    AdvanceExtends(u, e, {Qualified, AwaitingApproval}, Contacted);
    JobExtends(v, j, v.jobs[j].(status := Finished));
    JobExtends(s, j, s.jobs[j].(status := Finished));
    hide Extends, HasKey;
    ExtendsTrans(s, t, u);
    ExtendsTrans(s, u, v);
    ExtendsTrans(s, v, SetJobStatus(v, j, Finished));
  }

  lemma ConcludeExtends(s: State, j: nat, e: nat, n: nat, bad: bool, g: Verdict, sameDay: bool)
    requires j < |s.jobs| && e < |s.enrs| && n < |s.enrs[e].plan|
    ensures Extends(s, Conclude(s, j, e, n, bad, g, sameDay))
  {
    hide Extends, ParkTouch, SendStep;
    var st := s.enrs[e].plan[n];
    if g.dec == Hold {
      JobExtends(s, j, s.jobs[j].(status := Queued, runAt := s.clock + MINUTE));
    } else if g.dec == Block {
      var b := SetStep(s, e, n, st.(status := Blocked));
      EnrExtends(s, e, b.enrs[e]);
      JobExtends(b, j, b.jobs[j].(status := Finished));
      ExtendsTrans(s, b, SetJobStatus(b, j, Finished));
    } else if g.dec == Defer {
      var until := if g.until.Some? && g.until.value != 0 then g.until.value else s.clock + 6 * HOUR;
      var d := SetStep(s, e, n, st.(due := until, queued := true));
      var f := SetJobStatus(d, j, Finished);
      EnrExtends(s, e, d.enrs[e]);
      JobExtends(d, j, d.jobs[j].(status := Finished));
      EnqueueExtends(f, e, DraftJob(n), until);
      ExtendsTrans(s, d, f);
      ExtendsTrans(s, f, Enqueue(f, e, DraftJob(n), until));
    } else {
      ParkExtends(s, j, e, n);
      SendExtends(s, j, e, n, if sameDay then SameDay else FullGate);
    }
  }

  lemma DraftExtends(s: State, j: nat, e: nat, n: nat, d: DraftOutcome, g: Verdict, h: Verdict)
    requires j < |s.jobs| && e < |s.enrs|
    ensures Extends(s, DraftWith(s, j, e, n, d, g, h))
  {
    if n < |s.enrs[e].plan| {
      var st := s.enrs[e].plan[n];
      var sameDay := SameDayDone(s.enrs[e].plan, n);
      if d.Drafted? {
        var t := SetStep(s, e, n, st.(ch := Email));
        EnrExtends(s, e, t.enrs[e]);
        ConcludeExtends(s, j, e, n, d.bad, g, sameDay);
        ConcludeExtends(t, j, e, n, d.badEmail, h, sameDay);
        ExtendsTrans(s, t, Conclude(t, j, e, n, d.badEmail, h, sameDay));
      }
      var q := SetStep(s, e, n, st.(queued := false));
      var k := SetStep(s, e, n, st.(status := Skipped));
      EnrExtends(s, e, q.enrs[e]);
      EnrExtends(s, e, k.enrs[e]);
      JobExtends(q, j, q.jobs[j].(status := JobCancelled));
      JobExtends(k, j, k.jobs[j].(status := Finished));
      JobExtends(s, j, s.jobs[j].(status := Finished));
      ExtendsTrans(s, q, SetJobStatus(q, j, JobCancelled));
      ExtendsTrans(s, k, SetJobStatus(k, j, Finished));
      hide Extends, Conclude, Allowed, OpenApprovalElsewhere, SameDayDone;
    }
  }

  lemma OptOutExtends(s: State, p: nat)
    ensures Extends(s, OptOut(s, p))
  {
  }

  lemma MoveAndReleaseExtends(s: State, e: nat, st: EnrState)
    requires e < |s.enrs|
    ensures Extends(s, ReleaseClaim(SetState(s, e, st), e))
  {
  }

  lemma StopExtends(s: State, e: nat)
    requires e < |s.enrs|
    ensures Extends(s, StopProspect(s, e))
  {
  }

  lemma ReceivedExtends(s: State, e: nat, ch: Channel)
    requires e < |s.enrs|
    ensures Extends(s, CancelPending(Received(s, e, ch), e, true)) && Extends(s, Received(s, e, ch))
  {
  }

  lemma OfferExtends(s: State, e: nat, ch: Channel, inbound: nat, hotCall: bool)
    requires e < |s.enrs|
    ensures Extends(s, Offer(s, e, ch, inbound, hotCall))
  {
  }

  lemma MoveAndReplyExtends(s: State, e: nat, st: EnrState, kind: JobKind)
    requires e < |s.enrs|
    ensures Extends(s, Enqueue(SetState(s, e, st), e, kind, s.clock))
  {
  }

  lemma ReactExtends(s: State, e: nat, ch: Channel, cls: ReplyClass, inbound: nat, hotCall: bool)
    requires e < |s.enrs|
    ensures Extends(s, React(s, e, ch, cls, inbound, hotCall))
  {
    match cls {
      case Unsubscribe =>
        var o := OptOut(s, s.enrs[e].prospect);
        OptOutExtends(s, s.enrs[e].prospect);
        hide OptOut;
        ExtendsTrans(s, o, React(s, e, ch, cls, inbound, hotCall));
      case NotInterested => MoveAndReleaseExtends(s, e, Stopped);
      case Escalate => MoveAndReplyExtends(s, e, Escalated,
          ReplyJob(ReplyPayload(ch, EscalationNote, inbound, true, false)));
      case Positive => OfferExtends(s, e, ch, inbound, hotCall);
      case Book =>
        OfferExtends(s, e, ch, inbound, hotCall);
        MoveAndReleaseExtends(s, e, MeetingBooked);
        EnqueueExtends(BookMeeting(s, e), e, ReplyJob(ReplyPayload(ch, Confirm, inbound, false, false)), s.clock);
        hide ReleaseClaim, Offer;
        ExtendsTrans(s, BookMeeting(s, e), EnqueueReply(BookMeeting(s, e), e, ch, Confirm, inbound, false, false));
      case Objection(sub, pricing) => MoveAndReplyExtends(s, e, RepliedObj,
          ReplyJob(ReplyPayload(ch, ObjectionAnswer(sub), inbound, false, pricing)));
      case NotNowReply => MoveAndReplyExtends(s, e, RepliedNotNow,
          ReplyJob(ReplyPayload(ch, NotNow, inbound, false, false)));
      case OtherReply => MoveAndReplyExtends(s, e, RepliedObj,
          ReplyJob(ReplyPayload(ch, AnswerQuestion, inbound, false, false)));
      case OutOfOffice =>
    }
    hide Extends, OptOut, ReleaseClaim, Offer;
  }

  lemma IngestExtends(s: State, e: nat, ch: Channel, cls: ReplyClass, hotCall: bool)
    requires e < |s.enrs|
    ensures Extends(s, IngestReply(s, e, ch, cls, hotCall))
  {
    var t := CancelPending(Received(s, e, ch), e, true);
    ReceivedExtends(s, e, ch);
    ReactExtends(t, e, ch, cls, |s.msgs|, hotCall);
    ExtendsTrans(s, t, React(t, e, ch, cls, |s.msgs|, hotCall));
    hide Extends, Received, CancelPending, React;
  }

  lemma ReplyExtends(s: State, j: nat, e: nat, pl: ReplyPayload, g: Verdict)
    requires j < |s.jobs| && e < |s.enrs|
    ensures Extends(s, ReplyWith(s, j, e, pl, g))
  {
    hide Extends, HasKey;
    JobExtends(s, j, s.jobs[j].(status := Queued, runAt := s.clock + MINUTE));
    JobExtends(s, j, s.jobs[j].(status := Finished));
    var kind := if pl.ack then Ack else GatedReply;
    var m := MakeMessage(s, e, pl.ch, false, Sent, true, pl.ack, None, Some(ReplyKey(e, pl.inbound, pl.compose)));
    MessageExtends(s, m, kind);
    var t := AddSent(s, m, kind);
    JobExtends(t, j, t.jobs[j].(status := Finished));
    ExtendsTrans(s, t, SetJobStatus(t, j, Finished));
    ReplyParkExtends(s, j, e, pl);
  }

  lemma ReplyParkExtends(s: State, j: nat, e: nat, pl: ReplyPayload)
    requires j < |s.jobs| && e < |s.enrs|
    ensures
      var t := AddMessage(s, MakeMessage(s, e, pl.ch, false, AwaitingDecision, true, false, None, None));
      Extends(s, SetJobStatus(t, j, Finished).(approvals :=
          t.approvals + [Approval(ReplyApproval, e, Undecided, Some(|s.msgs|), None)]))
  {
  }

  lemma ReleaseMessageExtends(s: State, a: nat, e: nat, row: nat)
    requires a < |s.approvals| && e < |s.enrs| && row < |s.msgs|
    ensures Extends(s, ReleaseMessage(s, a, e, row))
  {
  }

  lemma CallExtends(s: State, e: nat, awaiting: bool)
    requires e < |s.enrs|
    ensures Extends(s, CallPlaced(s, e, awaiting))
  {
    var t := AddSent(s, MakeMessage(s, e, Voice, false, Sent, false, false, None, None), Call);
    MoveAndReleaseExtends(t, e, MeetingBooked);
    hide ReleaseClaim;
    ExtendsTrans(s, t, BookMeeting(t, e));
  }

  lemma ApproveExtends(s: State, a: nat, unsupported: bool, edited: bool, awaiting: bool, g: Verdict)
    requires a < |s.approvals| && s.approvals[a].enr < |s.enrs|
    ensures Extends(s, ApproveWith(s, a, unsupported, edited, awaiting, g))
  {
    hide QualifyOrDefer, QualifyFails, CallPlaced, ReleaseMessage;
    var ap := s.approvals[a];
    var t := Decide(s, a, Approved);
    assert Extends(s, s);
    DecideExtends(s, a, Approved);
    QualifyExtends(t, ap.enr);
    CallExtends(t, ap.enr, awaiting);
    if ap.msg.Some? && ap.msg.value < |s.msgs| { ReleaseMessageExtends(s, a, ap.enr, ap.msg.value); }
    hide Extends;
    ExtendsTrans(s, t, QualifyOrDefer(t, ap.enr));
    ExtendsTrans(s, t, CallPlaced(t, ap.enr, awaiting));
  }

  lemma RejectExtends(s: State, a: nat)
    requires a < |s.approvals| && s.approvals[a].enr < |s.enrs|
    ensures Extends(s, RejectItem(s, a))
  {
    var u, e := MarkDeclined(s, a), s.approvals[a].enr;
    assert Extends(s, u);
    StopExtends(u, e);
    EnrExtends(u, e, u.enrs[e].(state := Rejected));
    EnrExtends(u, e, u.enrs[e].(state := RepliedPos));
    ExtendsTrans(s, u, StopProspect(u, e));
    ExtendsTrans(s, u, SetState(u, e, Rejected));
    ExtendsTrans(s, u, SetState(u, e, RepliedPos));
    hide Extends, StopProspect, MarkDeclined;
  }

  lemma TransferExtends(s: State, cs: seq<Conflict>, p: nat, c: nat)
    requires SameConflicts(s.conflicts, cs)
    ensures Extends(s, TransferClaim(s.(conflicts := cs), p, c))
        && TransferClaim(s.(conflicts := cs), p, c).enrs == s.enrs
  {
  }

  lemma OverrideExtends(s: State, x: nat, c: nat)
    requires x < |s.conflicts|
    ensures Extends(s, ResolveConflict(s, x, c))
  {
    hide CancelPending, TransferClaim, Extends;
    ExtendsSelf(s);
    var k := s.conflicts[x];
    if (c == k.holder || c == k.wanting) && k.holder != k.wanting {
      var lose := if c == k.holder then k.wanting else k.holder;
      var w, l := EnrollmentOf(s.enrs, k.prospect, c), EnrollmentOf(s.enrs, k.prospect, lose);
      var s1 := TransferClaim(s.(conflicts := s.conflicts[x := k.(status := Resolved, winner := Some(c))]), k.prospect,
          c);
      TransferExtends(s, s.conflicts[x := k.(status := Resolved, winner := Some(c))], k.prospect, c);
      if l.Some? {
        var t := CancelPending(s1, l.value, true);
        CancelPendingExtends(s1, l.value, true);
        AdvanceExtends(t, l.value, {Qualified, Contacted}, Deferred);
        ExtendsTrans(s, s1, t);
        ExtendsTrans(s, t, Advance(t, l.value, {Qualified, Contacted}, Deferred));
      }
      var s2 := if l.None? then s1
          else Advance(CancelPending(s1, l.value, true), l.value, {Qualified, Contacted}, Deferred);
      if w.Some? {
        EnrExtends(s2, w.value, s2.enrs[w.value].(state := Qualified));
        EnqueueExtends(SetState(s2, w.value, Qualified), w.value, PlanJob, s2.clock);
        ExtendsTrans(s, s2, SetState(s2, w.value, Qualified));
        ExtendsTrans(s, SetState(s2, w.value, Qualified),
            Enqueue(SetState(s2, w.value, Qualified), w.value, PlanJob, s2.clock));
      }
    }
  }

  lemma QualifyJobExtends(s: State, j: nat, q: QualifyOutcome)
    requires j < |s.jobs| && s.jobs[j].enr < |s.enrs|
    ensures Extends(s, DoQualify(s, j, q))
  {
    if q.Judged? && q.dec == Qualify {
      var e := s.jobs[j].enr;
      var t := SetJobStatus(s, j, Finished);
      var u := SetEnr(t, e, t.enrs[e].(state := Researched, score := Some(q.score)));
      QualifyExtends(u, e);
      hide QualifyOrDefer, QualifyFails;
      ExtendsTrans(s, u, QualifyOrDefer(u, e));
    }
  }

  lemma PlanExtends(s: State, j: nat, plan: seq<PlanStep>)
    requires j < |s.jobs| && s.jobs[j].enr < |s.enrs|
    ensures Extends(s, DoPlan(s, j, plan))
  {
  }

  lemma RunExtends(s: State, j: nat, w: Work)
    ensures Extends(s, RunOne(s, j, w))
  {
    hide DoQualify, DoPlan, DraftWith, ReplyWith, Evaluate, PlannedVerdict, EmailVerdict;
    if j < |s.jobs| && s.jobs[j].status == Running && s.jobs[j].enr < |s.enrs| {
      var e := s.jobs[j].enr;
      QualifyJobExtends(s, j, w.judged);
      PlanExtends(s, j, w.plan);
      match s.jobs[j].kind {
        case DraftJob(n) => DraftExtends(s, j, e, n, w.draft, PlannedVerdict(s, e, n), EmailVerdict(s, e, n));
        case ReplyJob(pl) => ReplyExtends(s, j, e, pl, Evaluate(s, e, pl.ch, ReplyFlags(pl)));
        case _ =>
      }
    }
  }

  lemma EnrollExtends(s: State, p: nat, c: nat, rep: Option<nat>)
    ensures Extends(s, EnrollProspect(s, p, c, rep))
  {
  }

  /** The steps that run no handler. */
  lemma SmallStepExtends(s: State, step: Step)
    requires step.Wait? || step.Launch? || step.Reconfigure? || step.ClaimDue? || step.Fail? || step.Requeue?
        || step.Write?
    ensures Extends(s, Next(s, step))
  {
    hide Extends, Claimed, LaunchOne, RecordFailure, HumanMessage, RequeueStale, ClaimJobs;
    match step {
      case Wait(_) | Reconfigure(_) => ClockOrConfig(s, Next(s, step));
      case Launch(e) => if e < |s.enrs| { LaunchExtends(s, e); } else { ExtendsSelf(s); }
      case Fail(j, attempts) => if j < |s.jobs| { FailureExtends(s, j, attempts); } else { ExtendsSelf(s); }
      case Write(e, ch, closes) => if e < |s.enrs| { HumanMessageExtends(s, e, ch, closes); } else { ExtendsSelf(s); }
      case ClaimDue(filter) => ClaimExtends(s, filter);
      case _ => RequeueExtends(s);
    }
  }

  lemma ClockOrConfig(s: State, t: State)
    requires t == s.(clock := t.clock, cfg := t.cfg) && s.clock <= t.clock
    ensures Extends(s, t)
  {
  }

  lemma LaunchExtends(s: State, e: nat)
    requires e < |s.enrs|
    ensures Extends(s, LaunchOne(s, e))
  {
  }

  lemma FailureExtends(s: State, j: nat, attempts: nat)
    requires j < |s.jobs|
    ensures Extends(s, RecordFailure(s, j, attempts))
  {
  }

  lemma HumanMessageExtends(s: State, e: nat, ch: Channel, closes: bool)
    requires e < |s.enrs|
    ensures Extends(s, HumanMessage(s, e, ch, closes))
  {
  }

  lemma ClaimExtends(s: State, filter: Option<nat>)
    ensures Extends(s, ClaimJobs(s, filter))
  {
    hide Claimed;
  }

  lemma RequeueExtends(s: State)
    ensures Extends(s, RequeueStale(s))
  {
  }

  /** Every step keeps row identities and only grows the tables. */
  lemma NextExtends(s: State, step: Step)
    ensures Extends(s, Next(s, step))
  {
    hide Extends, EnrollProspect, RunOne, ScanFrom, IngestReply, ApproveWith, RejectItem, ResolveConflict, StopProspect,
        CancelPending;
    ExtendsSelf(s);
    match step {
      case Enroll(p, c, rep) => EnrollExtends(s, p, c, rep);
      case RunJob(j, w) => RunExtends(s, j, w);
      case Scan(c) => ScanExtends(s, c, 0);
      case Reply(e, ch, cls, hotCall) =>
        if e < |s.enrs| { IngestExtends(s, e, ch, cls, hotCall); }
      case Approve(a, unsupported, edited, awaiting) =>
        if a < |s.approvals| && s.approvals[a].enr < |s.enrs| {
          ApproveExtends(s, a, unsupported, edited, awaiting, ApprovalVerdict(s, a));
        }
      case Decline(a) => if a < |s.approvals| && s.approvals[a].enr < |s.enrs| { RejectExtends(s, a); }
      case Override(x, c) => if x < |s.conflicts| { OverrideExtends(s, x, c); }
      case Stop(e) => if e < |s.enrs| { StopExtends(s, e); }
      case EscalateManually(e) =>
        if e < |s.enrs| {
          var x := SetState(s, e, Escalated);
          EnrExtends(s, e, x.enrs[e]);
          CancelPendingExtends(x, e, true);
          ExtendsTrans(s, x, CancelPending(x, e, true));
        }
      case _ => SmallStepExtends(s, step);
    }
  }

  lemma ExtendsSelf(s: State)
    ensures Extends(s, s)
  {
  }
}
