/** At most one live draft job per touch over whole runs, and when planning or a late failure record makes it two. */
module DraftJobs {
  import opened Basics
  import opened Model
  import opened Gate
  import opened Claims
  import opened Handlers
  import opened Replies
  import opened Queue
  import opened Machine
  import opened Outbox

  predicate Live(job: Job) { job.kind.DraftJob? && job.status in {Queued, Running} }

  /** A step that dispatch will not queue again. */
  predicate Taken(st: PlanStep) { st.queued || st.status != Pending }

  predicate SameTouch(a: Job, b: Job) { a.enr == b.enr && a.kind == b.kind }

  ghost predicate OnePerTouch(jobs: seq<Job>) {
    forall i, j :: 0 <= i < j < |jobs| && Live(jobs[i]) && Live(jobs[j]) ==> !SameTouch(jobs[i], jobs[j])
  }

  ghost predicate LiveStepsTaken(enrs: seq<Enrollment>, jobs: seq<Job>) {
    forall j :: 0 <= j < |jobs| && Live(jobs[j]) ==>
      jobs[j].enr < |enrs| && (jobs[j].kind.stepNo < |enrs[jobs[j].enr].plan|
          ==> Taken(enrs[jobs[j].enr].plan[jobs[j].kind.stepNo]))
  }

  ghost predicate DraftInv(s: State) { OnePerTouch(s.jobs) && LiveStepsTaken(s.enrs, s.jobs) }

  ghost predicate PlanKept(a: seq<PlanStep>, b: seq<PlanStep>) {
    |a| == |b| && forall i :: 0 <= i < |a| && Taken(a[i]) ==> Taken(b[i])
  }

  ghost predicate PlansKept(a: seq<Enrollment>, b: seq<Enrollment>) {
    |a| <= |b| && forall e :: 0 <= e < |a| ==> PlanKept(a[e].plan, b[e].plan)
  }

  /** No draft job comes to life. */
  ghost predicate NoNewDrafts(a: seq<Job>, b: seq<Job>) {
    && |a| <= |b|
    && (forall j :: 0 <= j < |a| ==> b[j].enr == a[j].enr && b[j].kind == a[j].kind && (Live(b[j]) ==> Live(a[j])))
    && (forall j :: |a| <= j < |b| ==> !b[j].kind.DraftJob?)
  }

  ghost predicate Calm(s: State, t: State) { PlansKept(s.enrs, t.enrs) && NoNewDrafts(s.jobs, t.jobs) }

  lemma CalmKeeps(s: State, t: State)
    requires DraftInv(s) && Calm(s, t)
    ensures DraftInv(t)
  {
  }

  lemma CalmTrans(s: State, t: State, u: State)
    requires Calm(s, t) && Calm(t, u)
    ensures Calm(s, u)
  {
  }

  lemma CalmEnr(s: State, e: nat, x: Enrollment)
    requires e < |s.enrs| && PlanKept(s.enrs[e].plan, x.plan)
    ensures Calm(s, SetEnr(s, e, x))
  {
  }

  lemma CalmEnqueue(s: State, e: nat, kind: JobKind, due: int)
    requires !kind.DraftJob?
    ensures Calm(s, Enqueue(s, e, kind, due))
  {
  }

  lemma CalmMove(s: State, e: nat, st: EnrState)
    requires e < |s.enrs|
    ensures Calm(s, SetState(s, e, st))
  {
  }

  lemma CalmCancel(s: State, e: nat, c: bool)
    requires e < |s.enrs|
    ensures Calm(s, CancelPending(s, e, c))
  {
  }

  lemma CalmRelease(s: State, e: nat)
    requires e < |s.enrs|
    ensures Calm(s, ReleaseClaim(s, e))
  {
  }

  lemma CalmResolve(s: State, e: nat)
    requires e < |s.enrs|
    ensures Calm(s, ResolveClaim(s, e).0)
  {
    hide IsSuppressed, ActiveClaim, EnrollmentOf, Ladder, Retire, KnownConflict;
  }

  lemma CalmQualify(s: State, e: nat)
    requires e < |s.enrs|
    ensures Calm(s, QualifyOrDefer(s, e))
  {
    var (t, d) := ResolveClaim(s, e);
    CalmResolve(s, e);
    CalmMove(t, e, Stopped);
    CalmMove(t, e, Deferred);
    CalmMove(t, e, Qualified);
    CalmEnqueue(SetState(t, e, Qualified), e, PlanJob, t.clock);
    assert Calm(s, s);
    hide ResolveClaim, Calm;
    CalmTrans(s, t, SetState(t, e, Stopped));
    CalmTrans(s, t, SetState(t, e, Deferred));
    CalmTrans(s, t, SetState(t, e, Qualified));
    CalmTrans(s, SetState(t, e, Qualified), Enqueue(SetState(t, e, Qualified), e, PlanJob, t.clock));
  }

  lemma CalmStop(s: State, e: nat)
    requires e < |s.enrs|
    ensures Calm(s, StopProspect(s, e))
  {
    var t := SetState(s, e, Stopped);
    var u := CancelPending(t, e, true);
    CalmMove(s, e, Stopped);
    CalmCancel(t, e, true);
    CalmRelease(u, e);
    hide ReleaseClaim, CancelPending, Calm;
    CalmTrans(s, t, u);
    CalmTrans(s, u, ReleaseClaim(u, e));
  }

  lemma CalmLeave(s: State, e: nat, st: EnrState)
    requires e < |s.enrs|
    ensures Calm(s, ReleaseClaim(SetState(s, e, st), e))
  {
  }

  lemma CalmOptOut(s: State, p: nat)
    ensures Calm(s, OptOut(s, p))
  {
  }

  lemma CalmReact(s: State, e: nat, ch: Channel, cls: ReplyClass, inbound: nat, hotCall: bool)
    requires e < |s.enrs|
    ensures Calm(s, React(s, e, ch, cls, inbound, hotCall))
  {
    var t := React(s, e, ch, cls, inbound, hotCall);
    match cls {
      case Unsubscribe =>
        var o := OptOut(s, s.enrs[e].prospect);
        CalmOptOut(s, s.enrs[e].prospect);
        CalmEnqueue(o, e, ReplyJob(ReplyPayload(ch, Unsub, inbound, true, false)), o.clock);
        hide OptOut, Calm;
        CalmTrans(s, o, t);
      case NotInterested => CalmLeave(s, e, Stopped);
      case Book =>
        if s.enrs[e].slots {
          CalmLeave(s, e, MeetingBooked);
          var o := BookMeeting(s, e);
          CalmEnqueue(o, e, ReplyJob(ReplyPayload(ch, Confirm, inbound, false, false)), o.clock);
          hide BookMeeting, Calm;
          CalmTrans(s, o, t);
        } else {
          CalmOffer(s, e, ch, inbound, hotCall);
        }
      case Positive => CalmOffer(s, e, ch, inbound, hotCall);
      case _ => CalmMoveAndReply(s, e, t.enrs[e].state, t.jobs[|s.jobs|..], t);
    }
    hide OptOut, BookMeeting, Offer, ReleaseClaim, Calm;
  }

  lemma CalmMoveAndReply(s: State, e: nat, st: EnrState, more: seq<Job>, t: State)
    requires e < |s.enrs| && t == SetState(s, e, st).(jobs := s.jobs + more)
    requires forall k :: 0 <= k < |more| ==> !more[k].kind.DraftJob?
    ensures Calm(s, t)
  {
  }

  lemma CalmOffer(s: State, e: nat, ch: Channel, inbound: nat, hotCall: bool)
    requires e < |s.enrs|
    ensures Calm(s, Offer(s, e, ch, inbound, hotCall))
  {
  }

  // --- dispatch ---

  lemma DispatchKeeps(s: State, e: nat)
    requires DraftInv(s) && e < |s.enrs|
    ensures DraftInv(DispatchDue(s, e))
  {
  }

  /** Dispatching again at the same instant enqueues nothing and changes nothing. */
  lemma DispatchIsIdempotent(s: State, e: nat)
    requires e < |s.enrs|
    ensures var t := DispatchDue(s, e); DispatchDue(t, e) == t
  {
    var t := DispatchDue(s, e);
    var n := |s.enrs[e].plan|;
    hide HasInbound, OpenGateApproval;
    assert forall i: nat | i < n :: ActionAt(t, e, i) == Keep;
    assert DispatchedPlan(t, e) == t.enrs[e].plan;
    assert t.enrs[e := t.enrs[e].(plan := t.enrs[e].plan)] == t.enrs;
    NothingDispatched(t, e, n);
    assert t.jobs + [] == t.jobs;
    hide DispatchedJobs, DispatchedPlan, ActionAt;
  }

  lemma {:induction false} NothingDispatched(s: State, e: nat, n: nat)
    requires e < |s.enrs| && n <= |s.enrs[e].plan| && forall i: nat | i < n :: ActionAt(s, e, i) == Keep
    ensures DispatchedJobs(s, e, n) == []
  {
    if n > 0 { NothingDispatched(s, e, n - 1); }
    hide ActionAt;
  }

  lemma ScanKeeps(s: State, c: nat, e: nat)
    requires DraftInv(s) && e <= |s.enrs|
    ensures DraftInv(ScanFrom(s, c, e))
    decreases |s.enrs| - e
  {
    if e < |s.enrs| {
      var t := CancelPending(s, e, false);
      var u := ReleaseClaim(t, e);
      CalmCancel(s, e, false);
      CalmRelease(t, e);
      CalmMove(u, e, Stopped);
      CalmKeeps(s, t);
      CalmKeeps(t, u);
      CalmKeeps(u, SetState(u, e, Stopped));
      DispatchKeeps(s, e);
      ScanKeeps(if ScanRow(s, e, c) then ScanOne(s, e) else s, c, e + 1);
      hide CancelPending, ReleaseClaim, DispatchDue, Exhausted, ScanRow, DraftInv, Calm;
    }
  }

  // --- drafting ---

  /** Job j is the running draft job of step n of enrollment e. */
  ghost predicate Drafting(s: State, j: nat, e: nat, n: nat) {
    j < |s.jobs| && e < |s.enrs| && s.jobs[j].status == Running && s.jobs[j].enr == e && s.jobs[j].kind == DraftJob(n)
  }

  /** The job ends; its own step may then be in any condition. */
  lemma EndingKeeps(s: State, t: State, j: nat, e: nat, n: nat)
    requires DraftInv(s) && Drafting(s, j, e, n) && n < |s.enrs[e].plan|
    requires |t.jobs| == |s.jobs| && t.jobs[j].enr == e && t.jobs[j].kind == DraftJob(n) && !Live(t.jobs[j])
    requires forall i :: 0 <= i < |s.jobs| && i != j ==> t.jobs[i] == s.jobs[i]
    requires |t.enrs| == |s.enrs| && |t.enrs[e].plan| == |s.enrs[e].plan|
    requires forall i :: 0 <= i < |s.enrs| && i != e ==> t.enrs[i].plan == s.enrs[i].plan
    requires forall i :: 0 <= i < |s.enrs[e].plan| && i != n ==> t.enrs[e].plan[i] == s.enrs[e].plan[i]
    ensures DraftInv(t)
  {
  }

  /** The job ends and a new one for the same step takes its place. */
  lemma ReplacingKeeps(s: State, t: State, j: nat, e: nat, n: nat, x: Job)
    requires DraftInv(s) && Drafting(s, j, e, n) && n < |s.enrs[e].plan|
    requires t.jobs == s.jobs[j := s.jobs[j].(status := Finished)] + [x] && x.enr == e && x.kind == DraftJob(n)
    requires |t.enrs| == |s.enrs| && |t.enrs[e].plan| == |s.enrs[e].plan| && Taken(t.enrs[e].plan[n])
    requires forall i :: 0 <= i < |s.enrs| && i != e ==> t.enrs[i].plan == s.enrs[i].plan
    requires forall i :: 0 <= i < |s.enrs[e].plan| && i != n ==> t.enrs[e].plan[i] == s.enrs[e].plan[i]
    ensures DraftInv(t)
  {
  }

  lemma ParkKeeps(s: State, j: nat, e: nat, n: nat)
    requires DraftInv(s) && Drafting(s, j, e, n) && n < |s.enrs[e].plan|
    ensures DraftInv(ParkTouch(s, j, e, n))
  {
  }

  lemma SendKeeps(s: State, j: nat, e: nat, n: nat, kind: SendKind)
    requires DraftInv(s) && Drafting(s, j, e, n) && n < |s.enrs[e].plan|
    ensures DraftInv(SendStep(s, j, e, n, kind))
  {
    hide HasKey, DraftInv;
    EndingKeeps(s, SendStep(s, j, e, n, kind), j, e, n);
  }

  lemma ConcludeKeeps(s: State, j: nat, e: nat, n: nat, bad: bool, g: Verdict, sameDay: bool)
    requires DraftInv(s) && Drafting(s, j, e, n) && n < |s.enrs[e].plan|
    ensures DraftInv(Conclude(s, j, e, n, bad, g, sameDay))
  {
    var t := Conclude(s, j, e, n, bad, g, sameDay);
    ParkKeeps(s, j, e, n);
    SendKeeps(s, j, e, n, if sameDay then SameDay else FullGate);
    hide ParkTouch, SendStep, DraftInv;
    if g.dec == Hold { CalmKeeps(s, t); }
    else if g.dec == Defer { ReplacingKeeps(s, t, j, e, n, t.jobs[|s.jobs|]); }
    else if g.dec == Block && !(bad && g.dec != Block) { EndingKeeps(s, t, j, e, n); }
  }

  lemma DraftKeeps(s: State, j: nat, e: nat, n: nat, d: DraftOutcome, g: Verdict, h: Verdict)
    requires DraftInv(s) && Drafting(s, j, e, n)
    ensures DraftInv(DraftWith(s, j, e, n, d, g, h))
  {
    var t := DraftWith(s, j, e, n, d, g, h);
    hide DraftInv, Allowed, OpenApprovalElsewhere, SameDayDone;
    if n < |s.enrs[e].plan| {
      var sameDay := SameDayDone(s.enrs[e].plan, n);
      if OpenApprovalElsewhere(s.approvals, e, n) || d.KnowledgeGap? {
        EndingKeeps(s, t, j, e, n);
      } else if g.dec != Replan {
        ConcludeKeeps(s, j, e, n, d.bad, g, sameDay);
      } else if s.enrs[e].plan[n].ch != Email && Allowed(s, s.enrs[e], Email) {
        var u := SetStep(s, e, n, s.enrs[e].plan[n].(ch := Email));
        CalmEnr(s, e, u.enrs[e]);
        CalmKeeps(s, u);
        hide Conclude;
        ConcludeKeeps(u, j, e, n, d.badEmail, h, sameDay);
      } else {
        EndingKeeps(s, t, j, e, n);
      }
    }
    hide Conclude;
  }

  // --- every step ---

  lemma CalmKeepsAfter(s: State, t: State, u: State)
    requires DraftInv(s) && Calm(s, t) && Calm(t, u)
    ensures DraftInv(u)
  {
  }

  // --- planning again, and late failures ---

  /** Every live draft job of the enrollment points past the new plan, or at a step that the new plan does not leave to
      dispatch. */
  ghost predicate PlanAccepts(s: State, e: nat, plan: seq<PlanStep>) {
    forall i :: 0 <= i < |s.jobs| && s.jobs[i].enr == e && Live(s.jobs[i]) && s.jobs[i].kind.stepNo < |plan|
                ==> Taken(plan[s.jobs[i].kind.stepNo])
  }

  /** No other live draft job of the touch, and a step that dispatch leaves alone. */
  ghost predicate Reopenable(s: State, j: nat)
    requires j < |s.jobs| && s.jobs[j].kind.DraftJob?
  {
    && (forall i :: 0 <= i < |s.jobs| && i != j && Live(s.jobs[i]) ==> !SameTouch(s.jobs[i], s.jobs[j]))
    && s.jobs[j].enr < |s.enrs|
    && (s.jobs[j].kind.stepNo < |s.enrs[s.jobs[j].enr].plan|
        ==> Taken(s.enrs[s.jobs[j].enr].plan[s.jobs[j].kind.stepNo]))
  }

  /** What a run has to keep to: a new plan accepts the draft jobs still alive, and a late failure reopens only a
      reopenable draft job. */
  ghost predicate QuietPlanning(s: State, step: Step) {
    match step
    case RunJob(j, w) =>
      j < |s.jobs| && s.jobs[j].kind == PlanJob && s.jobs[j].status == Running && s.jobs[j].enr < |s.enrs| ==>
        PlanAccepts(s, s.jobs[j].enr, w.plan)
    case Fail(j, attempts) =>
      j < |s.jobs| && s.jobs[j].kind.DraftJob? && !Live(s.jobs[j]) && attempts < 3 ==> Reopenable(s, j)
    case _ => true
  }

  /** Planning with a plan that accepts the live draft jobs. */
  lemma PlanKeeps(s: State, j: nat, plan: seq<PlanStep>)
    requires DraftInv(s) && j < |s.jobs| && s.jobs[j].enr < |s.enrs| && !s.jobs[j].kind.DraftJob?
        && PlanAccepts(s, s.jobs[j].enr, plan)
    ensures DraftInv(DoPlan(s, j, plan))
  {
    var e := s.jobs[j].enr;
    var t := SetJobStatus(SetEnr(s, e, s.enrs[e].(plan := plan)), j, Finished);
    assert DraftInv(t);
    hide DispatchDue, DraftInv;
    DispatchKeeps(t, e);
  }

  lemma FailKeeps(s: State, j: nat, attempts: nat)
    requires DraftInv(s) && QuietPlanning(s, Fail(j, attempts)) && j < |s.jobs|
    ensures DraftInv(RecordFailure(s, j, attempts))
  {
    hide LiveStepsTaken;
    FailKeepsOne(s, j, attempts);
    FailKeepsTaken(s, j, attempts);
  }

  lemma FailKeepsOne(s: State, j: nat, attempts: nat)
    requires OnePerTouch(s.jobs) && j < |s.jobs| && QuietPlanning(s, Fail(j, attempts))
    ensures OnePerTouch(RecordFailure(s, j, attempts).jobs)
  {
    hide Taken;
  }

  lemma FailKeepsTaken(s: State, j: nat, attempts: nat)
    requires LiveStepsTaken(s.enrs, s.jobs) && j < |s.jobs| && QuietPlanning(s, Fail(j, attempts))
    ensures var t := RecordFailure(s, j, attempts); LiveStepsTaken(t.enrs, t.jobs)
  {
    hide Taken, SameTouch;
  }

  lemma RunKeeps(s: State, j: nat, w: Work)
    requires DraftInv(s) && QuietPlanning(s, RunJob(j, w))
    ensures DraftInv(RunOne(s, j, w))
  {
    hide DraftInv, DraftWith, DoPlan, QualifyOrDefer, QualifyFails, PlannedVerdict, EmailVerdict, Evaluate, ReplyWith;
    if j < |s.jobs| && s.jobs[j].status == Running && s.jobs[j].enr < |s.enrs| {
      var e := s.jobs[j].enr;
      match s.jobs[j].kind {
        case ResearchJob => CalmKeeps(s, DoResearch(s, j));
        case QualifyJob =>
          if w.judged.Judged? && w.judged.dec == Qualify {
            var t := SetJobStatus(s, j, Finished);
            var u := SetEnr(t, e, t.enrs[e].(state := Researched, score := Some(w.judged.score)));
            assert Calm(s, u);
            CalmQualify(u, e);
            hide QualifyOrDefer, QualifyFails, Calm;
            CalmKeepsAfter(s, u, QualifyOrDefer(u, e));
          } else {
            CalmKeeps(s, DoQualify(s, j, w.judged));
          }
        case PlanJob => PlanKeeps(s, j, w.plan);
        case DraftJob(n) => DraftKeeps(s, j, e, n, w.draft, PlannedVerdict(s, e, n), EmailVerdict(s, e, n));
        case ReplyJob(pl) => ReplyCalm(s, j, e, pl, Evaluate(s, e, pl.ch, ReplyFlags(pl)));
      }
    }
  }

  lemma ReplyCalm(s: State, j: nat, e: nat, pl: ReplyPayload, g: Verdict)
    requires DraftInv(s) && j < |s.jobs| && e < |s.enrs| && s.jobs[j].kind == ReplyJob(pl)
    ensures DraftInv(ReplyWith(s, j, e, pl, g))
  {
    hide HasKey, DraftInv;
    CalmKeeps(s, ReplyWith(s, j, e, pl, g));
  }

  lemma RejectKeeps(s: State, a: nat)
    requires DraftInv(s) && a < |s.approvals| && s.approvals[a].enr < |s.enrs|
    ensures DraftInv(RejectItem(s, a))
  {
    var u, e := MarkDeclined(s, a), s.approvals[a].enr;
    assert Calm(s, u);
    CalmStop(u, e);
    CalmMove(u, e, Rejected);
    CalmMove(u, e, RepliedPos);
    assert Calm(u, u);
    hide MarkDeclined, Calm;
    CalmKeepsAfter(s, u, RejectItem(s, a));
  }

  lemma IngestKeeps(s: State, e: nat, ch: Channel, cls: ReplyClass, hotCall: bool)
    requires DraftInv(s) && e < |s.enrs|
    ensures DraftInv(IngestReply(s, e, ch, cls, hotCall))
  {
    hide CancelPending, React, DraftInv;
    var r := Received(s, e, ch);
    CalmKeeps(s, r);
    CalmCancel(r, e, true);
    CalmReact(CancelPending(r, e, true), e, ch, cls, |s.msgs|, hotCall);
    CalmKeepsAfter(r, CancelPending(r, e, true), React(CancelPending(r, e, true), e, ch, cls, |s.msgs|, hotCall));
  }

  lemma EscalateKeeps(s: State, e: nat)
    requires DraftInv(s) && e < |s.enrs|
    ensures DraftInv(EscalateByHand(s, e))
  {
  }

  lemma SmallStepKeeps(s: State, step: Step)
    requires DraftInv(s)
    requires step.Wait? || step.Enroll? || step.Launch? || step.Reconfigure? || step.Requeue? || step.Write?
    ensures DraftInv(Next(s, step))
  {
    hide DraftInv;
    CalmKeeps(s, Next(s, step));
  }

  lemma ApproveKeeps(s: State, a: nat, unsupported: bool, edited: bool, awaiting: bool, g: Verdict)
    requires DraftInv(s) && a < |s.approvals| && s.approvals[a].enr < |s.enrs|
    ensures DraftInv(ApproveWith(s, a, unsupported, edited, awaiting, g))
  {
    var u := ApproveWith(s, a, unsupported, edited, awaiting, g);
    var ap := s.approvals[a];
    var t := Decide(s, a, Approved);
    if u != s {
      assert Calm(s, t);
      if ap.kind == BorderlineReview {
        CalmQualify(t, ap.enr);
        hide QualifyOrDefer, QualifyFails, Calm, DraftInv;
        CalmKeepsAfter(s, t, u);
      } else if ap.kind == VoiceApproval {
        var v := AddSent(t, MakeMessage(t, ap.enr, Voice, false, Sent, false, false, None, None), Call);
        assert Calm(s, v);
        CalmLeave(v, ap.enr, MeetingBooked);
        assert Calm(v, v);
        hide ReleaseClaim, Calm, DraftInv;
        CalmKeepsAfter(s, v, if u.enrs[ap.enr].state == MeetingBooked && u == v then v else u);
      } else {
        hide DraftInv;
        CalmKeeps(s, u);
      }
    }
    hide DraftInv;
  }

  lemma CalmOverride(s: State, x: nat, c: nat)
    requires x < |s.conflicts|
    ensures Calm(s, ResolveConflict(s, x, c))
  {
    hide EnrollmentOf, Retire, Calm, CancelPending;
    var k := s.conflicts[x];
    if c in {k.holder, k.wanting} && k.holder != k.wanting {
      var lose := if c == k.holder then k.wanting else k.holder;
      var w, l := EnrollmentOf(s.enrs, k.prospect, c), EnrollmentOf(s.enrs, k.prospect, lose);
      var t := TransferClaim(s.(conflicts := s.conflicts[x := k.(status := Resolved, winner := Some(c))]), k.prospect,
          c);
      CalmTables(s, t);
      CalmLoser(t, l);
      var u := if l.None? then t
          else Advance(CancelPending(t, l.value, true), l.value, {Qualified, Contacted}, Deferred);
      CalmTrans(s, t, u);
      if w.Some? && u.enrs[w.value].state == Deferred {
        var v := SetState(u, w.value, Qualified);
        CalmMove(u, w.value, Qualified);
        CalmEnqueue(v, w.value, PlanJob, v.clock);
        CalmTrans(s, u, v);
        CalmTrans(s, v, Enqueue(v, w.value, PlanJob, v.clock));
      }
    } else {
      CalmTables(s, s);
    }
  }

  lemma CalmTables(s: State, t: State)
    requires t.enrs == s.enrs && t.jobs == s.jobs
    ensures Calm(s, t)
  {
  }

  lemma CalmLoser(t: State, l: Option<nat>)
    requires l.Some? ==> l.value < |t.enrs|
    ensures Calm(t, if l.None? then t
        else Advance(CancelPending(t, l.value, true), l.value, {Qualified, Contacted}, Deferred))
  {
    hide Calm, CancelPending;
    CalmTables(t, t);
    if l.Some? {
      var u := CancelPending(t, l.value, true);
      CalmCancel(t, l.value, true);
      CalmMove(u, l.value, Deferred);
      if u.enrs[l.value].state in {Qualified, Contacted} {
        CalmTrans(t, u, SetState(u, l.value, Deferred));
      }
    }
  }

  lemma StepKeeps(s: State, step: Step)
    requires DraftInv(s) && QuietPlanning(s, step)
    ensures DraftInv(Next(s, step))
  {
    hide DraftInv, QuietPlanning, Calm, RecordFailure, RunOne, ScanFrom, IngestReply, ApproveWith, RejectItem,
        ResolveConflict, StopProspect, EscalateByHand, ClaimJobs;
    match step {
      case RunJob(j, w) => RunKeeps(s, j, w);
      case Fail(j, attempts) => if j < |s.jobs| { FailKeeps(s, j, attempts); }
      case Scan(c) => ScanKeeps(s, c, 0);
      case Reply(e, ch, cls, hotCall) => if e < |s.enrs| { IngestKeeps(s, e, ch, cls, hotCall); }
      case Approve(a, unsupported, edited, awaiting) =>
        if a < |s.approvals| && s.approvals[a].enr < |s.enrs| {
          ApproveKeeps(s, a, unsupported, edited, awaiting, ApprovalVerdict(s, a));
        }
      case Decline(a) => if a < |s.approvals| && s.approvals[a].enr < |s.enrs| { RejectKeeps(s, a); }
      case Override(x, c) => if x < |s.conflicts| { CalmOverride(s, x, c); CalmKeeps(s, ResolveConflict(s, x, c)); }
      case Stop(e) => if e < |s.enrs| { CalmStop(s, e); CalmKeeps(s, StopProspect(s, e)); }
      case EscalateManually(e) => if e < |s.enrs| { EscalateKeeps(s, e); }
      case ClaimDue(filter) => ClaimKeeps(s, filter);
      case _ => SmallStepKeeps(s, step);
    }
  }

  lemma ClaimKeeps(s: State, filter: Option<nat>)
    requires DraftInv(s)
    ensures DraftInv(ClaimJobs(s, filter))
  {
  }

  ghost predicate QuietRun(s: State, steps: seq<Step>) {
    forall k: nat :: k < |steps| ==> QuietPlanning(After(s, steps, k), steps[k])
  }

  lemma {:induction false} DraftInvAlways(s: State, steps: seq<Step>, n: nat)
    requires Initial(s) && QuietRun(s, steps) && n <= |steps|
    ensures DraftInv(After(s, steps, n))
  {
    hide Next, DraftInv, QuietPlanning;
    if n > 0 {
      DraftInvAlways(s, steps, n - 1);
      StepKeeps(After(s, steps, n - 1), steps[n - 1]);
    } else {
      InitialDrafts(s);
    }
    hide Initial, QuietRun;
  }

  lemma InitialDrafts(s: State)
    requires Initial(s)
    ensures DraftInv(s)
  {
  }

  /** As long as no new plan starts over a step whose draft job is alive and no late failure reopens a draft job whose
      touch is alive or open, every reachable state has at most one queued or running draft job per enrollment and step,
      through dispatch, hold, deferral, cancelling, sending, retries, stale requeues and new claims. */
  lemma OneDraftPerTouch(s: State, steps: seq<Step>)
    requires Initial(s) && QuietRun(s, steps)
    ensures var jobs := After(s, steps, |steps|).jobs;
      forall i, j :: 0 <= i < j < |jobs| && jobs[i].kind.DraftJob? && jobs[j].kind == jobs[i].kind
                     && jobs[j].enr == jobs[i].enr ==>
        jobs[i].status !in {Queued, Running} || jobs[j].status !in {Queued, Running}
  {
    hide After, Initial, QuietRun, LiveStepsTaken;
    DraftInvAlways(s, steps, |steps|);
  }

  // --- what happens otherwise ---

  /** A late failure record makes two live draft jobs of one touch at once exactly when it reopens a draft job beside a
      live one. */
  lemma LateFailure(s: State, j: nat, attempts: nat)
    requires OnePerTouch(s.jobs) && j < |s.jobs| && s.jobs[j].kind.DraftJob? && !Live(s.jobs[j])
    ensures !OnePerTouch(RecordFailure(s, j, attempts).jobs)
       <==> attempts < 3 && exists i :: 0 <= i < |s.jobs| && Live(s.jobs[i]) && SameTouch(s.jobs[i], s.jobs[j])
  {
    var t := RecordFailure(s, j, attempts);
    assert forall i :: 0 <= i < |s.jobs| && i != j ==> t.jobs[i] == s.jobs[i];
    assert t.jobs[j].enr == s.jobs[j].enr && t.jobs[j].kind == s.jobs[j].kind && (Live(t.jobs[j]) <==> attempts < 3);
    if i :| attempts < 3 && 0 <= i < |s.jobs| && Live(s.jobs[i]) && SameTouch(s.jobs[i], s.jobs[j]) {
      assert i != j && Live(t.jobs[i]) && Live(t.jobs[j]) && SameTouch(t.jobs[i], t.jobs[j]);
      assert SameTouch(t.jobs[if i < j then i else j], t.jobs[if i < j then j else i]);
    }
  }

  /** Dispatch would queue this step of a plan for enrollment e now. */
  predicate StartsNow(s: State, e: nat, st: PlanStep)
    requires e < |s.enrs|
  {
    ActionFor(st, s.clock, HasInbound(s.msgs, e), s.enrs[e].warm, MayQueue(s, e)) == Dispatch
  }

  lemma {:induction false} DispatchedHas(s: State, e: nat, n: nat, i: nat)
    requires e < |s.enrs| && i < n <= |s.enrs[e].plan| && ActionAt(s, e, i) == Dispatch
    ensures exists k :: 0 <= k < |DispatchedJobs(s, e, n)| && DispatchedJobs(s, e, n)[k].kind == DraftJob(i)
  {
    hide ActionAt;
    var rest := DispatchedJobs(s, e, n - 1);
    if i == n - 1 {
      assert DispatchedJobs(s, e, n)[|rest|].kind == DraftJob(i);
    } else {
      DispatchedHas(s, e, n - 1, i);
      var k :| 0 <= k < |rest| && rest[k].kind == DraftJob(i);
      assert DispatchedJobs(s, e, n)[k] == rest[k];
    }
  }

  /** Job i is a live draft job of enrollment e for a step that dispatch would start now. */
  predicate StartsAgain(s: State, e: nat, i: nat)
    requires e < |s.enrs| && i < |s.jobs|
  {
    Live(s.jobs[i]) && s.jobs[i].enr == e && s.jobs[i].kind.stepNo < |s.enrs[e].plan|
        && ActionAt(s, e, s.jobs[i].kind.stepNo) == Dispatch
  }

  lemma StartedTwice(s: State, e: nat, i: nat)
    requires e < |s.enrs| && i < |s.jobs| && StartsAgain(s, e, i)
    ensures !OnePerTouch(DispatchDue(s, e).jobs)
  {
    var n, t := s.jobs[i].kind.stepNo, DispatchDue(s, e);
    var more := DispatchedJobs(s, e, |s.enrs[e].plan|);
    DispatchedHas(s, e, |s.enrs[e].plan|, n);
    hide ActionAt, DispatchedJobs;
    var k :| 0 <= k < |more| && more[k].kind == DraftJob(n);
    assert t.jobs[i] == s.jobs[i] && t.jobs[|s.jobs| + k] == more[k] && SameTouch(t.jobs[i], t.jobs[|s.jobs| + k]);
  }

  lemma DoubledByDispatch(s: State, e: nat) returns (i: nat)
    requires OnePerTouch(s.jobs) && e < |s.enrs| && !OnePerTouch(DispatchDue(s, e).jobs)
    ensures i < |s.jobs| && StartsAgain(s, e, i)
  {
    var t, more := DispatchDue(s, e), DispatchedJobs(s, e, |s.enrs[e].plan|);
    assert t.jobs == s.jobs + more;
    hide ActionAt, DispatchDue, DispatchedJobs;
    var a, b :| 0 <= a < b < |t.jobs| && Live(t.jobs[a]) && Live(t.jobs[b]) && SameTouch(t.jobs[a], t.jobs[b]);
    i := a;
    assert b >= |s.jobs| && t.jobs[b] == more[b - |s.jobs|];
    assert a < |s.jobs| && t.jobs[a] == s.jobs[a];
  }

  /** Dispatch makes two live draft jobs of one touch exactly when it starts a step whose draft job is alive. */
  lemma DispatchDoubles(s: State, e: nat)
    requires OnePerTouch(s.jobs) && e < |s.enrs|
    ensures !OnePerTouch(DispatchDue(s, e).jobs)
       <==> exists i: nat :: i < |s.jobs| && StartsAgain(s, e, i)
  {
    hide ActionAt, OnePerTouch, DispatchDue, DispatchedJobs, Live;
    if i: nat :| i < |s.jobs| && StartsAgain(s, e, i) {
      StartedTwice(s, e, i);
    }
    if !OnePerTouch(DispatchDue(s, e).jobs) {
      var i := DoubledByDispatch(s, e);
    }
  }

  /** Job i is a live draft job of enrollment e for a step of the new plan that dispatch would start now. */
  predicate RestartedBy(s: State, e: nat, plan: seq<PlanStep>, i: nat)
    requires e < |s.enrs| && i < |s.jobs|
  {
    Live(s.jobs[i]) && s.jobs[i].enr == e && s.jobs[i].kind.stepNo < |plan|
        && StartsNow(s, e, plan[s.jobs[i].kind.stepNo])
  }

  /** Planning makes two live draft jobs of one touch at once exactly when the new plan starts, now, a step whose draft
      job is alive. */
  lemma Replanning(s: State, j: nat, plan: seq<PlanStep>)
    requires OnePerTouch(s.jobs) && j < |s.jobs| && s.jobs[j].enr < |s.enrs| && !s.jobs[j].kind.DraftJob?
    ensures !OnePerTouch(DoPlan(s, j, plan).jobs)
       <==> exists i: nat :: i < |s.jobs| && RestartedBy(s, s.jobs[j].enr, plan, i)
  {
    hide HasInbound, OpenGateApproval, DispatchDue, ActionFor;
    var e := s.jobs[j].enr;
    var t := SetJobStatus(SetEnr(s, e, s.enrs[e].(plan := plan)), j, Finished);
    assert OnePerTouch(t.jobs);
    DispatchDoubles(t, e);
    assert forall i :: 0 <= i < |s.jobs| ==> Live(t.jobs[i]) == Live(s.jobs[i]) && t.jobs[i].enr == s.jobs[i].enr
                                             && t.jobs[i].kind == s.jobs[i].kind;
    assert forall i: nat :: i < |plan| ==> (ActionAt(t, e, i) == Dispatch <==> StartsNow(s, e, plan[i]));
    assert forall i: nat :: i < |s.jobs| ==> (StartsAgain(t, e, i) <==> RestartedBy(s, e, plan, i));
  }
}
