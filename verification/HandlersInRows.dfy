/** What the job handlers leave in the tables: the outcome of every decision for job, step, messages and approvals. */
module HandlersInRows {
  import opened Basics
  import opened Model
  import opened Gate
  import opened Claims
  import opened Handlers
  import opened Replies
  import opened Machine
  import opened Wellformed
  import opened Deferrals
  import opened Effects
  import opened DraftJobs
  import opened GateInRows
  import opened ClaimsInRows

  // --- drafting ---

  /** Running job j drafts step n of enrollment e's plan. */
  predicate Drafting(s: State, j: nat, e: nat, n: nat) {
    j < |s.jobs| && s.jobs[j].enr == e && s.jobs[j].kind == DraftJob(n) && e < |s.enrs| && n < |s.enrs[e].plan|
  }

  /** An approval of the enrollment is open for something else than step n or a review. */
  predicate OtherApprovalOpen(s: State, e: nat, n: nat) {
    exists i | 0 <= i < |s.approvals| ::
      s.approvals[i].enr == e && s.approvals[i].status == Undecided && s.approvals[i].stepNo != Some(n)
      && s.approvals[i].kind in {TouchApproval, VoiceApproval, ReplyApproval}
  }

  /** An earlier channel of the same planned day is done. */
  predicate Companion(plan: seq<PlanStep>, n: nat)
    requires n < |plan|
  {
    exists i | 0 <= i < |plan| :: plan[i].day == plan[n].day && plan[i].status == Done && i != n
  }

  /** The job waits a minute; plan, messages, approvals and everything else stay. */
  ghost predicate Requeued(s: State, t: State, j: nat)
    requires j < |s.jobs|
  {
    t == s.(jobs := s.jobs[j := s.jobs[j].(status := Queued, runAt := s.clock + 60000)])
  }

  /** The job is over and step n is `st`; nothing else changes. */
  ghost predicate StepEnds(s: State, t: State, j: nat, e: nat, n: nat, st: PlanStep, js: JobStatus)
    requires Drafting(s, j, e, n)
  {
    t == s.(jobs := s.jobs[j := s.jobs[j].(status := js)],
            enrs := s.enrs[e := s.enrs[e].(plan := s.enrs[e].plan[n := st])])
  }

  /** The step stays pending and queued for `until`, with a new job for that time. */
  ghost predicate Postponed(s: State, t: State, j: nat, e: nat, n: nat, until: int)
    requires Drafting(s, j, e, n)
  {
    var st := s.enrs[e].plan[n];
    t == s.(jobs := s.jobs[j := s.jobs[j].(status := Finished)] + [Job(e, DraftJob(n), Queued, until, s.clock, 0, 0)],
            enrs := s.enrs[e := s.enrs[e].(plan := s.enrs[e].plan[n := st.(due := until, queued := true)])])
  }

  /** The draft waits for a manager: an unsent row with its approval, and the step as it was. */
  ghost predicate Parked(s: State, t: State, j: nat, e: nat, n: nat)
    requires Drafting(s, j, e, n)
  {
    var x := s.enrs[e];
    var kind := if x.plan[n].ch == Voice then VoiceApproval else TouchApproval;
    t == s.(jobs := s.jobs[j := s.jobs[j].(status := Finished)],
            msgs := s.msgs + [Message(e, x.prospect, x.campaign, x.plan[n].ch, false, AwaitingDecision, s.clock,
                                      false, false, Some(n), None)],
            approvals := s.approvals + [Approval(kind, e, Undecided, Some(|s.msgs|), Some(n))],
            enrs := s.enrs[e := x.(state := if x.state == Qualified then AwaitingApproval else x.state)])
  }

  /** The touch leaves: one keyed row, one event, the step done. If its key is taken, only the job ends. */
  ghost predicate Left(s: State, t: State, j: nat, e: nat, n: nat, kind: SendKind)
    requires Drafting(s, j, e, n)
  {
    var x := s.enrs[e];
    var key := StepKey(e, n, x.plan[n].ch);
    var over := s.(jobs := s.jobs[j := s.jobs[j].(status := Finished)]);
    if exists r | 0 <= r < |s.msgs| :: s.msgs[r].key == Some(key) then t == over
    else
      var state := if x.state in {Qualified, AwaitingApproval} then Contacted else x.state;
      t == over.(msgs := s.msgs + [Message(e, x.prospect, x.campaign, x.plan[n].ch, false, Sent, s.clock,
                                           false, false, Some(n), Some(key))],
                 log := s.log + [SendEvent(|s.msgs|, x.prospect, s.clock, kind)],
                 enrs := s.enrs[e := x.(state := state,
                                        plan := x.plan[n := x.plan[n].(status := Done, queued := false)])])
  }

  /** What a drafted touch comes to under verdict g; `bad` says that a claim has no evidence. */
  ghost predicate Outcome(s: State, t: State, j: nat, e: nat, n: nat, bad: bool, g: Verdict)
    requires Drafting(s, j, e, n)
  {
    var st := s.enrs[e].plan[n];
    match g.dec
    case Hold => Requeued(s, t, j)
    case Block => StepEnds(s, t, j, e, n, st.(status := Blocked), Finished)
    case Defer =>
      Postponed(s, t, j, e, n, if g.until.Some? && g.until.value != 0 then g.until.value else s.clock + 6 * HOUR)
    case NeedsApproval => Parked(s, t, j, e, n)
    case Allow =>
      if bad then Parked(s, t, j, e, n)
      else Left(s, t, j, e, n, if Companion(s.enrs[e].plan, n) then SameDay else FullGate)
    case Replan => false
  }

  lemma ConcludeInRows(s: State, j: nat, e: nat, n: nat, bad: bool, g: Verdict)
    requires Drafting(s, j, e, n) && g.dec != Replan
    ensures Outcome(s, Conclude(s, j, e, n, bad, g, SameDayDone(s.enrs[e].plan, n)), j, e, n, bad, g)
  {
    hide HasKey;
    assert SameDayDone(s.enrs[e].plan, n) == Companion(s.enrs[e].plan, n);
    hide SameDayDone, Companion;
    KeyInRows(s.msgs, StepKey(e, n, s.enrs[e].plan[n].ch));
  }

  lemma KeyInRows(msgs: seq<Message>, key: Key)
    ensures HasKey(msgs, key) <==> exists r | 0 <= r < |msgs| :: msgs[r].key == Some(key)
  {
  }

  /** The step as it would go by e-mail. */
  function ByMail(s: State, e: nat, n: nat): State
    requires e < |s.enrs| && n < |s.enrs[e].plan|
  {
    s.(enrs := s.enrs[e := s.enrs[e].(plan := s.enrs[e].plan[n := s.enrs[e].plan[n].(ch := Email)])])
  }

  /** Drafting, case by case. An open approval of another step frees the step for a later dispatch; without knowledge
      the job just ends; a channel that is off moves the touch to e-mail or skips it; everything else is the outcome of
      the gate's verdict. */
  lemma DraftInRows(s: State, j: nat, e: nat, n: nat, d: DraftOutcome)
    requires Drafting(s, j, e, n)
    ensures
      var t, st, fl := DoDraft(s, j, n, d), s.enrs[e].plan[n],
          Flags(false, false, false, false, Companion(s.enrs[e].plan, n));
      var g, mail := Evaluate(s, e, st.ch, fl), Evaluate(ByMail(s, e, n), e, Email, fl);
      var mayMail := Email in CampaignOf(s.cfg, s.enrs[e].campaign).channels && Email !in s.cfg.paused
                     && Email in RepOf(s.cfg, s.enrs[e]).channels;
      if OtherApprovalOpen(s, e, n) then StepEnds(s, t, j, e, n, st.(queued := false), JobCancelled)
      else if d.KnowledgeGap? then t == s.(jobs := s.jobs[j := s.jobs[j].(status := Finished)])
      else if g.dec != Replan then Outcome(s, t, j, e, n, d.bad, g)
      else if st.ch != Email && mayMail then Outcome(ByMail(s, e, n), t, j, e, n, d.badEmail, mail)
      else StepEnds(s, t, j, e, n, st.(status := Skipped), Finished)
  {
    hide Conclude, Evaluate, Outcome, OtherApprovalOpen, OpenApprovalElsewhere, SameDayDone, Companion;
    var sameDay := SameDayDone(s.enrs[e].plan, n);
    var g, m := Evaluate(s, e, s.enrs[e].plan[n].ch, TouchFlags(sameDay)), ByMail(s, e, n);
    CompanionInRows(s.enrs[e].plan, n);
    ApprovalsInRows(s, e, n);
    if g.dec != Replan && d.Drafted? { ConcludeInRows(s, j, e, n, d.bad, g); }
    GateReads(s, m, e, Email, TouchFlags(sameDay));
    if d.Drafted? && Allowed(s, s.enrs[e], Email) {
      MovedTouchNotReplanned(s, e, TouchFlags(sameDay));
      ConcludeInRows(m, j, e, n, d.badEmail, Evaluate(m, e, Email, TouchFlags(sameDay)));
    }
  }

  lemma CompanionInRows(plan: seq<PlanStep>, n: nat)
    requires n < |plan|
    ensures SameDayDone(plan, n) == Companion(plan, n)
    ensures SameDayDone(plan[n := plan[n].(ch := Email)], n) == SameDayDone(plan, n)
  {
    var mail := plan[n := plan[n].(ch := Email)];
    if i :| 0 <= i < |plan| && i != n && plan[i].status == Done && plan[i].day == plan[n].day {
      assert mail[i].status == Done && mail[i].day == mail[n].day;
    }
    if i :| 0 <= i < |mail| && i != n && mail[i].status == Done && mail[i].day == mail[n].day {
      assert plan[i].status == Done && plan[i].day == plan[n].day;
    }
  }

  lemma ApprovalsInRows(s: State, e: nat, n: nat)
    ensures OpenApprovalElsewhere(s.approvals, e, n) == OtherApprovalOpen(s, e, n)
  {
  }

  /** A draft that meets the kill switch, a paused campaign or a paused Writer is kept for a minute later. */
  lemma HeldDraftWaits(s: State, j: nat, e: nat, n: nat, d: DraftOutcome)
    requires Drafting(s, j, e, n) && !OtherApprovalOpen(s, e, n) && d.Drafted?
    requires var c := CampaignOf(s.cfg, s.enrs[e].campaign);
      || s.cfg.kill || c.status == PausedCampaign
      || (c.status == LiveCampaign && !(Writer in c.agents && c.agents[Writer]))
    ensures DoDraft(s, j, n, d) == s.(jobs := s.jobs[j := s.jobs[j].(status := Queued, runAt := s.clock + 60000)])
  {
    hide Evaluate, OtherApprovalOpen;
    SwitchHolds(s, e, s.enrs[e].plan[n].ch, Flags(false, false, false, false, Companion(s.enrs[e].plan, n)));
    DraftInRows(s, j, e, n, d);
  }

  lemma SwitchHolds(s: State, e: nat, ch: Channel, fl: Flags)
    requires e < |s.enrs|
    requires var c := CampaignOf(s.cfg, s.enrs[e].campaign);
      || s.cfg.kill || c.status == PausedCampaign
      || (c.status == LiveCampaign && !(Writer in c.agents && c.agents[Writer]))
    ensures Evaluate(s, e, ch, fl).dec == Hold
  {
  }

  // --- enrolling, research and qualification ---

  /** One enrollment per campaign and prospect; research starts at once unless the campaign is a draft. */
  lemma EnrollInRows(s: State, p: nat, c: nat, rep: Option<nat>)
    ensures
      var t := EnrollProspect(s, p, c, rep);
      if p >= |s.prospects| || c >= |s.cfg.campaigns|
         || exists i :: 0 <= i < |s.enrs| && s.enrs[i].prospect == p && s.enrs[i].campaign == c
      then t == s
      else t == s.(enrs := s.enrs + [Enrollment(p, c, New, None, [], rep, s.clock, false, false)],
                   jobs := s.jobs + if s.cfg.campaigns[c].status == DraftCampaign then []
                                    else [Job(|s.enrs|, ResearchJob, Queued, s.clock, s.clock, 0, 0)])
  {
  }

  /** A new enrollment without a research job gets one. */
  lemma LaunchInRows(s: State, e: nat)
    requires e < |s.enrs|
    ensures
      var known := exists j :: 0 <= j < |s.jobs| && s.jobs[j].kind == ResearchJob && s.jobs[j].enr == e;
      LaunchOne(s, e) == s.(jobs := s.jobs + if s.enrs[e].state == New && !known
                                             then [Job(e, ResearchJob, Queued, s.clock, s.clock, 0, 0)] else [])
  {
    assert s.jobs + [] == s.jobs;
  }

  lemma ResearchInRows(s: State, j: nat, e: nat)
    requires j < |s.jobs| && s.jobs[j].enr == e < |s.enrs|
    ensures DoResearch(s, j) == s.(
      enrs := s.enrs[e := s.enrs[e].(state := Researched)],
      jobs := s.jobs[j := s.jobs[j].(status := Finished)] + [Job(e, QualifyJob, Queued, s.clock, s.clock, 0, 0)])
  {
  }

  /** Another campaign holds the prospect and keeps it. */
  ghost predicate KeptElsewhere(s: State, e: nat) {
    exists h: nat, i: nat :: Contested(s, e, h, i) && (Talking(s.msgs, h) || !Outranks(s.cfg, s.enrs[e], s.enrs[h]))
  }

  /** A qualified prospect is stopped if suppressed, waits if another campaign keeps it, and plans otherwise. */
  lemma QualifiedInRows(s: State, e: nat)
    requires ClaimInv(s) && e < |s.enrs|
    ensures
      var t, q, c := QualifyOrDefer(s, e), s.enrs[e].prospect, s.enrs[e].campaign;
      var plans := !OnTheList(s, q) && !KeptElsewhere(s, e);
      && |t.enrs| == |s.enrs| && t.msgs == s.msgs && t.approvals == s.approvals
      && t.enrs[e].state == (if OnTheList(s, q) then Stopped else if KeptElsewhere(s, e) then Deferred else Qualified)
      && t.jobs == s.jobs + (if plans then [Job(e, PlanJob, Queued, s.clock, s.clock, 0, 0)] else [])
      && (plans <==> !OnTheList(s, q) && Holder(t.claims, q) == Some(c))
  {
    hide ClaimInv, ResolveClaim, Contested, Talking, Outranks, Holder;
    var q := s.enrs[e].prospect;
    var d := ResolveClaim(s, e).1;
    Decided(s, e);
    ResolveMoves(s, e, q);
    assert s.jobs + [] == s.jobs;
  }

  lemma Decided(s: State, e: nat)
    requires ClaimInv(s) && e < |s.enrs|
    ensures ResolveClaim(s, e).1
         == if OnTheList(s, s.enrs[e].prospect) then ClaimBlock
             else if KeptElsewhere(s, e) then ClaimDefer else ClaimAllow
  {
    hide ClaimInv, Talking, Outranks, KnownConflict, Ladder, OnTheList;
    var q, c := s.enrs[e].prospect, s.enrs[e].campaign;
    ClaimsAreOne(s);
    ResolutionWithoutContest(s, e);
    var a := ActiveClaim(s.claims, q);
    if !OnTheList(s, q) {
      if a.Some? && s.claims[a.value].campaign != c {
        HolderEnrolled(s, q);
        var h := EnrollmentOf(s.enrs, q, s.claims[a.value].campaign).value;
        assert Contested(s, e, h, a.value);
        OneContest(s, e, h, a.value);
        if Talking(s.msgs, h) { ConversationKeepsTheClaim(s, e, h, a.value); } else {
          ClaimMovesExactly(s, e, h, a.value);
        }
      } else {
        NoContest(s, e);
        if a.Some? { assert s.claims[a.value] == Claim(q, c, Active, s.claims[a.value].claimedAt); }
      }
    }
  }

  lemma ClaimsAreOne(s: State)
    requires ClaimInv(s)
    ensures OneActive(s.claims)
  {
  }

  /** There is one contest at most. */
  lemma OneContest(s: State, e: nat, h: nat, i: nat)
    requires Contested(s, e, h, i)
    ensures forall x: nat, y: nat :: Contested(s, e, x, y) ==> x == h && y == i
  {
    hide Contested;
    HoldingParties(s, e, h, i);
    forall x: nat, y: nat | Contested(s, e, x, y)
      ensures x == h && y == i
    {
      HoldingParties(s, e, x, y);
    }
  }

  lemma NoContest(s: State, e: nat)
    requires e < |s.enrs|
    requires var a := ActiveClaim(s.claims, s.enrs[e].prospect);
      a.None? || s.claims[a.value].campaign == s.enrs[e].campaign
    ensures !KeptElsewhere(s, e)
  {
    hide Talking, Outranks;
    if h: nat, i: nat :| Contested(s, e, h, i) && (Talking(s.msgs, h) || !Outranks(s.cfg, s.enrs[e], s.enrs[h])) {
      HoldingParties(s, e, h, i);
    }
  }

  /** Qualification: rules and a poor judgement reject, a doubtful one asks a manager, a good one goes on. */
  lemma QualifyInRows(s: State, j: nat, e: nat, q: QualifyOutcome)
    requires ClaimInv(s) && j < |s.jobs| && s.jobs[j].enr == e < |s.enrs|
    ensures
      var x, done := s.enrs[e], s.(jobs := s.jobs[j := s.jobs[j].(status := Finished)]);
      DoQualify(s, j, q) ==
        match q
        case RuleReject => done.(enrs := s.enrs[e := x.(state := Rejected, score := None)])
        case Judged(Reject, n) => done.(enrs := s.enrs[e := x.(state := Rejected, score := Some(n))])
        case Judged(Review, n) =>
          done.(enrs := s.enrs[e := x.(state := Borderline, score := Some(n))],
                approvals := s.approvals + [Approval(BorderlineReview, e, Undecided, None, None)])
        case Judged(Qualify, n) =>
          QualifyOrDefer(done.(enrs := s.enrs[e := x.(state := Researched, score := Some(n))]), e)
  {
    hide QualifyOrDefer, ResolveClaim, ClaimInv;
    if q.Judged? && q.dec == Qualify {
      var u := s.(jobs := s.jobs[j := s.jobs[j].(status := Finished)],
                  enrs := s.enrs[e := s.enrs[e].(state := Researched, score := Some(q.score))]);
      SameClaims(s, u, e);
      Decided(u, e);
    }
  }

  lemma SameClaims(s: State, u: State, e: nat)
    requires ClaimInv(s) && SameRows(s.enrs, u.enrs) && u.claims == s.claims && u.conflicts == s.conflicts
    ensures ClaimInv(u)
  {
    hide ClaimsEnrolled, ConflictsEnrolled, OneActive, UniqueEnrollments, SameRows;
    RefsStay(s, u);
  }

  // --- planning and dispatch ---

  predicate HasReply(msgs: seq<Message>, e: nat) { exists r | 0 <= r < |msgs| :: msgs[r].inbound && msgs[r].enr == e }

  /** An open touch, call or reply approval of the enrollment. */
  predicate ApprovalOpen(approvals: seq<Approval>, e: nat) {
    exists i | 0 <= i < |approvals| ::
      approvals[i].enr == e && approvals[i].status == Undecided
      && approvals[i].kind in {TouchApproval, VoiceApproval, ReplyApproval}
  }

  /** The step waits, its time has come, and it is not under way. */
  predicate ComesUp(s: State, st: PlanStep) { st.status == Pending && st.due <= s.clock && !st.queued }

  predicate StartsStep(s: State, e: nat, i: nat)
    requires e < |s.enrs| && i < |s.enrs[e].plan|
  {
    var x, st := s.enrs[e], s.enrs[e].plan[i];
    && ComesUp(s, st) && (x.state == Qualified || x.state == Contacted) && !ApprovalOpen(s.approvals, e)
    && (st.cond == IfEngaged ==> HasReply(s.msgs, e)) && (st.cond == IfWarm ==> HasReply(s.msgs, e) || x.warm)
  }

  predicate SkipsStep(s: State, e: nat, i: nat)
    requires e < |s.enrs| && i < |s.enrs[e].plan|
  {
    ComesUp(s, s.enrs[e].plan[i]) && s.enrs[e].plan[i].cond == IfWarm && !HasReply(s.msgs, e) && !s.enrs[e].warm
  }

  /** The draft jobs of the starting steps, in plan order, each due when its step is. */
  ghost predicate JobsFor(s: State, e: nat, more: seq<Job>)
    requires e < |s.enrs|
  {
    var plan := s.enrs[e].plan;
    && (forall k :: 0 <= k < |more| ==>
          && more[k].kind.DraftJob? && more[k].kind.stepNo < |plan| && StartsStep(s, e, more[k].kind.stepNo)
          && more[k] == Job(e, DraftJob(more[k].kind.stepNo), Queued, plan[more[k].kind.stepNo].due, s.clock, 0, 0))
    && (forall k, l :: 0 <= k < l < |more| ==> more[k].kind.stepNo < more[l].kind.stepNo)
    && (forall i: nat :: i < |plan| && StartsStep(s, e, i)
                         ==> exists k :: 0 <= k < |more| && more[k].kind == DraftJob(i))
  }

  /** Dispatch marks and queues exactly the steps that start, and skips what needs a warm prospect. */
  lemma DispatchInRows(s: State, e: nat)
    requires e < |s.enrs|
    ensures
      var t, plan := DispatchDue(s, e), s.enrs[e].plan;
      && |t.jobs| >= |s.jobs| && t.jobs[..|s.jobs|] == s.jobs && JobsFor(s, e, t.jobs[|s.jobs|..])
      && |t.enrs| == |s.enrs| && |t.enrs[e].plan| == |plan|
      && t == s.(jobs := t.jobs, enrs := s.enrs[e := s.enrs[e].(plan := t.enrs[e].plan)])
      && forall i :: 0 <= i < |plan| ==>
        t.enrs[e].plan[i] == if StartsStep(s, e, i) then plan[i].(queued := true)
                             else if SkipsStep(s, e, i) then plan[i].(status := Skipped) else plan[i]
  {
    hide StartsStep, SkipsStep, ActionAt;
    var more := DispatchedJobs(s, e, |s.enrs[e].plan|);
    ActionsInRows(s, e);
    JobsInRows(s, e, |s.enrs[e].plan|);
    assert DispatchDue(s, e).jobs[|s.jobs|..] == more;
    forall i: nat | i < |s.enrs[e].plan| && StartsStep(s, e, i)
      ensures exists k :: 0 <= k < |more| && more[k].kind == DraftJob(i)
    {
      DispatchedHas(s, e, |s.enrs[e].plan|, i);
    }
  }

  lemma ActionsInRows(s: State, e: nat)
    requires e < |s.enrs|
    ensures forall i: nat :: i < |s.enrs[e].plan| ==>
      (ActionAt(s, e, i) == Dispatch <==> StartsStep(s, e, i)) && (ActionAt(s, e, i) == Skip <==> SkipsStep(s, e, i))
      && !(StartsStep(s, e, i) && SkipsStep(s, e, i))
  {
    assert HasInbound(s.msgs, e) == HasReply(s.msgs, e);
    assert OpenGateApproval(s.approvals, e) == ApprovalOpen(s.approvals, e);
    hide HasInbound, HasReply, OpenGateApproval, ApprovalOpen;
  }

  lemma {:induction false} JobsInRows(s: State, e: nat, n: nat)
    requires e < |s.enrs| && n <= |s.enrs[e].plan|
    ensures forall k :: 0 <= k < |DispatchedJobs(s, e, n)| ==>
      var job := DispatchedJobs(s, e, n)[k];
      job == Job(e, DraftJob(job.kind.stepNo), Queued, s.enrs[e].plan[job.kind.stepNo].due, s.clock, 0, 0)
  {
    hide ActionAt;
    if n > 0 { JobsInRows(s, e, n - 1); }
  }

  /** A new plan replaces the old one, ends the job and is dispatched at once. */
  lemma PlanInRows(s: State, j: nat, e: nat, plan: seq<PlanStep>)
    requires j < |s.jobs| && s.jobs[j].enr == e < |s.enrs|
    ensures DoPlan(s, j, plan)
         == DispatchDue(s.(enrs := s.enrs[e := s.enrs[e].(plan := plan)],
                           jobs := s.jobs[j := s.jobs[j].(status := Finished)]), e)
  {
    hide DispatchDue;
  }

  // --- the due scan ---

  /** Four touches have left without a reply that moved the enrollment on, and steps are still open. */
  predicate SequenceOver(s: State, e: nat)
    requires e < |s.enrs|
  {
    && s.enrs[e].state == Contacted && (exists i | 0 <= i < |s.enrs[e].plan| :: s.enrs[e].plan[i].status == Pending)
    && |set r: nat | r < |s.msgs| && s.msgs[r].enr == e && TouchRow(s.msgs[r], s.msgs[r].prospect)| >= 4
  }

  /** One row of the scan: an exhausted sequence loses open steps and claim and stops; any other is dispatched. */
  lemma ScanRowInRows(s: State, e: nat)
    requires e < |s.enrs|
    ensures SequenceOver(s, e) ==> exists plan ::
      && StepsCancelled(s.enrs[e].plan, plan)
      && var u := ReleaseClaim(s.(enrs := s.enrs[e := s.enrs[e].(plan := plan)]), e);
         ScanOne(s, e) == u.(enrs := u.enrs[e := u.enrs[e].(state := Stopped)])
    ensures !SequenceOver(s, e) ==> ScanOne(s, e) == DispatchDue(s, e)
  {
    hide ReleaseClaim, DispatchDue;
    TouchesInRows(s, e);
    assert StepsCancelled(s.enrs[e].plan, CancelledPlan(s.enrs[e].plan));
  }

  lemma TouchesInRows(s: State, e: nat)
    requires e < |s.enrs|
    ensures Exhausted(s, e) == SequenceOver(s, e)
  {
    assert TouchesSent(s.msgs, e)
        == set r: nat | r < |s.msgs| && s.msgs[r].enr == e && TouchRow(s.msgs[r], s.msgs[r].prospect);
  }

  /** The scan takes the live campaign's qualified and contacted enrollments that have a plan, in order, and no other
      row. */
  lemma ScanInRows(s: State, c: nat, e: nat)
    requires e < |s.enrs|
    ensures
      var takes := s.enrs[e].campaign == c && (s.enrs[e].state == Qualified || s.enrs[e].state == Contacted)
                   && |s.enrs[e].plan| > 0;
      ScanFrom(s, c, e) == ScanFrom(if takes then ScanOne(s, e) else s, c, e + 1)
    ensures ScanDue(s, c) == if CampaignOf(s.cfg, c).status == LiveCampaign then ScanFrom(s, c, 0) else s
  {
    hide ScanOne;
  }

  // --- running a job ---

  /** Only a running job with its enrollment is run, by the handler of its kind. */
  lemma RunInRows(s: State, j: nat, w: Work)
    ensures !(j < |s.jobs| && s.jobs[j].status == Running && s.jobs[j].enr < |s.enrs|) ==> RunOne(s, j, w) == s
    ensures j < |s.jobs| && s.jobs[j].status == Running && s.jobs[j].enr < |s.enrs| ==>
      RunOne(s, j, w) ==
        match s.jobs[j].kind
        case ResearchJob => DoResearch(s, j)
        case QualifyJob => DoQualify(s, j, w.judged)
        case PlanJob => DoPlan(s, j, w.plan)
        case DraftJob(n) => DoDraft(s, j, n, w.draft)
        case ReplyJob(pl) => SendReply(s, j, pl)
  {
    hide DoResearch, DoQualify, DoPlan, DoDraft, SendReply;
  }
}
