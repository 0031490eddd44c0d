/** The job handlers as transactions over the tables. */
module HandlerTx {
  import opened Basics
  import opened Model
  import opened Gate
  import opened Claims
  import opened Handlers
  import opened Tables
  import opened GateRun
  import opened ClaimTx

  /** One imported row. */
  method EnrollRow(db: Db, p: nat, c: nat, rep: Option<nat>)
    modifies db
    ensures db.View() == EnrollProspect(old(db.View()), p, c, rep)
  {
    if p >= |db.prospects| || c >= |db.cfg.campaigns| || EnrollmentOf(db.enrs, p, c).Some? { return; }
    var e := |db.enrs|;
    db.enrs := db.enrs + [Enrollment(p, c, New, None, [], rep, db.clock, false, false)];
    if db.cfg.campaigns[c].status != DraftCampaign {
      db.AddJob(e, ResearchJob, db.clock);
    }
  }

  /** Activation, for one enrollment. */
  method LaunchRow(db: Db, e: nat)
    requires e < |db.enrs|
    modifies db
    ensures db.View() == LaunchOne(old(db.View()), e)
  {
    if db.enrs[e].state == New && !HasResearch(db.jobs, e) {
      db.AddJob(e, ResearchJob, db.clock);
    }
  }

  /** Qualifies, defers or stops; fails without effect when the claim's enrollment is missing. */
  method QualifyEnrollment(db: Db, e: nat) returns (ok: bool)
    requires e < |db.enrs|
    modifies db
    ensures ok == !QualifyFails(old(db.View()), e) && (!ok ==> db.View() == old(db.View()))
    ensures db.View() == QualifyOrDefer(old(db.View()), e)
  {
    hide ResolveClaim;
    var d := Resolve(db, e);
    ok := d != ClaimError;
    match d {
      case ClaimBlock => db.MoveTo(e, Stopped);
      case ClaimDefer => db.MoveTo(e, Deferred);
      case ClaimAllow =>
        db.MoveTo(e, Qualified);
        db.AddJob(e, PlanJob, db.clock);
      case ClaimError =>
    }
  }

  lemma DispatchUnfolds(s: State, e: nat, i: nat)
    requires e < |s.enrs| && i < |s.enrs[e].plan|
    ensures DispatchedPlan(s, e)[i] == Acted(s.enrs[e].plan[i], ActionAt(s, e, i))
    ensures
      var st := s.enrs[e].plan[i];
      DispatchedJobs(s, e, i + 1)
      == DispatchedJobs(s, e, i) + if ActionAt(s, e, i) == Dispatch
          then [Job(e, DraftJob(i), Queued, st.due, s.clock, 0, 0)] else []
  {
  }

  /** Queues the due touches of an enrollment, one plan step after the other. */
  method DispatchTouches(db: Db, e: nat)
    requires e < |db.enrs|
    modifies db
    ensures db.View() == DispatchDue(old(db.View()), e)
  {
    ghost var s := db.View();
    hide HasInbound, OpenGateApproval;
    assert DispatchedJobs(s, e, 0) == [];
    hide DispatchedPlan, DispatchedJobs;
    var plan := db.enrs[e].plan;
    var engaged := HasInbound(db.msgs, e);
    var open := OpenGateApproval(db.approvals, e);
    var changed := false;
    for i := 0 to |plan|
      invariant |plan| == |s.enrs[e].plan| && db.View() == s.(jobs := db.jobs)
      invariant forall k :: 0 <= k < i ==> plan[k] == DispatchedPlan(s, e)[k]
      invariant forall k :: i <= k < |plan| ==> plan[k] == s.enrs[e].plan[k]
      invariant db.jobs == s.jobs + DispatchedJobs(s, e, i)
      invariant !changed ==> plan == s.enrs[e].plan
    {
      DispatchUnfolds(s, e, i);
      var st := plan[i];
      if st.status != Pending || st.due > db.clock || st.queued { continue; }
      if st.cond == IfEngaged && !engaged { continue; }
      if st.cond == IfWarm && !engaged && !db.enrs[e].warm {
        plan := plan[i := st.(status := Skipped)];
        changed := true;
        continue;
      }
      if db.enrs[e].state !in {Qualified, Contacted} || open { continue; }
      plan := plan[i := st.(queued := true)];
      changed := true;
      db.AddJob(e, DraftJob(i), st.due);
    }
    assert plan == DispatchedPlan(s, e);
    if changed {
      db.SetEnrollment(e, db.enrs[e].(plan := plan));
    } else {
      assert db.enrs == db.enrs[e := db.enrs[e].(plan := plan)];
    }
  }

  /** The due scan of a campaign, row by row. */
  method ScanCampaign(db: Db, c: nat)
    modifies db
    ensures db.View() == ScanDue(old(db.View()), c)
  {
    ghost var s := db.View();
    hide Exhausted, ScanOne, DispatchDue;
    if CampaignOf(db.cfg, c).status != LiveCampaign { return; }
    for e := 0 to |db.enrs|
      invariant |db.enrs| == |s.enrs| && ScanFrom(db.View(), c, e) == ScanFrom(s, c, 0)
    {
      if db.enrs[e].campaign == c && db.enrs[e].state in {Qualified, Contacted} && db.enrs[e].plan != [] {
        ScanEnrollment(db, e);
      }
    }
  }

  method ScanEnrollment(db: Db, e: nat)
    requires e < |db.enrs|
    modifies db
    ensures db.View() == ScanOne(old(db.View()), e)
  {
    hide DispatchDue, ReleaseClaim, CancelPending;
    var sent := |TouchesSent(db.msgs, e)|;
    var openLeft := PendingLeft(db.enrs[e].plan);
    if db.enrs[e].state == Contacted && sent >= 4 && openLeft {
      CancelPendingSteps(db, e, false);
      Release(db, e);
      db.MoveTo(e, Stopped);
    } else {
      DispatchTouches(db, e);
    }
  }

  /** A draft that waits for a manager, with its approval. */
  method ParkDraft(db: Db, j: nat, e: nat, n: nat)
    requires j < |db.jobs| && e < |db.enrs| && n < |db.enrs[e].plan|
    modifies db
    ensures db.View() == ParkTouch(old(db.View()), j, e, n)
  {
    var ch := db.enrs[e].plan[n].ch;
    var row := |db.msgs|;
    db.InsertMessage(Message(e, db.enrs[e].prospect, db.enrs[e].campaign, ch, false, AwaitingDecision, db.clock, false,
        false, Some(n), None));
    db.FinishJob(j, Finished);
    db.approvals := db.approvals + [Approval(if ch == Voice then VoiceApproval
        else TouchApproval, e, Undecided, Some(row), Some(n))];
    if db.enrs[e].state == Qualified { db.MoveTo(e, AwaitingApproval); }
  }

  /** Sends a touch under its idempotency key; a key already present means another worker sent it. */
  method SendTouch(db: Db, j: nat, e: nat, n: nat, kind: SendKind)
    requires j < |db.jobs| && e < |db.enrs| && n < |db.enrs[e].plan|
    modifies db
    ensures db.View() == SendStep(old(db.View()), j, e, n, kind)
  {
    hide HasKey;
    var st := db.enrs[e].plan[n];
    var key := StepKey(e, n, st.ch);
    if HasKey(db.msgs, key) {
      db.FinishJob(j, Finished);
      return;
    }
    db.InsertSent(Message(e, db.enrs[e].prospect, db.enrs[e].campaign, st.ch, false, Sent, db.clock, false, false,
        Some(n), Some(key)), kind);
    db.SetEnrollment(e, db.enrs[e].(plan := db.enrs[e].plan[n := st.(status := Done, queued := false)]));
    if db.enrs[e].state in {Qualified, AwaitingApproval} { db.MoveTo(e, Contacted); }
    db.FinishJob(j, Finished);
  }

  /** What follows the gate's verdict. */
  method ConcludeDraft(db: Db, j: nat, e: nat, n: nat, bad: bool, g: Verdict, sameDay: bool)
    requires j < |db.jobs| && e < |db.enrs| && n < |db.enrs[e].plan|
    modifies db
    ensures db.View() == Conclude(old(db.View()), j, e, n, bad, g, sameDay)
  {
    hide ParkTouch, SendStep;
    var st := db.enrs[e].plan[n];
    if g.dec == Hold {
      db.jobs := db.jobs[j := db.jobs[j].(status := Queued, runAt := db.clock + MINUTE)];
      return;
    }
    if bad && g.dec != Block && g.dec != Defer {
      ParkDraft(db, j, e, n);
      return;
    }
    if g.dec == Block {
      db.SetEnrollment(e, db.enrs[e].(plan := db.enrs[e].plan[n := st.(status := Blocked)]));
      db.FinishJob(j, Finished);
      return;
    }
    if g.dec == Defer {
      var until := if g.until.Some? && g.until.value != 0 then g.until.value else db.clock + 6 * HOUR;
      db.SetEnrollment(e, db.enrs[e].(plan := db.enrs[e].plan[n := st.(due := until, queued := true)]));
      db.FinishJob(j, Finished);
      db.AddJob(e, DraftJob(n), until);
      return;
    }
    if g.dec == NeedsApproval {
      ParkDraft(db, j, e, n);
      return;
    }
    SendTouch(db, j, e, n, if sameDay then SameDay else FullGate);
  }

  /** A touch whose channel is not allowed goes by e-mail if that is, and is skipped otherwise. */
  method MoveToEmail(db: Db, j: nat, e: nat, n: nat, d: DraftOutcome, sameDay: bool)
    requires j < |db.jobs| && e < |db.enrs| && n < |db.enrs[e].plan| && !d.KnowledgeGap?
    modifies db
    ensures
      var s := old(db.View());
      var st := s.enrs[e].plan[n];
      db.View() == if st.ch != Email && Allowed(s, s.enrs[e], Email)
                   then Conclude(SetStep(s, e, n, st.(ch := Email)), j, e, n, d.badEmail,
                       Evaluate(s, e, Email, TouchFlags(sameDay)), sameDay)
                   else SetJobStatus(SetStep(s, e, n, st.(status := Skipped)), j, Finished)
  {
    hide Conclude, Evaluate;
    var st := db.enrs[e].plan[n];
    var mail := Email in CampaignOf(db.cfg, db.enrs[e].campaign).channels && Email !in db.cfg.paused
        && Email in RepOf(db.cfg, db.enrs[e]).channels;
    if st.ch != Email && mail {
      var h, _ := RunGate(db, e, Email, TouchFlags(sameDay));
      db.SetEnrollment(e, db.enrs[e].(plan := db.enrs[e].plan[n := st.(ch := Email)]));
      ConcludeDraft(db, j, e, n, d.badEmail, h, sameDay);
    } else {
      db.SetEnrollment(e, db.enrs[e].(plan := db.enrs[e].plan[n := st.(status := Skipped)]));
      db.FinishJob(j, Finished);
    }
  }

  /** The draft handler: open approvals first, then the Writer, the gate, a possible move to e-mail, and the verdict. */
  method RunDraft(db: Db, j: nat, n: nat, d: DraftOutcome)
    requires j < |db.jobs| && db.jobs[j].enr < |db.enrs|
    modifies db
    ensures db.View() == DoDraft(old(db.View()), j, n, d)
  {
    hide Conclude, Evaluate, OpenApprovalElsewhere;
    var e := db.jobs[j].enr;
    if n >= |db.enrs[e].plan| { return; }
    var st := db.enrs[e].plan[n];
    if OpenApprovalElsewhere(db.approvals, e, n) {
      db.SetEnrollment(e, db.enrs[e].(plan := db.enrs[e].plan[n := st.(queued := false)]));
      db.FinishJob(j, JobCancelled);
      return;
    }
    if d.KnowledgeGap? {
      db.FinishJob(j, Finished);
      return;
    }
    var sameDay := SameDayDone(db.enrs[e].plan, n);
    var g, _ := RunGate(db, e, st.ch, TouchFlags(sameDay));
    if g.dec == Replan {
      MoveToEmail(db, j, e, n, d, sameDay);
      return;
    }
    ConcludeDraft(db, j, e, n, d.bad, g, sameDay);
  }

  /** Qualification of a prospect: rules, judgement, review or claim. A failing resolution rolls the transaction
      back. */
  method RunQualify(db: Db, j: nat, q: QualifyOutcome)
    requires j < |db.jobs| && db.jobs[j].enr < |db.enrs|
    modifies db
    ensures db.View() == DoQualify(old(db.View()), j, q)
  {
    hide QualifyOrDefer, QualifyFails;
    var e := db.jobs[j].enr;
    var enrsBefore, jobsBefore := db.enrs, db.jobs;
    db.FinishJob(j, Finished);
    match q {
      case RuleReject => db.SetEnrollment(e, db.enrs[e].(state := Rejected, score := None));
      case Judged(Reject, score) => db.SetEnrollment(e, db.enrs[e].(state := Rejected, score := Some(score)));
      case Judged(Review, score) =>
        db.SetEnrollment(e, db.enrs[e].(state := Borderline, score := Some(score)));
        db.approvals := db.approvals + [Approval(BorderlineReview, e, Undecided, None, None)];
      case Judged(Qualify, score) =>
        db.SetEnrollment(e, db.enrs[e].(state := Researched, score := Some(score)));
        var ok := QualifyEnrollment(db, e);
        if !ok { db.enrs, db.jobs := enrsBefore, jobsBefore; }
    }
  }

  method RunResearch(db: Db, j: nat)
    requires j < |db.jobs| && db.jobs[j].enr < |db.enrs|
    modifies db
    ensures db.View() == DoResearch(old(db.View()), j)
  {
    var e := db.jobs[j].enr;
    db.MoveTo(e, Researched);
    db.FinishJob(j, Finished);
    db.AddJob(e, QualifyJob, db.clock);
  }

  method RunPlan(db: Db, j: nat, plan: seq<PlanStep>)
    requires j < |db.jobs| && db.jobs[j].enr < |db.enrs|
    modifies db
    ensures db.View() == DoPlan(old(db.View()), j, plan)
  {
    hide DispatchDue;
    var e := db.jobs[j].enr;
    db.SetEnrollment(e, db.enrs[e].(plan := plan));
    db.FinishJob(j, Finished);
    DispatchTouches(db, e);
  }
}
