/** Replies, approvals and managers' decisions as transactions over the tables. */
module ReplyTx {
  import opened Basics
  import opened Model
  import opened Gate
  import opened Claims
  import opened Handlers
  import opened Replies
  import opened Tables
  import opened GateRun
  import opened ClaimTx
  import opened HandlerTx

  method QueueReply(db: Db, e: nat, ch: Channel, compose: Compose, inbound: nat, ack: bool, pricing: bool)
    modifies db
    ensures db.View() == EnqueueReply(old(db.View()), e, ch, compose, inbound, ack, pricing)
  {
    db.AddJob(e, ReplyJob(ReplyPayload(ch, compose, inbound, ack, pricing)), db.clock);
  }

  method OptOutOne(db: Db, e: nat)
    requires e < |db.enrs|
    modifies db
    ensures db.View() == old(db.View()).(enrs := db.enrs, jobs := CancelledJobs(old(db.jobs), e))
    ensures db.enrs == old(db.enrs)[e := old(db.enrs[e]).(state := OptedOut, plan :=
        CancelledPlan(old(db.enrs[e].plan)))]
  {
    hide CancelledPlan, CancelledJobs;
    db.MoveTo(e, OptedOut);
    CancelPendingSteps(db, e, true);
  }

  /** Suppresses the prospect and walks over all enrollments: each is opted out and loses its steps and queued
      drafts. */
  method OptOutEverywhere(db: Db, p: nat)
    modifies db
    ensures db.View() == OptOut(old(db.View()), p)
  {
    ghost var s := db.View();
    hide Retire;
    if p < |db.prospects| { db.suppressed := db.suppressed + {ByEmail(db.prospects[p].email)}; }
    ghost var supp := db.suppressed;
    for i := 0 to |db.enrs|
      invariant |db.enrs| == |s.enrs| && |db.jobs| == |s.jobs| && db.suppressed == supp
      invariant db.View() == s.(suppressed := db.suppressed, enrs := db.enrs, jobs := db.jobs)
      invariant forall k :: 0 <= k < i ==> db.enrs[k] == OptOutAll(s.enrs, p)[k]
      invariant forall k :: i <= k < |s.enrs| ==> db.enrs[k] == s.enrs[k]
      invariant forall j :: 0 <= j < |s.jobs| ==>
        db.jobs[j] == if s.jobs[j].enr < i then CancelJobsOf(s.jobs, s.enrs, p)[j] else s.jobs[j]
    {
      if db.enrs[i].prospect == p { OptOutOne(db, i); }
    }
    assert db.enrs == OptOutAll(s.enrs, p);
    assert db.jobs == CancelJobsOf(s.jobs, s.enrs, p);
    db.claims := Retire(db.claims, p, Released);
  }

  method Book(db: Db, e: nat)
    requires e < |db.enrs|
    modifies db
    ensures db.View() == BookMeeting(old(db.View()), e)
  {
    hide ReleaseClaim;
    db.MoveTo(e, MeetingBooked);
    Release(db, e);
  }

  method OfferTwoSlots(db: Db, e: nat, ch: Channel, inbound: nat, hotCall: bool)
    requires e < |db.enrs|
    modifies db
    ensures db.View() == Offer(old(db.View()), e, ch, inbound, hotCall)
  {
    hide OpenVoiceApproval;
    db.SetEnrollment(e, db.enrs[e].(state := RepliedPos, slots := true));
    QueueReply(db, e, ch, OfferSlots, inbound, false, false);
    if hotCall && !OpenVoiceApproval(db.approvals, e) {
      db.approvals := db.approvals + [Approval(VoiceApproval, e, Undecided, None, None)];
      db.MoveTo(e, AwaitingVoice);
    }
  }

  method ReactTo(db: Db, e: nat, ch: Channel, cls: ReplyClass, inbound: nat, hotCall: bool)
    requires e < |db.enrs|
    modifies db
    ensures db.View() == React(old(db.View()), e, ch, cls, inbound, hotCall)
  {
    hide OptOut, ReleaseClaim, Offer, BookMeeting;
    match cls {
      case OutOfOffice =>
      case Unsubscribe =>
        OptOutEverywhere(db, db.enrs[e].prospect);
        QueueReply(db, e, ch, Unsub, inbound, true, false);
      case Escalate =>
        db.MoveTo(e, Escalated);
        QueueReply(db, e, ch, EscalationNote, inbound, true, false);
      case NotInterested =>
        db.MoveTo(e, Stopped);
        Release(db, e);
      case Positive => OfferTwoSlots(db, e, ch, inbound, hotCall);
      case Book =>
        if !db.enrs[e].slots {
          OfferTwoSlots(db, e, ch, inbound, hotCall);
        } else {
          Book(db, e);
          QueueReply(db, e, ch, Confirm, inbound, false, false);
        }
      case Objection(sub, pricing) =>
        db.MoveTo(e, RepliedObj);
        QueueReply(db, e, ch, ObjectionAnswer(sub), inbound, false, pricing);
      case NotNowReply =>
        db.MoveTo(e, RepliedNotNow);
        QueueReply(db, e, ch, NotNow, inbound, false, false);
      case OtherReply =>
        db.MoveTo(e, RepliedObj);
        QueueReply(db, e, ch, AnswerQuestion, inbound, false, false);
    }
  }

  /** The single inbound function. */
  method Ingest(db: Db, e: nat, ch: Channel, cls: ReplyClass, hotCall: bool)
    requires e < |db.enrs|
    modifies db
    ensures db.View() == IngestReply(old(db.View()), e, ch, cls, hotCall)
  {
    hide React, CancelPending;
    var inbound := |db.msgs|;
    db.InsertMessage(Message(e, db.enrs[e].prospect, db.enrs[e].campaign, ch, true, Sent, db.clock, false, false, None,
        None));
    db.SetEnrollment(e, db.enrs[e].(warm := true));
    if cls == OutOfOffice { return; }
    CancelPendingSteps(db, e, true);
    ReactTo(db, e, ch, cls, inbound, hotCall);
  }

  /** Answers an inbound message through the gate; an acknowledgement goes out even when the gate blocks, defers or
      replans. */
  method RunReply(db: Db, j: nat, pl: ReplyPayload)
    requires j < |db.jobs| && db.jobs[j].enr < |db.enrs|
    modifies db
    ensures db.View() == SendReply(old(db.View()), j, pl)
  {
    hide Evaluate, HasKey;
    var e := db.jobs[j].enr;
    var g, _ := RunGate(db, e, pl.ch, ReplyFlags(pl));
    var dec := if pl.ack && g.dec in {Block, Defer, Replan} then Allow else g.dec;
    if dec == Hold {
      db.jobs := db.jobs[j := db.jobs[j].(status := Queued, runAt := db.clock + MINUTE)];
      return;
    }
    if dec in {Block, Defer, Replan} {
      db.FinishJob(j, Finished);
      return;
    }
    if dec == NeedsApproval {
      var row := |db.msgs|;
      db.InsertMessage(Message(e, db.enrs[e].prospect, db.enrs[e].campaign, pl.ch, false, AwaitingDecision, db.clock,
          true, false, None, None));
      db.FinishJob(j, Finished);
      db.approvals := db.approvals + [Approval(ReplyApproval, e, Undecided, Some(row), None)];
      return;
    }
    var key := ReplyKey(e, pl.inbound, pl.compose);
    if !HasKey(db.msgs, key) {
      db.InsertSent(Message(e, db.enrs[e].prospect, db.enrs[e].campaign, pl.ch, false, Sent, db.clock, true, pl.ack,
          None, Some(key)), if pl.ack then Ack else GatedReply);
    }
    db.FinishJob(j, Finished);
  }

  method SetApproval(db: Db, a: nat, st: ApprovalStatus)
    requires a < |db.approvals|
    modifies db
    ensures db.View() == Decide(old(db.View()), a, st)
  {
    db.approvals := db.approvals[a := db.approvals[a].(status := st)];
  }

  /** The approved draft leaves and its plan step is done. */
  method ReleaseDraft(db: Db, a: nat, e: nat, row: nat)
    requires a < |db.approvals| && e < |db.enrs| && row < |db.msgs|
    modifies db
    ensures db.View() == ReleaseMessage(old(db.View()), a, e, row)
  {
    var m := db.msgs[row];
    SetApproval(db, a, Approved);
    db.log := db.log + [SendEvent(row, m.prospect, db.clock, if m.isReply then GatedReply else FullGate)];
    db.msgs := db.msgs[row := m.(status := Sent, createdAt := db.clock)];
    if m.stepNo.Some? && m.stepNo.value < |db.enrs[e].plan| {
      var plan := db.enrs[e].plan;
      db.SetEnrollment(e, db.enrs[e].(plan := plan[m.stepNo.value :=
          plan[m.stepNo.value].(status := Done, queued := false)]));
    }
    if db.enrs[e].state in {AwaitingApproval, Qualified} { db.MoveTo(e, Contacted); }
  }

  method PlaceCall(db: Db, e: nat, awaiting: bool)
    requires e < |db.enrs|
    modifies db
    ensures db.View() == CallPlaced(old(db.View()), e, awaiting)
  {
    hide BookMeeting;
    if awaiting { return; }
    db.InsertSent(Message(e, db.enrs[e].prospect, db.enrs[e].campaign, Voice, false, Sent, db.clock, false, false, None,
        None), Call);
    if db.enrs[e].state != MeetingBooked { Book(db, e); }
  }

  /** A manager approves: a borderline prospect is qualified, a call is placed, or a draft goes through the gate once
      more. */
  method ApproveIt(db: Db, a: nat, unsupported: bool, edited: bool, awaiting: bool)
    requires a < |db.approvals| && db.approvals[a].enr < |db.enrs|
    modifies db
    ensures db.View() == ApproveItem(old(db.View()), a, unsupported, edited, awaiting)
  {
    hide QualifyOrDefer, QualifyFails, CallPlaced, ReleaseMessage, Evaluate;
    var ap := db.approvals[a];
    if ap.status != Undecided { return; }
    if ap.kind == BorderlineReview {
      var before := db.approvals;
      SetApproval(db, a, Approved);
      var ok := QualifyEnrollment(db, ap.enr);
      if !ok { db.approvals := before; }
      return;
    }
    if ap.kind == VoiceApproval {
      SetApproval(db, a, Approved);
      PlaceCall(db, ap.enr, awaiting);
      return;
    }
    if ap.msg.None? || ap.msg.value >= |db.msgs| { return; }
    if unsupported && !edited { return; }
    var m := db.msgs[ap.msg.value];
    var g, _ := RunGate(db, ap.enr, m.ch, ApprovedFlags(m));
    if g.dec != Allow && g.dec != NeedsApproval { return; }
    ReleaseDraft(db, a, ap.enr, ap.msg.value);
  }

  method StopEnrollment(db: Db, e: nat)
    requires e < |db.enrs|
    modifies db
    ensures db.View() == StopProspect(old(db.View()), e)
  {
    hide CancelPending, ReleaseClaim;
    db.MoveTo(e, Stopped);
    CancelPendingSteps(db, e, true);
    Release(db, e);
  }

  /** A manager rejects, whatever the approval's status is. */
  method RejectIt(db: Db, a: nat)
    requires a < |db.approvals| && db.approvals[a].enr < |db.enrs|
    modifies db
    ensures db.View() == RejectItem(old(db.View()), a)
  {
    hide StopProspect;
    var ap := db.approvals[a];
    SetApproval(db, a, Declined);
    if ap.msg.Some? && ap.msg.value < |db.msgs| {
      db.msgs := db.msgs[ap.msg.value := db.msgs[ap.msg.value].(status := RejectedByManager)];
    }
    match ap.kind {
      case BorderlineReview => db.MoveTo(ap.enr, Rejected);
      case VoiceApproval => db.MoveTo(ap.enr, RepliedPos);
      case TouchApproval => StopEnrollment(db, ap.enr);
      case ReplyApproval =>
    }
  }

  /** A manager gives the prospect of a conflict to one of its campaigns. */
  method OverrideConflict(db: Db, x: nat, c: nat)
    requires x < |db.conflicts|
    modifies db
    ensures db.View() == ResolveConflict(old(db.View()), x, c)
  {
    hide EnrollmentOf, CancelPending, Retire;
    var k := db.conflicts[x];
    if (c != k.holder && c != k.wanting) || k.holder == k.wanting { return; }
    var lose := if c == k.holder then k.wanting else k.holder;
    var w, l := EnrollmentOf(db.enrs, k.prospect, c), EnrollmentOf(db.enrs, k.prospect, lose);
    db.conflicts := db.conflicts[x := k.(status := Resolved, winner := Some(c))];
    TransferTo(db, k.prospect, c);
    if l.Some? {
      CancelPendingSteps(db, l.value, true);
      if db.enrs[l.value].state in {Qualified, Contacted} { db.MoveTo(l.value, Deferred); }
    }
    if w.Some? && db.enrs[w.value].state == Deferred {
      db.MoveTo(w.value, Qualified);
      db.AddJob(w.value, PlanJob, db.clock);
    }
  }

  method EscalateEnrollment(db: Db, e: nat)
    requires e < |db.enrs|
    modifies db
    ensures db.View() == EscalateByHand(old(db.View()), e)
  {
    hide CancelPending;
    db.MoveTo(e, Escalated);
    CancelPendingSteps(db, e, true);
  }

  method WriteByHand(db: Db, e: nat, ch: Channel, closes: bool)
    requires e < |db.enrs|
    modifies db
    ensures db.View() == HumanMessage(old(db.View()), e, ch, closes)
  {
    db.InsertSent(Message(e, db.enrs[e].prospect, db.enrs[e].campaign, ch, false, Sent, db.clock, true, false, None,
        None), ByHuman);
    if closes { db.MoveTo(e, RepliedPos); }
  }
}
