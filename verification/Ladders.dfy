/** The claim protocol: transfers climb the ladder, so a claim lost by resolution is never regained. */
module Ladders {
  import opened Basics
  import opened Model
  import opened Gate
  import opened Claims
  import opened Handlers
  import opened Replies
  import opened Queue
  import opened Machine
  import opened Wellformed
  import opened Outbox
  import opened Deferrals

  /** Enrollment a ranks below b: customer campaigns first, then priority, then score where both have one. */
  predicate Below(cfg: Config, a: Enrollment, b: Enrollment) {
    var x, y := CampaignOf(cfg, a.campaign), CampaignOf(cfg, b.campaign);
    if x.customer != y.customer then y.customer
    else if x.priority != y.priority then x.priority < y.priority
    else a.score.Some? && b.score.Some? && a.score.value < b.score.value
  }

  /** Resolving the same claim twice changes nothing the second time and gives the same decision. */
  lemma ResolveIsIdempotent(s: State, e: nat)
    requires e < |s.enrs|
    ensures var (t, d) := ResolveClaim(s, e); ResolveClaim(t, e) == (t, d)
  {
    var q, c := s.enrs[e].prospect, s.enrs[e].campaign;
    var (t, d) := ResolveClaim(s, e);
    var a := ActiveClaim(s.claims, q);
    hide IsSuppressed, EnrollmentOf;
    if a.Some? && s.claims[a.value].campaign != c && EnrollmentOf(s.enrs, q, s.claims[a.value].campaign).Some? {
      var h := s.claims[a.value].campaign;
      if d == ClaimDefer {
        assert t.claims == s.claims && t.enrs == s.enrs;
        assert KnownConflict(t.conflicts, q, h, c) by {
          if !KnownConflict(s.conflicts, q, h, c) { assert t.conflicts[|s.conflicts|].wanting == c; }
        }
      }
    }
  }

  /** A transfer by resolution goes to a strictly higher rank. */
  lemma TransferClimbs(s: State, e: nat)
    requires e < |s.enrs|
    ensures var (t, d) := ResolveClaim(s, e); var q := s.enrs[e].prospect;
      Holder(s.claims, q).Some? && Holder(t.claims, q) != Holder(s.claims, q) ==>
        && Holder(t.claims, q) == Some(s.enrs[e].campaign)
        && var h := EnrollmentOf(s.enrs, q, Holder(s.claims, q).value);
            h.Some? && Below(s.cfg, s.enrs[h.value], s.enrs[e])
  {
  }

  // --- holders along a run ---

  /** In the given table, p's enrollment in campaign h ranks below p's enrollment in campaign c. */
  ghost predicate Climbs(cfg: Config, enrs: seq<Enrollment>, p: nat, h: nat, c: nat) {
    exists i, j :: 0 <= i < |enrs| && 0 <= j < |enrs| && enrs[i].prospect == p && enrs[j].prospect == p
      && enrs[i].campaign == h && enrs[j].campaign == c && Below(cfg, enrs[i], enrs[j])
  }

  /** The holder stays, appears, disappears, or gives way to a higher rank. */
  ghost predicate Moves(s: State, t: State, p: nat) {
    var a, b := Holder(s.claims, p), Holder(t.claims, p);
    b == a || a == None || b == None || Climbs(t.cfg, t.enrs, p, a.value, b.value)
  }

  lemma QualifyMoves(s: State, e: nat, p: nat)
    requires ClaimInv(s) && e < |s.enrs|
    ensures Moves(s, QualifyOrDefer(s, e), p)
  {
    ResolveMoves(s, e, p);
    TransferClimbs(s, e);
    var q := s.enrs[e].prospect;
    var (r, d) := ResolveClaim(s, e);
    var t := QualifyOrDefer(s, e);
    assert t.claims == r.claims && t.cfg == s.cfg;
    if p == q && Holder(s.claims, q).Some? && Holder(r.claims, q) != Holder(s.claims, q) {
      var h := EnrollmentOf(s.enrs, q, Holder(s.claims, q).value).value;
      SameRanks(s, e);
      assert t.enrs[h].prospect == p && t.enrs[e].prospect == p && Below(t.cfg, t.enrs[h], t.enrs[e]);
    }
    hide ResolveClaim, QualifyOrDefer, Holder;
  }

  /** Qualification changes no identity and no score. */
  lemma SameRanks(s: State, e: nat)
    requires e < |s.enrs|
    ensures var t := QualifyOrDefer(s, e);
      forall i :: 0 <= i < |s.enrs| ==> t.enrs[i].prospect == s.enrs[i].prospect
                                        && t.enrs[i].campaign == s.enrs[i].campaign
                                        && t.enrs[i].score == s.enrs[i].score
  {
    hide IsSuppressed, EnrollmentOf, Ladder;
  }

  lemma ReactMoves(s: State, e: nat, ch: Channel, cls: ReplyClass, inbound: nat, hotCall: bool, p: nat)
    requires OneActive(s.claims) && e < |s.enrs|
    ensures var t := React(s, e, ch, cls, inbound, hotCall);
        Holder(t.claims, p) == Holder(s.claims, p) || Holder(t.claims, p) == None
  {
    ReleaseMoves(SetState(s, e, Stopped), e, p);
    ReleaseMoves(SetState(s, e, MeetingBooked), e, p);
    HolderAfterRetire(s.claims, s.enrs[e].prospect, Released, p);
    hide ReleaseClaim, OpenVoiceApproval, Holder, OneActive, Retire, OptOutAll, CancelJobsOf;
  }

  lemma ApproveMoves(s: State, a: nat, unsupported: bool, edited: bool, awaiting: bool, g: Verdict, p: nat)
    requires ClaimInv(s) && a < |s.approvals| && s.approvals[a].enr < |s.enrs|
    ensures Moves(s, ApproveWith(s, a, unsupported, edited, awaiting, g), p)
  {
    var e := s.approvals[a].enr;
    var t := Decide(s, a, Approved);
    if s.approvals[a].kind == BorderlineReview {
      QualifyMoves(t, e, p);
    } else if s.approvals[a].kind == VoiceApproval {
      var v := AddSent(t, MakeMessage(t, e, Voice, false, Sent, false, false, None, None), Call);
      ReleaseMoves(SetState(v, e, MeetingBooked), e, p);
    }
    hide QualifyOrDefer, QualifyFails, ReleaseClaim, Holder, Climbs;
  }

  lemma RunMoves(s: State, j: nat, w: Work, p: nat)
    requires ClaimInv(s)
    ensures Moves(s, RunOne(s, j, w), p)
  {
    hide Holder, QualifyOrDefer, QualifyFails, DraftWith, DispatchDue, Evaluate, HasKey, PlannedVerdict, EmailVerdict,
        Climbs;
    if j < |s.jobs| && s.jobs[j].status == Running && s.jobs[j].enr < |s.enrs| {
      var e := s.jobs[j].enr;
      match s.jobs[j].kind {
        case QualifyJob =>
          if w.judged.Judged? && w.judged.dec == Qualify {
            var t := SetJobStatus(s, j, Finished);
            var u := SetEnr(t, e, t.enrs[e].(state := Researched, score := Some(w.judged.score)));
            RefsStay(s, u);
            hide Holder, ClaimsEnrolled, ConflictsEnrolled, OneActive, UniqueEnrollments;
            QualifyMoves(u, e, p);
          }
        case DraftJob(n) => DraftKeepsClaims(s, j, e, n, w.draft, PlannedVerdict(s, e, n), EmailVerdict(s, e, n));
        case _ =>
      }
    }
  }

  /** The steps that leave the claims alone. */
  lemma QuietMoves(s: State, step: Step)
    requires step.Wait? || step.Enroll? || step.Launch? || step.Reconfigure? || step.ClaimDue? || step.Fail?
        || step.Requeue?
      || step.EscalateManually? || step.Write?
    ensures Next(s, step).claims == s.claims
  {
    hide Claimed, CancelledJobs;
  }

  /** Every step but a manager's override moves a holder only up the ladder, out, or in. */
  lemma StepMoves(s: State, step: Step, p: nat)
    requires ClaimInv(s) && !step.Override?
    ensures Moves(s, Next(s, step), p)
  {
    hide Holder, Climbs, OneActive, RunOne, ScanFrom, React, ApproveWith, ReleaseClaim, CancelPending;
    hide EnrollProspect, LaunchOne, ClaimJobs, RecordFailure, RequeueStale, EscalateByHand, HumanMessage;
    match step {
      case RunJob(j, w) => RunMoves(s, j, w, p);
      case Scan(c) => ScanMoves(s, c, 0, p);
      case Reply(e, ch, cls, hotCall) =>
        if e < |s.enrs| { ReactMoves(CancelPending(Received(s, e, ch), e, true), e, ch, cls, |s.msgs|, hotCall, p); }
      case Approve(a, unsupported, edited, awaiting) =>
        if a < |s.approvals| && s.approvals[a].enr < |s.enrs| {
          ApproveMoves(s, a, unsupported, edited, awaiting, ApprovalVerdict(s, a), p);
        }
      case Decline(a) =>
        if a < |s.approvals| && s.approvals[a].enr < |s.enrs| {
          var u := MarkDeclined(s, a);
          ReleaseMoves(CancelPending(SetState(u, s.approvals[a].enr, Stopped), s.approvals[a].enr, true),
              s.approvals[a].enr, p);
        }
      case Stop(e) => if e < |s.enrs| { ReleaseMoves(CancelPending(SetState(s, e, Stopped), e, true), e, p); }
      case _ => QuietMoves(s, step);
    }
  }

  // --- runs with fixed ranks ---

  /** From s to t no score of p's enrollments, once set, changes, and their campaigns keep their standing. */
  ghost predicate SameStanding(s: State, t: State, p: nat) {
    SameIds(s.enrs, t.enrs) &&
    forall i :: 0 <= i < |s.enrs| && s.enrs[i].prospect == p ==>
      && (s.enrs[i].score.Some? ==> t.enrs[i].score == s.enrs[i].score)
      && CampaignOf(t.cfg, s.enrs[i].campaign).customer == CampaignOf(s.cfg, s.enrs[i].campaign).customer
      && CampaignOf(t.cfg, s.enrs[i].campaign).priority == CampaignOf(s.cfg, s.enrs[i].campaign).priority
  }

  /** Ranks stay as they are set, no override, and the claim is never released. */
  ghost predicate Contest(s: State, steps: seq<Step>, p: nat) {
    forall k: nat :: k < |steps| ==> ContestStep(After(s, steps, k), steps[k], p)
  }

  ghost predicate ContestStep(s: State, step: Step, p: nat) {
    && !step.Override? && SameStanding(s, Next(s, step), p)
    && (Holder(s.claims, p).Some? ==> Holder(Next(s, step).claims, p).Some?)
  }

  /** What ranked higher when the claim moved ranks higher ever after. */
  lemma ClimbsCarries(s: State, t: State, p: nat, h: nat, c: nat)
    requires SameStanding(s, t, p) && Climbs(s.cfg, s.enrs, p, h, c)
    ensures Climbs(t.cfg, t.enrs, p, h, c)
  {
    var i, j :| 0 <= i < |s.enrs| && 0 <= j < |s.enrs| && s.enrs[i].prospect == p && s.enrs[j].prospect == p
      && s.enrs[i].campaign == h && s.enrs[j].campaign == c && Below(s.cfg, s.enrs[i], s.enrs[j]);
    assert t.enrs[i].prospect == p && t.enrs[j].prospect == p && Below(t.cfg, t.enrs[i], t.enrs[j]);
  }

  lemma ClimbsTrans(cfg: Config, enrs: seq<Enrollment>, p: nat, a: nat, b: nat, c: nat)
    requires UniqueEnrollments(enrs) && Climbs(cfg, enrs, p, a, b) && Climbs(cfg, enrs, p, b, c)
    ensures Climbs(cfg, enrs, p, a, c)
  {
  }

  lemma ClimbsAsym(cfg: Config, enrs: seq<Enrollment>, p: nat, a: nat, b: nat)
    requires UniqueEnrollments(enrs) && Climbs(cfg, enrs, p, a, b)
    ensures a != b && !Climbs(cfg, enrs, p, b, a)
  {
  }

  // --- traces of holders ---

  /** Consecutive holders, where a change always climbs. */
  ghost predicate ClimbTrace(cfg: Config, enrs: seq<Enrollment>, p: nat, hs: seq<Option<nat>>) {
    forall n :: 0 <= n < |hs| - 1 && hs[n].Some? ==>
      hs[n + 1].Some? && (hs[n + 1] == hs[n] || Climbs(cfg, enrs, p, hs[n].value, hs[n + 1].value))
  }

  lemma {:induction false} TraceOnlyClimbs(cfg: Config, enrs: seq<Enrollment>, p: nat, hs: seq<Option<nat>>, i: nat,
      j: nat)
    requires UniqueEnrollments(enrs) && ClimbTrace(cfg, enrs, p, hs) && i <= j < |hs| && hs[i].Some?
    ensures hs[j].Some? && (hs[j] == hs[i] || Climbs(cfg, enrs, p, hs[i].value, hs[j].value))
    decreases j
  {
    if i < j {
      TraceOnlyClimbs(cfg, enrs, p, hs, i, j - 1);
      var a, b, c := hs[i].value, hs[j - 1].value, hs[j - 1 + 1].value;
      if a != b && b != c { ClimbsTrans(cfg, enrs, p, a, b, c); }
      hide Climbs, UniqueEnrollments;
    }
  }

  lemma TraceNeverReturns(cfg: Config, enrs: seq<Enrollment>, p: nat, hs: seq<Option<nat>>, i: nat, j: nat, k: nat)
    requires UniqueEnrollments(enrs) && ClimbTrace(cfg, enrs, p, hs) && i <= j <= k < |hs| && hs[i].Some?
        && hs[j] != hs[i]
    ensures hs[k] != hs[i]
  {
    TraceOnlyClimbs(cfg, enrs, p, hs, i, j);
    TraceOnlyClimbs(cfg, enrs, p, hs, j, k);
    ClimbsAsym(cfg, enrs, p, hs[i].value, hs[j].value);
    hide Climbs, UniqueEnrollments, ClimbTrace;
  }

  /** How often the claim changed hands along the trace. */
  function Transfers(hs: seq<Option<nat>>): nat {
    if |hs| < 2 then 0
    else Transfers(hs[..|hs| - 1]) + if hs[|hs| - 2].Some? && hs[|hs| - 1] != hs[|hs| - 2] then 1 else 0
  }

  function HoldersSeen(hs: seq<Option<nat>>): set<nat> {
    set i | 0 <= i < |hs| && hs[i].Some? :: hs[i].value
  }

  lemma {:induction false} TransfersAreNewHolders(cfg: Config, enrs: seq<Enrollment>, p: nat, hs: seq<Option<nat>>)
    requires UniqueEnrollments(enrs) && ClimbTrace(cfg, enrs, p, hs)
    ensures Transfers(hs) == 0 || Transfers(hs) < |HoldersSeen(hs)|
    ensures hs != [] && hs[|hs| - 1].Some? ==> Transfers(hs) < |HoldersSeen(hs)|
  {
    hide Climbs, UniqueEnrollments, ClimbTrace, HoldersSeen;
    if hs != [] {
      var n := |hs| - 1;
      var rest := hs[..n];
      ShorterTrace(cfg, enrs, p, hs);
      TransfersAreNewHolders(cfg, enrs, p, rest);
      OneMoreHolder(hs);
      if n > 0 && hs[n].Some? && hs[n - 1].Some? && hs[n] != hs[n - 1] {
        NewHolder(cfg, enrs, p, hs);
      }
    }
  }

  lemma ShorterTrace(cfg: Config, enrs: seq<Enrollment>, p: nat, hs: seq<Option<nat>>)
    requires ClimbTrace(cfg, enrs, p, hs) && hs != []
    ensures ClimbTrace(cfg, enrs, p, hs[..|hs| - 1])
    ensures |hs| > 1 && hs[|hs| - 2].Some? ==> hs[|hs| - 1].Some?
  {
    hide Climbs;
    assert hs[|hs| - 2 + 1] == hs[|hs| - 1];
  }

  lemma OneMoreHolder(hs: seq<Option<nat>>)
    requires hs != []
    ensures var seen, x := HoldersSeen(hs[..|hs| - 1]), hs[|hs| - 1];
      && (x.None? ==> HoldersSeen(hs) == seen)
      && (x.Some? ==> |HoldersSeen(hs)| == |seen| + (if x.value in seen then 0 else 1))
      && (x.Some? ==> x.value in HoldersSeen(hs))
  {
    var n := |hs| - 1;
    var seen, now := HoldersSeen(hs[..n]), if hs[n].Some? then {hs[n].value} else {};
    forall c: nat
      ensures c in HoldersSeen(hs) <==> c in seen + now
    {
      if i :| 0 <= i < n && hs[i] == Some(c) { assert hs[..n][i] == Some(c); }
    }
    assert HoldersSeen(hs) == seen + now;
  }

  /** After a change of hands the new holder has not been seen before. */
  lemma NewHolder(cfg: Config, enrs: seq<Enrollment>, p: nat, hs: seq<Option<nat>>)
    requires UniqueEnrollments(enrs) && ClimbTrace(cfg, enrs, p, hs) && |hs| >= 2
    requires hs[|hs| - 2].Some? && hs[|hs| - 1].Some? && hs[|hs| - 1] != hs[|hs| - 2]
    ensures hs[|hs| - 1].value !in HoldersSeen(hs[..|hs| - 1])
  {
    var n := |hs| - 1;
    hide Climbs, UniqueEnrollments, ClimbTrace;
    forall i: nat | i < n && hs[i].Some? ensures hs[i] != hs[n] {
      if hs[i] == hs[n] { TraceNeverReturns(cfg, enrs, p, hs, i, n - 1, n); }
    }
  }

  // --- the trace of a run ---

  function HolderAt(s: State, steps: seq<Step>, p: nat, n: nat): Option<nat>
    requires n <= |steps|
  {
    Holder(After(s, steps, n).claims, p)
  }

  function Trace(s: State, steps: seq<Step>, p: nat): seq<Option<nat>> {
    seq(|steps| + 1, n requires 0 <= n <= |steps| => HolderAt(s, steps, p, n))
  }

  lemma StandingStep(s: State, t: State, u: State, p: nat)
    requires SameStanding(s, t, p) && SameStanding(t, u, p)
    ensures SameStanding(s, u, p)
  {
  }

  lemma ContestAt(s: State, steps: seq<Step>, p: nat, n: nat)
    requires Contest(s, steps, p) && n < |steps|
    ensures SameStanding(After(s, steps, n), After(s, steps, n + 1), p)
  {
    hide Next, SameStanding, Holder;
    assert ContestStep(After(s, steps, n), steps[n], p);
  }

  lemma {:induction false} StandingStays(s: State, steps: seq<Step>, p: nat, n: nat)
    requires Contest(s, steps, p) && n <= |steps|
    ensures SameStanding(After(s, steps, n), After(s, steps, |steps|), p)
    decreases |steps| - n
  {
    hide Next, SameStanding, Contest;
    if n == |steps| {
      StandsLikeItself(After(s, steps, n), p);
    } else {
      ContestAt(s, steps, p, n);
      StandingStays(s, steps, p, n + 1);
      StandingStep(After(s, steps, n), After(s, steps, n + 1), After(s, steps, |steps|), p);
    }
  }

  lemma StandsLikeItself(s: State, p: nat)
    ensures SameStanding(s, s, p)
  {
  }

  lemma RunClimbs(s: State, steps: seq<Step>, p: nat, n: nat)
    requires Initial(s) && Contest(s, steps, p) && n < |steps|
    ensures var a, b, f := HolderAt(s, steps, p, n), HolderAt(s, steps, p, n + 1), After(s, steps, |steps|);
      a.Some? ==> b.Some? && (b == a || Climbs(f.cfg, f.enrs, p, a.value, b.value))
  {
    hide Next, Initial, ClaimInv, SameStanding, Climbs, Holder;
    var t := After(s, steps, n);
    assert ContestStep(t, steps[n], p) && After(s, steps, n + 1) == Next(t, steps[n]);
    ClaimInvAlways(s, steps, n);
    StepMoves(t, steps[n], p);
    StandingStays(s, steps, p, n + 1);
    var a, b := HolderAt(s, steps, p, n), HolderAt(s, steps, p, n + 1);
    if a.Some? && b != a {
      ClimbsCarries(After(s, steps, n + 1), After(s, steps, |steps|), p, a.value, b.value);
    }
  }

  lemma RunIsClimbTrace(s: State, steps: seq<Step>, p: nat)
    requires Initial(s) && Contest(s, steps, p)
    ensures var f := After(s, steps, |steps|);
        ClimbTrace(f.cfg, f.enrs, p, Trace(s, steps, p)) && UniqueEnrollments(f.enrs)
  {
    ClaimInvAlways(s, steps, |steps|);
    hide Initial, Contest, Climbs, HolderAt, UniqueEnrollments, After;
    forall n: nat | n < |steps|
      ensures var a, b, f := HolderAt(s, steps, p, n), HolderAt(s, steps, p, n + 1), After(s, steps, |steps|);
        a.Some? ==> b.Some? && (b == a || Climbs(f.cfg, f.enrs, p, a.value, b.value))
    {
      RunClimbs(s, steps, p, n);
    }
  }

  /** With ranks that stay as set, no override and no release, a campaign that loses the prospect's claim never holds it
      again. */
  lemma LostIsNeverRegained(s: State, steps: seq<Step>, p: nat, i: nat, j: nat, k: nat)
    requires Initial(s) && Contest(s, steps, p) && i <= j <= k <= |steps|
    requires HolderAt(s, steps, p, i).Some? && HolderAt(s, steps, p, j) != HolderAt(s, steps, p, i)
    ensures HolderAt(s, steps, p, k) != HolderAt(s, steps, p, i)
  {
    hide Initial, Contest, ClimbTrace, UniqueEnrollments, HolderAt, After;
    RunIsClimbTrace(s, steps, p);
    var f := After(s, steps, |steps|);
    TraceNeverReturns(f.cfg, f.enrs, p, Trace(s, steps, p), i, j, k);
  }

  function EnrolledCampaigns(enrs: seq<Enrollment>, p: nat): set<nat> {
    set i: nat | i < |enrs| && enrs[i].prospect == p :: enrs[i].campaign
  }

  lemma HolderIsEnrolled(s: State, f: State, p: nat)
    requires ClaimInv(s) && SameIds(s.enrs, f.enrs) && Holder(s.claims, p).Some?
    ensures Holder(s.claims, p).value in EnrolledCampaigns(f.enrs, p)
  {
    HolderEnrolled(s, p);
    EnrolledStays(s.enrs, f.enrs, p, Holder(s.claims, p).value);
  }

  lemma SeenAreEnrolled(s: State, steps: seq<Step>, p: nat)
    requires Initial(s) && Contest(s, steps, p)
    ensures HoldersSeen(Trace(s, steps, p)) <= EnrolledCampaigns(After(s, steps, |steps|).enrs, p)
  {
    hide Initial, Contest, After, ClaimInv, Holder, EnrolledCampaigns, SameIds;
    forall n: nat | n <= |steps| && HolderAt(s, steps, p, n).Some?
      ensures HolderAt(s, steps, p, n).value in EnrolledCampaigns(After(s, steps, |steps|).enrs, p)
    {
      ClaimInvAlways(s, steps, n);
      StandingStays(s, steps, p, n);
      HolderIsEnrolled(After(s, steps, n), After(s, steps, |steps|), p);
    }
  }

  /** Under the same conditions the claim on a prospect whom k campaigns enrolled changes hands at most k - 1 times. */
  lemma TransfersBounded(s: State, steps: seq<Step>, p: nat)
    requires Initial(s) && Contest(s, steps, p)
    ensures var n := Transfers(Trace(s, steps, p));
        n == 0 || n <= |EnrolledCampaigns(After(s, steps, |steps|).enrs, p)| - 1
  {
    hide Initial, Contest, Trace, ClimbTrace, UniqueEnrollments, HoldersSeen, EnrolledCampaigns, After;
    RunIsClimbTrace(s, steps, p);
    SeenAreEnrolled(s, steps, p);
    var f := After(s, steps, |steps|);
    TransfersAreNewHolders(f.cfg, f.enrs, p, Trace(s, steps, p));
    SubsetSize(HoldersSeen(Trace(s, steps, p)), EnrolledCampaigns(f.enrs, p));
  }
}
