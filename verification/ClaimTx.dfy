/** The claim transactions, changing rows and plan steps one after the other. */
module ClaimTx {
  import opened Basics
  import opened Model
  import opened Gate
  import opened Claims
  import opened Tables

  method TransferTo(db: Db, p: nat, c: nat)
    modifies db
    ensures db.View() == TransferClaim(old(db.View()), p, c)
  {
    db.claims := Retire(db.claims, p, Lost);
    db.claims := db.claims + [Claim(p, c, Active, db.clock)];
  }

  method NoteConflict(db: Db, p: nat, holder: nat, wanting: nat, winner: Option<nat>, st: ConflictStatus)
    modifies db
    ensures db.View() == AddConflict(old(db.View()), p, holder, wanting, winner, st)
  {
    if KnownConflict(db.conflicts, p, holder, wanting) { return; }
    db.conflicts := db.conflicts + [Conflict(p, holder, wanting, winner, st)];
  }

  /** Cancels pending steps one by one and, if asked, the queued draft jobs. */
  method CancelPendingSteps(db: Db, e: nat, cancelJobs: bool)
    requires e < |db.enrs|
    modifies db
    ensures db.View() == CancelPending(old(db.View()), e, cancelJobs)
  {
    var plan := db.enrs[e].plan;
    ghost var was := plan;
    var changed := false;
    for i := 0 to |plan|
      invariant |plan| == |was| && (!changed ==> plan == was)
      invariant forall k :: 0 <= k < i ==> plan[k] == CancelledPlan(was)[k]
      invariant forall k :: i <= k < |was| ==> plan[k] == was[k]
    {
      if plan[i].status == Pending {
        plan := plan[i := plan[i].(status := Cancelled)];
        changed := true;
      }
    }
    assert plan == CancelledPlan(was);
    if changed {
      db.enrs := db.enrs[e := db.enrs[e].(plan := plan)];
    } else {
      assert db.enrs == db.enrs[e := db.enrs[e].(plan := plan)];
    }
    if cancelJobs {
      db.jobs := CancelledJobs(db.jobs, e);
    }
  }

  /** Cancels the pending steps of the prospect's enrollments outside campaign c, one enrollment after the other. */
  method CancelLosers(db: Db, p: nat, c: nat)
    modifies db
    ensures db.View() == old(db.View()).(enrs := CancelOthers(old(db.enrs), p, c))
  {
    ghost var s := db.View();
    for i := 0 to |db.enrs|
      invariant |db.enrs| == |s.enrs| && db.View() == s.(enrs := db.enrs)
      invariant forall k :: 0 <= k < i ==> db.enrs[k] == CancelOthers(s.enrs, p, c)[k]
      invariant forall k :: i <= k < |s.enrs| ==> db.enrs[k] == s.enrs[k]
    {
      if db.enrs[i].prospect == p && db.enrs[i].campaign != c {
        CancelPendingSteps(db, i, false);
      }
    }
    assert db.enrs == CancelOthers(s.enrs, p, c);
  }

  /** The ladder and its consequences, run at qualification. */
  method Resolve(db: Db, e: nat) returns (d: ClaimDecision)
    requires e < |db.enrs|
    modifies db
    ensures (db.View(), d) == ResolveClaim(old(db.View()), e)
  {
    hide Ladder, KnownConflict, EnrollmentOf, IsSuppressed, ActiveClaim;
    var p, c := db.enrs[e].prospect, db.enrs[e].campaign;
    if IsSuppressed(p, db.prospects, db.suppressed) { return ClaimBlock; }
    var a := ActiveClaim(db.claims, p);
    if a.None? {
      db.claims := db.claims + [Claim(p, c, Active, db.clock)];
      return ClaimAllow;
    }
    var claim := db.claims[a.value];
    if claim.campaign == c { return ClaimAllow; }
    var h := EnrollmentOf(db.enrs, p, claim.campaign);
    if h.None? { return ClaimError; }
    var winner := PickWinner(db, h.value, e, claim);
    if winner == None {
      NoteConflict(db, p, claim.campaign, c, None, Open);
      return ClaimDefer;
    }
    if winner == Some(c) {
      TransferTo(db, p, c);
      CancelLosers(db, p, c);
      NoteConflict(db, p, claim.campaign, c, Some(c), Logged);
      return ClaimAllow;
    }
    NoteConflict(db, p, claim.campaign, c, Some(claim.campaign), Open);
    return ClaimDefer;
  }

  /** The rungs of the ladder, first one that separates the two campaigns wins. */
  method PickWinner(db: Db, h: nat, n: nat, claim: Claim) returns (w: Option<nat>)
    requires h < |db.enrs| && n < |db.enrs|
    ensures w == Ladder(db.View(), h, n, claim)
  {
    var he, ne := db.enrs[h], db.enrs[n];
    var hc, nc := CampaignOf(db.cfg, he.campaign), CampaignOf(db.cfg, ne.campaign);
    if HasInbound(db.msgs, h) { return Some(he.campaign); }
    if nc.customer && !hc.customer { return Some(ne.campaign); }
    if hc.customer { return Some(he.campaign); }
    if hc.priority != nc.priority { return Some(if hc.priority > nc.priority then he.campaign else ne.campaign); }
    if he.score.Some? && ne.score.Some? && he.score.value != ne.score.value {
      return Some(if he.score.value > ne.score.value then he.campaign else ne.campaign);
    }
    if claim.claimedAt != ne.createdAt { return Some(he.campaign); }
    return None;
  }

  /** Gives up the claim if the enrollment holds it and wakes one deferred enrollment. */
  method Release(db: Db, e: nat)
    requires e < |db.enrs|
    modifies db
    ensures db.View() == ReleaseClaim(old(db.View()), e)
  {
    hide ActiveClaim, DeferredElsewhere;
    var p, c := db.enrs[e].prospect, db.enrs[e].campaign;
    var a := ActiveClaim(db.claims, p);
    if a.None? || db.claims[a.value].campaign != c { return; }
    db.claims := db.claims[a.value := db.claims[a.value].(status := Released)];
    var other := DeferredElsewhere(db.enrs, p, c);
    if other.Some? {
      db.MoveTo(other.value, Qualified);
      db.AddJob(other.value, PlanJob, db.clock);
    }
  }
}
