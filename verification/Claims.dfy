/** Contact claims: the priority ladder, claim resolution, release and the cancelling of planned steps. */
module Claims {
  import opened Basics
  import opened Model
  import opened Gate

  datatype ClaimDecision = ClaimAllow | ClaimDefer | ClaimBlock | ClaimError

  function EnrollmentOf(enrs: seq<Enrollment>, p: nat, c: nat): (r: Option<nat>)
    ensures r.Some? ==> r.value < |enrs| && enrs[r.value].prospect == p && enrs[r.value].campaign == c
    ensures r.None? ==> forall i | 0 <= i < |enrs| :: !(enrs[i].prospect == p && enrs[i].campaign == c)
  {
    if enrs == [] then None
    else
      var n := |enrs| - 1;
      if enrs[n].prospect == p && enrs[n].campaign == c then Some(n) else EnrollmentOf(enrs[..n], p, c)
  }

  /** A deferred enrollment of the prospect in another campaign; which one, the query leaves open. */
  function DeferredElsewhere(enrs: seq<Enrollment>, p: nat, c: nat): (r: Option<nat>)
    ensures r.Some? ==> r.value < |enrs| && enrs[r.value].prospect == p && enrs[r.value].campaign != c
                        && enrs[r.value].state == Deferred
    ensures r.None? ==> forall i | 0 <= i < |enrs| ::
                        !(enrs[i].prospect == p && enrs[i].campaign != c && enrs[i].state == Deferred)
  {
    if enrs == [] then None
    else
      var n := |enrs| - 1;
      if enrs[n].prospect == p && enrs[n].campaign != c && enrs[n].state == Deferred then Some(n)
          else DeferredElsewhere(enrs[..n], p, c)
  }

  // --- claim rows ---

  function Retire(claims: seq<Claim>, p: nat, st: ClaimStatus): (r: seq<Claim>)
    ensures |r| == |claims|
  {
    seq(|claims|, i requires 0 <= i < |claims| =>
      if claims[i].prospect == p && claims[i].status == Active then claims[i].(status := st) else claims[i])
  }

  function CreateClaim(s: State, p: nat, c: nat): State {
    s.(claims := s.claims + [Claim(p, c, Active, s.clock)])
  }

  function TransferClaim(s: State, p: nat, c: nat): State {
    CreateClaim(s.(claims := Retire(s.claims, p, Lost)), p, c)
  }

  // --- the ladder ---

  /** The campaign the first separating rung picks, or None for an exact tie. */
  function Ladder(s: State, h: nat, n: nat, claim: Claim): Option<nat>
    requires h < |s.enrs| && n < |s.enrs|
  {
    var he, ne := s.enrs[h], s.enrs[n];
    var hc, nc := CampaignOf(s.cfg, he.campaign), CampaignOf(s.cfg, ne.campaign);
    if HasInbound(s.msgs, h) then Some(he.campaign)
    else if nc.customer && !hc.customer then Some(ne.campaign)
    else if hc.customer then Some(he.campaign)
    else if hc.priority != nc.priority then Some(if hc.priority > nc.priority then he.campaign else ne.campaign)
    else if he.score.Some? && ne.score.Some? && he.score != ne.score then
      Some(if he.score.value > ne.score.value then he.campaign else ne.campaign)
    else if claim.claimedAt != ne.createdAt then Some(he.campaign)
    else None
  }

  predicate KnownConflict(conflicts: seq<Conflict>, p: nat, holder: nat, wanting: nat) {
    exists i | 0 <= i < |conflicts| ::
      conflicts[i].prospect == p && conflicts[i].holder == holder && conflicts[i].wanting == wanting
          && conflicts[i].status != Resolved
  }

  function AddConflict(s: State, p: nat, holder: nat, wanting: nat, winner: Option<nat>, st: ConflictStatus): State {
    if KnownConflict(s.conflicts, p, holder, wanting) then s
    else s.(conflicts := s.conflicts + [Conflict(p, holder, wanting, winner, st)])
  }

  // --- cancelling planned steps ---

  function CancelledPlan(plan: seq<PlanStep>): (r: seq<PlanStep>)
    ensures |r| == |plan|
  {
    seq(|plan|, i requires 0 <= i < |plan| => if plan[i].status == Pending then plan[i].(status := Cancelled)
        else plan[i])
  }

  function CancelledJobs(jobs: seq<Job>, e: nat): (r: seq<Job>)
    ensures |r| == |jobs|
  {
    seq(|jobs|, i requires 0 <= i < |jobs| =>
      if jobs[i].enr == e && jobs[i].status == Queued && jobs[i].kind.DraftJob? then jobs[i].(status := JobCancelled)
          else jobs[i])
  }

  function CancelPending(s: State, e: nat, cancelJobs: bool): (r: State)
    requires e < |s.enrs|
    ensures |r.enrs| == |s.enrs| && r.enrs[e].state == s.enrs[e].state
    ensures KeepsMail(s, r) && r.claims == s.claims && r.conflicts == s.conflicts
    ensures NoNewRunning(s.jobs, r.jobs)
  {
    var t := SetEnr(s, e, s.enrs[e].(plan := CancelledPlan(s.enrs[e].plan)));
    if cancelJobs then t.(jobs := CancelledJobs(t.jobs, e)) else t
  }

  /** Every enrollment of the prospect outside campaign `c` loses its pending steps. */
  function CancelOthers(enrs: seq<Enrollment>, p: nat, c: nat): (r: seq<Enrollment>)
    ensures |r| == |enrs|
  {
    seq(|enrs|, i requires 0 <= i < |enrs| =>
      if enrs[i].prospect == p && enrs[i].campaign != c then enrs[i].(plan := CancelledPlan(enrs[i].plan)) else enrs[i])
  }

  // --- resolution and release ---

  function ResolveClaim(s: State, e: nat): (r: (State, ClaimDecision))
    requires e < |s.enrs|
    ensures |r.0.enrs| == |s.enrs| && KeepsMail(s, r.0) && r.0.jobs == s.jobs && (r.1 == ClaimError ==> r.0 == s)
  {
    var p, c := s.enrs[e].prospect, s.enrs[e].campaign;
    if IsSuppressed(p, s.prospects, s.suppressed) then (s, ClaimBlock)
    else
      var a := ActiveClaim(s.claims, p);
      if a.None? then (CreateClaim(s, p, c), ClaimAllow)
      else
        var claim := s.claims[a.value];
        if claim.campaign == c then (s, ClaimAllow)
        else
          var h := EnrollmentOf(s.enrs, p, claim.campaign);
          if h.None? then (s, ClaimError)
          else
            var winner := Ladder(s, h.value, e, claim);
            if winner == None then (AddConflict(s, p, claim.campaign, c, None, Open), ClaimDefer)
            else if winner == Some(c) then
              var t := TransferClaim(s, p, c);
              var u := t.(enrs := CancelOthers(t.enrs, p, c));
              (AddConflict(u, p, claim.campaign, c, Some(c), Logged), ClaimAllow)
            else (AddConflict(s, p, claim.campaign, c, Some(claim.campaign), Open), ClaimDefer)
  }

  /** Gives up the claim if `e` holds it and wakes one deferred enrollment, which plans anew without a claim. */
  function ReleaseClaim(s: State, e: nat): (r: State)
    requires e < |s.enrs|
    ensures |r.enrs| == |s.enrs| && KeepsMail(s, r) && r.conflicts == s.conflicts
    ensures NoNewRunning(s.jobs, r.jobs)
  {
    var p, c := s.enrs[e].prospect, s.enrs[e].campaign;
    var a := ActiveClaim(s.claims, p);
    if a.None? || s.claims[a.value].campaign != c then s
    else
      var t := s.(claims := s.claims[a.value := s.claims[a.value].(status := Released)]);
      var other := DeferredElsewhere(t.enrs, p, c);
      if other.None? then t
      else Enqueue(SetState(t, other.value, Qualified), other.value, PlanJob, t.clock)
  }
}
