/** Who holds a prospect after a claim is resolved, released or overridden, in terms of the rows. */
module ClaimsInRows {
  import opened Basics
  import opened Model
  import opened Gate
  import opened Claims
  import opened Handlers
  import opened Replies
  import opened Deferrals
  import opened GateInRows

  // --- resolution ---

  /** Enrollment h of another campaign holds e's prospect by claim row i, and the prospect is not suppressed. */
  ghost predicate Contested(s: State, e: nat, h: nat, i: nat) {
    && ClaimInv(s) && e < |s.enrs| && h < |s.enrs| && i < |s.claims| && s.claims[i].status == Active
    && s.claims[i].prospect == s.enrs[e].prospect == s.enrs[h].prospect && s.claims[i].campaign == s.enrs[h].campaign
    && s.enrs[h].campaign != s.enrs[e].campaign && !OnTheList(s, s.enrs[e].prospect)
  }

  /** The enrollment has a message of the prospect. */
  predicate Talking(msgs: seq<Message>, h: nat) { exists r | 0 <= r < |msgs| :: msgs[r].inbound && msgs[r].enr == h }

  /** The asker ranks higher: by a customer campaign, then by priority, then by score where both have one. A customer
      campaign that holds is never outranked. */
  predicate Outranks(cfg: Config, asker: Enrollment, holder: Enrollment) {
    var n, h := CampaignOf(cfg, asker.campaign), CampaignOf(cfg, holder.campaign);
    !h.customer &&
    (n.customer || n.priority > h.priority ||
     (n.priority == h.priority && asker.score.Some? && holder.score.Some? && asker.score.value > holder.score.value))
  }

  /** Neither ranks higher. */
  predicate SameRank(cfg: Config, asker: Enrollment, holder: Enrollment) {
    var n, h := CampaignOf(cfg, asker.campaign), CampaignOf(cfg, holder.campaign);
    !h.customer && !n.customer && n.priority == h.priority
    && (asker.score.Some? && holder.score.Some? ==> asker.score == holder.score)
  }

  lemma HoldingParties(s: State, e: nat, h: nat, i: nat)
    requires Contested(s, e, h, i)
    ensures ActiveClaim(s.claims, s.enrs[e].prospect) == Some(i)
    ensures EnrollmentOf(s.enrs, s.enrs[e].prospect, s.claims[i].campaign) == Some(h)
  {
    var a := ActiveClaim(s.claims, s.enrs[e].prospect);
    var f := EnrollmentOf(s.enrs, s.enrs[e].prospect, s.claims[i].campaign);
    hide ActiveClaim, EnrollmentOf, ClaimsEnrolled, ConflictsEnrolled;
    SameClaim(s.claims, a.value, i);
    SameEnrollment(s.enrs, f.value, h);
  }

  lemma SameEnrollment(enrs: seq<Enrollment>, i: nat, j: nat)
    requires UniqueEnrollments(enrs) && i < |enrs| && j < |enrs|
    requires enrs[i].prospect == enrs[j].prospect && enrs[i].campaign == enrs[j].campaign
    ensures i == j
  {
  }

  /** An active conversation keeps the claim, whatever the ranks. */
  lemma ConversationKeepsTheClaim(s: State, e: nat, h: nat, i: nat)
    requires Contested(s, e, h, i) && Talking(s.msgs, h)
    ensures var (t, d) := ResolveClaim(s, e); d == ClaimDefer && t == s.(conflicts := t.conflicts)
  {
    HoldingParties(s, e, h, i);
    hide ActiveClaim, EnrollmentOf, ClaimInv;
  }

  /** The plan without its pending steps. */
  ghost predicate StepsCancelled(a: seq<PlanStep>, b: seq<PlanStep>) {
    |b| == |a| && forall k :: 0 <= k < |a| ==>
      b[k] == if a[k].status == Pending then a[k].(status := Cancelled) else a[k]
  }

  /** Campaign c holds prospect q by a new row, and row i is lost. */
  ghost predicate HandedTo(a: seq<Claim>, b: seq<Claim>, i: nat, q: nat, c: nat, now: int) {
    && i < |a| && |b| == |a| + 1 && b[|a|] == Claim(q, c, Active, now)
    && forall k :: 0 <= k < |a| ==> b[k] == if k == i then a[k].(status := Lost) else a[k]
  }

  /** The other campaigns' enrollments of q lose their pending steps, and nothing else changes. */
  ghost predicate OthersStop(a: seq<Enrollment>, b: seq<Enrollment>, q: nat, c: nat) {
    |b| == |a| && forall k :: 0 <= k < |a| ==>
      if a[k].prospect == q && a[k].campaign != c
      then b[k] == a[k].(plan := b[k].plan) && StepsCancelled(a[k].plan, b[k].plan) else b[k] == a[k]
  }

  /** Without a conversation the asker becomes the holder exactly when it ranks higher; then the old row is lost and the
      other campaigns' steps stop. Otherwise it waits and only a conflict may be noted. */
  lemma ClaimMovesExactly(s: State, e: nat, h: nat, i: nat)
    requires Contested(s, e, h, i) && !Talking(s.msgs, h)
    ensures
      var (t, d) := ResolveClaim(s, e);
      var q, c := s.enrs[e].prospect, s.enrs[e].campaign;
      && (Holder(t.claims, q) == Some(c) <==> Outranks(s.cfg, s.enrs[e], s.enrs[h]))
      && d == (if Outranks(s.cfg, s.enrs[e], s.enrs[h]) then ClaimAllow else ClaimDefer)
      && t == s.(claims := t.claims, enrs := t.enrs, conflicts := t.conflicts)
      && if Outranks(s.cfg, s.enrs[e], s.enrs[h])
         then HandedTo(s.claims, t.claims, i, q, c, s.clock) && OthersStop(s.enrs, t.enrs, q, c)
         else t.claims == s.claims && t.enrs == s.enrs
  {
    hide ClaimInv, ActiveClaim, EnrollmentOf, KnownConflict, Retire, HandedTo, OthersStop, CancelOthers;
    HoldingParties(s, e, h, i);
    var q, c := s.enrs[e].prospect, s.enrs[e].campaign;
    RetiresOne(s, e, h, i);
    OthersAreStopped(s.enrs, q, c);
    HolderAfterCreate(Retire(s.claims, q, Lost), Claim(q, c, Active, s.clock), q);
    assert !HasInbound(s.msgs, h);
    hide HasInbound, Talking;
  }

  lemma RetiresOne(s: State, e: nat, h: nat, i: nat)
    requires Contested(s, e, h, i)
    ensures var q, c := s.enrs[e].prospect, s.enrs[e].campaign;
      HandedTo(s.claims, Retire(s.claims, q, Lost) + [Claim(q, c, Active, s.clock)], i, q, c, s.clock)
  {
    hide ClaimsEnrolled, ConflictsEnrolled, UniqueEnrollments, OneActive;
    var q := s.enrs[e].prospect;
    forall k: nat | k < |s.claims| && k != i
      ensures Retire(s.claims, q, Lost)[k] == s.claims[k]
    {
      if s.claims[k].prospect == q && s.claims[k].status == Active { SameClaim(s.claims, k, i); }
    }
  }

  lemma OthersAreStopped(enrs: seq<Enrollment>, q: nat, c: nat)
    ensures OthersStop(enrs, CancelOthers(enrs, q, c), q, c)
  {
  }

  /** Which conflict is noted, once per open pair: won by the asker, kept by the holder, or open without a winner
      exactly in a tie. */
  lemma ConflictNoted(s: State, e: nat, h: nat, i: nat)
    requires Contested(s, e, h, i)
    ensures
      var q, c, x := s.enrs[e].prospect, s.enrs[e].campaign, s.enrs[h].campaign;
      var t := ResolveClaim(s, e).0;
      var wins := !Talking(s.msgs, h) && Outranks(s.cfg, s.enrs[e], s.enrs[h]);
      var tie := !Talking(s.msgs, h) && SameRank(s.cfg, s.enrs[e], s.enrs[h])
          && s.claims[i].claimedAt == s.enrs[e].createdAt;
      t.conflicts == s.conflicts
        + if exists k | 0 <= k < |s.conflicts| :: OpenPair(s.conflicts[k], q, x, c) then []
          else [Conflict(q, x, c, if wins then Some(c) else if tie then None else Some(x),
                         if wins then Logged else Open)]
  {
    hide ClaimInv, ActiveClaim, EnrollmentOf, KnownConflict, Retire, CancelOthers;
    HoldingParties(s, e, h, i);
    var q, c, x := s.enrs[e].prospect, s.enrs[e].campaign, s.enrs[h].campaign;
    KnownPair(s.conflicts, q, x, c);
    assert HasInbound(s.msgs, h) == Talking(s.msgs, h);
    hide HasInbound, Talking, OpenPair;
  }

  /** An unsettled conflict of this holder and this asker. */
  predicate OpenPair(k: Conflict, q: nat, holder: nat, wanting: nat) {
    k.prospect == q && k.status != Resolved && k.wanting == wanting && k.holder == holder
  }

  lemma KnownPair(conflicts: seq<Conflict>, q: nat, h: nat, c: nat)
    ensures KnownConflict(conflicts, q, h, c) <==> exists k | 0 <= k < |conflicts| :: OpenPair(conflicts[k], q, h, c)
  {
    if k :| 0 <= k < |conflicts| && OpenPair(conflicts[k], q, h, c) {
      assert conflicts[k].status != Resolved;
    }
    if KnownConflict(conflicts, q, h, c) {
      var k :| 0 <= k < |conflicts| && conflicts[k].prospect == q && conflicts[k].holder == h
               && conflicts[k].wanting == c && conflicts[k].status != Resolved;
      assert OpenPair(conflicts[k], q, h, c);
    }
  }

  /** Where nobody contests: a suppressed prospect is blocked, a free one taken, and the holder's own question changes
      nothing. */
  lemma ResolutionWithoutContest(s: State, e: nat)
    requires OneActive(s.claims) && e < |s.enrs|
    ensures
      var (t, d) := ResolveClaim(s, e);
      var q, c := s.enrs[e].prospect, s.enrs[e].campaign;
      var held, own := exists k | 0 <= k < |s.claims| :: s.claims[k].status == Active && s.claims[k].prospect == q,
                       exists k | 0 <= k < |s.claims| :: s.claims[k] == Claim(q, c, Active, s.claims[k].claimedAt);
      && (OnTheList(s, q) ==> d == ClaimBlock && t == s)
      && (!OnTheList(s, q) && !held ==> d == ClaimAllow && t == s.(claims := s.claims + [Claim(q, c, Active, s.clock)]))
      && (!OnTheList(s, q) && own ==> d == ClaimAllow && t == s)
  {
    var q, c := s.enrs[e].prospect, s.enrs[e].campaign;
    var a := ActiveClaim(s.claims, q);
    hide ActiveClaim, EnrollmentOf;
    if k: nat :| k < |s.claims| && s.claims[k] == Claim(q, c, Active, s.claims[k].claimedAt) {
      assert s.claims[k].status == Active && s.claims[k].prospect == q;
      SameClaim(s.claims, k, a.value);
    }
  }

  // --- release ---

  /** Claim row i is given up. */
  ghost predicate GivenUp(a: seq<Claim>, b: seq<Claim>, i: nat) {
    i < |a| && b == a[i := a[i].(status := Released)]
  }

  /** One enrollment of the prospect in another campaign was waiting. */
  ghost predicate Waiting(s: State, w: nat, q: nat, c: nat) {
    w < |s.enrs| && s.enrs[w].prospect == q && s.enrs[w].campaign != c && s.enrs[w].state == Deferred
  }

  /** Row w, which waited, is qualified again and plans anew at once. */
  ghost predicate Woken(s: State, t: State, w: nat) {
    && w < |s.enrs| && t.enrs == s.enrs[w := s.enrs[w].(state := Qualified)]
    && t.jobs == s.jobs + [Job(w, PlanJob, Queued, s.clock, s.clock, 0, 0)]
  }

  /** Giving up a held claim releases exactly its row and wakes one waiting enrollment if there is one; without the
      claim nothing happens. */
  lemma ReleaseInRows(s: State, e: nat, i: nat)
    requires OneActive(s.claims) && e < |s.enrs|
    ensures
      var t, q, c := ReleaseClaim(s, e), s.enrs[e].prospect, s.enrs[e].campaign;
      && (i < |s.claims| && s.claims[i] == Claim(q, c, Active, s.claims[i].claimedAt) ==>
            && GivenUp(s.claims, t.claims, i) && t == s.(claims := t.claims, enrs := t.enrs, jobs := t.jobs)
            && if exists w: nat :: Waiting(s, w, q, c) then exists w: nat :: Waiting(s, w, q, c) && Woken(s, t, w)
               else t.enrs == s.enrs && t.jobs == s.jobs)
      && ((forall k :: 0 <= k < |s.claims| ==> s.claims[k] != Claim(q, c, Active, s.claims[k].claimedAt)) ==> t == s)
  {
    var t, q, c := ReleaseClaim(s, e), s.enrs[e].prospect, s.enrs[e].campaign;
    var a, w := ActiveClaim(s.claims, q), DeferredElsewhere(s.enrs, q, c);
    hide ActiveClaim, DeferredElsewhere;
    if a.Some? {
      assert s.claims[a.value] == Claim(q, s.claims[a.value].campaign, Active, s.claims[a.value].claimedAt);
    }
    if i < |s.claims| && s.claims[i] == Claim(q, c, Active, s.claims[i].claimedAt) {
      SameClaim(s.claims, i, a.value);
      if w.Some? { assert Waiting(s, w.value, q, c) && Woken(s, t, w.value); }
    }
  }

  // --- a manager's override ---

  /** Claims of the prospect that were active are lost, and a new row names the chosen campaign. */
  ghost predicate Reassigned(a: seq<Claim>, b: seq<Claim>, q: nat, c: nat, now: int) {
    && |b| == |a| + 1 && b[|a|] == Claim(q, c, Active, now)
    && forall k :: 0 <= k < |a| ==>
      b[k] == if a[k].prospect == q && a[k].status == Active then a[k].(status := Lost) else a[k]
  }

  /** Queued draft jobs of enrollment l are cancelled, all others stay. */
  ghost predicate DraftsCancelled(a: seq<Job>, b: seq<Job>, l: nat) {
    |b| == |a| && forall j :: 0 <= j < |a| ==>
      b[j] == if a[j].enr == l && a[j].status == Queued && a[j].kind.DraftJob?
              then a[j].(status := JobCancelled) else a[j]
  }

  /** The loser's enrollment: it waits if it was under way, and its pending steps are gone. */
  ghost predicate LoserRow(a: Enrollment, b: Enrollment) {
    && b == a.(state := if a.state == Qualified || a.state == Contacted then Deferred else a.state, plan := b.plan)
    && StepsCancelled(a.plan, b.plan)
  }

  /** Enrollments w and l are the two parties of conflict x, and w's campaign is chosen. */
  ghost predicate Chosen(s: State, x: nat, w: nat, l: nat) {
    && ClaimInv(s) && x < |s.conflicts| && w < |s.enrs| && l < |s.enrs|
    && s.enrs[w].prospect == s.enrs[l].prospect == s.conflicts[x].prospect
    && {s.enrs[w].campaign, s.enrs[l].campaign} == {s.conflicts[x].holder, s.conflicts[x].wanting}
  }

  /** The override: the claim goes to the chosen campaign, the loser stops and waits, the winner plans if it waited. */
  lemma OverrideInRows(s: State, x: nat, w: nat, l: nat)
    requires Chosen(s, x, w, l)
    ensures
      var c := s.enrs[w].campaign;
      var t, k := ResolveConflict(s, x, c), s.conflicts[x];
      && Reassigned(s.claims, t.claims, k.prospect, c, s.clock)
      && t.conflicts == s.conflicts[x := k.(status := Resolved, winner := Some(c))]
      && t == s.(claims := t.claims, conflicts := t.conflicts, enrs := t.enrs, jobs := t.jobs)
      && |t.enrs| == |s.enrs| && (forall i :: 0 <= i < |s.enrs| && i != w && i != l ==> t.enrs[i] == s.enrs[i])
      && LoserRow(s.enrs[l], t.enrs[l])
      && t.enrs[w] == s.enrs[w].(state := if s.enrs[w].state == Deferred then Qualified else s.enrs[w].state)
      && |t.jobs| >= |s.jobs| && DraftsCancelled(s.jobs, t.jobs[..|s.jobs|], l)
      && t.jobs[|s.jobs|..]
         == if s.enrs[w].state == Deferred then [Job(w, PlanJob, Queued, s.clock, s.clock, 0, 0)] else []
  {
    hide ResolveConflict, CancelPending, TransferClaim, ClaimInv, StepsCancelled, DraftsCancelled, Reassigned;
    var c, k := s.enrs[w].campaign, s.conflicts[x];
    TwoRows(s, x, w, l);
    OverrideShape(s, x, c, w, l);
    var u := TransferClaim(s.(conflicts := s.conflicts[x := k.(status := Resolved, winner := Some(c))]), k.prospect, c);
    TransferInRows(s.(conflicts := s.conflicts[x := k.(status := Resolved, winner := Some(c))]), k.prospect, c);
    CancelInRows(u, l);
    var v := Advance(CancelPending(u, l, true), l, {Qualified, Contacted}, Deferred);
    var t := ResolveConflict(s, x, c);
    assert t.jobs == v.jobs
      + if s.enrs[w].state == Deferred then [Job(w, PlanJob, Queued, s.clock, s.clock, 0, 0)] else [];
    assert t.jobs[..|v.jobs|] == v.jobs;
  }

  lemma TwoRows(s: State, x: nat, w: nat, l: nat)
    requires Chosen(s, x, w, l)
    ensures w != l
  {
    DifferentParties(s, x);
    hide ClaimInv;
  }

  lemma OverrideShape(s: State, x: nat, c: nat, w: nat, l: nat)
    requires Chosen(s, x, w, l) && c == s.enrs[w].campaign
    ensures
      var k := s.conflicts[x];
      var settled := s.conflicts[x := k.(status := Resolved, winner := Some(c))];
      var u := TransferClaim(s.(conflicts := settled), k.prospect, c);
      u.enrs == s.enrs &&
      var v := Advance(CancelPending(u, l, true), l, {Qualified, Contacted}, Deferred);
      ResolveConflict(s, x, c)
        == if v.enrs[w].state == Deferred then Enqueue(SetState(v, w, Qualified), w, PlanJob, v.clock) else v
  {
    hide EnrollmentOf, ConflictsEnrolled, ClaimsEnrolled, OneActive, CancelPending, Retire, UniqueEnrollments;
    var k := s.conflicts[x];
    var lose := if c == k.holder then k.wanting else k.holder;
    var a, b := EnrollmentOf(s.enrs, k.prospect, c), EnrollmentOf(s.enrs, k.prospect, lose);
    DifferentParties(s, x);
    assert s.enrs[l].campaign == lose;
    SameEnrollment(s.enrs, a.value, w);
    SameEnrollment(s.enrs, b.value, l);
  }

  lemma TransferInRows(s: State, q: nat, c: nat)
    ensures var t := TransferClaim(s, q, c);
      Reassigned(s.claims, t.claims, q, c, s.clock) && t == s.(claims := t.claims)
  {
  }

  /** Cancelling for an enrollment: its pending steps and its queued draft jobs, nothing else. */
  lemma CancelInRows(s: State, e: nat)
    requires e < |s.enrs|
    ensures var t := CancelPending(s, e, true);
      && t == s.(enrs := t.enrs, jobs := t.jobs) && DraftsCancelled(s.jobs, t.jobs, e) && |t.enrs| == |s.enrs|
      && t.enrs == s.enrs[e := s.enrs[e].(plan := t.enrs[e].plan)] && StepsCancelled(s.enrs[e].plan, t.enrs[e].plan)
  {
  }

  lemma DifferentParties(s: State, x: nat)
    requires ClaimInv(s) && x < |s.conflicts|
    ensures s.conflicts[x].holder != s.conflicts[x].wanting
  {
  }

  /** A campaign that is not a party gets nothing. */
  lemma OverrideNeedsAParty(s: State, x: nat, c: nat)
    requires x < |s.conflicts| && c != s.conflicts[x].holder && c != s.conflicts[x].wanting
    ensures ResolveConflict(s, x, c) == s
  {
  }
}
