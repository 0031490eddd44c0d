/** The claim table over whole runs: one active claim per prospect, and no deferral without a holder to wait for. */
module Deferrals {
  import opened Basics
  import opened Model
  import opened Gate
  import opened Claims
  import opened Handlers
  import opened Replies
  import opened Machine
  import opened Wellformed
  import opened Outbox

  ghost predicate Enrolled(enrs: seq<Enrollment>, p: nat, c: nat) {
    exists i :: 0 <= i < |enrs| && enrs[i].prospect == p && enrs[i].campaign == c
  }

  ghost predicate UniqueEnrollments(enrs: seq<Enrollment>) {
    forall i, j :: 0 <= i < j < |enrs| ==> enrs[i].prospect != enrs[j].prospect || enrs[i].campaign != enrs[j].campaign
  }

  ghost predicate OneActive(claims: seq<Claim>) {
    forall i, j :: 0 <= i < j < |claims| && claims[i].status == Active && claims[j].status == Active
                   ==> claims[i].prospect != claims[j].prospect
  }

  ghost predicate ClaimsEnrolled(enrs: seq<Enrollment>, claims: seq<Claim>) {
    forall i :: 0 <= i < |claims| && claims[i].status == Active
                ==> Enrolled(enrs, claims[i].prospect, claims[i].campaign)
  }

  ghost predicate ConflictsEnrolled(enrs: seq<Enrollment>, conflicts: seq<Conflict>) {
    forall i :: 0 <= i < |conflicts| ==>
      && conflicts[i].holder != conflicts[i].wanting
      && Enrolled(enrs, conflicts[i].prospect, conflicts[i].holder)
          && Enrolled(enrs, conflicts[i].prospect, conflicts[i].wanting)
  }

  ghost predicate ClaimInv(s: State) {
    UniqueEnrollments(s.enrs) && OneActive(s.claims) && ClaimsEnrolled(s.enrs, s.claims)
        && ConflictsEnrolled(s.enrs, s.conflicts)
  }

  /** Each deferred enrollment of the prospect faces an active claim of another campaign. */
  ghost predicate NoStranded(enrs: seq<Enrollment>, claims: seq<Claim>, p: nat) {
    forall i :: 0 <= i < |enrs| && enrs[i].prospect == p && enrs[i].state == Deferred ==>
      Holder(claims, p).Some? && Holder(claims, p).value != enrs[i].campaign
  }

  ghost predicate AtMostTwo(enrs: seq<Enrollment>, p: nat) {
    forall i, j, k :: 0 <= i < j < k < |enrs| && enrs[i].prospect == p && enrs[j].prospect == p
                      ==> enrs[k].prospect != p
  }

  ghost predicate Inv(s: State, p: nat) {
    ClaimInv(s) && NoStranded(s.enrs, s.claims, p)
  }

  /** At most one enrollment of the prospect waits. */
  ghost predicate OneWaiting(enrs: seq<Enrollment>, p: nat) {
    forall i, j :: 0 <= i < j < |enrs| && enrs[i].prospect == p && enrs[j].prospect == p && enrs[i].state == Deferred
                   ==> enrs[j].state != Deferred
  }

  /** From s to t the prospect's claim is given up only with at most one enrollment waiting for it. */
  ghost predicate GivesUpAlone(s: State, t: State, p: nat) {
    Holder(s.claims, p).Some? && Holder(t.claims, p).None? ==> OneWaiting(s.enrs, p)
  }

  // --- what the claim operations do to the holder ---

  lemma HolderIs(claims: seq<Claim>, i: nat)
    requires OneActive(claims) && i < |claims| && claims[i].status == Active
    ensures Holder(claims, claims[i].prospect) == Some(claims[i].campaign)
  {
  }

  lemma HolderAfterCreate(claims: seq<Claim>, x: Claim, p: nat)
    requires x.status == Active
    ensures Holder(claims + [x], p) == if x.prospect == p then Some(x.campaign) else Holder(claims, p)
  {
    assert (claims + [x])[..|claims|] == claims;
    assert ActiveClaim(claims + [x], p) == if x.prospect == p then Some(|claims|) else ActiveClaim(claims, p);
  }

  lemma HolderAfterRetire(claims: seq<Claim>, q: nat, st: ClaimStatus, p: nat)
    requires OneActive(claims) && st != Active
    ensures OneActive(Retire(claims, q, st))
    ensures Holder(Retire(claims, q, st), p) == if q == p then None else Holder(claims, p)
  {
    var r := Retire(claims, q, st);
    var a := ActiveClaim(claims, p);
    if q != p && a.Some? { HolderIs(r, a.value); }
  }

  lemma HolderAfterRelease(claims: seq<Claim>, a: nat, st: ClaimStatus, p: nat)
    requires OneActive(claims) && a < |claims| && claims[a].status == Active && st != Active
    ensures OneActive(claims[a := claims[a].(status := st)])
    ensures Holder(claims[a := claims[a].(status := st)], p) == if claims[a].prospect == p then None
        else Holder(claims, p)
  {
    var r := claims[a := claims[a].(status := st)];
    var h := ActiveClaim(claims, p);
    if claims[a].prospect != p && h.Some? { HolderIs(r, h.value); }
  }

  // --- transactions ---

  /** Nothing becomes deferred and the claim tables stay. */
  ghost predicate NoNewDeferral(s: State, t: State) {
    && SameRows(s.enrs, t.enrs) && t.claims == s.claims && t.conflicts == s.conflicts
    && forall i :: 0 <= i < |s.enrs| && t.enrs[i].state == Deferred ==> s.enrs[i].state == Deferred
  }

  lemma EnrolledStays(a: seq<Enrollment>, b: seq<Enrollment>, p: nat, c: nat)
    requires SameIds(a, b) && Enrolled(a, p, c)
    ensures Enrolled(b, p, c)
  {
    var i :| 0 <= i < |a| && a[i].prospect == p && a[i].campaign == c;
    assert b[i].prospect == p;
  }

  lemma RefsStay(s: State, t: State)
    requires SameRows(s.enrs, t.enrs) && UniqueEnrollments(s.enrs)
    ensures UniqueEnrollments(t.enrs)
    ensures ClaimsEnrolled(s.enrs, s.claims) ==> ClaimsEnrolled(t.enrs, s.claims)
    ensures ConflictsEnrolled(s.enrs, s.conflicts) ==> ConflictsEnrolled(t.enrs, s.conflicts)
  {
    forall p, c | Enrolled(s.enrs, p, c) ensures Enrolled(t.enrs, p, c) { EnrolledStays(s.enrs, t.enrs, p, c); }
    hide Enrolled;
  }

  lemma QuietStep(s: State, t: State, p: nat)
    requires Inv(s, p) && NoNewDeferral(s, t)
    ensures Inv(t, p) && forall x :: GivesUpAlone(s, x, p) ==> GivesUpAlone(t, x, p)
  {
    RefsStay(s, t);
    hide Holder, ClaimsEnrolled, ConflictsEnrolled;
  }

  /** Releasing a claim keeps the prospect's deferrals waiting on a holder. */
  lemma ReleaseStep(s: State, e: nat, p: nat)
    requires Inv(s, p) && e < |s.enrs| && GivesUpAlone(s, ReleaseClaim(s, e), p)
    ensures Inv(ReleaseClaim(s, e), p)
  {
    hide ReleaseClaim, ClaimsEnrolled, ConflictsEnrolled, OneActive, UniqueEnrollments;
    var t := ReleaseClaim(s, e);
    ReleaseKeepsIds(s, e);
    if Holder(s.claims, s.enrs[e].prospect) == Some(s.enrs[e].campaign) {
      ReleaseWakes(s, e, p);
    } else {
      NothingReleased(s, e);
    }
  }

  lemma ReleaseKeepsIds(s: State, e: nat)
    requires e < |s.enrs| && ClaimInv(s)
    ensures SameRows(s.enrs, ReleaseClaim(s, e).enrs) && ClaimInv(ReleaseClaim(s, e))
  {
    var t := ReleaseClaim(s, e);
    var a := ActiveClaim(s.claims, s.enrs[e].prospect);
    ReleaseExtends(s, e);
    RefsStay(s, t);
    if a.Some? {
      HolderAfterRelease(s.claims, a.value, Released, s.enrs[e].prospect);
    }
    hide Enrolled, ConflictsEnrolled, UniqueEnrollments;
  }

  lemma NothingReleased(s: State, e: nat)
    requires e < |s.enrs| && Holder(s.claims, s.enrs[e].prospect) != Some(s.enrs[e].campaign)
    ensures ReleaseClaim(s, e) == s
  {
  }

  /** The only enrollment that can wait is woken. */
  lemma ReleaseWakes(s: State, e: nat, p: nat)
    requires Inv(s, p) && e < |s.enrs| && Holder(s.claims, s.enrs[e].prospect) == Some(s.enrs[e].campaign)
    requires GivesUpAlone(s, ReleaseClaim(s, e), p)
    ensures var t := ReleaseClaim(s, e); NoStranded(t.enrs, t.claims, p)
  {
    var t := ReleaseClaim(s, e);
    var q := s.enrs[e].prospect;
    var a := ActiveClaim(s.claims, q).value;
    HolderAfterRelease(s.claims, a, Released, p);
    assert t.claims == s.claims[a := s.claims[a].(status := Released)];
    if p == q {
      ReleaseStrandsAllButOne(s, e);
      assert s.enrs[e].state != Deferred;
    }
    hide Holder, ClaimsEnrolled, ConflictsEnrolled, OneActive;
  }

  /** With any number of campaigns, giving up a held claim strands nobody exactly when at most one enrollment was
      waiting for it. */
  lemma ReleaseStrandsAllButOne(s: State, e: nat)
    requires e < |s.enrs| && ClaimInv(s) && NoStranded(s.enrs, s.claims, s.enrs[e].prospect)
    requires Holder(s.claims, s.enrs[e].prospect) == Some(s.enrs[e].campaign)
    ensures var t := ReleaseClaim(s, e); NoStranded(t.enrs, t.claims, s.enrs[e].prospect)
                                         <==> OneWaiting(s.enrs, s.enrs[e].prospect)
  {
    var t := ReleaseClaim(s, e);
    var p, c := s.enrs[e].prospect, s.enrs[e].campaign;
    var a := ActiveClaim(s.claims, p).value;
    HolderAfterRelease(s.claims, a, Released, p);
    assert t.claims == s.claims[a := s.claims[a].(status := Released)];
    hide ClaimsEnrolled, ConflictsEnrolled, OneActive, Holder;
    var w := DeferredElsewhere(s.enrs, p, c);
    if w.Some? {
      assert t.enrs == s.enrs[w.value := s.enrs[w.value].(state := Qualified)];
      if !OneWaiting(s.enrs, p) {
        var i, j :| 0 <= i < j < |s.enrs| && s.enrs[i].prospect == p && s.enrs[j].prospect == p
            && s.enrs[i].state == Deferred && s.enrs[j].state == Deferred;
        var k := if i == w.value then j else i;
        assert t.enrs[k].prospect == p && t.enrs[k].state == Deferred;
      } else {
        assert forall i :: 0 <= i < |s.enrs| && s.enrs[i].prospect == p && s.enrs[i].state == Deferred ==> i == w.value;
      }
    } else {
      assert t.enrs == s.enrs;
    }
  }

  // --- resolution ---

  lemma ConflictAdded(s: State, p: nat, h: nat, c: nat, w: Option<nat>, st: ConflictStatus)
    requires ClaimInv(s) && h != c && Enrolled(s.enrs, p, h) && Enrolled(s.enrs, p, c)
    ensures var t := AddConflict(s, p, h, c, w, st);
        ClaimInv(t) && t.enrs == s.enrs && t.claims == s.claims && t.jobs == s.jobs
  {
    hide Enrolled, KnownConflict;
  }

  lemma NobodyHolds(claims: seq<Claim>, q: nat)
    requires Holder(claims, q) == None
    ensures forall i :: 0 <= i < |claims| && claims[i].prospect == q ==> claims[i].status != Active
  {
  }

  lemma ClaimCreated(s: State, q: nat, c: nat, p: nat)
    requires ClaimInv(s) && Holder(s.claims, q) == None && Enrolled(s.enrs, q, c)
    ensures var t := CreateClaim(s, q, c);
      ClaimInv(t) && Holder(t.claims, p) == if p == q then Some(c) else Holder(s.claims, p)
  {
    hide Enrolled, UniqueEnrollments, ConflictsEnrolled, Holder;
    NobodyHolds(s.claims, q);
    HolderAfterCreate(s.claims, Claim(q, c, Active, s.clock), p);
  }

  lemma ClaimTransferred(s: State, q: nat, c: nat, p: nat)
    requires ClaimInv(s) && Enrolled(s.enrs, q, c)
    ensures var t := TransferClaim(s, q, c);
      ClaimInv(t) && Holder(t.claims, p) == if p == q then Some(c) else Holder(s.claims, p)
  {
    var u := s.(claims := Retire(s.claims, q, Lost));
    HolderAfterRetire(s.claims, q, Lost, p);
    HolderAfterRetire(s.claims, q, Lost, q);
    assert ClaimsEnrolled(u.enrs, u.claims) by { hide Enrolled; }
    hide ClaimsEnrolled, OneActive, Retire, Enrolled;
    ClaimCreated(u, q, c, p);
    hide Holder;
  }

  lemma HolderEnrolled(s: State, q: nat)
    requires ClaimInv(s) && ActiveClaim(s.claims, q).Some?
    ensures var h := s.claims[ActiveClaim(s.claims, q).value].campaign;
        Enrolled(s.enrs, q, h) && EnrollmentOf(s.enrs, q, h).Some?
  {
  }

  lemma EnrolledSelf(s: State, e: nat)
    requires e < |s.enrs|
    ensures Enrolled(s.enrs, s.enrs[e].prospect, s.enrs[e].campaign)
  {
  }

  /** The branch of resolution in which campaign c takes the claim from h. */
  lemma ClaimWon(s: State, q: nat, c: nat, h: nat, p: nat)
    requires ClaimInv(s) && h != c && Enrolled(s.enrs, q, h) && Enrolled(s.enrs, q, c)
    ensures var u := TransferClaim(s, q, c); var v := u.(enrs := CancelOthers(u.enrs, q, c));
                                             var t := AddConflict(v, q, h, c, Some(c), Logged);
      && ClaimInv(t) && Holder(t.claims, p) == (if p == q then Some(c) else Holder(s.claims, p))
      && |t.enrs| == |s.enrs| && forall i :: 0 <= i < |s.enrs| ==> t.enrs[i].state == s.enrs[i].state
  {
    hide AddConflict, Enrolled, Retire, Holder;
    ClaimTransferred(s, q, c, p);
    var u := TransferClaim(s, q, c);
    var v := u.(enrs := CancelOthers(u.enrs, q, c));
    RefsStay(u, v);
    EnrolledStays(u.enrs, v.enrs, q, h);
    EnrolledStays(u.enrs, v.enrs, q, c);
    ConflictAdded(v, q, h, c, Some(c), Logged);
  }

  /** Resolution either leaves the claims alone or makes the enrollment's campaign the holder. */
  lemma ResolveMoves(s: State, e: nat, p: nat)
    requires ClaimInv(s) && e < |s.enrs|
    ensures var (t, d) := ResolveClaim(s, e); var q, c := s.enrs[e].prospect, s.enrs[e].campaign;
      && ClaimInv(t) && d != ClaimError
      && (forall i :: 0 <= i < |s.enrs| ==> t.enrs[i].state == s.enrs[i].state)
      && (d == ClaimAllow ==> Holder(t.claims, p) == if p == q then Some(c) else Holder(s.claims, p))
      && (d != ClaimAllow ==> t.claims == s.claims)
      && (d == ClaimDefer ==> Holder(s.claims, q).Some? && Holder(s.claims, q).value != c)
  {
    hide ClaimInv, AddConflict, TransferClaim, CancelOthers, CreateClaim, Ladder, Enrolled, IsSuppressed, EnrollmentOf;
    var q, c := s.enrs[e].prospect, s.enrs[e].campaign;
    var a := ActiveClaim(s.claims, q);
    EnrolledSelf(s, e);
    if a.None? {
      ClaimCreated(s, q, c, p);
      CreatedKeepsRows(s, q, c);
    } else {
      var h := s.claims[a.value].campaign;
      HolderEnrolled(s, q);
      if h != c {
        ConflictAdded(s, q, h, c, None, Open);
        ConflictAdded(s, q, h, c, Some(h), Open);
        ClaimWon(s, q, c, h, p);
      }
    }
  }

  lemma CreatedKeepsRows(s: State, q: nat, c: nat)
    ensures CreateClaim(s, q, c).enrs == s.enrs
  {
  }

  lemma QualifyStep(s: State, e: nat, p: nat)
    requires Inv(s, p) && e < |s.enrs| && !QualifyFails(s, e)
    ensures Inv(QualifyOrDefer(s, e), p)
  {
    var (t, d) := ResolveClaim(s, e);
    var u := QualifyOrDefer(s, e);
    ResolveMoves(s, e, p);
    ResolveExtends(s, e);
    QualifyExtends(s, e);
    RefsStay(t, u);
    hide ResolveClaim, Holder, ClaimsEnrolled, ConflictsEnrolled, OneActive;
    assert SameRows(s.enrs, u.enrs);
    assert u.claims == t.claims && u.conflicts == t.conflicts;
    hide Extends, SameRows;
  }

  // --- the remaining transactions ---

  /** Leaving for a state other than deferred, then giving up the claim. */
  lemma LeaveStep(s: State, e: nat, st: EnrState, p: nat)
    requires Inv(s, p) && e < |s.enrs| && st != Deferred
    requires GivesUpAlone(s, ReleaseClaim(SetState(s, e, st), e), p)
    ensures Inv(ReleaseClaim(SetState(s, e, st), e), p)
  {
    var t := SetState(s, e, st);
    QuietStep(s, t, p);
    ReleaseStep(t, e, p);
    hide ReleaseClaim, Inv, GivesUpAlone;
  }

  lemma CancelStep(s: State, e: nat, cancelJobs: bool, p: nat)
    requires Inv(s, p) && e < |s.enrs|
    ensures var t := CancelPending(s, e, cancelJobs);
      Inv(t, p) && forall x :: GivesUpAlone(s, x, p) ==> GivesUpAlone(t, x, p)
  {
    QuietStep(s, CancelPending(s, e, cancelJobs), p);
    hide Inv, GivesUpAlone;
  }

  lemma StopStep(s: State, e: nat, p: nat)
    requires Inv(s, p) && e < |s.enrs| && GivesUpAlone(s, StopProspect(s, e), p)
    ensures Inv(StopProspect(s, e), p)
  {
    var t := SetState(s, e, Stopped);
    QuietStep(s, t, p);
    CancelStep(t, e, true, p);
    ReleaseStep(CancelPending(t, e, true), e, p);
    hide ReleaseClaim, CancelPending, Inv, GivesUpAlone;
  }

  lemma DispatchStep(s: State, e: nat, p: nat)
    requires Inv(s, p) && e < |s.enrs|
    ensures Inv(DispatchDue(s, e), p)
  {
    QuietStep(s, DispatchDue(s, e), p);
    hide Inv;
  }

  lemma ScanOneStep(s: State, e: nat, p: nat)
    requires Inv(s, p) && e < |s.enrs| && GivesUpAlone(s, ScanOne(s, e), p)
    ensures Inv(ScanOne(s, e), p)
  {
    hide Inv, CancelPending, ReleaseClaim, DispatchDue, Exhausted, Holder, OneWaiting;
    if Exhausted(s, e) {
      var t := CancelPending(s, e, false);
      var u := ReleaseClaim(t, e);
      CancelStep(s, e, false, p);
      assert ScanOne(s, e).claims == u.claims;
      SameHolders(s, ScanOne(s, e), u, p);
      hide GivesUpAlone;
      ReleaseStep(t, e, p);
      QuietStep(u, SetState(u, e, Stopped), p);
    } else {
      DispatchStep(s, e, p);
    }
  }

  lemma SameHolders(s: State, t: State, u: State, p: nat)
    requires GivesUpAlone(s, t, p) && u.claims == t.claims
    ensures GivesUpAlone(s, u, p)
  {
  }

  /** A scan of one row defers nobody. */
  lemma ScanOneWakes(s: State, e: nat, p: nat)
    requires e < |s.enrs| && OneWaiting(s.enrs, p)
    ensures OneWaiting(ScanOne(s, e).enrs, p)
  {
    hide Exhausted, CancelledPlan, DispatchedPlan, DispatchedJobs;
  }

  lemma ReleaseMoves(s: State, e: nat, p: nat)
    requires OneActive(s.claims) && e < |s.enrs|
    ensures var t := ReleaseClaim(s, e);
      OneActive(t.claims) && (Holder(t.claims, p) == Holder(s.claims, p) || Holder(t.claims, p) == None)
  {
  }

  lemma ScanOneMoves(s: State, e: nat, p: nat)
    requires OneActive(s.claims) && e < |s.enrs|
    ensures OneActive(ScanOne(s, e).claims)
    ensures Holder(ScanOne(s, e).claims, p) == Holder(s.claims, p) || Holder(ScanOne(s, e).claims, p) == None
  {
    ReleaseMoves(CancelPending(s, e, false), e, p);
    hide CancelPending, ReleaseClaim, DispatchDue, Exhausted, Holder, OneActive;
  }

  lemma ScanMoves(s: State, c: nat, e: nat, p: nat)
    requires OneActive(s.claims) && e <= |s.enrs|
    ensures var t := ScanFrom(s, c, e); Holder(t.claims, p) == Holder(s.claims, p) || Holder(t.claims, p) == None
    decreases |s.enrs| - e
  {
    hide ScanOne, ScanRow, Holder, OneActive;
    if e < |s.enrs| {
      ScanOneMoves(s, e, p);
      ScanMoves(if ScanRow(s, e, c) then ScanOne(s, e) else s, c, e + 1, p);
    }
  }

  /** A scan that gives the claim up with one waiting does so at one of its rows. */
  lemma ScanAlone(s: State, u: State, t: State, p: nat)
    requires GivesUpAlone(s, t, p) && (OneWaiting(s.enrs, p) ==> OneWaiting(u.enrs, p))
    requires Holder(u.claims, p) == Holder(s.claims, p) || Holder(u.claims, p) == None
    requires Holder(t.claims, p) == Holder(u.claims, p) || Holder(t.claims, p) == None
    ensures GivesUpAlone(s, u, p) && GivesUpAlone(u, t, p)
  {
    hide Holder, OneWaiting;
  }

  lemma ScanStep(s: State, c: nat, e: nat, p: nat)
    requires Inv(s, p) && e <= |s.enrs| && GivesUpAlone(s, ScanFrom(s, c, e), p)
    ensures Inv(ScanFrom(s, c, e), p)
    decreases |s.enrs| - e
  {
    hide Inv, ScanOne, ScanRow, GivesUpAlone, Holder, OneWaiting, OneActive;
    if e < |s.enrs| {
      InvParts(s, p);
      if ScanRow(s, e, c) {
        var u := ScanOne(s, e);
        ScanOneMoves(s, e, p);
        ScanMoves(u, c, e + 1, p);
        if OneWaiting(s.enrs, p) { ScanOneWakes(s, e, p); }
        ScanAlone(s, u, ScanFrom(s, c, e), p);
        ScanOneStep(s, e, p);
        ScanStep(u, c, e + 1, p);
      } else {
        ScanStep(s, c, e + 1, p);
      }
    }
  }

  lemma InvParts(s: State, p: nat)
    requires Inv(s, p)
    ensures ClaimInv(s) && OneActive(s.claims)
  {
  }

  lemma OptOutStep(s: State, q: nat, p: nat)
    requires Inv(s, p)
    ensures Inv(OptOut(s, q), p)
  {
    var t := OptOut(s, q);
    HolderAfterRetire(s.claims, q, Released, p);
    assert SameRows(s.enrs, t.enrs);
    RefsStay(s, t);
    assert ClaimsEnrolled(t.enrs, t.claims) by { hide Enrolled, Holder; }
    hide Holder, ClaimsEnrolled, ConflictsEnrolled, OneActive, Retire;
  }

  lemma ReactStep(s: State, e: nat, ch: Channel, cls: ReplyClass, inbound: nat, hotCall: bool, p: nat)
    requires Inv(s, p) && e < |s.enrs|
    requires cls != Unsubscribe ==> GivesUpAlone(s, React(s, e, ch, cls, inbound, hotCall), p)
    ensures Inv(React(s, e, ch, cls, inbound, hotCall), p)
  {
    hide Inv, OptOut, ReleaseClaim, OpenVoiceApproval, Holder, OneWaiting;
    var t := React(s, e, ch, cls, inbound, hotCall);
    match cls {
      case Unsubscribe =>
        OptOutStep(s, s.enrs[e].prospect, p);
        var o := OptOut(s, s.enrs[e].prospect);
        hide OptOut;
        QuietStep(o, t, p);
      case NotInterested => LeaveStep(s, e, Stopped, p);
      case Book =>
        if s.enrs[e].slots {
          SameHolders(s, t, BookMeeting(s, e), p);
          LeaveStep(s, e, MeetingBooked, p);
          hide ReleaseClaim;
          QuietStep(BookMeeting(s, e), t, p);
        } else {
          QuietStep(s, t, p);
        }
      case _ => QuietStep(s, t, p);
    }
  }

  lemma IngestStep(s: State, e: nat, ch: Channel, cls: ReplyClass, hotCall: bool, p: nat)
    requires Inv(s, p) && e < |s.enrs|
    requires cls != Unsubscribe ==> GivesUpAlone(s, IngestReply(s, e, ch, cls, hotCall), p)
    ensures Inv(IngestReply(s, e, ch, cls, hotCall), p)
  {
    var r := Received(s, e, ch);
    QuietStep(s, r, p);
    CancelStep(r, e, true, p);
    ReactStep(CancelPending(r, e, true), e, ch, cls, |s.msgs|, hotCall, p);
    hide Inv, Received, CancelPending, React, GivesUpAlone;
  }

  lemma CallStep(s: State, e: nat, awaiting: bool, p: nat)
    requires Inv(s, p) && e < |s.enrs| && GivesUpAlone(s, CallPlaced(s, e, awaiting), p)
    ensures Inv(CallPlaced(s, e, awaiting), p)
  {
    hide Inv, GivesUpAlone, ReleaseClaim;
    var v := AddSent(s, MakeMessage(s, e, Voice, false, Sent, false, false, None, None), Call);
    QuietStep(s, v, p);
    if !awaiting && s.enrs[e].state != MeetingBooked {
      LeaveStep(v, e, MeetingBooked, p);
    }
  }

  lemma ApproveStep(s: State, a: nat, unsupported: bool, edited: bool, awaiting: bool, g: Verdict, p: nat)
    requires Inv(s, p) && a < |s.approvals| && s.approvals[a].enr < |s.enrs|
    requires GivesUpAlone(s, ApproveWith(s, a, unsupported, edited, awaiting, g), p)
    ensures Inv(ApproveWith(s, a, unsupported, edited, awaiting, g), p)
  {
    var ap := s.approvals[a];
    var t := Decide(s, a, Approved);
    var u := ApproveWith(s, a, unsupported, edited, awaiting, g);
    if u != s {
      QuietStep(s, t, p);
      if ap.kind == BorderlineReview {
        QualifyStep(t, ap.enr, p);
      } else if ap.kind == VoiceApproval {
        CallStep(t, ap.enr, awaiting, p);
      } else {
        QuietStep(s, u, p);
      }
    }
    hide Inv, CallPlaced, QualifyOrDefer, QualifyFails, ReleaseClaim, GivesUpAlone;
  }

  lemma RejectStep(s: State, a: nat, p: nat)
    requires Inv(s, p) && a < |s.approvals| && s.approvals[a].enr < |s.enrs| && GivesUpAlone(s, RejectItem(s, a), p)
    ensures Inv(RejectItem(s, a), p)
  {
    var u, e := MarkDeclined(s, a), s.approvals[a].enr;
    QuietStep(s, u, p);
    if s.approvals[a].kind == TouchApproval { StopStep(u, e, p); } else { QuietStep(s, RejectItem(s, a), p); }
    hide Inv, StopProspect, MarkDeclined, GivesUpAlone;
  }

  /** The parties of conflict x when a manager gives it to campaign c: winner w and loser l. */
  ghost predicate Parties(s: State, x: nat, c: nat, w: nat, l: nat)
    requires x < |s.conflicts|
  {
    var k := s.conflicts[x];
    && (c == k.holder || c == k.wanting) && k.holder != k.wanting
    && EnrollmentOf(s.enrs, k.prospect, c) == Some(w)
    && EnrollmentOf(s.enrs, k.prospect, if c == k.holder then k.wanting else k.holder) == Some(l)
  }

  /** The states after an override: the loser may become deferred, the winner no longer is, others keep theirs. */
  lemma OverrideOutcome(s: State, x: nat, c: nat, w: nat, l: nat)
    requires x < |s.conflicts| && Parties(s, x, c, w, l)
    ensures var k, t := s.conflicts[x], ResolveConflict(s, x, c);
      && t.claims == TransferClaim(s, k.prospect, c).claims
      && t.conflicts == s.conflicts[x := k.(status := Resolved, winner := Some(c))]
      && |t.enrs| == |s.enrs| && t.enrs[w].state != Deferred
      && forall i :: 0 <= i < |s.enrs| && i != l && i != w ==> t.enrs[i].state == s.enrs[i].state
  {
    hide EnrollmentOf, Retire;
  }

  lemma HandedOver(s: State, t: State, q: nat, c: nat, w: nat, l: nat, p: nat)
    requires UniqueEnrollments(s.enrs) && NoStranded(s.enrs, s.claims, p) && SameRows(s.enrs, t.enrs)
    requires w < |s.enrs| && s.enrs[w].prospect == q && s.enrs[w].campaign == c && l < |s.enrs|
        && s.enrs[l].prospect == q && l != w
    requires t.enrs[w].state != Deferred && forall i ::
        0 <= i < |s.enrs| && i != l && i != w ==> t.enrs[i].state == s.enrs[i].state
    requires Holder(t.claims, p) == if p == q then Some(c) else Holder(s.claims, p)
    ensures NoStranded(t.enrs, t.claims, p)
  {
    hide Holder;
  }

  /** Both campaigns of a conflict have enrolled the prospect. */
  lemma PartiesOf(s: State, x: nat, c: nat) returns (w: nat, l: nat)
    requires ClaimInv(s) && x < |s.conflicts| && c in {s.conflicts[x].holder, s.conflicts[x].wanting}
    ensures Parties(s, x, c, w, l) && w < |s.enrs| && l < |s.enrs| && w != l
    ensures var q := s.conflicts[x].prospect;
        s.enrs[w].prospect == q && s.enrs[w].campaign == c && s.enrs[l].prospect == q
    ensures Enrolled(s.enrs, s.conflicts[x].prospect, c)
  {
    var k := s.conflicts[x];
    var lose := if c == k.holder then k.wanting else k.holder;
    assert Enrolled(s.enrs, k.prospect, c) && Enrolled(s.enrs, k.prospect, lose);
    w, l := EnrollmentOf(s.enrs, k.prospect, c).value, EnrollmentOf(s.enrs, k.prospect, lose).value;
  }

  lemma OverrideKeepsIds(s: State, x: nat, c: nat)
    requires x < |s.conflicts|
    ensures SameRows(s.enrs, ResolveConflict(s, x, c).enrs)
  {
    hide ResolveConflict;
    OverrideExtends(s, x, c);
  }

  lemma SettledStaysEnrolled(s: State, x: nat, w: Option<nat>, st: ConflictStatus)
    requires x < |s.conflicts| && ConflictsEnrolled(s.enrs, s.conflicts)
    ensures ConflictsEnrolled(s.enrs, s.conflicts[x := s.conflicts[x].(status := st, winner := w)])
  {
    hide Enrolled;
  }

  /** A manager's override hands the claim over, wakes the winner and lets the loser wait for it. */
  lemma OverrideStep(s: State, x: nat, c: nat, p: nat)
    requires Inv(s, p) && x < |s.conflicts|
    ensures var t, k := ResolveConflict(s, x, c), s.conflicts[x];
      Inv(t, p) && Holder(t.claims, p) == if p == k.prospect && c in {k.holder, k.wanting} then Some(c)
          else Holder(s.claims, p)
  {
    hide Inv, Parties, Holder, TransferClaim, CancelPending;
    var k := s.conflicts[x];
    InvParts(s, p);
    if c == k.holder || c == k.wanting {
      var w, l := PartiesOf(s, x, c);
      OverrideSettles(s, x, c, w, l, p);
    }
  }

  lemma OverrideSettles(s: State, x: nat, c: nat, w: nat, l: nat, p: nat)
    requires Inv(s, p) && x < |s.conflicts| && Parties(s, x, c, w, l) && w < |s.enrs| && l < |s.enrs| && w != l
    requires var q := s.conflicts[x].prospect;
        s.enrs[w].prospect == q && s.enrs[w].campaign == c && s.enrs[l].prospect == q
    requires Enrolled(s.enrs, s.conflicts[x].prospect, c)
    ensures var t := ResolveConflict(s, x, c);
      Inv(t, p) && Holder(t.claims, p) == if p == s.conflicts[x].prospect then Some(c) else Holder(s.claims, p)
  {
    hide ResolveConflict, Parties, TransferClaim, Enrolled, Holder, NoStranded, ClaimsEnrolled, OneActive,
        ConflictsEnrolled, UniqueEnrollments, SameRows;
    var t, q := ResolveConflict(s, x, c), s.conflicts[x].prospect;
    OverrideOutcome(s, x, c, w, l);
    OverrideKeepsIds(s, x, c);
    ClaimTransferred(s, q, c, p);
    HandedOver(s, t, q, c, w, l, p);
    SettledStaysEnrolled(s, x, Some(c), Resolved);
    TransferKeepsRows(s, q, c);
    RefsStay(s.(claims := t.claims, conflicts := t.conflicts), t);
  }

  lemma TransferKeepsRows(s: State, q: nat, c: nat)
    ensures TransferClaim(s, q, c).enrs == s.enrs
  {
  }

  // --- every step ---

  lemma RunStep(s: State, j: nat, w: Work, p: nat)
    requires Inv(s, p)
    ensures Inv(RunOne(s, j, w), p)
  {
    hide Inv, DoQualify, DoDraft, DispatchDue, Evaluate, HasKey;
    if j < |s.jobs| && s.jobs[j].status == Running && s.jobs[j].enr < |s.enrs| {
      var e := s.jobs[j].enr;
      match s.jobs[j].kind {
        case ResearchJob => QuietStep(s, DoResearch(s, j), p);
        case QualifyJob => QualifyJobStep(s, j, w.judged, p);
        case PlanJob =>
          var t := SetJobStatus(SetEnr(s, e, s.enrs[e].(plan := w.plan)), j, Finished);
          QuietStep(s, t, p);
          DispatchStep(t, e, p);
        case DraftJob(n) => DraftStep(s, j, n, w.draft, p);
        case ReplyJob(pl) => QuietStep(s, SendReply(s, j, pl), p);
      }
    }
  }

  lemma QualifyJobStep(s: State, j: nat, q: QualifyOutcome, p: nat)
    requires Inv(s, p) && j < |s.jobs| && s.jobs[j].enr < |s.enrs|
    ensures Inv(DoQualify(s, j, q), p)
  {
    var e := s.jobs[j].enr;
    if q.Judged? && q.dec == Qualify {
      var t := SetJobStatus(s, j, Finished);
      var u := SetEnr(t, e, t.enrs[e].(state := Researched, score := Some(q.score)));
      QuietStep(s, u, p);
      if !QualifyFails(u, e) { QualifyStep(u, e, p); }
    } else {
      QuietStep(s, DoQualify(s, j, q), p);
    }
    hide Inv, QualifyOrDefer, QualifyFails;
  }

  lemma DraftStep(s: State, j: nat, n: nat, d: DraftOutcome, p: nat)
    requires Inv(s, p) && j < |s.jobs| && s.jobs[j].enr < |s.enrs|
    ensures Inv(DoDraft(s, j, n, d), p)
  {
    var e := s.jobs[j].enr;
    var t := DoDraft(s, j, n, d);
    DraftExtends(s, j, e, n, d, PlannedVerdict(s, e, n), EmailVerdict(s, e, n));
    DraftKeepsClaims(s, j, e, n, d, PlannedVerdict(s, e, n), EmailVerdict(s, e, n));
    assert SameRows(s.enrs, t.enrs);
    hide Extends, PlannedVerdict, EmailVerdict, HasKey, Allowed, OpenApprovalElsewhere, SameDayDone;
    hide DraftWith;
    QuietStep(s, t, p);
    hide Inv;
  }

  lemma DraftKeepsClaims(s: State, j: nat, e: nat, n: nat, d: DraftOutcome, g: Verdict, h: Verdict)
    requires j < |s.jobs| && e < |s.enrs|
    ensures var t := DraftWith(s, j, e, n, d, g, h);
      && t.claims == s.claims && t.conflicts == s.conflicts && |t.enrs| == |s.enrs|
      && forall i :: 0 <= i < |s.enrs| && t.enrs[i].state == Deferred ==> s.enrs[i].state == Deferred
  {
    hide HasKey, Allowed, OpenApprovalElsewhere, SameDayDone;
    if n < |s.enrs[e].plan| {
      var sameDay := SameDayDone(s.enrs[e].plan, n);
      var u := SetStep(s, e, n, s.enrs[e].plan[n].(ch := Email));
      if d.Drafted? {
        ConcludeKeepsClaims(s, j, e, n, d.bad, g, sameDay);
        ConcludeKeepsClaims(u, j, e, n, d.badEmail, h, sameDay);
      }
      hide Conclude;
    }
  }

  lemma ConcludeKeepsClaims(s: State, j: nat, e: nat, n: nat, bad: bool, g: Verdict, sameDay: bool)
    requires j < |s.jobs| && e < |s.enrs| && n < |s.enrs[e].plan|
    ensures var t := Conclude(s, j, e, n, bad, g, sameDay);
      && t.claims == s.claims && t.conflicts == s.conflicts && |t.enrs| == |s.enrs|
      && forall i :: 0 <= i < |s.enrs| && t.enrs[i].state == Deferred ==> s.enrs[i].state == Deferred
  {
    hide HasKey;
  }

  lemma EnrollStep(s: State, q: nat, c: nat, rep: Option<nat>, p: nat)
    requires Inv(s, p)
    ensures Inv(EnrollProspect(s, q, c, rep), p)
  {
    hide Holder, Enrolled;
    var t := EnrollProspect(s, q, c, rep);
    EnrollExtends(s, q, c, rep);
    EnrolledStay(s.enrs, t.enrs);
  }

  lemma EnrolledStay(a: seq<Enrollment>, b: seq<Enrollment>)
    requires SameIds(a, b)
    ensures forall p, c :: Enrolled(a, p, c) ==> Enrolled(b, p, c)
  {
    forall p, c | Enrolled(a, p, c) ensures Enrolled(b, p, c) { EnrolledStays(a, b, p, c); }
  }

  /** A step that takes the prospect's claim away finds at most one enrollment waiting, or opts the prospect out. */
  ghost predicate AloneStep(s: State, step: Step, p: nat) {
    (step.Reply? && step.cls == Unsubscribe) || GivesUpAlone(s, Next(s, step), p)
  }

  lemma StepKeepsInv(s: State, step: Step, p: nat)
    requires Inv(s, p) && AloneStep(s, step, p)
    ensures Inv(Next(s, step), p)
  {
    hide Inv, GivesUpAlone, EnrollProspect, RunOne, ScanFrom, IngestReply, ApproveWith, RejectItem, ResolveConflict,
        StopProspect,
        CancelPending;
    match step {
      case Enroll(q, c, rep) => EnrollStep(s, q, c, rep, p);
      case RunJob(j, w) => RunStep(s, j, w, p);
      case Scan(c) => if CampaignOf(s.cfg, c).status == LiveCampaign { ScanStep(s, c, 0, p); }
      case Reply(e, ch, cls, hotCall) => if e < |s.enrs| { IngestStep(s, e, ch, cls, hotCall, p); }
      case Approve(a, unsupported, edited, awaiting) =>
        if a < |s.approvals| && s.approvals[a].enr < |s.enrs| {
          ApproveStep(s, a, unsupported, edited, awaiting, ApprovalVerdict(s, a), p);
        }
      case Decline(a) => if a < |s.approvals| && s.approvals[a].enr < |s.enrs| { RejectStep(s, a, p); }
      case Override(x, c) => if x < |s.conflicts| { OverrideStep(s, x, c, p); }
      case Stop(e) => if e < |s.enrs| { StopStep(s, e, p); }
      case EscalateManually(e) =>
        if e < |s.enrs| {
          QuietStep(s, SetState(s, e, Escalated), p);
          CancelStep(SetState(s, e, Escalated), e, true, p);
        }
      case _ => QuietStep(s, Next(s, step), p);
    }
  }

  lemma TwoBefore(s: State, step: Step, p: nat)
    requires AtMostTwo(Next(s, step).enrs, p)
    ensures AtMostTwo(s.enrs, p)
  {
    hide Next;
    NextExtends(s, step);
    assert SameIds(s.enrs, Next(s, step).enrs);
  }

  /** Of two enrollments one holds the claim, so only the other can wait. */
  lemma TwoAreAlone(s: State, step: Step, p: nat)
    requires Inv(s, p) && AtMostTwo(s.enrs, p)
    ensures AloneStep(s, step, p)
  {
    hide Next, ConflictsEnrolled, OneActive, UniqueEnrollments;
    var a := ActiveClaim(s.claims, p);
    if a.Some? {
      assert Enrolled(s.enrs, p, s.claims[a.value].campaign);
      var h :| 0 <= h < |s.enrs| && s.enrs[h].prospect == p && s.enrs[h].campaign == s.claims[a.value].campaign;
      assert s.enrs[h].state != Deferred;
    }
  }

  lemma {:induction false} InvOfTwo(s: State, steps: seq<Step>, n: nat, p: nat)
    requires Initial(s) && n <= |steps| && AtMostTwo(After(s, steps, n).enrs, p)
    ensures Inv(After(s, steps, n), p)
  {
    hide Inv, Next, Initial, AtMostTwo, AloneStep;
    if n > 0 {
      TwoBefore(After(s, steps, n - 1), steps[n - 1], p);
      InvOfTwo(s, steps, n - 1, p);
      TwoAreAlone(After(s, steps, n - 1), steps[n - 1], p);
      StepKeepsInv(After(s, steps, n - 1), steps[n - 1], p);
    } else {
      InvAtFirst(s, p);
    }
  }

  ghost predicate AloneRun(s: State, steps: seq<Step>, p: nat) {
    forall k: nat :: k < |steps| ==> AloneStep(After(s, steps, k), steps[k], p)
  }

  lemma {:induction false} InvOfAlone(s: State, steps: seq<Step>, n: nat, p: nat)
    requires Initial(s) && n <= |steps| && AloneRun(s, steps, p)
    ensures Inv(After(s, steps, n), p)
  {
    hide Inv, Next, Initial, AloneStep;
    if n > 0 {
      InvOfAlone(s, steps, n - 1, p);
      StepKeepsInv(After(s, steps, n - 1), steps[n - 1], p);
    } else {
      InvAtFirst(s, p);
    }
  }

  lemma InvAtFirst(s: State, p: nat)
    requires Initial(s)
    ensures Inv(s, p)
  {
  }

  function UnusedProspect(enrs: seq<Enrollment>): (p: nat)
    ensures forall i :: 0 <= i < |enrs| ==> enrs[i].prospect < p
  {
    if enrs == [] then 0
    else
      var n := |enrs| - 1;
      var rest := UnusedProspect(enrs[..n]);
      if enrs[n].prospect < rest then rest else enrs[n].prospect + 1
  }

  lemma {:induction false} ClaimInvAlways(s: State, steps: seq<Step>, n: nat)
    requires Initial(s) && n <= |steps|
    ensures ClaimInv(After(s, steps, n))
  {
    InvOfTwo(s, steps, n, UnusedProspect(After(s, steps, n).enrs));
    hide After, ClaimInv, Initial;
  }

  /** In every reachable state a prospect has at most one active claim, and its campaign has enrolled the prospect. */
  lemma {:induction false} OneClaimPerProspect(s: State, steps: seq<Step>)
    requires Initial(s)
    ensures var t := After(s, steps, |steps|);
      && (forall i, j :: 0 <= i < j < |t.claims| && t.claims[i].status == Active && t.claims[j].status == Active
                         ==> t.claims[i].prospect != t.claims[j].prospect)
      && (forall i :: 0 <= i < |t.claims| && t.claims[i].status == Active ==>
            exists e :: 0 <= e < |t.enrs| && t.enrs[e].prospect == t.claims[i].prospect
                        && t.enrs[e].campaign == t.claims[i].campaign)
  {
    ClaimInvAlways(s, steps, |steps|);
    assert ClaimInv(After(s, steps, |steps|));
    hide After, Initial, ConflictsEnrolled;
  }

  /** When at most two campaigns enrolled the prospect, every reachable deferred enrollment faces an active claim of the
      other campaign. */
  lemma {:induction false} NoStrandedDeferral(s: State, steps: seq<Step>, p: nat)
    requires Initial(s) && AtMostTwo(After(s, steps, |steps|).enrs, p)
    ensures var t := After(s, steps, |steps|);
      forall e :: 0 <= e < |t.enrs| && t.enrs[e].prospect == p && t.enrs[e].state == Deferred ==>
        exists i :: 0 <= i < |t.claims| && t.claims[i].status == Active && t.claims[i].prospect == p
                    && t.claims[i].campaign != t.enrs[e].campaign
  {
    InvOfTwo(s, steps, |steps|, p);
    FacesHolder(After(s, steps, |steps|), p);
    hide After, Initial, AtMostTwo, Inv;
  }

  lemma FacesHolder(t: State, p: nat)
    requires Inv(t, p)
    ensures forall e :: 0 <= e < |t.enrs| && t.enrs[e].prospect == p && t.enrs[e].state == Deferred ==>
      exists i :: 0 <= i < |t.claims| && t.claims[i].status == Active && t.claims[i].prospect == p
                  && t.claims[i].campaign != t.enrs[e].campaign
  {
    hide ClaimsEnrolled, ConflictsEnrolled;
  }

  /** With any number of campaigns: as long as the prospect's claim is given up only with at most one enrollment waiting
      for it, or by opting out, every reachable deferred enrollment faces another campaign's active claim. */
  lemma {:induction false} NoStrandedAlone(s: State, steps: seq<Step>, p: nat)
    requires Initial(s) && AloneRun(s, steps, p)
    ensures var t := After(s, steps, |steps|);
      forall e :: 0 <= e < |t.enrs| && t.enrs[e].prospect == p && t.enrs[e].state == Deferred ==>
        exists i :: 0 <= i < |t.claims| && t.claims[i].status == Active && t.claims[i].prospect == p
                    && t.claims[i].campaign != t.enrs[e].campaign
  {
    InvOfAlone(s, steps, |steps|, p);
    FacesHolder(After(s, steps, |steps|), p);
    hide After, Initial, AloneRun, Inv;
  }
}
