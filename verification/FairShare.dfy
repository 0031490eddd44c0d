/** Fair share and pause isolation of the claim query, and the bound of three running jobs per campaign. */
module FairShare {
  import opened Basics
  import opened Model
  import opened Queue
  import opened Machine
  import opened Wellformed
  import opened Outbox

  // --- ranks in a finite set under a strict total order ---

  ghost predicate Total(s: State, E: set<nat>) {
    forall j :: j in E ==> j < |s.jobs|
  }

  function AheadIn(s: State, E: set<nat>, j: nat): set<nat>
    requires Total(s, E) && j < |s.jobs|
  {
    set k | k in E && Before(s, k, j)
  }

  function TopIn(s: State, E: set<nat>, room: int): set<nat>
    requires Total(s, E)
  {
    set j | j in E && |AheadIn(s, E, j)| < room
  }

  function Min(a: int, b: int): int { if a < b then a else b }

  lemma LastIsAheadOfNone(s: State, E: set<nat>, m: nat, j: nat)
    requires Total(s, E) && m in E && j in E && j != m && Before(s, j, m)
    ensures AheadIn(s, E, j) == AheadIn(s, E - {m}, j)
  {
  }

  /** Taking every element with fewer than `room` ahead of it takes exactly min(room, all). */
  lemma {:induction false} TopSize(s: State, E: set<nat>, room: nat)
    requires Total(s, E)
    ensures |TopIn(s, E, room)| == Min(room, |E|)
    decreases |E|
  {
    if E == {} {
      assert TopIn(s, E, room) == {};
    } else {
      hide Before, TopIn;
      var first, m := EndsOf(s, E);
      TopSize(s, E - {m}, room);
      TopAndLast(s, E, m, room);
    }
  }

  /** The last element is taken only when all others are. */
  lemma TopAndLast(s: State, E: set<nat>, m: nat, room: nat)
    requires Total(s, E) && m in E && forall k :: k in E && k != m ==> Before(s, k, m)
    ensures TopIn(s, E, room) == TopIn(s, E - {m}, room) + if |E - {m}| < room then {m} else {}
  {
    var R := E - {m};
    forall j | j in R ensures AheadIn(s, E, j) == AheadIn(s, R, j) {
      LastIsAheadOfNone(s, E, m, j);
    }
    assert AheadIn(s, E, m) == R;
    hide AheadIn, Before;
  }

  /** The claim query answers the top min(room, eligible) jobs of the campaign: no job left out precedes one taken. */
  lemma TopRowsAreTheTop(s: State, c: nat, room: int)
    ensures |TopRows(s, c, room)| == Min(if room < 0 then 0 else room, |EligibleSet(s, c)|)
    ensures TopRows(s, c, room) <= EligibleSet(s, c)
    ensures forall j, k :: j in TopRows(s, c, room) && k in EligibleSet(s, c) - TopRows(s, c, room) ==> Before(s, j, k)
  {
    var E := EligibleSet(s, c);
    hide Eligible, Before;
    forall j: nat | j < |s.jobs| ensures Ahead(s, c, j) == AheadIn(s, E, j) {
    }
    if room <= 0 {
      assert TopRows(s, c, room) == {};
    } else {
      TopSize(s, E, room);
      assert TopRows(s, c, room) == TopIn(s, E, room);
      forall j, k | j in TopRows(s, c, room) && k in E - TopRows(s, c, room) ensures Before(s, j, k) {
        LeftOutComesLater(s, E, room, j, k);
      }
    }
  }

  lemma LeftOutComesLater(s: State, E: set<nat>, room: int, j: nat, k: nat)
    requires Total(s, E) && j in TopIn(s, E, room) && k in E - TopIn(s, E, room)
    ensures Before(s, j, k)
  {
    if !Before(s, j, k) {
      assert Before(s, k, j);
      SubsetSize(AheadIn(s, E, k), AheadIn(s, E, j));
    }
  }

  // --- pause isolation ---

  predicate Increasing(a: seq<nat>) { forall i, j :: 0 <= i < j < |a| ==> a[i] < a[j] }

  /** The rows of campaign c's own jobs, in table order. */
  ghost predicate Own(s: State, c: nat, a: seq<nat>) {
    && Increasing(a) && (forall i :: 0 <= i < |a| ==> a[i] < |s.jobs|)
    && forall j: nat :: j in a <==> j < |s.jobs| && JobIn(s.enrs, s.jobs[j], c)
  }

  /** Two jobs alike but for the enrollment row they point at. */
  predicate SameWork(x: Job, y: Job) { x == y.(enr := x.enr) }

  /** The settings of campaign c and its own jobs, in order, are the same in both states; everything else may differ,
      also how many jobs other campaigns have and where they stand in the table. */
  ghost predicate SameForCampaign(s: State, t: State, c: nat, a: seq<nat>, b: seq<nat>) {
    && t.clock == s.clock && t.cfg.kill == s.cfg.kill && (c < |s.cfg.campaigns| <==> c < |t.cfg.campaigns|)
    && CampaignOf(t.cfg, c).status == CampaignOf(s.cfg, c).status
        && CampaignOf(t.cfg, c).agents == CampaignOf(s.cfg, c).agents
    && Own(s, c, a) && Own(t, c, b) && |a| == |b|
    && forall i :: 0 <= i < |a| ==> SameWork(s.jobs[a[i]], t.jobs[b[i]])
                                    && ScoreOf(s.enrs, s.jobs[a[i]]) == ScoreOf(t.enrs, t.jobs[b[i]])
  }

  function Rows(a: seq<nat>, I: set<nat>): set<nat>
    requires forall i <- I :: i < |a|
  {
    set i | i in I :: a[i]
  }

  lemma {:induction false} RowsSize(a: seq<nat>, I: set<nat>)
    requires Increasing(a) && forall i <- I :: i < |a|
    ensures |Rows(a, I)| == |I|
    decreases |I|
  {
    if I == {} {
      assert Rows(a, I) == {};
    } else {
      var x :| x in I;
      RowsSize(a, I - {x});
      assert Rows(a, I) == Rows(a, I - {x}) + {a[x]};
      assert a[x] !in Rows(a, I - {x});
    }
  }

  /** Positions, among the campaign's own jobs, of the eligible ones ahead of the i-th. */
  ghost function AheadAt(s: State, c: nat, a: seq<nat>, i: nat): set<nat>
    requires Own(s, c, a) && i < |a|
  {
    set k: nat | k < |a| && Eligible(s, c, a[k]) && Before(s, a[k], a[i])
  }

  lemma AheadSize(s: State, c: nat, a: seq<nat>, i: nat)
    requires Own(s, c, a) && i < |a|
    ensures |Ahead(s, c, a[i])| == |AheadAt(s, c, a, i)|
  {
    RowsSize(a, AheadAt(s, c, a, i));
    hide Before;
    forall j: nat
      ensures j in Ahead(s, c, a[i]) <==> j in Rows(a, AheadAt(s, c, a, i))
    {
      if j in Ahead(s, c, a[i]) {
        var k: nat :| k < |a| && a[k] == j;
        assert k in AheadAt(s, c, a, i);
      }
    }
    assert Ahead(s, c, a[i]) == Rows(a, AheadAt(s, c, a, i));
  }

  lemma OwnBoth(s: State, t: State, c: nat, a: seq<nat>, b: seq<nat>)
    requires SameForCampaign(s, t, c, a, b)
    ensures Own(s, c, a) && Own(t, c, b) && |a| == |b|
  {
    hide Own, CampaignOf, SameWork, ScoreOf;
  }

  /** The i-th own jobs are alike. */
  lemma SameRow(s: State, t: State, c: nat, a: seq<nat>, b: seq<nat>, i: nat)
    requires SameForCampaign(s, t, c, a, b) && i < |a|
    ensures i < |b| && a[i] < |s.jobs| && b[i] < |t.jobs| && JobIn(s.enrs, s.jobs[a[i]], c)
        && JobIn(t.enrs, t.jobs[b[i]], c)
    ensures SameWork(s.jobs[a[i]], t.jobs[b[i]]) && ScoreOf(s.enrs, s.jobs[a[i]]) == ScoreOf(t.enrs, t.jobs[b[i]])
  {
    hide CampaignOf, ScoreOf, SameWork, JobIn, Increasing;
    assert a[i] in a && b[i] in b;
  }

  lemma SameSettings(s: State, t: State, c: nat, a: seq<nat>, b: seq<nat>)
    requires SameForCampaign(s, t, c, a, b)
    ensures t.clock == s.clock && t.cfg.kill == s.cfg.kill && CampaignOf(t.cfg, c).agents == CampaignOf(s.cfg, c).agents
    ensures forall filter :: Served(s.cfg, filter, c) == Served(t.cfg, filter, c)
  {
    hide Own, ScoreOf, SameWork;
  }

  lemma RowOrder(a: seq<nat>, k: nat, i: nat)
    requires Increasing(a) && k < |a| && i < |a|
    ensures a[k] < a[i] <==> k < i
  {
    if i < k { assert a[i] < a[k]; }
  }

  lemma SameOrder(s: State, t: State, c: nat, a: seq<nat>, b: seq<nat>, k: nat, i: nat)
    requires SameForCampaign(s, t, c, a, b) && k < |a| && i < |a|
    ensures k < |b| && i < |b| && a[k] < |s.jobs| && a[i] < |s.jobs| && b[k] < |t.jobs| && b[i] < |t.jobs|
    ensures Before(s, a[k], a[i]) == Before(t, b[k], b[i])
  {
    hide SameForCampaign, Own, Increasing, ScoreOf;
    OwnBoth(s, t, c, a, b);
    OwnIncreases(s, c, a);
    OwnIncreases(t, c, b);
    SameRow(s, t, c, a, b, k);
    SameRow(s, t, c, a, b, i);
    RowOrder(a, k, i);
    RowOrder(b, k, i);
  }

  lemma OwnIncreases(s: State, c: nat, a: seq<nat>)
    requires Own(s, c, a)
    ensures Increasing(a)
  {
    hide Increasing;
  }

  lemma SameAhead(s: State, t: State, c: nat, a: seq<nat>, b: seq<nat>, i: nat)
    requires SameForCampaign(s, t, c, a, b) && i < |a|
    ensures Eligible(s, c, a[i]) == Eligible(t, c, b[i]) && |Ahead(s, c, a[i])| == |Ahead(t, c, b[i])|
  {
    hide SameForCampaign, Eligible, Ahead, Before, Own;
    OwnBoth(s, t, c, a, b);
    SameEligible(s, t, c, a, b);
    AheadSize(s, c, a, i);
    AheadSize(t, c, b, i);
    SameAheadAt(s, t, c, a, b, i);
  }

  lemma SameAheadAt(s: State, t: State, c: nat, a: seq<nat>, b: seq<nat>, i: nat)
    requires SameForCampaign(s, t, c, a, b) && i < |a|
    ensures Own(s, c, a) && Own(t, c, b) && AheadAt(s, c, a, i) == AheadAt(t, c, b, i)
  {
    hide SameForCampaign, Eligible, Before;
    OwnBoth(s, t, c, a, b);
    SameEligible(s, t, c, a, b);
    forall k: nat | k < |a|
      ensures Before(s, a[k], a[i]) == Before(t, b[k], b[i])
    {
      SameOrder(s, t, c, a, b, k, i);
    }
    hide Own;
    assert AheadAt(s, c, a, i) == AheadAt(t, c, b, i);
  }

  lemma SameEligible(s: State, t: State, c: nat, a: seq<nat>, b: seq<nat>)
    requires SameForCampaign(s, t, c, a, b)
    ensures |a| == |b| && forall i: nat :: i < |a| ==> Eligible(s, c, a[i]) == Eligible(t, c, b[i])
  {
    hide SameForCampaign, Own, ScoreOf, CampaignOf, JobIn;
    OwnBoth(s, t, c, a, b);
    SameSettings(s, t, c, a, b);
    forall i: nat | i < |a|
      ensures Eligible(s, c, a[i]) == Eligible(t, c, b[i])
    {
      SameRow(s, t, c, a, b, i);
    }
  }

  ghost function RunningAt(s: State, c: nat, a: seq<nat>): set<nat>
    requires Own(s, c, a)
  {
    set i: nat | i < |a| && s.jobs[a[i]].status == Running
  }

  lemma RunningSize(s: State, c: nat, a: seq<nat>)
    requires Own(s, c, a)
    ensures |RunningIn(s.enrs, s.jobs, c)| == |RunningAt(s, c, a)|
  {
    RowsSize(a, RunningAt(s, c, a));
    forall j: nat
      ensures j in RunningIn(s.enrs, s.jobs, c) <==> j in Rows(a, RunningAt(s, c, a))
    {
      if j in Rows(a, RunningAt(s, c, a)) {
        assert j in a;
      }
      if j in RunningIn(s.enrs, s.jobs, c) {
        var i: nat :| i < |a| && a[i] == j;
        assert i in RunningAt(s, c, a);
      }
    }
    assert RunningIn(s.enrs, s.jobs, c) == Rows(a, RunningAt(s, c, a));
  }

  lemma SameRunning(s: State, t: State, c: nat, a: seq<nat>, b: seq<nat>)
    requires SameForCampaign(s, t, c, a, b)
    ensures Own(s, c, a) && Own(t, c, b) && RunningAt(s, c, a) == RunningAt(t, c, b)
  {
    hide CampaignOf, ScoreOf, Own;
  }

  lemma SameRoom(s: State, t: State, c: nat, a: seq<nat>, b: seq<nat>)
    requires SameForCampaign(s, t, c, a, b)
    ensures Room(s, c) == Room(t, c)
  {
    SameRunning(s, t, c, a, b);
    hide SameForCampaign, Own, RunningIn, RunningAt;
    RunningSize(s, c, a);
    RunningSize(t, c, b);
  }

  /** What is claimed for a campaign depends on nothing of any other campaign: not its status, its agents, its queue or
      the rows its jobs take up. */
  lemma PauseIsolation(s: State, t: State, c: nat, a: seq<nat>, b: seq<nat>, filter: Option<nat>, i: nat)
    requires SameForCampaign(s, t, c, a, b) && i < |a|
    ensures Claimed(s, filter, a[i]) == Claimed(t, filter, b[i])
    ensures SameWork(ClaimJobs(s, filter).jobs[a[i]], ClaimJobs(t, filter).jobs[b[i]])
  {
    hide SameForCampaign, Own, ScoreOf, CampaignOf, Eligible, Ahead, Room, Served;
    SameRow(s, t, c, a, b, i);
    SameSettings(s, t, c, a, b);
    SameRoom(s, t, c, a, b);
    SameAhead(s, t, c, a, b, i);
  }

  // --- at most three running ---

  /** At most three running jobs, and every running job has its enrollment. */
  ghost predicate WithinCap(s: State, c: nat) {
    |RunningIn(s.enrs, s.jobs, c)| <= PER_CAMPAIGN_CAP
        && forall j :: 0 <= j < |s.jobs| && s.jobs[j].status == Running ==> s.jobs[j].enr < |s.enrs|
  }

  lemma FewerRunning(s: State, t: State, c: nat)
    requires WithinCap(s, c) && NoNewRunning(s.jobs, t.jobs) && SameIds(s.enrs, t.enrs) && SameJobs(s.jobs, t.jobs)
    ensures WithinCap(t, c)
  {
    var a, b := RunningIn(t.enrs, t.jobs, c), RunningIn(s.enrs, s.jobs, c);
    forall j | j in a ensures j in b { assert t.jobs[j].enr == s.jobs[j].enr; }
    SubsetSize(a, b);
  }

  /** One claim of the whole worker fills each campaign up to the cap at most. */
  lemma ClaimWithinCap(s: State, filter: Option<nat>, c: nat)
    requires WithinCap(s, c)
    ensures WithinCap(ClaimJobs(s, filter), c)
  {
    var t := ClaimJobs(s, filter);
    var before, taken := RunningIn(s.enrs, s.jobs, c), TopRows(s, c, Room(s, c));
    TopRowsAreTheTop(s, c, Room(s, c));
    hide Ahead;
    forall j | j in RunningIn(t.enrs, t.jobs, c) ensures j in before + taken {
      if !Claimed(s, filter, j) { assert t.jobs[j] == s.jobs[j]; }
    }
    hide TopRows, EligibleSet;
    SubsetSize(RunningIn(t.enrs, t.jobs, c), before + taken);
    hide RunningIn;
    assert |before + taken| <= |before| + |taken|;
  }

  lemma StepWithinCap(s: State, step: Step, c: nat)
    requires WithinCap(s, c)
    ensures WithinCap(Next(s, step), c)
  {
    match step {
      case ClaimDue(filter) => ClaimWithinCap(s, filter, c);
      case _ =>
        NextExtends(s, step);
        var t := Next(s, step);
        hide Next;
        FewerRunning(s, t, c);
    }
    hide ClaimJobs, WithinCap, Extends, NoNewRunning;
  }

  lemma {:induction false} WithinCapAlways(s: State, steps: seq<Step>, c: nat, n: nat)
    requires Initial(s) && n <= |steps|
    ensures WithinCap(After(s, steps, n), c)
  {
    hide Next, WithinCap, Initial;
    if n > 0 {
      WithinCapAlways(s, steps, c, n - 1);
      StepWithinCap(After(s, steps, n - 1), steps[n - 1], c);
    } else {
      NothingRunsAtFirst(s, c);
    }
  }

  lemma NothingRunsAtFirst(s: State, c: nat)
    requires Initial(s)
    ensures WithinCap(s, c)
  {
    assert RunningIn(s.enrs, s.jobs, c) == {};
  }

  /** With claims serialised, no campaign ever has more than three running jobs. */
  lemma NeverMoreThanThree(s: State, steps: seq<Step>, c: nat, n: nat)
    requires Initial(s) && n <= |steps|
    ensures |RunningIn(After(s, steps, n).enrs, After(s, steps, n).jobs, c)| <= 3
  {
    hide After, RunningIn, Initial;
    WithinCapAlways(s, steps, c, n);
  }
}
