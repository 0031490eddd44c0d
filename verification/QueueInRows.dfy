/** Which jobs the worker starts, and what becomes of failed and stale ones, in terms of the rows. */
module QueueInRows {
  import opened Basics
  import opened Model
  import opened Queue
  import opened FairShare

  /** The score a job is claimed by; an unset score counts as 0. */
  function ScoreIn(enrs: seq<Enrollment>, job: Job): int {
    if job.enr < |enrs| then match enrs[job.enr].score { case Some(n) => n case None => 0 } else 0
  }

  /** Job x is not claimed after y: a higher score, or an earlier due time, or an age that is no younger. */
  predicate NotAfter(enrs: seq<Enrollment>, x: Job, y: Job) {
    var u, v := ScoreIn(enrs, x), ScoreIn(enrs, y);
    u > v || (u == v && x.runAt < y.runAt) || (u == v && x.runAt == y.runAt && x.createdAt <= y.createdAt)
  }

  lemma OrderInRows(s: State, a: nat, b: nat)
    requires a < |s.jobs| && b < |s.jobs| && Before(s, a, b)
    ensures NotAfter(s.enrs, s.jobs[a], s.jobs[b])
  {
  }

  /** The agent that works on a job of this kind. */
  function AgentFor(kind: JobKind): Agent {
    match kind
    case ResearchJob => Researcher
    case QualifyJob => Qualifier
    case PlanJob => Sequencer
    case DraftJob(_) => Writer
    case ReplyJob(_) => Responder
  }

  /** Job j of campaign c is queued, due, and its agent is not switched off. */
  predicate Due(s: State, c: nat, j: nat) {
    && j < |s.jobs| && c < |s.cfg.campaigns| && s.jobs[j].status == Queued && s.jobs[j].runAt <= s.clock
    && s.jobs[j].enr < |s.enrs| && s.enrs[s.jobs[j].enr].campaign == c
    && (AgentFor(s.jobs[j].kind) in s.cfg.campaigns[c].agents ==> s.cfg.campaigns[c].agents[AgentFor(s.jobs[j].kind)])
  }

  /** No kill switch, a live campaign, and it is the one asked for if one is. */
  predicate OpenFor(s: State, filter: Option<nat>, c: nat) {
    && !s.cfg.kill && c < |s.cfg.campaigns| && s.cfg.campaigns[c].status == LiveCampaign
    && (filter.Some? ==> filter.value == c)
  }

  lemma EligibleInRows(s: State, c: nat, j: nat)
    requires c < |s.cfg.campaigns|
    ensures Eligible(s, c, j) == Due(s, c, j)
  {
  }

  /** Job j starts in this claim. */
  predicate Starts(s: State, t: State, j: nat) {
    j < |s.jobs| && j < |t.jobs| && s.jobs[j].status == Queued && t.jobs[j].status == Running
  }

  /** A claim starts only due jobs of served campaigns, counts the attempt, and touches nothing else. */
  lemma ClaimInRows(s: State, filter: Option<nat>, j: nat)
    requires j < |s.jobs|
    ensures
      var t := ClaimJobs(s, filter);
      && t == s.(jobs := t.jobs) && |t.jobs| == |s.jobs|
      && (Starts(s, t, j) ==> s.jobs[j].enr < |s.enrs| && OpenFor(s, filter, s.enrs[s.jobs[j].enr].campaign)
                              && Due(s, s.enrs[s.jobs[j].enr].campaign, j))
      && t.jobs[j] == if Starts(s, t, j)
                      then s.jobs[j].(status := Running, startedAt := s.clock, attempts := s.jobs[j].attempts + 1)
                      else s.jobs[j]
  {
    if s.jobs[j].enr < |s.enrs| && s.enrs[s.jobs[j].enr].campaign < |s.cfg.campaigns| {
      EligibleInRows(s, s.enrs[s.jobs[j].enr].campaign, j);
    }
    hide Ahead, Room;
  }

  /** Nobody is passed over: if one job of a campaign starts and another due one does not, the first is not behind in
      score, due time and age. */
  lemma ClaimsInOrder(s: State, filter: Option<nat>, c: nat, a: nat, b: nat)
    requires var t := ClaimJobs(s, filter); Starts(s, t, a) && !Starts(s, t, b)
    requires s.jobs[a].enr < |s.enrs| && s.enrs[s.jobs[a].enr].campaign == c && Due(s, c, b)
    ensures NotAfter(s.enrs, s.jobs[a], s.jobs[b])
  {
    hide Ahead, Room, TopRows, Before, Eligible, NotAfter;
    TopRowsAreTheTop(s, c, Room(s, c));
    EligibleInRows(s, c, b);
    OrderInRowsIf(s, a, b);
  }

  lemma OrderInRowsIf(s: State, a: nat, b: nat)
    requires a < |s.jobs| && b < |s.jobs|
    ensures Before(s, a, b) ==> NotAfter(s.enrs, s.jobs[a], s.jobs[b])
  {
  }

  /** The rows of the campaign's running jobs. */
  function RunningOf(s: State, c: nat): set<nat> {
    set j: nat | j < |s.jobs| && s.jobs[j].status == Running && s.jobs[j].enr < |s.enrs|
                 && s.enrs[s.jobs[j].enr].campaign == c
  }

  /** No room is wasted: if a due job of a served campaign does not start, three of the campaign run afterwards. */
  lemma LeftOnlyWhenFull(s: State, filter: Option<nat>, c: nat, b: nat)
    requires OpenFor(s, filter, c) && Due(s, c, b) && !Starts(s, ClaimJobs(s, filter), b)
    ensures |RunningOf(ClaimJobs(s, filter), c)| >= 3
  {
    var t, top := ClaimJobs(s, filter), TopRows(s, c, Room(s, c));
    hide Ahead, Eligible;
    EligibleInRows(s, c, b);
    TopRowsAreTheTop(s, c, Room(s, c));
    var run := RunningIn(s.enrs, s.jobs, c);
    forall j | j in run + top ensures j in RunningOf(t, c) {
      if j in top { assert j in EligibleSet(s, c); EligibleInRows(s, c, j); }
    }
    assert run !! top by {
      forall j | j in top ensures j !in run { assert j in EligibleSet(s, c); EligibleInRows(s, c, j); }
    }
    SubsetSize(run + top, RunningOf(t, c));
    assert b in EligibleSet(s, c) && b !in top;
    LessThanAll(top, EligibleSet(s, c), b);
  }

  lemma LessThanAll(a: set<nat>, b: set<nat>, x: nat)
    requires a <= b && x in b && x !in a
    ensures |a| < |b|
  {
    SubsetSize(a, b - {x});
  }

  // --- failures and stale jobs ---

  /** A failed attempt is queued again after half a minute, then two minutes; the third fails for good. The last delay
      would be that of an attempt that was never counted. */
  lemma FailureInRows(s: State, j: nat, attempts: nat)
    requires j < |s.jobs|
    ensures RecordFailure(s, j, attempts) == s.(jobs := s.jobs[j :=
      if attempts >= 3 then s.jobs[j].(status := Failed)
      else s.jobs[j].(status := Queued, runAt := s.clock +
        if attempts == 1 then 30000 else if attempts == 2 then 120000 else 600000)])
  {
  }

  /** A job that has run for more than three minutes is queued again, any other stays. */
  lemma StaleInRows(s: State, j: nat)
    requires j < |s.jobs|
    ensures
      var t := RequeueStale(s);
      && t == s.(jobs := t.jobs) && |t.jobs| == |s.jobs|
      && t.jobs[j] == if s.jobs[j].status == Running && s.clock - s.jobs[j].startedAt > 180000
                      then s.jobs[j].(status := Queued) else s.jobs[j]
  {
  }
}
