/** The job queue: claiming with a fair share per campaign, recording failures, requeueing stale jobs. */
module Queue {
  import opened Basics
  import opened Model

  const PER_CAMPAIGN_CAP := 3
  const STALE_RUNNING := 3 * MINUTE

  predicate JobIn(enrs: seq<Enrollment>, job: Job, c: nat) {
    job.enr < |enrs| && enrs[job.enr].campaign == c
  }

  function RunningIn(enrs: seq<Enrollment>, jobs: seq<Job>, c: nat): set<nat> {
    set j: nat | j < |jobs| && jobs[j].status == Running && JobIn(enrs, jobs[j], c)
  }

  predicate AgentMayRun(c: Campaign, a: Agent) { a in c.agents ==> c.agents[a] }

  predicate Eligible(s: State, c: nat, j: nat) {
    j < |s.jobs| && JobIn(s.enrs, s.jobs[j], c) && s.jobs[j].status == Queued && s.jobs[j].runAt <= s.clock
    && AgentMayRun(CampaignOf(s.cfg, c), AgentOf(s.jobs[j].kind))
  }

  function ScoreOf(enrs: seq<Enrollment>, job: Job): int {
    if job.enr < |enrs| && enrs[job.enr].score.Some? then enrs[job.enr].score.value else 0
  }

  /** Claim order: best score, then earliest due, then oldest. The query leaves full ties open; the row number settles
      them here. */
  predicate Before(s: State, a: nat, b: nat)
    requires a < |s.jobs| && b < |s.jobs|
  {
    var x, y := s.jobs[a], s.jobs[b];
    var u, v := ScoreOf(s.enrs, x), ScoreOf(s.enrs, y);
    u > v || (u == v && (x.runAt < y.runAt || (x.runAt == y.runAt
        && (x.createdAt < y.createdAt || (x.createdAt == y.createdAt && a < b)))))
  }

  /** A finite set of jobs has one that precedes all others and one that all others precede. */
  lemma {:induction false} EndsOf(s: State, E: set<nat>) returns (first: nat, last: nat)
    requires E != {} && forall j <- E :: j < |s.jobs|
    ensures first in E && forall k :: k in E && k != first ==> Before(s, first, k)
    ensures last in E && forall k :: k in E && k != last ==> Before(s, k, last)
    decreases |E|
  {
    var x :| x in E;
    first, last := x, x;
    if E != {x} {
      var a, b := EndsOf(s, E - {x});
      assert forall k :: k in E ==> k == x || k in E - {x};
      first := if Before(s, x, a) then x else a;
      last := if Before(s, x, b) then b else x;
    }
  }

  function EligibleSet(s: State, c: nat): set<nat> {
    set j: nat | j < |s.jobs| && Eligible(s, c, j)
  }

  function Ahead(s: State, c: nat, j: nat): set<nat>
    requires j < |s.jobs|
  {
    set k: nat | k < |s.jobs| && Eligible(s, c, k) && Before(s, k, j)
  }

  /** The rows of the claim query: eligible jobs with fewer than `room` eligible jobs ahead of them. */
  function TopRows(s: State, c: nat, room: int): set<nat> {
    set j: nat | j < |s.jobs| && Eligible(s, c, j) && |Ahead(s, c, j)| < room
  }

  function Room(s: State, c: nat): int { PER_CAMPAIGN_CAP - |RunningIn(s.enrs, s.jobs, c)| }

  predicate Served(cfg: Config, filter: Option<nat>, c: nat) {
    c < |cfg.campaigns| && cfg.campaigns[c].status == LiveCampaign && (filter == None || filter == Some(c))
  }

  /** Job j is claimed now. */
  predicate Claimed(s: State, filter: Option<nat>, j: nat)
    requires j < |s.jobs|
  {
    !s.cfg.kill && s.jobs[j].enr < |s.enrs| &&
    var c := s.enrs[s.jobs[j].enr].campaign;
    Served(s.cfg, filter, c) && j in TopRows(s, c, Room(s, c))
  }

  function Started(job: Job, now: int): Job {
    job.(status := Running, startedAt := now, attempts := job.attempts + 1)
  }

  function ClaimJobs(s: State, filter: Option<nat>): State {
    s.(jobs := seq(|s.jobs|, j requires 0 <= j < |s.jobs| => if Claimed(s, filter, j) then Started(s.jobs[j], s.clock)
        else s.jobs[j]))
  }

  function RetryDelay(attempts: nat): int {
    if attempts == 1 then MINUTE / 2 else if attempts == 2 then 2 * MINUTE else 10 * MINUTE
  }

  /** Writes the failure of an attempt whatever the job's status has become since. */
  function RecordFailure(s: State, j: nat, attempts: nat): (r: State)
    requires j < |s.jobs|
    ensures NoNewRunning(s.jobs, r.jobs)
  {
    if attempts < 3 then s.(jobs := s.jobs[j := s.jobs[j].(status := Queued, runAt := s.clock + RetryDelay(attempts))])
    else SetJobStatus(s, j, Failed)
  }

  function RequeueStale(s: State): (r: State)
    ensures NoNewRunning(s.jobs, r.jobs)
  {
    s.(jobs := seq(|s.jobs|, j requires 0 <= j < |s.jobs| =>
      if s.jobs[j].status == Running && s.jobs[j].startedAt < s.clock - STALE_RUNNING then s.jobs[j].(status := Queued)
          else s.jobs[j]))
  }
}
