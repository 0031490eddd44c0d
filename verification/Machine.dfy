/** Every transaction of the orchestrator as one atomic step, and the runs they make. */
module Machine {
  import opened Basics
  import opened Model
  import opened Handlers
  import opened Replies
  import opened Queue

  /** What agents contribute to a running job; only the part for the job's own kind is read. */
  datatype Work = Work(judged: QualifyOutcome, plan: seq<PlanStep>, draft: DraftOutcome)

  datatype Step =
    | Wait(ms: nat)
    | Enroll(prospect: nat, campaign: nat, rep: Option<nat>)
    | Launch(enr: nat)
    | Reconfigure(cfg: Config)
    | ClaimDue(filter: Option<nat>)
    | RunJob(job: nat, work: Work)
    | Fail(job: nat, attempts: nat)
    | Requeue
    | Scan(campaign: nat)
    | Reply(enr: nat, ch: Channel, cls: ReplyClass, hotCall: bool)
    | Approve(approval: nat, unsupported: bool, edited: bool, awaiting: bool)
    | Decline(approval: nat)
    | Override(conflict: nat, campaign: nat)
    | Stop(enr: nat)
    | EscalateManually(enr: nat)
    | Write(enr: nat, ch: Channel, closes: bool)

  /** `run_one`: a job that is no longer running, or whose row is missing, is left alone. */
  function RunOne(s: State, j: nat, w: Work): (r: State)
    ensures NoNewRunning(s.jobs, r.jobs)
  {
    if j >= |s.jobs| || s.jobs[j].status != Running || s.jobs[j].enr >= |s.enrs| then s
    else
      match s.jobs[j].kind
      case ResearchJob => DoResearch(s, j)
      case QualifyJob => DoQualify(s, j, w.judged)
      case PlanJob => DoPlan(s, j, w.plan)
      case DraftJob(n) => DoDraft(s, j, n, w.draft)
      case ReplyJob(pl) => SendReply(s, j, pl)
  }

  function Next(s: State, step: Step): (r: State)
    ensures !step.ClaimDue? ==> NoNewRunning(s.jobs, r.jobs)
  {
    match step
    case Wait(ms) => s.(clock := s.clock + ms)
    case Enroll(p, c, rep) => EnrollProspect(s, p, c, rep)
    case Launch(e) => if e < |s.enrs| then LaunchOne(s, e) else s
    case Reconfigure(cfg) => s.(cfg := cfg)
    case ClaimDue(filter) => ClaimJobs(s, filter)
    case RunJob(j, w) => RunOne(s, j, w)
    case Fail(j, attempts) => if j < |s.jobs| then RecordFailure(s, j, attempts) else s
    case Requeue => RequeueStale(s)
    case Scan(c) => ScanDue(s, c)
    case Reply(e, ch, cls, hotCall) => if e < |s.enrs| then IngestReply(s, e, ch, cls, hotCall) else s
    case Approve(a, unsupported, edited, awaiting) =>
      if a < |s.approvals| && s.approvals[a].enr < |s.enrs| then ApproveItem(s, a, unsupported, edited, awaiting) else s
    case Decline(a) => if a < |s.approvals| && s.approvals[a].enr < |s.enrs| then RejectItem(s, a) else s
    case Override(x, c) => if x < |s.conflicts| then ResolveConflict(s, x, c) else s
    case Stop(e) => if e < |s.enrs| then StopProspect(s, e) else s
    case EscalateManually(e) => if e < |s.enrs| then EscalateByHand(s, e) else s
    case Write(e, ch, closes) => if e < |s.enrs| then HumanMessage(s, e, ch, closes) else s
  }

  /** The state after the first n steps of a run. */
  function After(s: State, steps: seq<Step>, n: nat): State
    requires n <= |steps|
  {
    if n == 0 then s else Next(After(s, steps, n - 1), steps[n - 1])
  }
}
