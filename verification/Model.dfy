/** The tables of the outreach orchestrator as values: campaigns, enrollments and their plans,
    jobs, messages, contact claims, conflicts, approvals and the suppression list.
    A row's id is its position in its table; rows are never removed. Times are milliseconds. */
module Model {
  import opened Basics

  const HOUR := 3600000
  const DAY := 24 * HOUR
  const MINUTE := 60000

  datatype Channel = Email | LinkedIn | Sms | Voice
  datatype Agent = Researcher | Qualifier | Sequencer | Writer | Responder
  datatype CampaignStatus = DraftCampaign | LiveCampaign | PausedCampaign | ClosedCampaign

  datatype ApprovalRules = ApprovalRules(all: bool, first: bool, voice: bool, reply: bool)

  /** `channels` holds the enabled channels, `agents` the explicit switches, `reps` the active assignments by id. */
  datatype Campaign = Campaign(
    status: CampaignStatus, agents: map<Agent, bool>, channels: set<Channel>, chLimit: map<Channel, int>,
    cap: int, priority: int, customer: bool, appr: ApprovalRules, reps: seq<nat>)

  datatype Rep = Rep(active: bool, limit: int, channels: set<Channel>)

  /** E-mail addresses are kept in lower case, the form in which the suppression query compares them. */
  datatype Prospect = Prospect(email: string, domain: string, phone: string)

  /** What managers may change at any time. `assisted` says that LinkedIn is live and sent by a person. */
  datatype Config = Config(kill: bool, paused: set<Channel>, assisted: bool, campaigns: seq<Campaign>, reps: seq<Rep>)

  datatype EnrState =
    | New | Researched | Borderline | Rejected | Qualified | AwaitingApproval | AwaitingVoice | Deferred | Contacted
    | RepliedPos | RepliedObj | RepliedNotNow | Escalated | OptedOut | MeetingBooked | Stopped

  datatype StepStatus = Pending | Done | Skipped | Cancelled | Blocked
  datatype Condition = Always | IfEngaged | IfWarm

  datatype PlanStep = PlanStep(ch: Channel, day: nat, due: int, status: StepStatus, queued: bool, cond: Condition)

  datatype Enrollment = Enrollment(
    prospect: nat, campaign: nat, state: EnrState, score: Option<int>, plan: seq<PlanStep>,
    rep: Option<nat>, createdAt: int, warm: bool, slots: bool)

  datatype Compose = Unsub | EscalationNote | OfferSlots | Confirm | ObjectionAnswer(sub: nat) | NotNow | AnswerQuestion
  datatype ReplyPayload = ReplyPayload(ch: Channel, compose: Compose, inbound: nat, ack: bool, pricing: bool)

  datatype JobStatus = Queued | Running | Finished | Failed | JobCancelled
  datatype JobKind = ResearchJob | QualifyJob | PlanJob | DraftJob(stepNo: nat) | ReplyJob(reply: ReplyPayload)
  datatype Job = Job(enr: nat, kind: JobKind, status: JobStatus, runAt: int, createdAt: int, startedAt: int,
      attempts: nat)

  datatype Key = StepKey(enr: nat, stepNo: nat, ch: Channel) | ReplyKey(enr: nat, inbound: nat, compose: Compose)
  datatype MsgStatus = Sent | AwaitingDecision | RejectedByManager
  datatype Message = Message(
    enr: nat, prospect: nat, campaign: nat, ch: Channel, inbound: bool, status: MsgStatus, createdAt: int,
    isReply: bool, isAck: bool, stepNo: Option<nat>, key: Option<Key>)

  datatype ClaimStatus = Active | Released | Lost
  datatype Claim = Claim(prospect: nat, campaign: nat, status: ClaimStatus, claimedAt: int)

  datatype ConflictStatus = Open | Logged | Resolved
  datatype Conflict = Conflict(prospect: nat, holder: nat, wanting: nat, winner: Option<nat>, status: ConflictStatus)

  datatype ApprovalKind = BorderlineReview | TouchApproval | VoiceApproval | ReplyApproval
  datatype ApprovalStatus = Undecided | Approved | Declined
  datatype Approval = Approval(kind: ApprovalKind, enr: nat, status: ApprovalStatus, msg: Option<nat>,
      stepNo: Option<nat>)

  datatype Suppression = ByEmail(email: string) | ByDomain(domain: string) | ByPhone(phone: string)

  /** History of sends, newest last: which message row left, to whom, when and on what authority. */
  datatype SendKind = FullGate | SameDay | GatedReply | Ack | ByHuman | Call
  datatype SendEvent = SendEvent(row: nat, prospect: nat, at: int, kind: SendKind)

  datatype State = State(
    clock: int, window: int, prospects: seq<Prospect>, cfg: Config, enrs: seq<Enrollment>, jobs: seq<Job>,
    msgs: seq<Message>, claims: seq<Claim>, conflicts: seq<Conflict>, approvals: seq<Approval>,
    suppressed: set<Suppression>, log: seq<SendEvent>)

  /** A foreign key makes every referenced campaign exist; the closed campaign stands for none. */
  function CampaignOf(cfg: Config, c: nat): Campaign {
    if c < |cfg.campaigns| then cfg.campaigns[c]
    else Campaign(ClosedCampaign, map[], {}, map[], 0, 0, false, ApprovalRules(false, false, false, false), [])
  }

  function AgentOf(kind: JobKind): Agent {
    match kind
    case ResearchJob => Researcher
    case QualifyJob => Qualifier
    case PlanJob => Sequencer
    case DraftJob(_) => Writer
    case ReplyJob(_) => Responder
  }

  /** The enrollment's own rep, else the first active assignment of the campaign. */
  function RepIdOf(e: Enrollment, c: Campaign): Option<nat> {
    if e.rep.Some? then e.rep else if c.reps != [] then Some(c.reps[0]) else None
  }

  function RepOf(cfg: Config, e: Enrollment): Rep {
    var rid := RepIdOf(e, CampaignOf(cfg, e.campaign));
    if rid.Some? && rid.value < |cfg.reps| then cfg.reps[rid.value] else Rep(false, 0, {})
  }

  predicate IsSuppressed(p: nat, prospects: seq<Prospect>, suppressed: set<Suppression>) {
    p < |prospects| &&
    (ByEmail(prospects[p].email) in suppressed || ByDomain(prospects[p].domain) in suppressed
        || ByPhone(prospects[p].phone) in suppressed)
  }

  predicate HasInbound(msgs: seq<Message>, e: nat) {
    exists i | 0 <= i < |msgs| :: msgs[i].enr == e && msgs[i].inbound
  }

  /** An open approval of the enrollment other than a borderline review. */
  predicate OpenGateApproval(approvals: seq<Approval>, e: nat) {
    exists i | 0 <= i < |approvals| ::
      approvals[i].enr == e && approvals[i].status == Undecided && approvals[i].kind != BorderlineReview
  }

  predicate OpenApprovalElsewhere(approvals: seq<Approval>, e: nat, stepNo: nat) {
    exists i | 0 <= i < |approvals| ::
      approvals[i].enr == e && approvals[i].status == Undecided && approvals[i].kind != BorderlineReview
          && approvals[i].stepNo != Some(stepNo)
  }

  predicate HasKey(msgs: seq<Message>, key: Key) {
    exists i | 0 <= i < |msgs| :: msgs[i].key == Some(key)
  }

  /** Clock, configuration, messages, approvals, suppressions and send history are the same in both states. */
  predicate KeepsMail(s: State, t: State) {
    && t.clock == s.clock && t.window == s.window && t.prospects == s.prospects && t.cfg == s.cfg
    && t.msgs == s.msgs && t.approvals == s.approvals && t.suppressed == s.suppressed && t.log == s.log
  }

  /** Every running job of the second table was running in the first. */
  predicate NoNewRunning(a: seq<Job>, b: seq<Job>) {
    forall j :: 0 <= j < |b| && b[j].status == Running ==> j < |a| && a[j].status == Running
  }

  function SetEnr(s: State, e: nat, x: Enrollment): State
    requires e < |s.enrs|
  {
    s.(enrs := s.enrs[e := x])
  }

  function SetState(s: State, e: nat, st: EnrState): State
    requires e < |s.enrs|
  {
    SetEnr(s, e, s.enrs[e].(state := st))
  }

  function SetJobStatus(s: State, j: nat, st: JobStatus): State
    requires j < |s.jobs|
  {
    s.(jobs := s.jobs[j := s.jobs[j].(status := st)])
  }

  function Enqueue(s: State, e: nat, kind: JobKind, due: int): State {
    s.(jobs := s.jobs + [Job(e, kind, Queued, due, s.clock, 0, 0)])
  }

  /** A message row for enrollment `e`, stamped with the transaction's time. */
  function MakeMessage(s: State, e: nat, ch: Channel, inbound: bool, status: MsgStatus, isReply: bool, isAck: bool,
                       stepNo: Option<nat>, key: Option<Key>): Message
    requires e < |s.enrs|
  {
    Message(e, s.enrs[e].prospect, s.enrs[e].campaign, ch, inbound, status, s.clock, isReply, isAck, stepNo, key)
  }

  function AddMessage(s: State, m: Message): State {
    s.(msgs := s.msgs + [m])
  }

  /** Adds a message that leaves at once and records the send. */
  function AddSent(s: State, m: Message, kind: SendKind): State {
    s.(msgs := s.msgs + [m], log := s.log + [SendEvent(|s.msgs|, m.prospect, s.clock, kind)])
  }
}
