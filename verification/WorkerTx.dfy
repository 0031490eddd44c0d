/** The worker: claiming jobs campaign by campaign in rotation, running them, recording failures. */
module WorkerTx {
  import opened Basics
  import opened Model
  import opened Handlers
  import opened Replies
  import opened Queue
  import opened QueueInRows
  import opened Machine
  import opened Tables
  import opened HandlerTx
  import opened ReplyTx

  /** Live campaigns below n in id order, those the filter keeps. */
  function LiveIds(cfg: Config, filter: Option<nat>, n: nat): (ids: seq<nat>)
    requires n <= |cfg.campaigns|
    ensures forall c: nat :: c in ids <==> c < n && Served(cfg, filter, c)
    ensures forall i, j :: 0 <= i < j < |ids| ==> ids[i] != ids[j]
  {
    if n == 0 then []
    else LiveIds(cfg, filter, n - 1) + if Served(cfg, filter, n - 1) then [n - 1] else []
  }

  /** Job j belongs to a campaign in `done`. */
  predicate JobOf(s: State, j: nat, done: set<nat>)
    requires j < |s.jobs|
  {
    s.jobs[j].enr < |s.enrs| && s.enrs[s.jobs[j].enr].campaign in done
  }

  /** The tables after the campaigns in `done` had their turn: exactly their claimed jobs started. */
  ghost predicate TurnsTaken(s: State, t: State, filter: Option<nat>, done: set<nat>) {
    && t == s.(jobs := t.jobs) && |t.jobs| == |s.jobs|
    && forall j :: 0 <= j < |s.jobs| ==> t.jobs[j] == if JobOf(s, j, done) && Claimed(s, filter, j)
                                         then Started(s.jobs[j], s.clock) else s.jobs[j]
  }

  /** The jobs claimed so far. */
  ghost predicate Lists(s: State, claimed: seq<nat>, filter: Option<nat>, done: set<nat>) {
    forall j: nat :: j in claimed <==> j < |s.jobs| && JobOf(s, j, done) && Claimed(s, filter, j)
  }

  /** Other campaigns' turns do not change what this campaign's query answers. */
  lemma QueryUnaffected(s: State, t: State, filter: Option<nat>, done: set<nat>, c: nat)
    requires TurnsTaken(s, t, filter, done) && c !in done
    ensures forall room :: TopRows(t, c, room) == TopRows(s, c, room)
    ensures Room(t, c) == Room(s, c)
  {
    assert forall j: nat :: j < |s.jobs| && JobIn(s.enrs, s.jobs[j], c) ==> t.jobs[j] == s.jobs[j];
    hide Claimed, TurnsTaken;
    assert forall j: nat :: j < |s.jobs| ==> Eligible(s, c, j) == Eligible(t, c, j);
    forall j: nat | j < |s.jobs| && Eligible(s, c, j)
      ensures Ahead(s, c, j) == Ahead(t, c, j)
    {
      assert forall k: nat :: k < |s.jobs| && Eligible(s, c, k) ==> Before(s, k, j) == Before(t, k, j);
    }
    assert RunningIn(s.enrs, s.jobs, c) == RunningIn(t.enrs, t.jobs, c);
    hide Eligible, Before, Ahead;
  }

  lemma TurnAdded(s: State, t: State, u: State, filter: Option<nat>, done: set<nat>, c: nat)
    requires TurnsTaken(s, t, filter, done) && c !in done && Served(s.cfg, filter, c) && !s.cfg.kill
    requires u == t.(jobs := u.jobs) && |u.jobs| == |t.jobs|
    requires forall j :: 0 <= j < |t.jobs| ==> u.jobs[j] == if j in TopRows(s, c, Room(s, c))
                                               then Started(t.jobs[j], t.clock) else t.jobs[j]
    ensures TurnsTaken(s, u, filter, done + {c})
    ensures forall j: nat :: j in TopRows(s, c, Room(s, c))
                             <==> j < |s.jobs| && JobOf(s, j, {c}) && Claimed(s, filter, j)
  {
  }

  lemma AllTurnsTaken(s: State, t: State, filter: Option<nat>, done: set<nat>)
    requires TurnsTaken(s, t, filter, done)
    requires s.cfg.kill || forall c: nat :: Served(s.cfg, filter, c) ==> c in done
    ensures t == ClaimJobs(s, filter)
  {
  }

  ghost predicate InClaimOrder(s: State, claimed: seq<nat>) {
    (forall i :: 0 <= i < |claimed| ==> claimed[i] < |s.jobs|)
        && forall i, k :: 0 <= i < k < |claimed| ==> Before(s, claimed[i], claimed[k])
  }

  lemma NothingInOrder(s: State)
    ensures InClaimOrder(s, [])
  {
  }

  /** Any two rows in the list stand by score, due time and age. */
  ghost predicate ListedByScore(enrs: seq<Enrollment>, jobs: seq<Job>, claimed: seq<nat>) {
    forall i, k :: 0 <= i < k < |claimed| ==>
      claimed[i] < |jobs| && claimed[k] < |jobs| && NotAfter(enrs, jobs[claimed[i]], jobs[claimed[k]])
  }

  lemma ListedInOrder(s: State, claimed: seq<nat>)
    requires InClaimOrder(s, claimed)
    ensures ListedByScore(s.enrs, s.jobs, claimed)
  {
    hide Before, NotAfter;
    forall i, k | 0 <= i < k < |claimed|
      ensures NotAfter(s.enrs, s.jobs[claimed[i]], s.jobs[claimed[k]])
    {
      OrderInRows(s, claimed[i], claimed[k]);
    }
  }

  lemma OneMoreInOrder(s: State, claimed: seq<nat>, j: nat)
    requires InClaimOrder(s, claimed) && j < |s.jobs| && forall k :: k in claimed ==> k < |s.jobs| && Before(s, k, j)
    ensures InClaimOrder(s, claimed + [j])
  {
    hide Before;
    assert forall i :: 0 <= i < |claimed| ==> claimed[i] in claimed;
  }

  /** Starts the given rows, best score first. */
  method StartRows(db: Db, rows: set<nat>) returns (claimed: seq<nat>)
    requires forall j :: j in rows ==> j < |db.jobs|
    modifies db
    ensures db.View() == old(db.View()).(jobs := db.jobs) && |db.jobs| == |old(db.jobs)|
    ensures forall j :: 0 <= j < |db.jobs| ==> db.jobs[j] == if j in rows then Started(old(db.jobs)[j], db.clock)
                                               else old(db.jobs)[j]
    ensures (forall j: nat :: j in claimed <==> j in rows) && InClaimOrder(old(db.View()), claimed)
    ensures ListedByScore(old(db.enrs), old(db.jobs), claimed)
  {
    hide Before, InClaimOrder, ListedByScore;
    var s := db.View();
    NothingInOrder(s);
    claimed := [];
    var left := rows;
    while left != {}
      invariant left <= rows && db.View() == s.(jobs := db.jobs) && |db.jobs| == |s.jobs|
      invariant forall j :: 0 <= j < |db.jobs| ==>
                            db.jobs[j] == if j in rows - left then Started(s.jobs[j], db.clock) else s.jobs[j]
      invariant (forall j: nat :: j in claimed <==> j in rows - left) && InClaimOrder(s, claimed)
      invariant forall j, k :: j in claimed && k in left ==> Before(s, j, k)
      decreases |left|
    {
      ghost var first, last := EndsOf(s, left);
      var j :| j in left && forall k | k in left && k != j :: Before(s, j, k);
      OneMoreInOrder(s, claimed, j);
      db.jobs := db.jobs[j := db.jobs[j].(status := Running, startedAt := db.clock, attempts :=
          db.jobs[j].attempts + 1)];
      claimed := claimed + [j];
      left := left - {j};
    }
    ListedInOrder(s, claimed);
  }

  /** One campaign's turn: room for three running jobs, filled from the top of its own queue. */
  method ClaimCampaign(db: Db, c: nat, ghost s: State, ghost filter: Option<nat>, ghost done: set<nat>)
      returns (claimed: seq<nat>)
    requires TurnsTaken(s, db.View(), filter, done) && c !in done && Served(s.cfg, filter, c) && !s.cfg.kill
    modifies db
    ensures TurnsTaken(s, db.View(), filter, done + {c}) && Lists(s, claimed, filter, {c})
        && InClaimOrder(old(db.View()), claimed)
  {
    ghost var t := db.View();
    QueryUnaffected(s, t, filter, done, c);
    var running := |RunningIn(db.enrs, db.jobs, c)|;
    var room := PER_CAMPAIGN_CAP - running;
    assert room == Room(s, c);
    claimed := [];
    if room <= 0 {
      assert TopRows(s, c, room) == {};
      hide TopRows, TurnsTaken, Claimed;
      TurnAdded(s, t, t, filter, done, c);
    } else {
      var rows := TopRows(db.View(), c, room);
      assert forall j :: j in rows ==> j < |db.jobs|;
      hide TopRows, TurnsTaken, Claimed, Room;
      claimed := StartRows(db, rows);
      TurnAdded(s, t, db.View(), filter, done, c);
    }
  }

  class Worker {
    var rr: nat
    const filter: Option<nat>

    constructor (filter: Option<nat>)
      ensures this.filter == filter && rr == 0
    {
      this.filter, rr := filter, 0;
    }

    /** Each served campaign has its turn, in rotation. What is claimed does not depend on where the rotation stands. */
    method Claim(db: Db) returns (claimed: seq<nat>)
      modifies this, db
      ensures db.View() == ClaimJobs(old(db.View()), filter)
      ensures forall j: nat :: j in claimed <==> j < |old(db.jobs)| && Claimed(old(db.View()), filter, j)
    {
      ghost var s := db.View();
      claimed := [];
      if db.cfg.kill {
        AllTurnsTaken(s, db.View(), filter, {});
        return;
      }
      var live := LiveIds(db.cfg, filter, |db.cfg.campaigns|);
      if live == [] {
        AllTurnsTaken(s, db.View(), filter, {});
        return;
      }
      rr := (rr + 1) % |live|;
      var order := live[rr..] + live[..rr];
      hide Claimed, ClaimJobs;
      ghost var done: set<nat> := {};
      for i := 0 to |order|
        invariant TurnsTaken(s, db.View(), filter, done) && Lists(s, claimed, filter, done)
        invariant forall k :: 0 <= k < |order| ==> (order[k] in done <==> k < i)
      {
        var more := ClaimCampaign(db, order[i], s, filter, done);
        claimed, done := claimed + more, done + {order[i]};
        hide TurnsTaken;
      }
      assert forall c: nat :: c in live ==> c in order;
      AllTurnsTaken(s, db.View(), filter, done);
      assert forall j: nat | j < |s.jobs| && Claimed(s, filter, j) :: JobOf(s, j, done) by {
        ClaimedAreServed(s, filter);
      }
    }
  }

  lemma ClaimedAreServed(s: State, filter: Option<nat>)
    ensures forall j: nat | j < |s.jobs| && Claimed(s, filter, j) ::
        s.jobs[j].enr < |s.enrs| && Served(s.cfg, filter, s.enrs[s.jobs[j].enr].campaign)
  {
  }

  /** `run_one`: a job that is no longer running is left alone. */
  method RunJobNow(db: Db, j: nat, w: Work)
    modifies db
    ensures db.View() == RunOne(old(db.View()), j, w)
  {
    hide DoQualify, DoPlan, DoDraft, SendReply, DoResearch;
    if j >= |db.jobs| || db.jobs[j].status != Running || db.jobs[j].enr >= |db.enrs| { return; }
    match db.jobs[j].kind {
      case ResearchJob => RunResearch(db, j);
      case QualifyJob => RunQualify(db, j, w.judged);
      case PlanJob => RunPlan(db, j, w.plan);
      case DraftJob(n) => RunDraft(db, j, n, w.draft);
      case ReplyJob(pl) => RunReply(db, j, pl);
    }
  }

  /** A failed attempt: queued again with a delay, or failed after the third. */
  method NoteFailure(db: Db, j: nat, attempts: nat)
    requires j < |db.jobs|
    modifies db
    ensures db.View() == RecordFailure(old(db.View()), j, attempts)
  {
    if attempts < 3 {
      db.jobs := db.jobs[j := db.jobs[j].(status := Queued, runAt := db.clock + RetryDelay(attempts))];
    } else {
      db.FinishJob(j, Failed);
    }
  }

  /** What managers do at the desk. */
  method PerformManual(db: Db, step: Step)
    requires step.Approve? || step.Decline? || step.Override? || step.Stop? || step.EscalateManually? || step.Write?
    modifies db
    ensures db.View() == Next(old(db.View()), step)
  {
    hide EnrollProspect, LaunchOne, RunOne, ClaimJobs, ScanDue, IngestReply, RecordFailure, RequeueStale;
    hide ApproveItem, RejectItem, ResolveConflict, StopProspect, EscalateByHand, HumanMessage;
    match step {
      case Approve(a, unsupported, edited, awaiting) =>
        if a < |db.approvals| && db.approvals[a].enr < |db.enrs| { ApproveIt(db, a, unsupported, edited, awaiting); }
      case Decline(a) => if a < |db.approvals| && db.approvals[a].enr < |db.enrs| { RejectIt(db, a); }
      case Override(x, c) => if x < |db.conflicts| { OverrideConflict(db, x, c); }
      case Stop(e) => if e < |db.enrs| { StopEnrollment(db, e); }
      case EscalateManually(e) => if e < |db.enrs| { EscalateEnrollment(db, e); }
      case Write(e, ch, closes) => if e < |db.enrs| { WriteByHand(db, e, ch, closes); }
    }
  }

  /** Every transaction of the program is a step of the machine. */
  method Perform(db: Db, step: Step)
    modifies db
    ensures db.View() == Next(old(db.View()), step)
  {
    hide EnrollProspect, LaunchOne, RunOne, ClaimJobs, ScanDue, IngestReply, RecordFailure, RequeueStale;
    hide ApproveItem, RejectItem, ResolveConflict, StopProspect, EscalateByHand, HumanMessage;
    match step {
      case Wait(ms) => db.clock := db.clock + ms;
      case Enroll(p, c, rep) => EnrollRow(db, p, c, rep);
      case Launch(e) => if e < |db.enrs| { LaunchRow(db, e); }
      case Reconfigure(cfg) => db.cfg := cfg;
      case ClaimDue(filter) =>
        var worker := new Worker(filter);
        var _ := worker.Claim(db);
      case RunJob(j, w) => RunJobNow(db, j, w);
      case Fail(j, attempts) => if j < |db.jobs| { NoteFailure(db, j, attempts); }
      case Requeue => db.jobs := RequeueStale(db.View()).jobs; OnlyJobs(old(db.View()));
      case Scan(c) => ScanCampaign(db, c);
      case Reply(e, ch, cls, hotCall) => if e < |db.enrs| { Ingest(db, e, ch, cls, hotCall); }
      case _ => PerformManual(db, step);
    }
  }

  lemma OnlyJobs(s: State)
    ensures RequeueStale(s) == s.(jobs := RequeueStale(s).jobs)
  {
  }
}
