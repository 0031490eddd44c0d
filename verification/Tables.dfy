/** The tables as mutable state. `View` is the value the functions on `State` speak about. */
module Tables {
  import opened Model

  class Db {
    var clock: int
    var window: int
    var prospects: seq<Prospect>
    var cfg: Config
    var enrs: seq<Enrollment>
    var jobs: seq<Job>
    var msgs: seq<Message>
    var claims: seq<Claim>
    var conflicts: seq<Conflict>
    var approvals: seq<Approval>
    var suppressed: set<Suppression>
    var log: seq<SendEvent>  // the history of sends, which only the model keeps

    function View(): State
      reads this
    {
      State(clock, window, prospects, cfg, enrs, jobs, msgs, claims, conflicts, approvals, suppressed, log)
    }

    // --- row operations ---

    method SetEnrollment(e: nat, x: Enrollment)
      requires e < |enrs|
      modifies this
      ensures View() == SetEnr(old(View()), e, x)
    {
      enrs := enrs[e := x];
    }

    method MoveTo(e: nat, st: EnrState)
      requires e < |enrs|
      modifies this
      ensures View() == SetState(old(View()), e, st)
    {
      enrs := enrs[e := enrs[e].(state := st)];
    }

    method FinishJob(j: nat, st: JobStatus)
      requires j < |jobs|
      modifies this
      ensures View() == SetJobStatus(old(View()), j, st)
    {
      jobs := jobs[j := jobs[j].(status := st)];
    }

    method AddJob(e: nat, kind: JobKind, due: int)
      modifies this
      ensures View() == Enqueue(old(View()), e, kind, due)
    {
      jobs := jobs + [Job(e, kind, Queued, due, clock, 0, 0)];
    }

    method InsertMessage(m: Message)
      modifies this
      ensures View() == AddMessage(old(View()), m)
    {
      msgs := msgs + [m];
    }

    /** Inserts a message that leaves at once; the history records it. */
    method InsertSent(m: Message, kind: SendKind)
      modifies this
      ensures View() == AddSent(old(View()), m, kind)
    {
      log := log + [SendEvent(|msgs|, m.prospect, clock, kind)];
      msgs := msgs + [m];
    }
  }
}
