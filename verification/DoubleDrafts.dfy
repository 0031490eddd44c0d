/** Why a run must not leave a live draft job on a step that is still to be dispatched: when the step comes due, it is
    queued twice. */
module DoubleDrafts {
  import opened Model
  import opened Claims
  import opened Handlers
  import opened Queue
  import opened Machine
  import opened DraftJobs

  /** Dispatch would queue this step for enrollment e as soon as it is due. */
  predicate StartsWhenDue(s: State, e: nat, st: PlanStep)
    requires e < |s.enrs|
  {
    && !Taken(st) && MayQueue(s, e) && (s.enrs[e].state == Contacted ==> |TouchesSent(s.msgs, e)| < 4)
    && (st.cond == Always || HasInbound(s.msgs, e) || (st.cond == IfWarm && s.enrs[e].warm))
  }

  /** Draft job i is alive for step n of enrollment e. */
  predicate DraftAlive(s: State, e: nat, n: nat, i: nat) {
    i < |s.jobs| && Live(s.jobs[i]) && s.jobs[i].enr == e && s.jobs[i].kind == DraftJob(n)
  }

  /** The draft job is alive although its step is due and not dispatched. */
  predicate Doubling(s: State, c: nat, e: nat, n: nat, i: nat) {
    && e < |s.enrs| && s.enrs[e].campaign == c && n < |s.enrs[e].plan| && s.enrs[e].plan[n].due <= s.clock
    && StartsWhenDue(s, e, s.enrs[e].plan[n]) && DraftAlive(s, e, n, i)
  }

  lemma ScanOneLeaves(s: State, k: nat, e: nat)
    requires k < |s.enrs| && e < |s.enrs| && k != e && s.enrs[e].state != Deferred
    ensures var t := ScanOne(s, k); t.enrs[e] == s.enrs[e] && s.jobs <= t.jobs
  {
    hide Exhausted, CancelledPlan, DispatchedPlan, DispatchedJobs;
  }

  lemma ScanOneGrows(s: State, k: nat)
    requires k < |s.enrs|
    ensures s.jobs <= ScanOne(s, k).jobs
  {
    hide Exhausted, CancelledPlan, DispatchedPlan, DispatchedJobs;
  }

  lemma {:induction false} ScanGrows(s: State, c: nat, k: nat)
    requires k <= |s.enrs|
    ensures s.jobs <= ScanFrom(s, c, k).jobs
    decreases |s.enrs| - k
  {
    hide ScanOne, ScanRow;
    if k < |s.enrs| {
      ScanOneGrows(s, k);
      ScanGrows(if ScanRow(s, k, c) then ScanOne(s, k) else s, c, k + 1);
    }
  }

  lemma DoublesStay(a: seq<Job>, b: seq<Job>)
    requires a <= b && !OnePerTouch(a)
    ensures !OnePerTouch(b)
  {
    var i, j :| 0 <= i < j < |a| && Live(a[i]) && Live(a[j]) && SameTouch(a[i], a[j]);
    assert b[i] == a[i] && b[j] == a[j];
  }

  lemma DispatchedTwice(s: State, c: nat, e: nat, n: nat, i: nat)
    requires Doubling(s, c, e, n, i)
    ensures ScanRow(s, e, c) && ScanOne(s, e) == DispatchDue(s, e) && !OnePerTouch(DispatchDue(s, e).jobs)
  {
    hide HasInbound, OpenGateApproval, DispatchedPlan, DispatchedJobs, TouchesSent;
    assert ActionAt(s, e, n) == Dispatch;
    if OnePerTouch(s.jobs) {
      assert StartsAgain(s, e, i);
      DispatchDoubles(s, e);
    } else {
      DoublesStay(s.jobs, DispatchDue(s, e).jobs);
    }
  }

  lemma DoublingStays(s: State, k: nat, c: nat, e: nat, n: nat, i: nat)
    requires Doubling(s, c, e, n, i) && k < e
    ensures Doubling(ScanOne(s, k), c, e, n, i)
  {
    hide ScanOne, HasInbound, OpenGateApproval, TouchesSent;
    ScanOneLeaves(s, k, e);
    assert ScanOne(s, k).jobs[i] == s.jobs[i];
  }

  lemma {:induction false} ScanDoubles(s: State, c: nat, k: nat, e: nat, n: nat, i: nat)
    requires Doubling(s, c, e, n, i) && k <= e
    ensures !OnePerTouch(ScanFrom(s, c, k).jobs)
    decreases e - k
  {
    hide ScanOne, ScanRow, DispatchDue, StartsWhenDue, OnePerTouch;
    if k < e {
      DoublingStays(s, k, c, e, n, i);
      ScanDoubles(if ScanRow(s, k, c) then ScanOne(s, k) else s, c, k + 1, e, n, i);
    } else {
      DispatchedTwice(s, c, e, n, i);
      ScanGrows(ScanOne(s, e), c, e + 1);
      DoublesStay(ScanOne(s, e).jobs, ScanFrom(s, c, e).jobs);
    }
  }

  // --- continuations ---

  lemma Continue(s: State, first: Step, rest: seq<Step>, n: nat)
    requires n <= |rest|
    ensures After(s, [first] + rest, n + 1) == After(Next(s, first), rest, n)
  {
    hide Next;
    var all := [first] + rest;
    if n == 0 {
      assert After(s, all, 0) == s && all[0] == first;
    } else {
      Continue(s, first, rest, n - 1);
      assert all[n] == rest[n - 1];
    }
  }

  /** In a live campaign the next due scan makes a second live draft job. */
  lemma ComesDue(s: State, e: nat, n: nat, i: nat) returns (rest: seq<Step>)
    requires e < |s.enrs| && n < |s.enrs[e].plan| && StartsWhenDue(s, e, s.enrs[e].plan[n]) && DraftAlive(s, e, n, i)
    requires CampaignOf(s.cfg, s.enrs[e].campaign).status == LiveCampaign
    ensures !OnePerTouch(After(s, rest, |rest|).jobs)
  {
    hide HasInbound, OpenGateApproval, TouchesSent, ScanFrom;
    var c, due := s.enrs[e].campaign, s.enrs[e].plan[n].due;
    var ms: nat := if due <= s.clock then 0 else due - s.clock;
    var t := Next(s, Wait(ms));
    assert Doubling(t, c, e, n, i);
    hide Doubling, StartsWhenDue, DraftAlive;
    ScanDoubles(t, c, 0, e, n, i);
    rest := [Wait(ms)] + [Scan(c)];
    Continue(s, Wait(ms), [Scan(c)], 1);
    assert After(t, [Scan(c)], 1) == Next(After(t, [Scan(c)], 0), Scan(c));
  }

  /** A plan that leaves to dispatch a step whose draft job is alive makes two live draft jobs of one touch: at once or
      when due. */
  lemma ReplanningComesDue(s: State, j: nat, w: Work, i: nat) returns (rest: seq<Step>)
    requires j < |s.jobs| && s.jobs[j].kind == PlanJob && s.jobs[j].status == Running && s.jobs[j].enr < |s.enrs|
    requires i < |s.jobs| && Live(s.jobs[i]) && s.jobs[i].enr == s.jobs[j].enr && s.jobs[i].kind.stepNo < |w.plan|
    requires StartsWhenDue(s, s.jobs[j].enr, w.plan[s.jobs[i].kind.stepNo])
    requires CampaignOf(s.cfg, s.enrs[s.jobs[j].enr].campaign).status == LiveCampaign
    ensures !OnePerTouch(After(s, [RunJob(j, w)] + rest, 1 + |rest|).jobs)
  {
    hide HasInbound, OpenGateApproval, TouchesSent, DispatchedJobs, OnePerTouch;
    var e, n := s.jobs[j].enr, s.jobs[i].kind.stepNo;
    var p := SetJobStatus(SetEnr(s, e, s.enrs[e].(plan := w.plan)), j, Finished);
    var t := DispatchDue(p, e);
    assert Next(s, RunJob(j, w)) == t;
    assert t.enrs[e].plan[n] == Acted(w.plan[n], ActionAt(p, e, n)) && t.jobs[i] == s.jobs[i];
    if ActionAt(p, e, n) == Dispatch {
      assert Doubling(p, p.enrs[e].campaign, e, n, i);
      hide DispatchDue, Doubling;
      DispatchedTwice(p, p.enrs[e].campaign, e, n, i);
      rest := [];
    } else {
      assert t.enrs[e].plan[n] == w.plan[n];
      assert StartsWhenDue(t, e, t.enrs[e].plan[n]) && DraftAlive(t, e, n, i);
      hide DispatchDue, StartsWhenDue;
      rest := ComesDue(t, e, n, i);
    }
    Continue(s, RunJob(j, w), rest, |rest|);
  }

  /** A late failure record that reopens a draft job whose step is left to dispatch makes two live draft jobs when the
      step is due. */
  lemma LateFailureComesDue(s: State, j: nat, attempts: nat) returns (rest: seq<Step>)
    requires j < |s.jobs| && s.jobs[j].kind.DraftJob? && !Live(s.jobs[j]) && attempts < 3 && s.jobs[j].enr < |s.enrs|
    requires s.jobs[j].kind.stepNo < |s.enrs[s.jobs[j].enr].plan|
    requires StartsWhenDue(s, s.jobs[j].enr, s.enrs[s.jobs[j].enr].plan[s.jobs[j].kind.stepNo])
    requires CampaignOf(s.cfg, s.enrs[s.jobs[j].enr].campaign).status == LiveCampaign
    ensures !OnePerTouch(After(s, [Fail(j, attempts)] + rest, 1 + |rest|).jobs)
  {
    hide HasInbound, OpenGateApproval, TouchesSent, OnePerTouch;
    var e, n := s.jobs[j].enr, s.jobs[j].kind.stepNo;
    var t := RecordFailure(s, j, attempts);
    assert Next(s, Fail(j, attempts)) == t;
    assert StartsWhenDue(t, e, t.enrs[e].plan[n]) && DraftAlive(t, e, n, j);
    hide StartsWhenDue;
    rest := ComesDue(t, e, n, j);
    Continue(s, Fail(j, attempts), rest, |rest|);
  }
}
