/** The gate as it runs: ten checks noted one after the other on a tally. */
module GateRun {
  import opened Basics
  import opened Model
  import opened Gate
  import opened Tables

  /** The gate's running list of checks and its decision so far. */
  class Tally {
    var cks: seq<Check>
    var dec: Decision
    var reason: Reason

    constructor ()
      ensures cks == [] && dec == Allow && reason == NoReason
    {
      cks, dec, reason := [], Allow, NoReason;
    }

    /** The checks so far and the answer of the first of them that failed. */
    ghost predicate Tracks(s: State, e: nat, ch: Channel, fl: Flags, m: nat)
      reads this
    {
      && e < |s.enrs| && |cks| == m <= 10
      && (forall n: nat | 1 <= n <= m :: cks[n - 1] == Check(n, Passes(s, e, ch, fl, n)))
      && var f := FirstFailing(s, e, ch, fl, 1);
      && (dec, reason) == if f <= m then Answer(s, e, f) else (Allow, NoReason)
    }

    /** The decision after m checks, spelled out. */
    lemma SoFar(s: State, e: nat, ch: Channel, fl: Flags, m: nat)
      requires Tracks(s, e, ch, fl, m)
      ensures |cks| == m && forall n: nat | 1 <= n <= m :: cks[n - 1] == Check(n, Passes(s, e, ch, fl, n))
      ensures var f := FirstFailing(s, e, ch, fl, 1);
          (dec, reason) == if f <= m then Answer(s, e, f) else (Allow, NoReason)
      ensures dec == Allow <==> FirstFailing(s, e, ch, fl, 1) > m
    {
    }

    /** Notes check n; the first failure decides. */
    method Add(n: nat, ok: bool, answer: (Decision, Reason), ghost s: State, ghost e: nat, ghost ch: Channel,
        ghost fl: Flags)
      requires 1 <= n <= 10 && Tracks(s, e, ch, fl, n - 1) && ok == Passes(s, e, ch, fl, n) && answer == Answer(s, e, n)
      modifies this
      ensures Tracks(s, e, ch, fl, n)
    {
      hide Passes, FirstFailing;
      cks := cks + [Check(n, ok)];
      if !ok && dec == Allow {
        dec, reason := answer.0, answer.1;
      }
    }
  }

  /** The time a frequency deferral names. */
  function UntilOf(s: State, e: nat, ch: Channel, fl: Flags): Option<int>
    requires e < |s.enrs|
  {
    if FirstFailing(s, e, ch, fl, 1) == 7 then Some(LastMs(s, s.enrs[e].prospect) + s.window) else None
  }

  /** Check 7, and the time of the last touch that a deferral counts from. */
  method CheckFrequency(db: Db, p: nat, fl: Flags) returns (ok: bool, lastMs: int)
    ensures ok == FrequencyOk(db.View(), p, fl) && lastMs == LastMs(db.View(), p)
  {
    var last := LastTouch(db.msgs, p);
    lastMs := if last.Some? then last.value else 0;
    var recent := |TouchesSince(db.msgs, p, db.clock - 14 * DAY)|;
    ok := fl.reply || fl.sameDay || ((lastMs == 0 || db.clock - lastMs >= db.window) && recent < 4);
  }

  /** Check 8. */
  method CheckRep(db: Db, enr: Enrollment) returns (ok: bool, active: bool)
    ensures ok == RepOk(db.View(), enr) && active == RepOf(db.cfg, enr).active
  {
    var rep := RepOf(db.cfg, enr);
    active, ok := rep.active, false;
    if active {
      var rid := RepIdOf(enr, CampaignOf(db.cfg, enr.campaign));
      ok := rep.limit == 0 || rid.None? || |RepSentToday(db.msgs, db.cfg, rid.value, db.clock)| < rep.limit;
    }
  }

  /** Check 9. */
  method CheckCap(db: Db, enr: Enrollment, ch: Channel) returns (ok: bool)
    ensures ok == CapOk(db.View(), enr, ch)
  {
    var c := CampaignOf(db.cfg, enr.campaign);
    var total := |SentToday(db.msgs, enr.campaign, None, db.clock)|;
    var limit := if ch in c.chLimit then c.chLimit[ch] else 0;
    ok := c.cap > 0 && total < c.cap && (limit == 0 || |SentToday(db.msgs, enr.campaign, Some(ch), db.clock)| < limit);
  }

  /** Check 10. */
  method CheckApproval(db: Db, e: nat, ch: Channel, fl: Flags) returns (ok: bool)
    requires e < |db.enrs|
    ensures ok == !NeedsManager(db.View(), e, db.enrs[e], ch, fl)
  {
    var c := CampaignOf(db.cfg, db.enrs[e].campaign);
    var firstTouch := true;
    for i := 0 to |db.msgs|
      invariant firstTouch
          <==> forall k | 0 <= k < i ::
               !(db.msgs[k].enr == e && !db.msgs[k].inbound && !db.msgs[k].isReply && db.msgs[k].status == Sent)
    {
      if db.msgs[i].enr == e && !db.msgs[i].inbound && !db.msgs[i].isReply && db.msgs[i].status == Sent {
        firstTouch := false;
      }
    }
    var need := !fl.approved &&
      ((ch == LinkedIn && db.cfg.assisted) || c.appr.all || (ch == Voice && c.appr.voice)
       || (c.appr.first && firstTouch && !fl.reply) || (fl.reply && c.appr.reply && fl.pricing));
    ok := !need;
  }

  /** Checks 1 to 6. */
  method CheckSwitches(db: Db, e: nat, ch: Channel, fl: Flags, t: Tally)
    requires e < |db.enrs| && t.Tracks(db.View(), e, ch, fl, 0)
    modifies t
    ensures t.Tracks(db.View(), e, ch, fl, 6)
  {
    ghost var s := db.View();
    hide FrequencyOk, RepOk, CapOk, NeedsManager, LastMs, Holder, IsSuppressed, FirstFailing, CampaignOf, RepOf,
        WriterOn, Tally.Tracks;
    var enr := db.enrs[e];
    var c := CampaignOf(db.cfg, enr.campaign);
    t.Add(1, !db.cfg.kill, (Hold, KillSwitch), s, e, ch, fl);
    t.Add(2, c.status == LiveCampaign, if c.status == PausedCampaign then (Hold, CampaignPaused)
        else (Block, CampaignNotLive), s, e, ch, fl);
    t.Add(3, WriterOn(c), (Hold, AgentPaused), s, e, ch, fl);
    t.Add(4, ch in c.channels && ch !in db.cfg.paused, (Replan, ChannelPaused), s, e, ch, fl);
    t.Add(5, fl.ack || !IsSuppressed(enr.prospect, db.prospects, db.suppressed), (Block, SuppressedProspect), s, e, ch,
        fl);
    var holder := Holder(db.claims, enr.prospect);
    t.Add(6, fl.ack || holder == None || holder == Some(enr.campaign), (Defer, ClaimedByOther), s, e, ch, fl);
  }

  /** Check 7; a failure that decides names the time the window ends. */
  method NoteFrequency(db: Db, e: nat, ch: Channel, fl: Flags, t: Tally) returns (until: Option<int>)
    requires e < |db.enrs| && t.Tracks(db.View(), e, ch, fl, 6)
    modifies t
    ensures t.Tracks(db.View(), e, ch, fl, 7) && until == UntilOf(db.View(), e, ch, fl)
  {
    ghost var s := db.View();
    t.SoFar(s, e, ch, fl, 6);
    hide FrequencyOk, RepOk, CapOk, NeedsManager, LastMs, FirstFailing, CampaignOf, RepOf, Tally.Tracks;
    var freqOk, lastMs := CheckFrequency(db, db.enrs[e].prospect, fl);
    assert freqOk == Passes(s, e, ch, fl, 7);
    until := None;
    if !freqOk && t.dec == Allow { until := Some(lastMs + db.window); }
    t.Add(7, freqOk, (Defer, FrequencyCap), s, e, ch, fl);
  }

  /** Checks 8 to 10. */
  method NoteQuotas(db: Db, e: nat, ch: Channel, fl: Flags, t: Tally)
    requires e < |db.enrs| && t.Tracks(db.View(), e, ch, fl, 7)
    modifies t
    ensures t.Tracks(db.View(), e, ch, fl, 10)
  {
    ghost var s := db.View();
    hide FrequencyOk, RepOk, CapOk, NeedsManager, LastMs, FirstFailing, CampaignOf, RepOf, Tally.Tracks;
    var repOk, active := CheckRep(db, db.enrs[e]);
    t.Add(8, repOk, (Defer, if active then DailyCap else NoRepAvailable), s, e, ch, fl);
    var capOk := CheckCap(db, db.enrs[e], ch);
    t.Add(9, capOk, (Defer, DailyCap), s, e, ch, fl);
    var apprOk := CheckApproval(db, e, ch, fl);
    t.Add(10, apprOk, (NeedsApproval, ApprovalRule), s, e, ch, fl);
  }

  /** The ten checks in order; every check is listed, the first failure decides. */
  method RunGate(db: Db, e: nat, ch: Channel, fl: Flags) returns (v: Verdict, cks: seq<Check>)
    requires e < |db.enrs|
    ensures v == Evaluate(db.View(), e, ch, fl)
    ensures |cks| == 10 && forall n: nat | 1 <= n <= 10 :: cks[n - 1] == Check(n, Passes(db.View(), e, ch, fl, n))
  {
    var t := new Tally();
    assert t.Tracks(db.View(), e, ch, fl, 0) by { hide Passes, Answer; }
    hide Passes, Answer, FirstFailing, LastMs;
    CheckSwitches(db, e, ch, fl, t);
    var until := NoteFrequency(db, e, ch, fl, t);
    NoteQuotas(db, e, ch, fl, t);
    v, cks := Verdict(t.dec, t.reason, until), t.cks;
    t.SoFar(db.View(), e, ch, fl, 10);
  }
}
