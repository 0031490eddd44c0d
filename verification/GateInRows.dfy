/** The gate's verdict in terms of the rows it counts, and its quotas over whole runs. */
module GateInRows {
  import opened Basics
  import opened Model
  import opened Gate
  import opened Handlers
  import opened Replies
  import opened Machine
  import opened Wellformed
  import opened Effects
  import opened Outbox
  import opened Deferrals
  import opened Rejections
  import Q = QuotaLocks

  // --- counting row by row ---

  function Code(ch: Channel): nat {
    match ch
    case Email => 0
    case LinkedIn => 1
    case Sms => 2
    case Voice => 3
  }

  function CodeOf(ch: Option<Channel>): Option<nat> { if ch.Some? then Some(Code(ch.value)) else None }

  /** The sent rows as the lock machine commits them. Acknowledgements count for reps only. */
  function SentRows(msgs: seq<Message>, acks: bool): seq<Q.Row> {
    if msgs == [] then []
    else
      var m := msgs[|msgs| - 1];
      SentRows(msgs[..|msgs| - 1], acks)
      + if !m.inbound && m.status == Sent && (acks || !m.isAck) then [Q.Row(m.campaign, Code(m.ch), m.createdAt / DAY)]
        else []
  }

  /** Campaigns whose sends count for rep r. */
  function CountedFor(cfg: Config, r: nat): set<nat> {
    set c: nat | c < |cfg.campaigns| && r in cfg.campaigns[c].reps
  }

  function RowOf(m: Message): Q.Row { Q.Row(m.campaign, Code(m.ch), m.createdAt / DAY) }

  lemma GrowsAtEnd(before: set<nat>, all: set<nat>, n: nat)
    requires n !in before && forall i: nat :: i != n ==> (i in all <==> i in before)
    ensures |all| == |before| + if n in all then 1 else 0
  {
    assert all == before + if n in all then {n} else {};
    assert |before + {n}| == |before| + 1;
  }

  lemma SentOneMore(msgs: seq<Message>, c: nat, ch: Option<Channel>, now: int)
    requires msgs != []
    ensures var m, r := msgs[|msgs| - 1], RowOf(msgs[|msgs| - 1]);
      |SentToday(msgs, c, ch, now)| == |SentToday(msgs[..|msgs| - 1], c, ch, now)|
        + if !m.inbound && m.status == Sent && !m.isAck && r.campaign == c && r.day == now / DAY
             && (CodeOf(ch) == None || CodeOf(ch) == Some(r.ch)) then 1 else 0
  {
    var n := |msgs| - 1;
    GrowsAtEnd(SentToday(msgs[..n], c, ch, now), SentToday(msgs, c, ch, now), n);
  }

  /** The set of rows the cap query counts is as large as the count over committed rows. */
  lemma {:induction false} CapCount(msgs: seq<Message>, c: nat, ch: Option<Channel>, now: int)
    ensures |SentToday(msgs, c, ch, now)| == Q.CountSent(SentRows(msgs, false), c, CodeOf(ch), now / DAY)
  {
    hide Q.CountSent, SentToday;
    if msgs == [] {
      NothingSent(c, ch, now);
    } else {
      var rest := msgs[..|msgs| - 1];
      CapCount(rest, c, ch, now);
      SentOneMore(msgs, c, ch, now);
      Q.CountSentAppend(SentRows(rest, false), RowOf(msgs[|msgs| - 1]), c, CodeOf(ch), now / DAY);
      assert SentRows(rest, false) + [] == SentRows(rest, false);
    }
  }

  lemma NothingSent(c: nat, ch: Option<Channel>, now: int)
    ensures SentToday([], c, ch, now) == {} && Q.CountSent([], c, CodeOf(ch), now / DAY) == 0
  {
  }

  lemma RepOneMore(msgs: seq<Message>, cfg: Config, r: nat, now: int)
    requires msgs != []
    ensures var m, row := msgs[|msgs| - 1], RowOf(msgs[|msgs| - 1]);
      |RepSentToday(msgs, cfg, r, now)| == |RepSentToday(msgs[..|msgs| - 1], cfg, r, now)|
        + if !m.inbound && m.status == Sent && row.campaign in CountedFor(cfg, r) && row.day == now / DAY then 1 else 0
  {
    var n := |msgs| - 1;
    GrowsAtEnd(RepSentToday(msgs[..n], cfg, r, now), RepSentToday(msgs, cfg, r, now), n);
  }

  lemma {:induction false} RepCount(msgs: seq<Message>, cfg: Config, r: nat, now: int)
    ensures |RepSentToday(msgs, cfg, r, now)| == Q.CountRep(SentRows(msgs, true), CountedFor(cfg, r), now / DAY)
  {
    hide Q.CountRep, RepSentToday, CountedFor;
    if msgs == [] {
      NothingSentByRep(cfg, r, now);
    } else {
      var rest := msgs[..|msgs| - 1];
      RepCount(rest, cfg, r, now);
      RepOneMore(msgs, cfg, r, now);
      Q.CountRepAppend(SentRows(rest, true), RowOf(msgs[|msgs| - 1]), CountedFor(cfg, r), now / DAY);
      assert SentRows(rest, true) + [] == SentRows(rest, true);
    }
  }

  lemma NothingSentByRep(cfg: Config, r: nat, now: int)
    ensures RepSentToday([], cfg, r, now) == {} && Q.CountRep([], CountedFor(cfg, r), now / DAY) == 0
  {
  }

  // --- what consent means ---

  /** The gate allows a send, perhaps with a manager. */
  predicate Consents(v: Verdict) { v.dec == Allow || v.dec == NeedsApproval }

  /** Today's rows leave room under the campaign's cap and, where there are limits, the channel's and the rep's. */
  predicate HasRoom(s: State, x: Enrollment, ch: Channel) {
    var c, r, day := CampaignOf(s.cfg, x.campaign), RepIdOf(x, CampaignOf(s.cfg, x.campaign)), s.clock / DAY;
    && Q.CountSent(SentRows(s.msgs, false), x.campaign, None, day) < c.cap
    && (ch in c.chLimit && c.chLimit[ch] != 0 ==>
          Q.CountSent(SentRows(s.msgs, false), x.campaign, Some(Code(ch)), day) < c.chLimit[ch])
    && (r.Some? && RepOf(s.cfg, x).limit != 0 ==>
          Q.CountRep(SentRows(s.msgs, true), CountedFor(s.cfg, r.value), day) < RepOf(s.cfg, x).limit)
  }

  /** The rep an enrollment's quota is taken from: its own, else the campaign's first; without either the gate finds
      nobody active. */
  lemma RepInRows(s: State, x: Enrollment)
    requires x.campaign < |s.cfg.campaigns|
    ensures
      var reps := s.cfg.campaigns[x.campaign].reps;
      var r := RepIdOf(x, CampaignOf(s.cfg, x.campaign));
      && r == (if x.rep.Some? then x.rep else if |reps| > 0 then Some(reps[0]) else None)
      && (r.Some? && r.value < |s.cfg.reps| ==> RepOf(s.cfg, x) == s.cfg.reps[r.value])
      && (r.None? ==> !RepOf(s.cfg, x).active)
  {
  }

  lemma QuotaChecks(s: State, e: nat, ch: Channel, fl: Flags)
    requires e < |s.enrs|
    ensures Passes(s, e, ch, fl, 8) && Passes(s, e, ch, fl, 9)
        <==> RepOf(s.cfg, s.enrs[e]).active && HasRoom(s, s.enrs[e], ch)
    ensures !RepOf(s.cfg, s.enrs[e]).active ==> !Passes(s, e, ch, fl, 8)
  {
    hide Q.CountSent, Q.CountRep, SentToday, RepSentToday, CountedFor, SentRows;
    var x := s.enrs[e];
    var r := RepIdOf(x, CampaignOf(s.cfg, x.campaign));
    CapCount(s.msgs, x.campaign, None, s.clock);
    CapCount(s.msgs, x.campaign, Some(ch), s.clock);
    if r.Some? { RepCount(s.msgs, s.cfg, r.value, s.clock); }
  }

  /** The quotas of the settings, as the lock machine takes them. */
  ghost predicate SameLimits(l: Q.Limits, cfg: Config) {
    && (forall c: nat :: c in l.cap <==> c < |cfg.campaigns|)
    && (forall c: nat :: c < |cfg.campaigns| ==> l.cap[c] == cfg.campaigns[c].cap)
    && (forall c: nat, ch :: (c, Code(ch)) in l.chLimit <==> c < |cfg.campaigns| && ch in cfg.campaigns[c].chLimit)
    && (forall c: nat, ch :: c < |cfg.campaigns| && ch in cfg.campaigns[c].chLimit ==>
          l.chLimit[(c, Code(ch))] == cfg.campaigns[c].chLimit[ch])
    && (forall r: nat :: r in l.repLimit <==> r < |cfg.reps|)
    && (forall r: nat :: r < |cfg.reps| ==> l.repLimit[r] == cfg.reps[r].limit)
    && (forall r: nat :: r < |cfg.reps| ==> r in l.counted && l.counted[r] == CountedFor(cfg, r))
  }

  /** Without acknowledgements among the rows, checks 8 and 9 are what the lock machine asks before it gives consent. */
  lemma QuotasAreTheMachines(s: State, e: nat, ch: Channel, fl: Flags, l: Q.Limits, t: Q.Tx)
    requires e < |s.enrs| && SameLimits(l, s.cfg) && SentRows(s.msgs, true) == SentRows(s.msgs, false)
    requires RepOf(s.cfg, s.enrs[e]).active
    requires t.campaign == s.enrs[e].campaign && t.ch == Code(ch) && t.day == s.clock / DAY
        && t.rep == RepIdOf(s.enrs[e], CampaignOf(s.cfg, s.enrs[e].campaign))
    ensures Passes(s, e, ch, fl, 8) && Passes(s, e, ch, fl, 9) <==> Q.QuotaOk(l, SentRows(s.msgs, false), t)
  {
    hide Q.CountSent, Q.CountRep, CountedFor, SentRows, Passes;
    QuotaChecks(s, e, ch, fl);
  }

  // --- the verdict, row by row ---

  /** Some other campaign's claim on the prospect is active. */
  predicate ClaimedElsewhere(claims: seq<Claim>, x: Enrollment) {
    exists i | 0 <= i < |claims| :: claims[i].status == Active && claims[i].prospect == x.prospect
                                    && claims[i].campaign != x.campaign
  }

  predicate OnTheList(s: State, p: nat) {
    p < |s.prospects|
    && (ByEmail(s.prospects[p].email) in s.suppressed || ByDomain(s.prospects[p].domain) in s.suppressed
        || ByPhone(s.prospects[p].phone) in s.suppressed)
  }

  /** A touch of the prospect is younger than the window, or fourteen days hold four. */
  predicate TouchedTooOften(s: State, p: nat) {
    || (exists r | 0 <= r < |s.msgs| :: TouchRow(s.msgs[r], p) && !s.msgs[r].isAck
                                        && s.msgs[r].createdAt > s.clock - s.window)
    || CountTouches(s.msgs, p, s.clock - 14 * DAY) >= 4
  }

  predicate TouchRow(m: Message, p: nat) { !m.inbound && m.status == Sent && !m.isReply && m.prospect == p }

  function CountTouches(msgs: seq<Message>, p: nat, since: int): nat {
    if msgs == [] then 0
    else
      var m := msgs[|msgs| - 1];
      CountTouches(msgs[..|msgs| - 1], p, since) + if TouchRow(m, p) && m.createdAt > since then 1 else 0
  }

  lemma {:induction false} TouchCount(msgs: seq<Message>, p: nat, since: int)
    ensures |TouchesSince(msgs, p, since)| == CountTouches(msgs, p, since)
  {
    if msgs == [] {
      assert TouchesSince(msgs, p, since) == {};
    } else {
      var n := |msgs| - 1;
      TouchCount(msgs[..n], p, since);
      GrowsAtEnd(TouchesSince(msgs[..n], p, since), TouchesSince(msgs, p, since), n);
    }
  }

  /** Times are positive, as the clock is when a message leaves. */
  predicate Stamped(msgs: seq<Message>) {
    forall r | 0 <= r < |msgs| :: msgs[r].status == Sent ==> msgs[r].createdAt > 0
  }

  lemma FrequencyInRows(s: State, p: nat, fl: Flags)
    requires Stamped(s.msgs)
    ensures FrequencyOk(s, p, fl) <==> fl.reply || fl.sameDay || !TouchedTooOften(s, p)
  {
    TouchCount(s.msgs, p, s.clock - 14 * DAY);
    var last := LastTouch(s.msgs, p);
    hide TouchesSince, CountTouches, LastTouch;
    if last.Some? {
      var r :| 0 <= r < |s.msgs| && IsTouch(s.msgs[r], p) && !s.msgs[r].isAck && s.msgs[r].createdAt == last.value;
      assert TouchRow(s.msgs[r], p);
    }
  }

  lemma SameClaim(claims: seq<Claim>, i: nat, j: nat)
    requires OneActive(claims) && i < |claims| && j < |claims| && claims[i].status == Active
        && claims[j].status == Active
    requires claims[i].prospect == claims[j].prospect
    ensures i == j
  {
  }

  lemma ClaimInRows(s: State, x: Enrollment)
    requires OneActive(s.claims)
    ensures HoldsClaim(s, x) <==> !ClaimedElsewhere(s.claims, x)
  {
    var a := ActiveClaim(s.claims, x.prospect);
    hide ActiveClaim;
    if a.Some? && s.claims[a.value].campaign == x.campaign {
      forall i | 0 <= i < |s.claims| && s.claims[i].status == Active && s.claims[i].prospect == x.prospect
        ensures i == a.value
      {
        SameClaim(s.claims, i, a.value);
      }
    }
  }

  /** A rule of the campaign wants a manager to decide. */
  predicate RuleAsks(s: State, e: nat, ch: Channel, fl: Flags)
    requires e < |s.enrs|
  {
    var rules := CampaignOf(s.cfg, s.enrs[e].campaign).appr;
    !fl.approved &&
    (rules.all || (ch == LinkedIn && s.cfg.assisted) || (ch == Voice && rules.voice)
     || (fl.reply && fl.pricing && rules.reply)
     || (rules.first && !fl.reply
         && forall r | 0 <= r < |s.msgs| :: s.msgs[r].enr == e && s.msgs[r].status == Sent
                                            ==> s.msgs[r].inbound || s.msgs[r].isReply))
  }

  /** The whole verdict in rows: switches hold, a channel that is off moves the touch, the suppression list blocks, a
      claim, the frequency and the quotas defer, and a rule asks a manager. */
  lemma VerdictInRows(s: State, e: nat, ch: Channel, fl: Flags)
    requires e < |s.enrs| && OneActive(s.claims) && Stamped(s.msgs)
    ensures
      var x := s.enrs[e];
      var c := CampaignOf(s.cfg, x.campaign);
      (Evaluate(s, e, ch, fl).dec, Evaluate(s, e, ch, fl).reason) ==
        if s.cfg.kill then (Hold, KillSwitch)
        else if c.status == PausedCampaign then (Hold, CampaignPaused)
        else if c.status != LiveCampaign then (Block, CampaignNotLive)
        else if !(Writer in c.agents && c.agents[Writer]) then (Hold, AgentPaused)
        else if ch !in c.channels || ch in s.cfg.paused then (Replan, ChannelPaused)
        else if OnTheList(s, x.prospect) && !fl.ack then (Block, SuppressedProspect)
        else if ClaimedElsewhere(s.claims, x) && !fl.ack then (Defer, ClaimedByOther)
        else if TouchedTooOften(s, x.prospect) && !fl.reply && !fl.sameDay then (Defer, FrequencyCap)
        else if !RepOf(s.cfg, x).active then (Defer, NoRepAvailable)
        else if !HasRoom(s, x, ch) then (Defer, DailyCap)
        else if RuleAsks(s, e, ch, fl) then (NeedsApproval, ApprovalRule)
        else (Allow, NoReason)
  {
    hide HasRoom, TouchedTooOften, ClaimedElsewhere, FrequencyOk, HoldsClaim, RepOk, CapOk, Stamped, OneActive;
    var x := s.enrs[e];
    FrequencyInRows(s, x.prospect, fl);
    ClaimInRows(s, x);
    QuotaChecks(s, e, ch, fl);
    RuleInRows(s, e, ch, fl);
    hide NeedsManager, RuleAsks;
    assert Passes(s, e, ch, fl, 5) <==> fl.ack || !OnTheList(s, x.prospect);
    hide OnTheList;
  }

  /** A frequency deferral names the window after the newest touch. */
  lemma UntilInRows(s: State, e: nat, ch: Channel, fl: Flags, r: nat)
    requires e < |s.enrs| && Evaluate(s, e, ch, fl).until.Some?
    requires r < |s.msgs| && TouchRow(s.msgs[r], s.enrs[e].prospect) && !s.msgs[r].isAck
    requires forall k :: 0 <= k < |s.msgs| && TouchRow(s.msgs[k], s.enrs[e].prospect) && !s.msgs[k].isAck ==>
      s.msgs[k].createdAt <= s.msgs[r].createdAt
    ensures Evaluate(s, e, ch, fl).until.value == s.msgs[r].createdAt + s.window
  {
    var p := s.enrs[e].prospect;
    var last := LastTouch(s.msgs, p);
    hide LastTouch, Passes, Answer;
    assert IsTouch(s.msgs[r], p);
    var k :| 0 <= k < |s.msgs| && IsTouch(s.msgs[k], p) && !s.msgs[k].isAck && s.msgs[k].createdAt == last.value;
    assert TouchRow(s.msgs[k], p);
  }

  lemma RuleInRows(s: State, e: nat, ch: Channel, fl: Flags)
    requires e < |s.enrs|
    ensures NeedsManager(s, e, s.enrs[e], ch, fl) == RuleAsks(s, e, ch, fl)
  {
  }

  /** Consent means that there was room, whatever else was asked. */
  lemma ConsentHasRoom(s: State, e: nat, ch: Channel, fl: Flags)
    requires e < |s.enrs| && Consents(Evaluate(s, e, ch, fl))
    ensures RepOf(s.cfg, s.enrs[e]).active && HasRoom(s, s.enrs[e], ch)
  {
    hide HasRoom;
    ConsentMeansNinePass(s, e, ch, fl);
    hide Passes, Evaluate;
    QuotaChecks(s, e, ch, fl);
  }

  // --- quotas over runs ---

  /** Today's rows stay within the cap, the channel's and the rep's limit. */
  predicate WithinQuotas(cfg: Config, msgs: seq<Message>, day: int, x: Enrollment, ch: Channel) {
    var c, r := CampaignOf(cfg, x.campaign), RepIdOf(x, CampaignOf(cfg, x.campaign));
    && Q.CountSent(SentRows(msgs, false), x.campaign, None, day) <= c.cap
    && (ch in c.chLimit && c.chLimit[ch] != 0 ==>
          Q.CountSent(SentRows(msgs, false), x.campaign, Some(Code(ch)), day) <= c.chLimit[ch])
    && (r.Some? && RepOf(cfg, x).limit != 0 ==>
          Q.CountRep(SentRows(msgs, true), CountedFor(cfg, r.value), day) <= RepOf(cfg, x).limit)
  }

  /** b is a, but for one row that may be new. */
  predicate OneRowMore(a: seq<Message>, b: seq<Message>, row: nat) {
    |a| <= |b| <= |a| + 1 && row < |b| && forall r | 0 <= r < |b| :: r != row ==> r < |a| && b[r] == a[r]
  }

  lemma AtMostOneMore(a: seq<Message>, b: seq<Message>, row: nat, cfg: Config, now: int)
    requires OneRowMore(a, b, row)
    ensures forall c, ch :: |SentToday(b, c, ch, now)| <= |SentToday(a, c, ch, now)| + 1
    ensures forall r :: |RepSentToday(b, cfg, r, now)| <= |RepSentToday(a, cfg, r, now)| + 1
  {
    forall c, ch ensures |SentToday(b, c, ch, now)| <= |SentToday(a, c, ch, now)| + 1 {
      SubsetSize(SentToday(b, c, ch, now), SentToday(a, c, ch, now) + {row});
    }
    forall r ensures |RepSentToday(b, cfg, r, now)| <= |RepSentToday(a, cfg, r, now)| + 1 {
      SubsetSize(RepSentToday(b, cfg, r, now), RepSentToday(a, cfg, r, now) + {row});
    }
  }

  lemma RoomForOne(s: State, msgs: seq<Message>, row: nat, x: Enrollment, ch: Channel)
    requires HasRoom(s, x, ch) && OneRowMore(s.msgs, msgs, row)
    ensures WithinQuotas(s.cfg, msgs, s.clock / DAY, x, ch)
  {
    hide Q.CountSent, Q.CountRep, SentRows, SentToday, RepSentToday, CountedFor, OneRowMore;
    var r := RepIdOf(x, CampaignOf(s.cfg, x.campaign));
    AtMostOneMore(s.msgs, msgs, row, s.cfg, s.clock);
    CapCount(s.msgs, x.campaign, None, s.clock);
    CapCount(s.msgs, x.campaign, Some(ch), s.clock);
    CapCount(msgs, x.campaign, None, s.clock);
    CapCount(msgs, x.campaign, Some(ch), s.clock);
    if r.Some? {
      RepCount(s.msgs, s.cfg, r.value, s.clock);
      RepCount(msgs, s.cfg, r.value, s.clock);
    }
  }

  lemma EffectWithinQuotas(s: State, t: State, eff: Effect)
    requires MailInv(s) && Does(s, t, eff) && |t.log| > |s.log|
        && t.log[|s.log|].kind in {FullGate, SameDay, GatedReply}
    ensures t.log[|s.log|].row < |t.msgs| && var m := t.msgs[t.log[|s.log|].row];
      m.enr < |s.enrs| && m.createdAt == s.clock && WithinQuotas(s.cfg, t.msgs, s.clock / DAY, s.enrs[m.enr], m.ch)
  {
    hide Evaluate, WithinQuotas, Extends, HasKey, UniqueKeys, OneEventPerRow, UndecidedUnsent;
    match eff {
      case Send(m, kind) =>
        SendHasRoom(s, m, kind);
        RoomForOne(s, t.msgs, |s.msgs|, s.enrs[m.enr], m.ch);
      case Release(a, kind) =>
        var row := s.approvals[a].msg.value;
        ConsentHasRoom(s, s.approvals[a].enr, s.msgs[row].ch, ApprovedFlags(s.msgs[row]));
        RoomForOne(s, t.msgs, row, s.enrs[s.approvals[a].enr], s.msgs[row].ch);
      case _ =>
    }
  }

  lemma SendHasRoom(s: State, m: Message, kind: SendKind)
    requires m.enr < |s.enrs| && Authorised(s, m, kind) && kind in {FullGate, SameDay, GatedReply}
    ensures HasRoom(s, s.enrs[m.enr], m.ch)
  {
    hide Evaluate, HasRoom;
    match kind {
      case FullGate => ConsentHasRoom(s, m.enr, m.ch, TouchFlags(false));
      case SameDay => ConsentHasRoom(s, m.enr, m.ch, TouchFlags(true));
      case GatedReply =>
        var pricing :| Evaluate(s, m.enr, m.ch, Flags(false, true, pricing, false, false)).dec == Allow;
        ConsentHasRoom(s, m.enr, m.ch, Flags(false, true, pricing, false, false));
      case _ =>
    }
  }

  /** Over every run: whenever a gated touch, reply or approved draft leaves, the sends of its campaign on that date,
      its own included, are within the cap and the channel's limit in force, and those counted for its rep within the
      rep's. */
  lemma GatedSendsKeepTheQuotas(s: State, steps: seq<Step>, k: nat)
    requires Initial(s) && k < |steps|
    ensures var t, u := After(s, steps, k), After(s, steps, k + 1);
      forall j :: |t.log| <= j < |u.log| && u.log[j].kind in {FullGate, SameDay, GatedReply} ==>
        u.log[j].row < |u.msgs| && var m := u.msgs[u.log[j].row];
        m.enr < |t.enrs| && WithinQuotas(t.cfg, u.msgs, m.createdAt / DAY, t.enrs[m.enr], m.ch)
  {
    hide Next, MailInv, WithinQuotas, Does, Initial;
    MailInvAlways(s, steps, k);
    var t := After(s, steps, k);
    var u, a, b := StepEffects(t, steps[k]);
    EffectLogs(u, Next(t, steps[k]), b);
    if |Next(t, steps[k]).log| > |t.log| && Next(t, steps[k]).log[|t.log|].kind in {FullGate, SameDay, GatedReply} {
      GatedIsSent(u, Next(t, steps[k]), b);
      EffectWithinQuotas(t, Next(t, steps[k]), b);
    }
  }

  lemma GatedIsSent(s: State, t: State, eff: Effect)
    requires Does(s, t, eff) && |t.log| > |s.log| && t.log[|s.log|].kind in {FullGate, SameDay, GatedReply}
    ensures !eff.Silent? && !eff.Ask? && !(eff.Send? && eff.kind == Call)
  {
    hide Extends, Authorised, MayRelease, HasKey;
  }
}
