/** The policy gate: ten ordered checks between every agent and every send. */
module Gate {
  import opened Basics
  import opened Model

  datatype Decision = Allow | Hold | Block | Replan | Defer | NeedsApproval
  datatype Reason =
    | NoReason | KillSwitch | CampaignPaused | CampaignNotLive | AgentPaused | ChannelPaused | SuppressedProspect
    | ClaimedByOther | FrequencyCap | NoRepAvailable | DailyCap | ApprovalRule
  datatype Flags = Flags(ack: bool, reply: bool, pricing: bool, approved: bool, sameDay: bool)
  datatype Check = Check(n: nat, ok: bool)
  datatype Verdict = Verdict(dec: Decision, reason: Reason, until: Option<int>)

  predicate IsTouch(m: Message, p: nat) {
    m.prospect == p && !m.inbound && m.status == Sent && !m.isReply
  }

  /** Time of the newest touch of the prospect, from any campaign. */
  function LastTouch(msgs: seq<Message>, p: nat): (t: Option<int>)
    ensures t.Some? <==> exists i | 0 <= i < |msgs| :: IsTouch(msgs[i], p) && !msgs[i].isAck
    ensures t.Some? ==> exists i | 0 <= i < |msgs| ::
                        IsTouch(msgs[i], p) && !msgs[i].isAck && msgs[i].createdAt == t.value
    ensures forall i | 0 <= i < |msgs| :: IsTouch(msgs[i], p) && !msgs[i].isAck ==> msgs[i].createdAt <= t.value
  {
    if msgs == [] then None
    else
      var n := |msgs| - 1;
      var rest := LastTouch(msgs[..n], p);
      if !IsTouch(msgs[n], p) || msgs[n].isAck then rest
      else if rest.Some? && rest.value > msgs[n].createdAt then rest
      else Some(msgs[n].createdAt)
  }

  /** Row numbers of the touches of the prospect after time `since`. */
  function TouchesSince(msgs: seq<Message>, p: nat, since: int): set<nat> {
    set i: nat | i < |msgs| && IsTouch(msgs[i], p) && msgs[i].createdAt > since
  }

  predicate SameDate(a: int, b: int) { a / DAY == b / DAY }

  /** Rows counted against a campaign's daily cap, or one channel's limit, on the date of `now`. */
  function SentToday(msgs: seq<Message>, c: nat, ch: Option<Channel>, now: int): set<nat> {
    set i: nat | i < |msgs| && !msgs[i].inbound && msgs[i].status == Sent && !msgs[i].isAck
        && SameDate(msgs[i].createdAt, now)
                 && msgs[i].campaign == c && (ch == None || ch == Some(msgs[i].ch))
  }

  /** Rows counted against a rep: everything sent today in any campaign the rep is assigned to. */
  function RepSentToday(msgs: seq<Message>, cfg: Config, rep: nat, now: int): set<nat> {
    set i: nat | i < |msgs| && !msgs[i].inbound && msgs[i].status == Sent && SameDate(msgs[i].createdAt, now)
                 && rep in CampaignOf(cfg, msgs[i].campaign).reps
  }

  function ActiveClaim(claims: seq<Claim>, p: nat): (r: Option<nat>)
    ensures r.Some? ==> r.value < |claims| && claims[r.value].prospect == p && claims[r.value].status == Active
    ensures r.None? ==> forall i | 0 <= i < |claims| :: !(claims[i].prospect == p && claims[i].status == Active)
  {
    if claims == [] then None
    else
      var n := |claims| - 1;
      if claims[n].prospect == p && claims[n].status == Active then Some(n) else ActiveClaim(claims[..n], p)
  }

  /** The campaign holding the prospect's active claim. */
  function Holder(claims: seq<Claim>, p: nat): Option<nat> {
    var r := ActiveClaim(claims, p);
    if r.Some? then Some(claims[r.value].campaign) else None
  }

  // --- the ten conditions ---

  predicate ChannelOn(s: State, c: Campaign, ch: Channel) { ch in c.channels && ch !in s.cfg.paused }

  predicate WriterOn(c: Campaign) { Writer in c.agents && c.agents[Writer] }

  predicate HoldsClaim(s: State, e: Enrollment) {
    Holder(s.claims, e.prospect) == None || Holder(s.claims, e.prospect) == Some(e.campaign)
  }

  function LastMs(s: State, p: nat): int {
    var t := LastTouch(s.msgs, p);
    if t.Some? then t.value else 0
  }

  predicate FrequencyOk(s: State, p: nat, fl: Flags) {
    fl.reply || fl.sameDay ||
    ((LastMs(s, p) == 0 || s.clock - LastMs(s, p) >= s.window) && |TouchesSince(s.msgs, p, s.clock - 14 * DAY)| < 4)
  }

  predicate RepOk(s: State, e: Enrollment) {
    var rep := RepOf(s.cfg, e);
    var rid := RepIdOf(e, CampaignOf(s.cfg, e.campaign));
    rep.active && (rep.limit == 0 || (rid.Some? ==> |RepSentToday(s.msgs, s.cfg, rid.value, s.clock)| < rep.limit))
  }

  predicate CapOk(s: State, e: Enrollment, ch: Channel) {
    var c := CampaignOf(s.cfg, e.campaign);
    var limit := if ch in c.chLimit then c.chLimit[ch] else 0;
    c.cap > 0 && |SentToday(s.msgs, e.campaign, None, s.clock)| < c.cap
    && (limit == 0 || |SentToday(s.msgs, e.campaign, Some(ch), s.clock)| < limit)
  }

  predicate FirstTouch(s: State, eid: nat) {
    forall i | 0 <= i < |s.msgs| ::
        !(s.msgs[i].enr == eid && !s.msgs[i].inbound && !s.msgs[i].isReply && s.msgs[i].status == Sent)
  }

  predicate NeedsManager(s: State, eid: nat, e: Enrollment, ch: Channel, fl: Flags) {
    var c := CampaignOf(s.cfg, e.campaign);
    !fl.approved &&
    ((ch == LinkedIn && s.cfg.assisted) || c.appr.all || (ch == Voice && c.appr.voice)
     || (c.appr.first && FirstTouch(s, eid) && !fl.reply) || (fl.reply && c.appr.reply && fl.pricing))
  }

  /** Outcome n of the ten checks, in order. */
  predicate Passes(s: State, eid: nat, ch: Channel, fl: Flags, n: nat)
    requires eid < |s.enrs| && 1 <= n <= 10
  {
    var e := s.enrs[eid];
    var c := CampaignOf(s.cfg, e.campaign);
    match n
    case 1 => !s.cfg.kill
    case 2 => c.status == LiveCampaign
    case 3 => WriterOn(c)
    case 4 => ChannelOn(s, c, ch)
    case 5 => fl.ack || !IsSuppressed(e.prospect, s.prospects, s.suppressed)
    case 6 => fl.ack || HoldsClaim(s, e)
    case 7 => FrequencyOk(s, e.prospect, fl)
    case 8 => RepOk(s, e)
    case 9 => CapOk(s, e, ch)
    case _ => !NeedsManager(s, eid, e, ch, fl)
  }

  /** What a failing check n answers when every earlier check passed. */
  function Answer(s: State, eid: nat, n: nat): (Decision, Reason)
    requires eid < |s.enrs| && 1 <= n <= 10
  {
    match n
    case 1 => (Hold, KillSwitch)
    case 2 => if CampaignOf(s.cfg, s.enrs[eid].campaign).status == PausedCampaign then (Hold, CampaignPaused)
        else (Block, CampaignNotLive)
    case 3 => (Hold, AgentPaused)
    case 4 => (Replan, ChannelPaused)
    case 5 => (Block, SuppressedProspect)
    case 6 => (Defer, ClaimedByOther)
    case 7 => (Defer, FrequencyCap)
    case 8 => (Defer, if RepOf(s.cfg, s.enrs[eid]).active then DailyCap else NoRepAvailable)
    case 9 => (Defer, DailyCap)
    case _ => (NeedsApproval, ApprovalRule)
  }

  /** The first failing check at or after n, or 11. */
  function FirstFailing(s: State, eid: nat, ch: Channel, fl: Flags, n: nat): (r: nat)
    requires eid < |s.enrs| && 1 <= n <= 11
    ensures n <= r <= 11
    ensures forall k: nat | n <= k < r :: Passes(s, eid, ch, fl, k)
    ensures r <= 10 ==> !Passes(s, eid, ch, fl, r)
    decreases 11 - n
  {
    if n == 11 then 11
    else if !Passes(s, eid, ch, fl, n) then n
    else FirstFailing(s, eid, ch, fl, n + 1)
  }

  /** The gate's verdict: the answer of the first failing check. */
  function Evaluate(s: State, eid: nat, ch: Channel, fl: Flags): Verdict
    requires eid < |s.enrs|
  {
    var n := FirstFailing(s, eid, ch, fl, 1);
    if n == 11 then Verdict(Allow, NoReason, None)
    else Verdict(Answer(s, eid, n).0, Answer(s, eid, n).1, if n == 7
         then Some(LastMs(s, s.enrs[eid].prospect) + s.window) else None)
  }

  /** "allow" holds exactly when all ten checks pass. */
  lemma AllowIffAllPass(s: State, eid: nat, ch: Channel, fl: Flags)
    requires eid < |s.enrs|
    ensures Evaluate(s, eid, ch, fl).dec == Allow <==> forall n: nat | 1 <= n <= 10 :: Passes(s, eid, ch, fl, n)
  {
  }

  /** The gate allows a send or asks for a manager only after the first nine checks passed. */
  lemma ConsentMeansNinePass(s: State, eid: nat, ch: Channel, fl: Flags)
    requires eid < |s.enrs|
    ensures Evaluate(s, eid, ch, fl).dec in {Allow, NeedsApproval}
        <==> forall n: nat | 1 <= n <= 9 :: Passes(s, eid, ch, fl, n)
  {
  }

  /** A frequency deferral names a time that is still ahead exactly when the last touch is younger than the window. */
  lemma DeferralTime(s: State, eid: nat, ch: Channel, fl: Flags)
    requires eid < |s.enrs|
    ensures var v := Evaluate(s, eid, ch, fl); var p := s.enrs[eid].prospect;
      v.until.Some? <==> v.dec == Defer && v.reason == FrequencyCap
    ensures var v := Evaluate(s, eid, ch, fl); var p := s.enrs[eid].prospect;
      v.until.Some? ==> (v.until.value > s.clock <==> s.clock - LastMs(s, p) < s.window)
    ensures var v := Evaluate(s, eid, ch, fl); var p := s.enrs[eid].prospect;
      v.until.Some? && v.until.value <= s.clock ==> |TouchesSince(s.msgs, p, s.clock - 14 * DAY)| >= 4
  {
  }
}
