/** The few ways a transaction can touch messages, approvals and the send history,
    and the proof that every step is at most two of them, with the gate's consent for every gated send. */
module Effects {
  import opened Basics
  import opened Model
  import opened Gate
  import opened Claims
  import opened Handlers
  import opened Replies
  import opened Machine
  import opened Wellformed

  datatype Effect =
    | Silent
    | Receive(m: Message)                     // an inbound message arrives
    | Park(m: Message, ap: Approval)          // a draft waits for a manager
    | Send(m: Message, kind: SendKind)        // a new message leaves at once
    | Release(a: nat, kind: SendKind)         // the draft of an approval leaves
    | Decided(a: nat, st: ApprovalStatus)     // an approval is decided, nothing leaves
    | Ask(ap: Approval)                       // an approval without a message is opened

  ghost predicate Belongs(enrs: seq<Enrollment>, m: Message) {
    m.enr < |enrs| && m.prospect == enrs[m.enr].prospect && m.campaign == enrs[m.enr].campaign
  }

  /** The authority a new message leaves under. */
  ghost predicate Authorised(s: State, m: Message, kind: SendKind)
    requires m.enr < |s.enrs|
  {
    match kind
    case FullGate => !m.isReply && !m.isAck && Evaluate(s, m.enr, m.ch, TouchFlags(false)).dec == Allow
    case SameDay => !m.isReply && !m.isAck && Evaluate(s, m.enr, m.ch, TouchFlags(true)).dec == Allow
    case GatedReply => m.isReply && !m.isAck && exists pricing: bool ::
        Evaluate(s, m.enr, m.ch, Flags(false, true, pricing, false, false)).dec == Allow
    case Ack => m.isReply && m.isAck
    case ByHuman => m.isReply && !m.isAck
    case Call => !m.isReply && !m.isAck
  }

  /** The draft of approval `a` may leave: the gate, told that a manager approved, does not object. */
  ghost predicate MayRelease(s: State, a: nat, kind: SendKind) {
    && a < |s.approvals| && s.approvals[a].enr < |s.enrs| && s.approvals[a].status == Undecided
    && s.approvals[a].msg.Some? && s.approvals[a].msg.value < |s.msgs|
    && var m := s.msgs[s.approvals[a].msg.value];
    && Evaluate(s, s.approvals[a].enr, m.ch, ApprovedFlags(m)).dec in {Allow, NeedsApproval}
    && kind == if m.isReply then GatedReply else FullGate
  }

  ghost predicate Does(s: State, t: State, eff: Effect) {
    Extends(s, t) &&
    match eff
    case Silent => t.msgs == s.msgs && t.approvals == s.approvals && t.log == s.log
    case Receive(m) =>
      t.clock == s.clock && t.msgs == s.msgs + [m] && t.approvals == s.approvals && t.log == s.log && Belongs(s.enrs, m)
          && m.key == None && m.inbound
    case Park(m, ap) =>
      && t.clock == s.clock && t.msgs == s.msgs + [m] && t.approvals == s.approvals + [ap] && t.log == s.log
          && Belongs(s.enrs, m)
      && m.key == None && !m.inbound && !m.isAck && m.status == AwaitingDecision && ap.enr == m.enr
          && ap.msg == Some(|s.msgs|)
    case Send(m, kind) =>
      && t.clock == s.clock && t.msgs == s.msgs + [m] && t.approvals == s.approvals
          && t.log == s.log + [SendEvent(|s.msgs|, m.prospect, s.clock, kind)]
      && Belongs(s.enrs, m) && !m.inbound && m.status == Sent && m.createdAt == s.clock
      && (m.key.Some? ==> !HasKey(s.msgs, m.key.value)) && Authorised(s, m, kind)
    case Release(a, kind) =>
      && t.clock == s.clock && MayRelease(s, a, kind)
      && var row := s.approvals[a].msg.value;
      && t.msgs == s.msgs[row := s.msgs[row].(status := Sent, createdAt := s.clock)]
      && t.approvals == s.approvals[a := s.approvals[a].(status := Approved)]
      && t.log == s.log + [SendEvent(row, s.msgs[row].prospect, s.clock, kind)]
    case Decided(a, st) =>
      && t.clock == s.clock && a < |s.approvals| && st != Undecided && t.log == s.log
      && t.approvals == s.approvals[a := s.approvals[a].(status := st)]
      && (t.msgs == s.msgs || (st == Declined && s.approvals[a].msg.Some? && s.approvals[a].msg.value < |s.msgs|
          && t.msgs == s.msgs[s.approvals[a].msg.value :=
              s.msgs[s.approvals[a].msg.value].(status := RejectedByManager)]))
    case Ask(ap) =>
      && t.clock == s.clock && t.msgs == s.msgs && t.log == s.log && t.approvals == s.approvals + [ap]
          && ap.enr < |s.enrs| && ap.msg == None
  }

  // --- drafts ---

  /** E-mail is an allowed channel only if check 4 passes for it, so a moved touch is never replanned again. */
  lemma MovedTouchNotReplanned(s: State, e: nat, fl: Flags)
    requires e < |s.enrs| && Allowed(s, s.enrs[e], Email)
    ensures Evaluate(s, e, Email, fl).dec != Replan
  {
  }

  lemma ParkEffect(s: State, j: nat, e: nat, n: nat) returns (eff: Effect)
    requires j < |s.jobs| && e < |s.enrs| && n < |s.enrs[e].plan|
    ensures Does(s, ParkTouch(s, j, e, n), eff) && eff.Park?
  {
    ParkExtends(s, j, e, n);
    var ch := s.enrs[e].plan[n].ch;
    eff := Park(MakeMessage(s, e, ch, false, AwaitingDecision, false, false, Some(n), None),
                Approval(if ch == Voice then VoiceApproval else TouchApproval, e, Undecided, Some(|s.msgs|), Some(n)));
    hide Extends;
  }

  lemma SendStepEffect(s: State, j: nat, e: nat, n: nat, sameDay: bool) returns (eff: Effect)
    requires j < |s.jobs| && e < |s.enrs| && n < |s.enrs[e].plan|
    requires Evaluate(s, e, s.enrs[e].plan[n].ch, TouchFlags(sameDay)).dec == Allow
    ensures Does(s, SendStep(s, j, e, n, if sameDay then SameDay else FullGate), eff)
    ensures eff == Silent || (eff.Send? && eff.kind in {FullGate, SameDay})
  {
    var kind := if sameDay then SameDay else FullGate;
    SendExtends(s, j, e, n, kind);
    var ch := s.enrs[e].plan[n].ch;
    eff := if HasKey(s.msgs, StepKey(e, n, ch)) then Silent
           else Send(MakeMessage(s, e, ch, false, Sent, false, false, Some(n), Some(StepKey(e, n, ch))), kind);
    hide Extends, Evaluate, HasKey;
  }

  lemma ConcludeEffect(s: State, j: nat, e: nat, n: nat, bad: bool, g: Verdict, sameDay: bool) returns (eff: Effect)
    requires j < |s.jobs| && e < |s.enrs| && n < |s.enrs[e].plan|
    requires g.dec != Replan
    requires g.dec == Allow ==> Evaluate(s, e, s.enrs[e].plan[n].ch, TouchFlags(sameDay)).dec == Allow
    ensures Does(s, Conclude(s, j, e, n, bad, g, sameDay), eff) && !eff.Release? && !eff.Decided?
        && (eff.Send? ==> eff.kind in {FullGate, SameDay})
  {
    ConcludeExtends(s, j, e, n, bad, g, sameDay);
    hide Extends, Evaluate, ParkTouch, SendStep;
    if (bad && g.dec != Hold && g.dec != Block && g.dec != Defer) || g.dec == NeedsApproval {
      eff := ParkEffect(s, j, e, n);
    } else if g.dec == Allow {
      eff := SendStepEffect(s, j, e, n, sameDay);
    } else {
      eff := Silent;
    }
  }

  lemma DraftEffect(s: State, j: nat, n: nat, d: DraftOutcome) returns (eff: Effect)
    requires j < |s.jobs| && s.jobs[j].enr < |s.enrs|
    ensures Does(s, DoDraft(s, j, n, d), eff) && !eff.Decided?
  {
    hide Conclude, Extends, Evaluate, Allowed, SameDayDone;
    var e := s.jobs[j].enr;
    var g, h := PlannedVerdict(s, e, n), EmailVerdict(s, e, n);
    DraftExtends(s, j, e, n, d, g, h);
    eff := Silent;
    if n < |s.enrs[e].plan| && !OpenApprovalElsewhere(s.approvals, e, n) && d.Drafted? {
      var st := s.enrs[e].plan[n];
      var sameDay := SameDayDone(s.enrs[e].plan, n);
      if g.dec != Replan {
        eff := ConcludeEffect(s, j, e, n, d.bad, g, sameDay);
      } else if st.ch != Email && Allowed(s, s.enrs[e], Email) {
        MovedTouchNotReplanned(s, e, TouchFlags(sameDay));
        var t := SetStep(s, e, n, st.(ch := Email));
        GateReads(s, t, e, Email, TouchFlags(sameDay));
        eff := ConcludeEffect(t, j, e, n, d.badEmail, h, sameDay);
        MovedEffect(s, t, DoDraft(s, j, n, d), e, n, eff);
      }
    }
  }

  ghost predicate SameToGate(s: State, t: State, e: nat) {
    && e < |s.enrs| && e < |t.enrs| && KeepsMail(s, t) && t.claims == s.claims
    && t.enrs[e].prospect == s.enrs[e].prospect && t.enrs[e].campaign == s.enrs[e].campaign
        && t.enrs[e].rep == s.enrs[e].rep
  }

  lemma CheckReads(s: State, t: State, e: nat, ch: Channel, fl: Flags, n: nat)
    requires SameToGate(s, t, e) && 1 <= n <= 10
    ensures Passes(s, e, ch, fl, n) == Passes(t, e, ch, fl, n) && Answer(s, e, n) == Answer(t, e, n)
  {
    hide IsSuppressed, TouchesSince, RepSentToday, SentToday, WriterOn, LastTouch, Holder;
  }

  lemma FirstFailingReads(s: State, t: State, e: nat, ch: Channel, fl: Flags, n: nat)
    requires SameToGate(s, t, e) && 1 <= n <= 11
    ensures FirstFailing(s, e, ch, fl, n) == FirstFailing(t, e, ch, fl, n)
    decreases 11 - n
  {
    if n < 11 {
      CheckReads(s, t, e, ch, fl, n);
      FirstFailingReads(s, t, e, ch, fl, n + 1);
    }
    hide Passes;
  }

  /** The gate reads an enrollment's prospect, campaign and rep, never its plan or state. */
  lemma GateReads(s: State, t: State, e: nat, ch: Channel, fl: Flags)
    requires SameToGate(s, t, e)
    ensures Evaluate(s, e, ch, fl) == Evaluate(t, e, ch, fl)
  {
    hide Passes, FirstFailing, Answer;
    FirstFailingReads(s, t, e, ch, fl, 1);
    var n := FirstFailing(s, e, ch, fl, 1);
    if n < 11 { CheckReads(s, t, e, ch, fl, n); }
  }

  lemma MovedEffect(s: State, t: State, u: State, e: nat, n: nat, eff: Effect)
    requires e < |s.enrs| && n < |s.enrs[e].plan| && t == SetStep(s, e, n, s.enrs[e].plan[n].(ch := Email))
    requires Extends(s, u) && Does(t, u, eff) && !eff.Release?
    requires eff.Send? ==> eff.kind in {FullGate, SameDay}
    ensures Does(s, u, eff)
  {
    if eff.Send? {
      GateReads(s, t, eff.m.enr, eff.m.ch, TouchFlags(eff.kind == SameDay));
    }
    hide Extends, Evaluate;
  }

  // --- replies ---

  lemma ReplyEffect(s: State, j: nat, pl: ReplyPayload) returns (eff: Effect)
    requires j < |s.jobs| && s.jobs[j].enr < |s.enrs|
    ensures Does(s, SendReply(s, j, pl), eff) && !eff.Decided?
  {
    hide Extends, Evaluate, HasKey;
    var e := s.jobs[j].enr;
    var g := Evaluate(s, e, pl.ch, ReplyFlags(pl));
    ReplyExtends(s, j, e, pl, g);
    var dec := if pl.ack && g.dec in {Block, Defer, Replan} then Allow else g.dec;
    var key := ReplyKey(e, pl.inbound, pl.compose);
    if dec == NeedsApproval {
      eff := Park(MakeMessage(s, e, pl.ch, false, AwaitingDecision, true, false, None, None),
          Approval(ReplyApproval, e, Undecided, Some(|s.msgs|), None));
    } else if dec == Allow && !HasKey(s.msgs, key) {
      eff := Send(MakeMessage(s, e, pl.ch, false, Sent, true, pl.ack, None, Some(key)), if pl.ack then Ack
          else GatedReply);
      if !pl.ack { assert ReplyFlags(pl) == Flags(false, true, pl.pricing, false, false); }
    } else {
      eff := Silent;
    }
  }

  lemma SilentSelf(s: State)
    ensures Does(s, s, Silent)
  {
  }

  lemma ReactEffect(s: State, e: nat, ch: Channel, cls: ReplyClass, inbound: nat, hotCall: bool) returns (eff: Effect)
    requires e < |s.enrs|
    ensures Does(s, React(s, e, ch, cls, inbound, hotCall), eff) && (eff.Ask? || eff.Silent?)
  {
    ReactExtends(s, e, ch, cls, inbound, hotCall);
    hide Extends, OpenVoiceApproval, ReleaseClaim;
    var offers := cls == Positive || (cls == Book && !s.enrs[e].slots);
    eff := if offers && hotCall && !OpenVoiceApproval(s.approvals, e)
        then Ask(Approval(VoiceApproval, e, Undecided, None, None)) else Silent;
  }

  /** The inbound row, then whatever the reply's class brings. */
  lemma IngestEffects(s: State, e: nat, ch: Channel, cls: ReplyClass, hotCall: bool)
      returns (u: State, a: Effect, b: Effect)
    requires e < |s.enrs|
    ensures Does(s, u, a) && Does(u, IngestReply(s, e, ch, cls, hotCall), b) && u.log == s.log && u.clock == s.clock
    ensures !a.Decided? && (b.Ask? || b.Silent?)
  {
    var r := Received(s, e, ch);
    ReceivedExtends(s, e, ch);
    a := Receive(MakeMessage(s, e, ch, true, Sent, false, false, None, None));
    u, b := r, Silent;
    SilentSelf(r);
    if cls != OutOfOffice {
      u := CancelPending(r, e, true);
      b := ReactEffect(u, e, ch, cls, |s.msgs|, hotCall);
    }
    hide Extends, CancelPending, React;
  }

  // --- managers ---

  lemma DecideEffect(s: State, a: nat, st: ApprovalStatus)
    requires a < |s.approvals| && st != Undecided
    ensures Does(s, Decide(s, a, st), Decided(a, st))
  {
  }

  lemma CallEffect(s: State, e: nat, awaiting: bool) returns (eff: Effect)
    requires e < |s.enrs|
    ensures Does(s, CallPlaced(s, e, awaiting), eff) && (eff.Silent? || (eff.Send? && eff.kind == Call))
  {
    CallExtends(s, e, awaiting);
    hide Extends, BookMeeting;
    eff := if awaiting then Silent else Send(MakeMessage(s, e, Voice, false, Sent, false, false, None, None), Call);
  }

  lemma ReleaseEffect(s: State, a: nat, kind: SendKind)
    requires MayRelease(s, a, kind)
    ensures Does(s, ReleaseMessage(s, a, s.approvals[a].enr, s.approvals[a].msg.value), Release(a, kind))
  {
    ReleaseMessageExtends(s, a, s.approvals[a].enr, s.approvals[a].msg.value);
    hide Extends, Evaluate;
  }

  lemma ApproveEffects(s: State, ai: nat, unsupported: bool, edited: bool, awaiting: bool)
      returns (u: State, a: Effect, b: Effect)
    requires ai < |s.approvals| && s.approvals[ai].enr < |s.enrs|
    ensures Does(s, u, a) && Does(u, ApproveItem(s, ai, unsupported, edited, awaiting), b)
    ensures u.log == s.log && u.clock == s.clock && (u == s || b.Silent? || (b.Send? && b.kind == Call))
    ensures (a.Decided? ==> a.st != Declined) && !b.Decided?
  {
    var t := ApproveItem(s, ai, unsupported, edited, awaiting);
    var ap := s.approvals[ai];
    var d := Decide(s, ai, Approved);
    SilentSelf(s);
    u, a, b := s, Silent, Silent;
    if t != s {
      if ap.kind == BorderlineReview {
        DecideEffect(s, ai, Approved);
        QualifyExtends(d, ap.enr);
        u, a := d, Decided(ai, Approved);
      } else if ap.kind == VoiceApproval {
        DecideEffect(s, ai, Approved);
        u, a := d, Decided(ai, Approved);
        b := CallEffect(d, ap.enr, awaiting);
      } else {
        b := Release(ai, if s.msgs[ap.msg.value].isReply then GatedReply else FullGate);
        ReleaseEffect(s, ai, b.kind);
      }
    }
    hide Extends, Evaluate, QualifyOrDefer, QualifyFails, CallPlaced, ReleaseMessage;
  }

  lemma RejectEffect(s: State, a: nat)
    requires a < |s.approvals| && s.approvals[a].enr < |s.enrs|
    ensures Does(s, RejectItem(s, a), Decided(a, Declined))
  {
    RejectExtends(s, a);
    hide Extends, StopProspect;
  }

  // --- every step ---

  lemma RunEffect(s: State, j: nat, w: Work) returns (eff: Effect)
    ensures Does(s, RunOne(s, j, w), eff) && !eff.Decided?
  {
    RunExtends(s, j, w);
    eff := Silent;
    if j < |s.jobs| && s.jobs[j].status == Running && s.jobs[j].enr < |s.enrs| {
      match s.jobs[j].kind {
        case DraftJob(n) => eff := DraftEffect(s, j, n, w.draft);
        case ReplyJob(pl) => eff := ReplyEffect(s, j, pl);
        case QualifyJob => eff := if w.judged.Judged? && w.judged.dec == Review
            then Ask(Approval(BorderlineReview, s.jobs[j].enr, Undecided, None, None)) else Silent;
        case _ =>
      }
    }
    hide Extends, DoDraft, SendReply, QualifyOrDefer, QualifyFails, DispatchDue;
  }

  lemma OtherStepSilent(s: State, step: Step)
    requires !step.RunJob? && !step.Reply? && !step.Approve? && !step.Decline? && !step.Write?
    ensures Does(s, Next(s, step), Silent)
  {
    NextExtends(s, step);
    hide Extends, ScanDue, StopProspect, CancelPending;
  }

  lemma WriteEffect(s: State, e: nat, ch: Channel, closes: bool)
    requires e < |s.enrs|
    ensures Does(s, HumanMessage(s, e, ch, closes),
        Send(MakeMessage(s, e, ch, false, Sent, true, false, None, None), ByHuman))
  {
    NextExtends(s, Write(e, ch, closes));
    hide Extends;
  }

  /** Every step is at most two effects, one after the other, and nothing leaves in the first. */
  lemma StepEffects(s: State, step: Step) returns (u: State, a: Effect, b: Effect)
    ensures Does(s, u, a) && Does(u, Next(s, step), b) && u.log == s.log && u.clock == s.clock
    ensures a.Decided? ==> a.st != Declined
    ensures u == s || b.Silent? || b.Ask? || (b.Send? && b.kind == Call)
    ensures b.Decided? ==> u == s && step == Decline(b.a)
  {
    hide Does, RunOne, IngestReply, ApproveItem, RejectItem, HumanMessage;
    SilentSelf(s);
    u, a, b := s, Silent, Silent;
    match step {
      case RunJob(j, w) => b := RunEffect(s, j, w);
      case Reply(e, ch, cls, hotCall) => if e < |s.enrs| { u, a, b := IngestEffects(s, e, ch, cls, hotCall); }
      case Approve(ai, unsupported, edited, awaiting) =>
        if ai < |s.approvals| && s.approvals[ai].enr < |s.enrs| {
          u, a, b := ApproveEffects(s, ai, unsupported, edited, awaiting);
        }
      case Decline(ai) => if ai < |s.approvals| && s.approvals[ai].enr < |s.enrs| {
        b := Decided(ai, Declined);
        RejectEffect(s, ai);
      }
      case Write(e, ch, closes) =>
        if e < |s.enrs| {
          b := Send(MakeMessage(s, e, ch, false, Sent, true, false, None, None), ByHuman);
          WriteEffect(s, e, ch, closes);
        }
      case _ => OtherStepSilent(s, step);
    }
  }
}
