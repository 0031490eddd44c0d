/** Opting out is global and lasting. */
module OptOuts {
  import opened Basics
  import opened Model
  import opened Gate
  import opened Claims
  import opened Handlers
  import opened Replies
  import opened Machine
  import opened Wellformed
  import opened Effects
  import opened Outbox

  /** Nothing of the prospect is left to happen: no pending step, no queued draft, no claim, in any campaign. */
  ghost predicate Silenced(s: State, p: nat) {
    && IsSuppressed(p, s.prospects, s.suppressed)
    && (forall i :: 0 <= i < |s.enrs| && s.enrs[i].prospect == p ==> s.enrs[i].state == OptedOut)
    && (forall i, k :: 0 <= i < |s.enrs| && s.enrs[i].prospect == p && 0 <= k < |s.enrs[i].plan|
                       ==> s.enrs[i].plan[k].status != Pending)
    && (forall j :: 0 <= j < |s.jobs| && s.jobs[j].enr < |s.enrs| && s.enrs[s.jobs[j].enr].prospect == p
                    && s.jobs[j].kind.DraftJob?
          ==> s.jobs[j].status != Queued)
    && Holder(s.claims, p) == None
  }

  /** An unsubscribe reply in one campaign silences the prospect in all of them. */
  lemma UnsubscribeSilences(s: State, e: nat, ch: Channel, hotCall: bool)
    requires e < |s.enrs| && s.enrs[e].prospect < |s.prospects|
    ensures Silenced(IngestReply(s, e, ch, Unsubscribe, hotCall), s.enrs[e].prospect)
  {
    var p := s.enrs[e].prospect;
    var t := CancelPending(Received(s, e, ch), e, true);
    assert t.prospects == s.prospects && t.enrs[e].prospect == p && |t.enrs| == |s.enrs|;
    hide CancelPending, Received;
    var o := OptOut(t, p);
    assert Silenced(o, p);
    assert IngestReply(s, e, ch, Unsubscribe, hotCall) == EnqueueReply(o, e, ch, Unsub, |s.msgs|, true, false);
    hide OptOut;
  }

  lemma SuppressionStays(s: State, t: State, p: nat)
    requires Extends(s, t) && IsSuppressed(p, s.prospects, s.suppressed)
    ensures IsSuppressed(p, t.prospects, t.suppressed)
  {
  }

  /** Sends that a suppressed prospect can still receive: an acknowledgement (the opt-out confirmation or the note after
      an escalation), a person's own words, and a voice call a manager approved. */
  predicate Exempt(k: SendKind) { k in {Ack, ByHuman, Call} }

  lemma GateRefusesSuppressed(s: State, e: nat, ch: Channel, fl: Flags)
    requires e < |s.enrs| && IsSuppressed(s.enrs[e].prospect, s.prospects, s.suppressed) && !fl.ack
    ensures Evaluate(s, e, ch, fl).dec !in {Allow, NeedsApproval}
  {
  }

  ghost predicate OnlyExempt(log: seq<SendEvent>, from: nat, p: nat) {
    forall i :: from <= i < |log| && log[i].prospect == p ==> Exempt(log[i].kind)
  }

  lemma EffectSparesSuppressed(s: State, t: State, eff: Effect, p: nat, from: nat)
    requires MailInv(s) && Does(s, t, eff) && IsSuppressed(p, s.prospects, s.suppressed) && from <= |s.log|
        && OnlyExempt(s.log, from, p)
    ensures OnlyExempt(t.log, from, p) && IsSuppressed(p, t.prospects, t.suppressed) && |s.log| <= |t.log|
  {
    SuppressionStays(s, t, p);
    match eff {
      case Send(m, kind) =>
        if m.prospect == p {
          GateRefusesSuppressed(s, m.enr, m.ch, TouchFlags(false));
          GateRefusesSuppressed(s, m.enr, m.ch, TouchFlags(true));
          GateRefusesSuppressed(s, m.enr, m.ch, Flags(false, true, true, false, false));
          GateRefusesSuppressed(s, m.enr, m.ch, Flags(false, true, false, false, false));
        }
      case Release(a, kind) =>
        var m := s.msgs[s.approvals[a].msg.value];
        if m.prospect == p { GateRefusesSuppressed(s, s.approvals[a].enr, m.ch, ApprovedFlags(m)); }
      case _ =>
    }
    hide Evaluate, Extends, IsSuppressed;
  }

  lemma StepSparesSuppressed(s: State, step: Step, p: nat, from: nat)
    requires MailInv(s) && IsSuppressed(p, s.prospects, s.suppressed) && from <= |s.log| && OnlyExempt(s.log, from, p)
    ensures var t := Next(s, step);
      MailInv(t) && IsSuppressed(p, t.prospects, t.suppressed) && from <= |t.log| && OnlyExempt(t.log, from, p)
  {
    var u, a, b := StepEffects(s, step);
    EffectSparesSuppressed(s, u, a, p, from);
    EffectKeepsMailInv(s, u, a);
    EffectSparesSuppressed(u, Next(s, step), b, p, from);
    EffectKeepsMailInv(u, Next(s, step), b);
    hide MailInv, Does, Next, IsSuppressed, OnlyExempt;
  }

  lemma {:induction false} LastingFrom(s: State, steps: seq<Step>, k: nat, n: nat, p: nat)
    requires Initial(s) && k <= n <= |steps|
    requires var t := After(s, steps, k); IsSuppressed(p, t.prospects, t.suppressed)
    ensures var t, u := After(s, steps, k), After(s, steps, n);
      IsSuppressed(p, u.prospects, u.suppressed) && |t.log| <= |u.log| && OnlyExempt(u.log, |t.log|, p)
  {
    hide MailInv, Next, IsSuppressed, Initial;
    if k < n {
      hide OnlyExempt;
      LastingFrom(s, steps, k, n - 1, p);
      MailInvAlways(s, steps, n - 1);
      StepSparesSuppressed(After(s, steps, n - 1), steps[n - 1], p, |After(s, steps, k).log|);
    }
  }

  lemma NextIsIngest(t: State, step: Step)
    requires step.Reply? && step.enr < |t.enrs|
    ensures Next(t, step) == IngestReply(t, step.enr, step.ch, step.cls, step.hotCall)
  {
  }

  /** After an unsubscribe reply at step k the prospect is silenced everywhere, and whatever happens afterwards nothing
      but acknowledgements, a person's own messages and approved voice calls reaches the prospect, from any campaign,
      also one that enrolls the prospect later. */
  lemma {:induction false} OptOutIsGlobalAndLasting(s: State, steps: seq<Step>, k: nat)
    requires Initial(s) && k < |steps| && steps[k].Reply? && steps[k].cls == Unsubscribe
    requires steps[k].enr < |After(s, steps, k).enrs|
        && After(s, steps, k).enrs[steps[k].enr].prospect < |After(s, steps, k).prospects|
    ensures var p := After(s, steps, k).enrs[steps[k].enr].prospect;
      && Silenced(After(s, steps, k + 1), p)
      && forall i :: |After(s, steps, k + 1).log| <= i < |After(s, steps, |steps|).log|
                     && After(s, steps, |steps|).log[i].prospect == p
           ==> Exempt(After(s, steps, |steps|).log[i].kind)
  {
    hide Next, IngestReply, Initial, IsSuppressed;
    var t := After(s, steps, k);
    var p := t.enrs[steps[k].enr].prospect;
    var u := Next(t, steps[k]);
    UnsubscribeSilences(t, steps[k].enr, steps[k].ch, steps[k].hotCall);
    assert After(s, steps, k + 1) == u;
    NextIsIngest(t, steps[k]);
    LastingFrom(s, steps, k + 1, |steps|, p);
  }
}
