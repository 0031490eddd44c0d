/** At-most-once writes: across every run, with retries, stale requeues and late failures,
    an idempotency key has one message and a message leaves once. */
module Outbox {
  import opened Basics
  import opened Model
  import opened Gate
  import opened Machine
  import opened Wellformed
  import opened Effects

  ghost predicate MessageRefs(enrs: seq<Enrollment>, msgs: seq<Message>) {
    forall i :: 0 <= i < |msgs| ==>
      msgs[i].enr < |enrs| && msgs[i].prospect == enrs[msgs[i].enr].prospect
          && msgs[i].campaign == enrs[msgs[i].enr].campaign
  }

  ghost predicate UniqueKeys(msgs: seq<Message>) {
    forall i, j :: 0 <= i < j < |msgs| && msgs[i].key.Some? ==> msgs[i].key != msgs[j].key
  }

  /** An approval's message is an unkeyed outbound draft of the same enrollment, and no two approvals share one. */
  ghost predicate ApprovalRefs(enrs: seq<Enrollment>, msgs: seq<Message>, aps: seq<Approval>) {
    && (forall a :: 0 <= a < |aps| ==> aps[a].enr < |enrs|)
    && (forall a :: 0 <= a < |aps| && aps[a].msg.Some? ==>
          aps[a].msg.value < |msgs| && var m := msgs[aps[a].msg.value];
              m.enr == aps[a].enr && m.key == None && !m.inbound && !m.isAck)
    && (forall a, b :: 0 <= a < b < |aps| && aps[a].msg.Some? ==> aps[a].msg != aps[b].msg)
  }

  /** Each send event names its own row, addressed to the event's prospect. */
  ghost predicate OneEventPerRow(msgs: seq<Message>, log: seq<SendEvent>) {
    && (forall i :: 0 <= i < |log| ==> log[i].row < |msgs| && msgs[log[i].row].prospect == log[i].prospect
                                       && !msgs[log[i].row].inbound)
    && (forall i, j :: 0 <= i < j < |log| ==> log[i].row != log[j].row)
  }

  /** An undecided approval's message has not left. */
  ghost predicate UndecidedUnsent(aps: seq<Approval>, log: seq<SendEvent>) {
    forall a, i :: 0 <= a < |aps| && 0 <= i < |log| && aps[a].status == Undecided ==> aps[a].msg != Some(log[i].row)
  }

  ghost predicate MailInv(s: State) {
    && MessageRefs(s.enrs, s.msgs) && UniqueKeys(s.msgs) && ApprovalRefs(s.enrs, s.msgs, s.approvals)
    && OneEventPerRow(s.msgs, s.log) && UndecidedUnsent(s.approvals, s.log)
  }

  lemma EffectKeepsMailInv(s: State, t: State, eff: Effect)
    requires MailInv(s) && Does(s, t, eff)
    ensures MailInv(t)
  {
    hide Evaluate, Authorised, MayRelease;
    assert SameIds(s.enrs, t.enrs);
    match eff {
      case Release(a, kind) => ReleaseKeepsMailInv(s, t, a, kind);
      case Park(m, ap) => ParkKeepsMailInv(s, t, m, ap);
      case Send(m, kind) => SendKeepsMailInv(s, t, m, kind);
      case _ => hide Extends;
    }
  }

  lemma ParkKeepsMailInv(s: State, t: State, m: Message, ap: Approval)
    requires MailInv(s) && Does(s, t, Park(m, ap))
    ensures MailInv(t)
  {
    assert SameIds(s.enrs, t.enrs);
    hide Extends;
  }

  lemma SendKeepsMailInv(s: State, t: State, m: Message, kind: SendKind)
    requires MailInv(s) && Does(s, t, Send(m, kind))
    ensures MailInv(t)
  {
    hide Evaluate, Authorised;
    assert SameIds(s.enrs, t.enrs);
    hide Extends;
  }

  lemma ReleaseKeepsMailInv(s: State, t: State, a: nat, kind: SendKind)
    requires MailInv(s) && Does(s, t, Release(a, kind))
    ensures MailInv(t)
  {
    hide Evaluate;
    assert SameIds(s.enrs, t.enrs);
    hide Extends;
  }

  /** A run starts with enrolled prospects and an otherwise empty desk. */
  ghost predicate Initial(s: State) {
    && s.clock > 0 && s.msgs == [] && s.claims == [] && s.conflicts == [] && s.approvals == [] && s.log == []
    && (forall i :: 0 <= i < |s.enrs| ==> s.enrs[i].state == New && s.enrs[i].plan == [])
    && (forall i, j :: 0 <= i < j < |s.enrs| ==> s.enrs[i].prospect != s.enrs[j].prospect
                                                 || s.enrs[i].campaign != s.enrs[j].campaign)
    && (forall j :: 0 <= j < |s.jobs| ==> s.jobs[j].enr < |s.enrs| && s.jobs[j].status == Queued
                                          && s.jobs[j].kind == ResearchJob)
  }

  lemma StepKeepsMailInv(s: State, step: Step)
    requires MailInv(s)
    ensures MailInv(Next(s, step))
  {
    var u, a, b := StepEffects(s, step);
    EffectKeepsMailInv(s, u, a);
    EffectKeepsMailInv(u, Next(s, step), b);
    hide MailInv, Does, Next;
  }

  lemma {:induction false} MailInvAlways(s: State, steps: seq<Step>, n: nat)
    requires Initial(s) && n <= |steps|
    ensures MailInv(After(s, steps, n))
  {
    if n > 0 {
      MailInvAlways(s, steps, n - 1);
      StepKeepsMailInv(After(s, steps, n - 1), steps[n - 1]);
      hide MailInv, Next;
    }
  }

  /** In every reachable state each idempotency key has at most one message, and each message has left at most once. */
  lemma {:induction false} AtMostOnce(s: State, steps: seq<Step>)
    requires Initial(s)
    ensures var t := After(s, steps, |steps|);
      && (forall i, j :: 0 <= i < j < |t.msgs| && t.msgs[i].key.Some? ==> t.msgs[i].key != t.msgs[j].key)
      && (forall i, j :: 0 <= i < j < |t.log| ==> t.log[i].row != t.log[j].row)
  {
    MailInvAlways(s, steps, |steps|);
    hide Next, After;
  }
}
