# Verified model of the outreach orchestrator

Campaigns enroll prospects; a queue of jobs researches, qualifies, plans, drafts and sends; a policy gate stands before every
send; managers approve, reject and override; prospects reply. This project models those transactions in Dafny and proves what
they guarantee together, over every run. It also models the self-contained algorithms beside them.

`dafny verify dfyconfig.toml` checks everything.

## How it is built

**The orchestrator, one transaction at a time.** `Model` holds the tables as values. `Gate`, `Claims`, `Handlers`, `Replies` and
`Queue` say what each transaction makes of them, and `Machine.Next` is one step: time passes, a prospect is enrolled, an
enrollment is launched, settings change, the worker claims, a job runs, a failure is recorded (also late, also for a job that
has ended), stale jobs are requeued, the due scan runs, a reply arrives, a manager decides, a person writes. What the models,
the network and people answer is a parameter of the step and arbitrary. The history `log` notes every message that leaves. Each
transaction reads one `now`, and the clock never goes back.

**The same transactions as they run.** `Tables.Db` holds the tables as fields that methods update. `GateRun`, `ClaimTx`,
`HandlerTx`, `ReplyTx` and `WorkerTx` follow the source's loops and branches on it. Each method ends in exactly the tables that
the functions above give, so the theorems about runs are theorems about these methods (`WorkerTx.Perform`).

**What each transaction does, row by row.** `GateInRows`, `ClaimsInRows`, `HandlersInRows`, `RepliesInRows` and `QueueInRows`
state the outcome of every decision on the rows of the tables, apart from the functions that compute it: when the gate answers
what, who holds a prospect, what becomes of job, step, message and approval, and which jobs start first.

**Theorems over runs.** `Wellformed` (rows keep their identity, tables only grow), `Effects` (every step is at most two effects
on mail, each with the gate's consent where the source asks it), `Outbox`, `Frequency`, `Rejections`, `OptOuts`, `Deferrals`,
`Ladders`, `DraftJobs`, `FairShare`. `DoubleDrafts` shows how a draft comes to be made twice, and `Witnesses` and `FifthTouch`
hold whole runs: some that break a promise where its condition is missing, and one that meets the conditions of the claim
theorems with a claim changing hands.

**The locks.** Quotas and deadlocks are about what happens between the statements of concurrent transactions, so `QuotaLocks` is
a machine of its own: transactions acquire prospect, rep and cap locks one by one, evaluate the quotas on what is committed,
insert, commit or abort, in any interleaving. `QuotaBreaks` builds the schedules that overrun a quota, and `TouchRaces` asks the
same machine about the spacing of touches.

**The algorithms.** `Diff` (prompt comparison), `RateLimiting`, `Windows` and `Markers` (chunking and re-ingest, on top of
`Text`), `Segments` (citations), `Fusion` (ranking), `StringHash`. `Basics` holds what several modules share.

## Where a promise does not hold as stated

* A rejection does not look at the approval's status (backend/orchestrator/replies.py:314-322). Rejecting an item whose touch
  has already left marks that message rejected, and the gate no longer sees it. `Witnesses.TouchTooEarly` is a run in which a
  prospect is touched twice in one window because of it, `FifthTouch.FiveTouches` one with five touches in fourteen days
  although they are spaced. `Frequency.FrequencySafety` is about runs without such rejections, `Rejections.FrequencyExactly`
  says for every run whether it keeps the promise, and `Frequency.LateRejection` which rejection breaks which half of it next.
* Approving a draft takes no prospect lock (backend/orchestrator/replies.py:293-297), while drafting does
  (backend/orchestrator/handlers.py:234). When no claim keeps two campaigns apart, their touches can pass the frequency check
  side by side: `TouchRaces.MeetingDecidesTheSpacing` is the exact condition.
* A failure is recorded whatever the job's status is by then (backend/orchestrator/worker.py:93-98), and a plan is replaced
  whatever drafts are alive (backend/orchestrator/handlers.py:158). `DraftJobs.LateFailure` and `DraftJobs.Replanning` say
  exactly when either makes two live drafts of one touch at once, `DoubleDrafts` when it does so later, and
  `Witnesses.LateFailureDoubles` is a whole run.
* A reply job marked as an acknowledgement goes out also to a suppressed prospect (backend/orchestrator/replies.py:106), so
  after an opt-out a prospect who writes again may get the note about an escalation, not only the opt-out confirmation.
* A released claim is held by nobody, and only one waiting enrollment is woken (backend/conflicts/claims.py:122-132):
  `Deferrals.ReleaseStrandsAllButOne`, and over runs `Deferrals.NoStrandedAlone`.
* Replies take no quota lock (backend/orchestrator/replies.py:156-170). For transactions that do not meet at a prospect,
  `QuotaBreaks.RepliesDecideTheCap` says that the cap is safe exactly without replies. The rep limit needs all counted
  enrollments to resolve to the rep: `QuotaBreaks.RepsDecideTheLimit`.
* A deferral for "4 touches in 14 days" can name a time that is already over (backend/policy/gate.py:101-103):
  `Gate.DeferralTime`.
* An idempotency key contains the channel, and an approved draft is sent without a key (backend/orchestrator/replies.py:300), so
  `Outbox.AtMostOnce` is about keys and rows, not about plan steps.
* An approved voice call does not pass the gate (backend/orchestrator/replies.py:274-287); it is an exception in
  `OptOuts.OptOutIsGlobalAndLasting`.
* The docstring of `resolve_claim` says it runs again inside every send (backend/conflicts/claims.py:81). It is called at
  qualification only, also after a review is approved (backend/orchestrator/handlers.py:128), and the model follows the code.
* The retry table has a third delay of ten minutes (backend/orchestrator/worker.py:25) that is never used, because the third
  failed attempt fails the job.
* An indented marker line survives as content and costs a chunk its id on re-ingest: `Markers.IndentedMarkerIsLost`.
* Case folding that lengthens a character of a body moves the cut of a citation: `Segments.ReadsIffNothingGrows` is the exact
  condition for a folding by characters, `Segments.FoldingCanMoveTheCut` the smallest case.
* The two string hashes need not agree outside the basic plane: `StringHash.AstralAloneDiffers`. Staying inside it is sufficient
  and not necessary: `StringHash.OneAstralHash` is the exact condition for at most one character outside,
  `StringHash.OppositeSignsMeet` a string on which they coincide.

## Model

| member | source | states |
|---|---|---|
| Outbox.AtMostOnce | backend/orchestrator/handlers.py:314-325 | In every reachable state, whatever was retried, requeued or reopened, an idempotency key has at most one message and no message row ever leaves twice. |
| Outbox.MailInvAlways | backend/orchestrator/replies.py:190-200 | Every run keeps: message rows point at their enrollment, keys are unique, an approval owns an unkeyed outbound draft of its own enrollment that no other approval shares, and an undecided approval's message has not left. |
| Effects.StepEffects | backend/orchestrator/handlers.py:222-335 | Every transaction amounts to at most two effects on messages and approvals; a touch, a reply or an approved draft leaves only with the gate's consent in the state it leaves from, and only a rejection declines an approval. |
| Effects.MovedTouchNotReplanned | backend/orchestrator/handlers.py:252-263 | A touch moved to e-mail is never told to move again: e-mail is offered only when the channel check passes for it. |
| Effects.GateReads | backend/policy/gate.py:54-150 | The verdict does not depend on an enrollment's plan or state, so moving a step to e-mail before saving it does not change what the gate says. |
| Frequency.FrequencySafety | backend/policy/gate.py:90-111 | Over every run in which no touch that has left is rejected, a gated touch comes at least the frequency window after every earlier touch of the prospect from any campaign, and any fourteen days hold at most four fully gated touches. |
| Rejections.FrequencyExactly | backend/orchestrator/replies.py:314-322 | Over every run, with whatever rejections: spacing and four in fourteen days hold of the whole history exactly when at every gated touch no rejected touch of the prospect was younger than the window, and fewer than four were recent with the rejected ones. |
| Rejections.KeptExactly | backend/policy/gate.py:90-101 | The same, said with the check itself: they hold exactly when every gated touch also passes the check on the message table in which no touch was rejected. |
| Rejections.CheckReadsHistory | backend/policy/gate.py:90-101 | The check reads message rows. On a table that shows every touch it passes exactly when every touch in the history is a window old and at most three lie in fourteen days. |
| Frequency.FullGatePassedFrequency | backend/policy/gate.py:101-111 | A fully gated touch leaves only in a state where the frequency check passes for its prospect. |
| Frequency.LateRejection | backend/orchestrator/replies.py:314-322 | Rejecting does not look at the status. After a rejection in a state reached without earlier late ones, a touch that the frequency check lets through keeps the spacing exactly when the rejected item was not a touch sent to the same prospect less than a window ago, and keeps four in fourteen days exactly when it was not one of four or more touches of the prospect in fourteen days. |
| Frequency.LateRejectionOpensTheWindow | backend/orchestrator/replies.py:320-322 | When the rejected item is the prospect's only touch and left less than a window ago, the frequency check passes at once and the next gated touch breaks the spacing. |
| Frequency.LateRejectionLetsAFifthThrough | backend/orchestrator/replies.py:320-322 | When the rejected item is one of exactly four touches in fourteen days and the others are older than the window, the frequency check passes and the next gated touch is the fifth. |
| Witnesses.TouchTooEarly | backend/orchestrator/replies.py:314-322 | A run from the start, by approving, sending and rejecting, in which two gated touches reach a prospect within one window. |
| FifthTouch.FiveTouches | backend/orchestrator/replies.py:314-322 | A run from the start, by an approved touch, three calls, two days and the rejection of the touch, that ends with five touches in fourteen days and none of them too early. |
| OptOuts.UnsubscribeSilences | backend/orchestrator/replies.py:93-99 | After an unsubscribe reply every enrollment of the prospect is opted out without pending step or queued draft job, the address is suppressed and no claim is active. |
| RepliesInRows.ReplyInRows | backend/orchestrator/replies.py:91-135 | After a reply that neither opts out nor ends the contact, no step of the enrollment is pending, no draft job of it is queued, its state follows the class, the answer of the class is queued, a hot positive reply asks for a call, and the claims stay. |
| RepliesInRows.EndingReplyInRows | backend/orchestrator/replies.py:107-119 | A refusal or the choice of a slot does the same and gives the claim up. |
| RepliesInRows.OptOutInRows | backend/orchestrator/replies.py:93-99 | An opt-out in rows: every enrollment, step and queued draft of the prospect, the list, all active claims, and the confirmation. |
| RepliesInRows.OutOfOfficeInRows | backend/orchestrator/replies.py:88-90 | An absence note is filed and warms the prospect; plan, jobs and claims stay. |
| OptOuts.OptOutIsGlobalAndLasting | backend/orchestrator/replies.py:91-99 | From then on, over every continuation of the run, nothing reaches the prospect from any campaign, also one that enrolls the prospect later, but acknowledgements, a person's own messages, and approved voice calls. |
| OptOuts.GateRefusesSuppressed | backend/policy/gate.py:84-85 | A suppressed prospect gets neither consent nor an approval request unless the message is an acknowledgement. |
| RepliesInRows.AnswerInRows | backend/orchestrator/replies.py:166-202 | An answer that is held waits a minute, one that is refused ends unless it is an acknowledgement, and the rest waits for a manager or leaves once under its key. |
| RepliesInRows.HeldReplyWaits | backend/orchestrator/replies.py:169-171 | Under the kill switch, a paused campaign or a paused Writer an answer's job is queued for a minute later, an acknowledgement's too. |
| RepliesInRows.ApprovalInRows | backend/orchestrator/replies.py:258-311 | A draft is released exactly when it is undecided, has evidence for its claims or was changed, and the gate does not object; otherwise approving changes nothing. |
| RepliesInRows.UnsupportedIsRefused | backend/orchestrator/replies.py:289-290 | An unedited draft with an unsupported claim is not approved. |
| RepliesInRows.DecidedStays | backend/orchestrator/replies.py:264-265 | Approving a decided item changes nothing. |
| RepliesInRows.ReviewInRows | backend/orchestrator/replies.py:267-273 | An approved review ends in the question who holds the prospect. |
| RepliesInRows.CallInRows | backend/orchestrator/replies.py:274-287 | An approved call is recorded without the gate and ends in a meeting, unless a live call is under way. |
| RepliesInRows.RejectionInRows | backend/orchestrator/replies.py:314-331 | A rejection marks approval and message whatever the status was, and moves the enrollment by the kind of approval. |
| RepliesInRows.EscalationInRows | backend/orchestrator/replies.py:380-385 | Escalating by hand leaves no pending step and no queued draft and keeps the claim. |
| RepliesInRows.StopInRows | backend/orchestrator/replies.py:372-377 | Stopping leaves no pending step and no queued draft and gives the claim up. |
| Deferrals.OneClaimPerProspect | backend/conflicts/claims.py:35-45 | In every reachable state a prospect has at most one active claim, held by a campaign that enrolled the prospect. |
| Deferrals.NoStrandedDeferral | backend/conflicts/claims.py:80-104 | When at most two campaigns enrolled the prospect, at whatever time, every reachable deferred enrollment faces an active claim of the other campaign, across qualification, release, override, opt-out and transfer. |
| Deferrals.NoStrandedAlone | backend/conflicts/claims.py:122-132 | With any number of campaigns: in every run in which a prospect's claim is given up only with at most one enrollment waiting, or by opting out, every deferred enrollment faces another campaign's active claim. |
| Deferrals.ReleaseStrandsAllButOne | backend/conflicts/claims.py:122-132 | With any number of campaigns, giving up a held claim strands nobody exactly when at most one enrollment was waiting: only one is woken, and nobody holds the claim afterwards. |
| ClaimsInRows.ReleaseInRows | backend/conflicts/claims.py:122-132 | Giving up a held claim releases exactly its row and, if enrollments wait, makes one of them qualified with a plan job; without the claim nothing happens. |
| Deferrals.ResolveMoves | backend/conflicts/claims.py:80-104 | Resolution either leaves the claims alone or makes the asking campaign the holder, keeps the claim invariant, never fails on a reachable state, and defers only when another campaign holds the claim. |
| Deferrals.OverrideStep | backend/orchestrator/replies.py:349-369 | A manager's override for one of the two parties makes that campaign the holder, changes no other prospect's holder, and leaves no deferral without a holder to wait for. |
| ClaimsInRows.OverrideInRows | backend/orchestrator/replies.py:349-369 | The override in rows: claims, conflict, the loser's steps, drafts and state, and the winner's state and plan job; everything else stays. |
| Ladders.ResolveIsIdempotent | backend/conflicts/claims.py:80-104 | Resolving the same claim a second time changes nothing and gives the same decision. |
| Ladders.TransferClimbs | backend/conflicts/claims.py:52-68 | A transfer by resolution always goes to a strictly higher (customer, priority, score) rank. |
| ClaimsInRows.ConversationKeepsTheClaim | backend/conflicts/claims.py:55-56 | An inbound message of the holder's enrollment keeps the claim whatever the ranks: the asker waits, and only a conflict may be noted. |
| ClaimsInRows.ClaimMovesExactly | backend/conflicts/claims.py:57-68 | Without a conversation the asker becomes the holder exactly when it ranks higher by customer campaign, priority and score; the old row is lost, one new row is active, and the other campaigns' pending steps are cancelled. A customer campaign that holds is never outranked. |
| ClaimsInRows.ConflictNoted | backend/conflicts/claims.py:71-104 | One conflict is noted per open pair: won by the asker, kept by the holder, or without a winner exactly for equal ranks and a claim as old as the asking enrollment. |
| ClaimsInRows.ResolutionWithoutContest | backend/conflicts/claims.py:82-88 | A suppressed prospect is blocked, a free one is taken by a new row, and the holder's own question changes nothing. |
| Ladders.StepMoves | backend/conflicts/claims.py:80-132 | Every step but a manager's override leaves a prospect's holder, removes it, fills an empty place, or moves it up the ladder. |
| Ladders.LostIsNeverRegained | backend/conflicts/claims.py:52-104 | In runs that set scores once, keep campaign ranks, and neither override nor release, a campaign that lost the claim never holds it again. |
| Ladders.TransfersBounded | backend/conflicts/claims.py:80-104 | Under the same conditions the claim on a prospect whom k campaigns enrolled by the end changes hands at most k - 1 times. |
| Witnesses.ClaimChangesHands | backend/conflicts/claims.py:80-104 | A run from unscored enrollments meets these conditions, and in it the second campaign qualifies with the higher score and takes the claim over. |
| DraftJobs.OneDraftPerTouch | backend/orchestrator/handlers.py:172-311 | As long as no new plan starts over a step whose draft job is alive, and no late failure reopens a draft job whose touch is alive or still to be dispatched, every enrollment and step has at most one queued or running draft job through dispatch, hold, deferral, cancelling, sending, retries and requeues. |
| HandlersInRows.DraftInRows | backend/orchestrator/handlers.py:222-311 | Drafting, case by case, for job, step, messages, approvals and enrollment: an open approval of another step frees the step, a channel that is off moves the touch to e-mail or skips it, and each verdict of the gate has its outcome: hold waits, block and send end the step, defer queues it for the named time, and approval or missing evidence parks it. |
| HandlersInRows.HeldDraftWaits | backend/orchestrator/handlers.py:275-277 | Under the kill switch, a paused campaign or a paused Writer a made draft stays: its job is queued for a minute later and nothing else changes. |
| HandlersInRows.DispatchInRows | backend/orchestrator/handlers.py:172-192 | Dispatch marks and queues exactly the pending, due, unqueued steps that meet their condition while the enrollment is active and no approval is open, in plan order, and skips those that need a warm prospect. |
| HandlersInRows.QualifiedInRows | backend/orchestrator/handlers.py:127-138 | A qualified prospect is stopped if suppressed, waits exactly when another campaign holds and keeps it, and otherwise gets the claim and a plan job. |
| HandlersInRows.QualifyInRows | backend/orchestrator/handlers.py:84-124 | A rule or a poor judgement rejects, a doubtful one asks a manager, a good one goes on to the claim, and the score is kept. |
| HandlersInRows.ScanRowInRows | backend/orchestrator/handlers.py:195-209 | After four touches without a reply an open sequence loses its steps and the claim and stops; any other row is dispatched. |
| DraftJobs.DispatchIsIdempotent | backend/orchestrator/handlers.py:172-192 | Dispatching again at the same instant enqueues nothing and changes nothing. |
| DraftJobs.LateFailure | backend/orchestrator/worker.py:87-98 | A late failure record makes two live draft jobs of one touch at once exactly when it queues again beside a live draft job of the touch. |
| DraftJobs.Replanning | backend/orchestrator/handlers.py:149-169 | Planning makes two live draft jobs of one touch at once exactly when the new plan starts, now, a step whose draft job is alive. |
| DoubleDrafts.ReplanningComesDue | backend/orchestrator/handlers.py:149-192 | In a live campaign, a new plan that leaves to dispatch a step whose draft job is alive makes two live draft jobs of the touch, at once or when the step comes due. |
| DoubleDrafts.LateFailureComesDue | backend/orchestrator/worker.py:87-98 | In a live campaign, a late failure record that reopens a draft job whose step is left to dispatch makes two live draft jobs when the step comes due. |
| Witnesses.LateFailureDoubles | backend/orchestrator/worker.py:87-98 | A run from the start, in which a failure of a deferred draft job is recorded late, that ends with two live draft jobs of one touch. |
| FairShare.TopRowsAreTheTop | backend/orchestrator/worker.py:52-62 | The claim query answers exactly min(room, eligible) jobs of the campaign, and no job left out comes before one taken. |
| QueueInRows.ClaimsInOrder | backend/orchestrator/worker.py:56-62 | If one job of a campaign starts and another queued, due one with its agent enabled does not, the first has the higher score, or the same and an earlier due time, or the same both and is no younger. |
| QueueInRows.ClaimInRows | backend/orchestrator/worker.py:43-66 | A claim starts only queued, due jobs of live campaigns within the filter whose agent is on, counts the attempt, and changes nothing else; the kill switch stops it. |
| QueueInRows.LeftOnlyWhenFull | backend/orchestrator/worker.py:52-55 | A due job of a served campaign is left only if three jobs of the campaign run afterwards. |
| QueueInRows.FailureInRows | backend/orchestrator/worker.py:93-98 | A failed attempt is queued again after half a minute, then after two minutes; the third fails for good. |
| QueueInRows.StaleInRows | backend/orchestrator/worker.py:126 | A job that has run for more than three minutes is queued again, any other stays. |
| FairShare.PauseIsolation | backend/orchestrator/worker.py:45-66 | Two states with the same settings of a campaign and the same jobs of it, in the same order, claim the same of these jobs, whatever other campaigns' status, agents and queues are and wherever in the table the jobs stand. |
| FairShare.ClaimWithinCap | backend/orchestrator/worker.py:52-66 | One claim of the whole worker never lifts a campaign above three running jobs. |
| FairShare.NeverMoreThanThree | backend/orchestrator/worker.py:52-66 | With claims serialised no reachable state has more than three running jobs in a campaign. |
| QuotaLocks.QuotaSafety | backend/policy/gate.py:153-169 | For any number of transactions interleaved lock by lock, with aborts: the sends of a date of a campaign without reply transactions stay within the daily cap and within every non-zero channel limit. A rep's stay within the non-zero rep limit when the campaigns counted for the rep have no reply transactions and all their enrollments resolve to that rep. |
| QuotaLocks.ConsentIsExclusive | backend/policy/gate.py:153-160 | Two transactions that both have the gate's consent never share a campaign or a rep. |
| QuotaLocks.SomeoneCanMove | backend/orchestrator/handlers.py:234-251 | From any unfinished transaction the chain of lock holders ends at one that can take a step other than aborting. |
| QuotaLocks.DeadlockFreedom | backend/core/db.py:78-79 | Every schedule is finite, and while a transaction is unfinished some transaction can take a step other than aborting. |
| QuotaBreaks.AloneItSends | backend/orchestrator/handlers.py:249-251 | A transaction that has quota can send when no other holds a lock, and its row is the only change to the rows. |
| QuotaBreaks.ReplyOverruns | backend/orchestrator/replies.py:156-170 | Without channel and rep limits, among transactions not yet begun: if all but one of a campaign's open slots can be filled by others, a reply and one more transaction that wants no common lock push the campaign over its cap. |
| QuotaBreaks.RepliesDecideTheCap | backend/orchestrator/replies.py:156-170 | For the transactions of a campaign for different prospects, more of them than there is room for: every interleaving keeps the cap exactly when none of them is a reply. |
| QuotaBreaks.RepliesOverrunTheCap | backend/orchestrator/replies.py:156-170 | The smallest case: two replies that both see room for the last slot. |
| QuotaBreaks.RepsDecideTheLimit | backend/policy/gate.py:163-169 | For drafts and approvals of campaigns counted for a rep, more of them than the rep has open slots, with caps that hold them all: every interleaving keeps the rep's limit exactly when each of them resolves to the rep. |
| QuotaBreaks.ForeignRepOverruns | backend/policy/gate.py:163-169 | When others can fill a rep's open slots, a transaction that resolves to another rep sends beyond the limit. |
| QuotaBreaks.ForeignRepOverrunsTheLimit | backend/policy/gate.py:163-169 | The smallest case: one enrollment resolving to another rep pushes a rep over the limit, alone. |
| TouchRaces.MeetingDecidesTheSpacing | backend/orchestrator/replies.py:258-297 | Drafts and approvals with quota, interleaved lock by lock within one window, each passing the frequency check only when its prospect has no committed touch: no schedule touches a prospect twice exactly when any two for one prospect are both drafts, or of one campaign, or of one rep. An approval takes no prospect lock. |
| TouchRaces.BothSend | backend/orchestrator/replies.py:293-297 | Two touches of a prospect that share no lock both pass the check and both send. |
| Gate.AllowIffAllPass | backend/policy/gate.py:64-67 | "allow" is answered exactly when all ten checks pass. |
| Gate.ConsentMeansNinePass | backend/policy/gate.py:64-67 | "allow" or "needs_approval" is answered exactly when the first nine checks pass. |
| Gate.DeferralTime | backend/policy/gate.py:101-103 | Only a frequency deferral names a time. It is ahead exactly when the last touch is younger than the window; when it is not ahead, four touches in fourteen days caused the deferral. |
| Gate.LastTouch | backend/policy/gate.py:90-94 | The latest creation time among the sent non-reply outbound messages of the prospect that are no acknowledgements, or none. |
| Gate.ActiveClaim | backend/conflicts/claims.py:31-32 | An active claim row of the prospect, or none exactly when there is none. |
| GateInRows.VerdictInRows | backend/policy/gate.py:64-150 | The whole verdict, decision and reason, in terms of switches, settings and counted rows: kill switch, paused campaign and Writer hold, a channel that is off moves the touch, the suppression list blocks, another claim, the frequency and the quotas defer, and a rule asks a manager, in this order. |
| GateInRows.ConsentHasRoom | backend/policy/gate.py:113-130 | Whenever the gate consents, the rep is active and the rows sent today, counted one by one, are fewer than the campaign's cap, than a non-zero channel limit and than a non-zero rep limit. |
| GateInRows.GatedSendsKeepTheQuotas | backend/policy/gate.py:113-130 | Over every run: whenever a gated touch, reply or approved draft leaves, the sends of its campaign on that date, its own included, are within the cap and the channel limit in force, and those counted for its rep within the rep's limit. |
| GateInRows.QuotasAreTheMachines | backend/policy/gate.py:153-169 | Without acknowledgements among the rows, checks 8 and 9 hold exactly when the lock machine's quota test holds of the committed rows. |
| GateInRows.UntilInRows | backend/policy/gate.py:101-103 | A frequency deferral names the window after the newest touch. |
| GateInRows.RepInRows | backend/orchestrator/repo.py:48-53 | The rep is the enrollment's own, else the campaign's first, and with neither nobody is active. |
| GateRun.RunGate | backend/policy/gate.py:54-150 | The running gate answers the verdict of the first failing check and lists all ten checks with their outcomes. |
| GateRun.Tally.Add | backend/policy/gate.py:64-67 | Noting a check keeps the tally equal to the decision of the checks so far: the first failure decides, later ones are only listed. |
| GateRun.CheckApproval | backend/policy/gate.py:132-147 | Check 10 as queried: whether a rule wants a manager. |
| ClaimTx.CancelPendingSteps | backend/conflicts/claims.py:107-119 | Cancels pending steps one by one and, if asked, the queued draft jobs, and nothing else. |
| ClaimTx.CancelLosers | backend/conflicts/claims.py:99-100 | Cancels the pending steps of every other enrollment of the prospect, row by row. |
| HandlerTx.DispatchTouches | backend/orchestrator/handlers.py:172-192 | The loop over the plan steps ends in the dispatch the theorems speak about: step by step the same marks and the same jobs. |
| HandlerTx.ScanCampaign | backend/orchestrator/handlers.py:195-209 | The due scan of a live campaign, row by row. |
| ReplyTx.OptOutEverywhere | backend/orchestrator/replies.py:93-98 | The loop over all enrollments of the prospect ends in the global opt-out. |
| WorkerTx.Worker.Claim | backend/orchestrator/worker.py:39-67 | The claim loop in rotation ends in the same tables wherever the rotation stands, and returns exactly the jobs it started. |
| WorkerTx.ClaimCampaign | backend/orchestrator/worker.py:51-66 | One campaign's turn starts the top of its own queue, up to its room. |
| WorkerTx.StartRows | backend/orchestrator/worker.py:63-66 | Starts exactly the given rows and returns them by score, then due time, then age. |
| WorkerTx.Perform | backend/orchestrator/worker.py:71-130 | Every transaction of the program is a step of the machine the run theorems speak about. |
| Diff.LcsTable | frontend/js/ui.js:65 | The table filled by the descending loops holds at every place the value of the cell recurrence, wrapped at 16 bits. |
| Diff.LcsIsUpperBound | frontend/js/ui.js:65 | No common subsequence is longer than the recurrence says. |
| Diff.LcsIsReached | frontend/js/ui.js:65 | Some common subsequence is as long as the recurrence says. |
| Diff.CellsExactIff | frontend/js/ui.js:65 | All cells are true lengths exactly when the sequences share fewer than 65536 items in order; fewer than 65536 items in the shorter one is enough. |
| Diff.DiffSeq | frontend/js/ui.js:66-67 | Whatever the cells hold, one side spells a, the other b, and both keep the same items; with exact cells they keep as many as possible. |
| Diff.FewestMarks | frontend/js/ui.js:66-67 | No comparison keeps more items, so none marks fewer. |
| RateLimiting.RateLimiter.Check | backend/core/security.py:90-98 | Refuses exactly when `limit` accepted calls with the key lie within the last window, records the call, and leaves other keys alone. |
| RateLimiting.RateLimiter.AtMostLimit | backend/core/security.py:85-98 | Any closed interval of length `window` holds at most `limit` accepted calls of a key. |
| RateLimiting.RateLimiter.Reset | backend/core/security.py:100-101 | Forgets everything. |
| RateLimiting.Purge | backend/core/security.py:93-94 | Popping from the front leaves as many times as are still in the window. |
| RateLimiting.SpreadBoundsIntervals | backend/core/security.py:93-98 | If each accepted call is more than a window after the one `limit` places before it, no window-long interval holds more than `limit` of them. |
| Windows.Window | rag/chunking.py:25-35 | A text of at most `size` words comes back stripped; otherwise every window has at most `size` words, neighbours share exactly `overlap`, the last has more than `overlap`, and dropping the shared words gives back the words. |
| Windows.NeverEnds | rag/chunking.py:30-34 | With an overlap of at least the size the loop would never reach its break. |
| Text.WordsOfJoin | rag/chunking.py:31 | Splitting what was joined with spaces gives the words back. |
| Markers.ReingestRoundTrip | backend/api/knowledge.py:78-80 | For any non-empty list of chunks with valid ids and stripped contents, printing and parsing gives the same list exactly when no content holds a marker line. |
| Markers.PrintedParsesBack | rag/chunking.py:38-42 | The direction re-ingest relies on: chunks without inner markers come back in order with their ids. |
| Markers.HeldMark | rag/chunking.py:10 | A marker starts at a position of the printed body inside a content exactly when one starts there in the content alone. |
| Markers.MarkIsThePattern | rag/chunking.py:10 | The matcher finds a marker exactly where the pattern can be spelled out, names its id and reaches as far as any spelling. |
| Markers.HeaderMatches | rag/chunking.py:10 | The printed marker line is matched as written and the match stops before its line end. |
| Markers.IndentedMarkerIsLost | rag/chunking.py:38-42 | The chunker itself stores a content that begins with a marker when that marker was indented on the line after another one; re-ingest then loses the first id. |
| Segments.SegsFromClaims | agents/writer.py:48-80 | The loop cuts the cleaned body as the cut function says: exact text first, then ignoring case, then without surrounding punctuation. |
| Segments.CutIsLossless | agents/writer.py:55-80 | The segments put together are the body, wherever the claims were found. |
| Segments.CitedOrMissing | agents/writer.py:55-80 | Every claim with text is in exactly one of cited and missing, both in claim order; when the folding moves no character of this body and keeps these claims' lengths, a cited segment reads as its claim. |
| Segments.CutAtFirstOccurrence | agents/writer.py:59-79 | A claim that occurs as written is cut out word for word at its first occurrence. |
| Segments.CitationsAdvance | agents/writer.py:74-79 | Under that condition on the body and the claims no citation is empty, so citations stand at increasing positions. |
| Segments.ReadsIffNothingGrows | agents/writer.py:59-79 | For a folding that maps each character to its folded characters: whatever is found in a body reads as the text looked for, for every text the folding does not lengthen, exactly when the folding lengthens no character of the body. |
| Segments.FoldingCanMoveTheCut | agents/writer.py:61-63 | The smallest case of it: after a capital dotted I in the body the citation of the letter behind it is empty. |
| Segments.CompAccountsForEverything | agents/writer.py:83-90 | The composed segments spell the stored body, and the list of claims is the cited ones that name a source, in draft order, and then the claims not found, with "?"; when every claim names a source, each claim with text is listed once. |
| Segments.CleanTwice | agents/writer.py:40-45 | Cleaning a cleaned text changes nothing, so cleaning body and claims twice is harmless. |
| Fusion.Search | rag/retrieve.py:61-71 | The two loops over the result lists and the stable sort give the fused ranking. |
| Fusion.AddList | rag/retrieve.py:63-66 | One result list adds its terms to the scores and new chunks to the insertion order. |
| Fusion.ResultSize | rag/retrieve.py:68-71 | The result has no chunk twice, only found chunks, and min(k, found) of them. |
| Fusion.ResultOrder | rag/retrieve.py:68-71 | A chunk in the result is preceded by exactly those found chunks with a higher score, or an equal score and an earlier first sighting. |
| Fusion.BothBeatOne | rag/retrieve.py:14 | In duplicate-free lists of at most 61 chunks (the searches return at most 20), every chunk found by both outranks every chunk found by one. |
| Fusion.SixtyTwoIsTooMany | rag/retrieve.py:63-66 | With 62 chunks a list the promise ends: last in both only ties with first in one. |
| Fusion.DominanceOutranks | rag/retrieve.py:63-66 | A chunk no worse in each list and better in one outranks the other. |
| Fusion.SortOrder | rag/retrieve.py:70 | The sort is by descending score and keeps ties in order. |
| StringHash.PyHash | agents/util.py:31-38 | The server's hash is the absolute signed 32-bit value of the unwrapped base-31 number, at most 2^31. |
| StringHash.JsHash | frontend/js/store.js:12 | The page's hash is the same of the first UTF-16 units, and every product stays below 2^53. |
| StringHash.HashesAgree | agents/util.py:31-38 | On strings of basic-plane characters the two are equal. |
| StringHash.PolyIsPolynomial | agents/util.py:33-37 | The unwrapped number is 7 * 31^n plus the base-31 polynomial of the codes. |
| StringHash.OneAstralHash | frontend/js/store.js:12 | With at most one character outside the basic plane the two hashes are equal exactly when there is none or the two unwrapped numbers add up to a multiple of 2^32. |
| StringHash.OppositeSignsMeet | frontend/js/store.js:12 | The returned hashes can still coincide, when the signed values are opposite: on one string with a character outside the basic plane both are 36360. |
| StringHash.AstralAloneDiffers | frontend/js/store.js:12 | A single such character makes the hashes themselves differ. |

## Left out

- Frequency.FrequencySafety: speaks of runs in which no touch that has left is rejected, because rejecting hides the row from the gate; Rejections.FrequencyExactly gives the exact condition for every run, and Witnesses.TouchTooEarly and FifthTouch.FiveTouches are runs that break the two halves. Handlers are atomic in these runs; TouchRaces.MeetingDecidesTheSpacing is about interleaved ones.
- DraftJobs.OneDraftPerTouch: leaves out runs in which a new plan starts over a step whose draft job is alive, or a late failure reopens a draft job whose touch is alive or still to be dispatched; DraftJobs.Replanning, DraftJobs.LateFailure and the two lemmas of DoubleDrafts show the doubled drafts. A step left to dispatch whose condition never comes true, or whose campaign stays paused, would be harmless and is left out too.
- Ladders.LostIsNeverRegained: speaks of runs in which a score once set and the campaigns' ranks stay, and nothing is overridden or released, since a release or an override may well give the claim back.
- QuotaLocks.QuotaSafety: is about campaigns without reply transactions and about fixed limits; that replies break it is shown without channel and rep limits only (QuotaBreaks.ReplyOverruns), and sends by a person or a call do not take part.
- TouchRaces.MeetingDecidesTheSpacing: all transactions lie within one window and none is a same-day companion, which skips the check; that no claim keeps the campaigns apart is left to the outcome of the other checks.
- Deferrals.NoStrandedAlone: leaves out runs in which a claim is given up with several enrollments waiting; Deferrals.ReleaseStrandsAllButOne shows that all but one are stranded then.
- Fusion.Search: works in real numbers; the floating-point rounding of the scores and of the displayed score is not modelled, nor is the ten-minute result cache.
- Segments.SegsFromClaims: takes case folding as an arbitrary function; what Python's folding does to each character is not modelled.
- Segments.ReadsIffNothingGrows: is about foldings that treat each character alone; Python's choice between the two small sigmas by context is outside it.
- Segments.CitedOrMissing: promises that a citation reads as its claim only under a condition on the folding of the given body and claims; who is cited and who is missing needs no condition.
- StringHash.JsHash: takes the string as Unicode characters; strings with unpaired surrogates are not modelled.
- Windows.Window: does not model how a document's sections are split before windows are cut.
- OptOuts.OptOutIsGlobalAndLasting: acknowledgements are exempt, whatever they say; suppression rows for domains and phones are respected but not added during a run, and removing a row is not a step of the machine.
- WorkerTx.Worker.Claim: full ties of the claim query, which the database may settle either way, are settled by row number; claims of several workers are serialised, as the row locks do.
- HandlerTx.ScanCampaign: reads each row as it is when its turn comes, where the source works on rows fetched at the start.
- SQL, psycopg, row locks, waits at the unique index and hash collisions of advisory keys: tables are sequences and maps, locks are named, and each handler is one atomic step outside `QuotaLocks`.
- External delivery (mail, LinkedIn, SMS, voice, calendar, sheets): the message row is the send; a provider call before a rollback is not seen.
- Model calls, prompt texts, grounding, embeddings and reply classification: their outcome is an arbitrary parameter of a step.
- Which prospects discovery finds, and the pre-launch checklist: enrolling and launching are steps for any prospect and enrollment at any time. Deleting campaigns, seeding and clearing a workspace, manual re-runs and changing the demo clock are no steps.
- Midnight between the gate's evaluation and the message's timestamp, and limits edited in the middle of a day in the lock machine.
- Call jobs and call records, escalation rows, activity entries, notes, hold marks, traces, costs and the wording of purposes: no modelled decision reads them.
- Suppressed addresses are compared as stored; the lower-casing of e-mail addresses is not modelled.
- Frontmatter, token counts, paragraph and heading splitting, default plans, thresholds, prompt versions and funnel counts: each is settled by reading one function.
