# Verified model of the interview platform's kernel

This project models the part of the interview practice platform that moves money and runs
interviews, and proves what holds of it in every run. It is written in Dafny 4.11; `dafny verify
dfyconfig.toml` checks all of it.

## What is modelled

**Credits.** An append-only ledger with unique idempotency keys, and per user an account (balance,
reserved, lots) kept beside it. `CreditLedger` gives each operation - grant, reserve, settle, revoke,
adjust, recompute - as a function from one committed store to the next, `CreditStore` is the class
that updates the collections in place, `CreditInvariant` and `CreditRuns` prove what every run keeps,
`CreditEffects` what each operation does to single lots, and `CreditOutcomes` when it goes through and
what a retry is answered. `CreditTransactions`, `CreditSerial` and
`CreditSystem` let any number of callers interleave: each reads a snapshot, and commits only if no
document it wrote was committed by another since.

**Purchases.** Orders, coupon uses, payment outcomes, refunds, invoice and credit-note numbers, on
top of the same ledger. Every transaction and every conditional update is one step, so a run of
steps is any interleaving of checkout, webhooks, admins and reconciliation. `Purchases` has the
steps, `PurchaseStore` the class, `CouponUses`, `RefundProtocol` and `DocumentNumbers` one invariant
each, `ShopInvariant` to `ShopTheorems` their composition with the ledger, `RefundIds` and `RefundBounds`
what becomes of the gateway's refund ids and how much can be refunded, `RefundRequests` an admin's
refund from claim to answer, `ShopOutcomes` when each step takes effect, and `LotRefills` when a lot
gains credits. `ShopExamples` has the runs in which something fails.

**Interviews.** The transition table (`SessionMachine`, `SessionPaths`), the clock
(`InterviewClock`), the planner (`InterviewPlanner`, `PlannerRuns`, `PlannerDecisions`, `PlannerRecords`, `PlannerSpread`)
and the interpreter of effects (`InterviewState`, `InterviewStore`). A run of the whole system creates
sessions, fires events, saves between events and moves credits, for all users at once
(`SessionInvariant`, `InterviewRuns`); the theorems about all reachable states are in
`InterviewTheorems`, `InterviewOutcomes` (which events are taken, and where they lead), `InterviewTime`
and `InterviewExpiry`, and runs in which something fails in `InterviewExamples`.

**AI router.** Retries, repair, backoff, metering and the lease that must cover them (`ModelCalls`),
the fallback chain (`ModelChain`), the concurrency semaphore and the callers under it (`Slots`,
`SlotLeases`), streaming and the pump between producer and consumer (`ModelStream`), how calls, chain and
streams end (`ModelOutcomes`), and the shared configuration cache (`ConfigCache`, `ConfigServing`).

**Recordings.** Uploads, file builds, deletes, crashes and sweeps, interleaved, over one recording
and its objects in storage (`Media`, `MediaSafety`, `MediaFencing`, `MediaRuns`,
`MediaForgotten`, `MediaProgress`, `MediaStore`).

**Smaller pieces.** One-time passwords and Base32 (section 6 of RFC 4648) in `Totp` and `Base32`; the
results printer and the CSV parser (section 2 of RFC 4180) in `Csv`; the month counter in `Months`;
weights, guard and aggregation in `Scoring` and `ScoringMeans`; practice streaks in `Streaks`.

## How to read it

Ids, times and money are integers; scores and weights are reals; text is a sequence of characters.
What the program keeps in objects and collections is a class here, whose methods are proved equal to
a function on its state; the theorems are about those functions and about runs of them. An error is
an outcome value, and a transaction that throws leaves its state as it was.

Assumptions on callers are predicates with names: `Disciplined` (a new grant has a new lot id, a key
outside sessions does not look like a session's), `PatchOk` (the fields a caller sets along with a
start or a round's end), `Allowed` and `Permitted` (new ids are new, time does not go back), `Served`
(a caller gives its slot back when its calls are done), `Timely` (when a build writes). Each is what
the cited callers do, or a run beside the theorem shows that it is needed. Where the code does not
keep a promise in general, the theorem is an equivalence: it says in which runs it does.

## Where the code does less than one might expect

Each is proved: for every reachable state, as an equivalence that says when it happens, or by a run
from the empty database.

* A failure from PROCESSING gives nothing back: by then no credit is reserved
  (`LateFailureRefundsNothing`). The comment at packages/db/src/interview-state.ts:231-242 on returning
  a campaign's budget describes a branch no run reaches (`InterviewRuns.RunKeepsOk`).
* The from/to table that `transitionSession` consults forgets the guards. It lets a failed, refunded
  interview be analysed and started again, and the second interview is free (`SecondInterviewIsFree`).
  Runs in the theorems therefore relabel only sessions that never started, which is exactly when
  relabelling is safe (`RelabelKeepsOkIffUnstarted`).
* An assessment that lands after the expiry can make a refunded interview meaningful, so it is
  evaluated although its credit was returned (`ExpiredAdmittedIff`, `LateAssessmentAdmits`).
* An answer of the gateway that comes after its claim was released, or was settled under another id,
  can make a refund count twice (`AnswerCountsAgainIff`, `DashboardRefundCountsTwice`,
  `ReleasedClaimCountsTwice`).
* A dashboard refund beside an open claim can take the total past what was paid
  (`NeverMoreThanPaidIff`, `MoreThanWasPaid`).
* After a full refund the lot is empty, but a running interview may return its credit to it
  (`PaidLotGainsIff`, `EmptiedLotRefills`); and a refund counted twice withdraws once
  (`FullRefundEmptiesLotIff`). Late payments may take a coupon past its limit, and a user
  past theirs (`LimitBreaksIff`, `UserLimitBreaksIff`, `LatePaymentOverruns`, `LatePaymentOverrunsUser`).
* The slot lease covers the default backoffs for at most four retries (`LeaseFitsIff`,
  `ConcurrencyHolds`, `FiveRetriesOverrun`).
* A failed configuration load that began before an invalidation puts the old value back
  (`StepKeepsFreshIff`, `LateFailureRevives`).
* A delete that is part of a sweep is given the time the sweep began. When the sweep is long, a build
  that was claimed meanwhile can write its file after the sweep deleted it, and the file stays
  (`StepForgetsIff`, `NothingForgottenIff`, `LongSweepForgets`, `SweepForgets`). No segment is forgotten
  that way (`SegmentsAreNeverForgotten`).
* A build whose claim was taken away and given again in one millisecond cannot be told from the new one
  (`BuildMarksIff`, `SameMillisecondClaims`).

## Model

| member | source | states |
|---|---|---|
| `CreditEffects.GrantGives` | packages/db/src/credits.ts:93-142 | a grant with a new key appends one entry of the source's kind, gives one lot with the amount, source and expiry asked for and raises the balance by the amount; an amount that is not positive is refused; no other lot changes |
| `CreditEffects.ReserveTakesEarliest` | packages/db/src/credits.ts:61-82 | a first reservation takes one credit from an unexpired lot with credits that no other such lot expires before; it is refused exactly when there is no such lot (also packages/db/src/credits.ts:162-200) |
| `CreditEffects.SettleGivesBack` | packages/db/src/credits.ts:208-248 | settling frees the reservation, and returns its credit to the very lot it was reserved from exactly on a refund |
| `CreditEffects.RevokeTakes` | packages/db/src/credits.ts:303-341 | a revocation takes what the lot still has, capped by the maximum and never negative, records its key even when it takes nothing, and touches no other lot |
| `CreditEffects.DeductTakesInOrder` | packages/db/src/credits.ts:61-74 | a deduction takes only from usable lots, and from a lot only when every usable lot that expires earlier is empty (also packages/db/src/credits.ts:375-418) |
| `CreditRuns.UsableLotsFacts` | packages/db/src/credits.ts:61-74 | the sorted list of usable lots holds exactly the lots with credits left and no past expiry, ordered by expiry with unexpiring lots last, none twice |
| `CreditRuns.DeductKeepsInv` | packages/db/src/credits.ts:375-418 | a deduction lowers the balance by exactly the credits asked for, across however many lots, and keeps ledger and account in agreement |
| `CreditRuns.RecomputeIsIdentity` | packages/db/src/credits.ts:267-296 | recomputing an account from its ledger entries changes nothing but the version number |
| `CreditRuns.ApplyKeepsInv` | packages/db/src/credits.ts:93-418 | every operation keeps the invariant: account = replay of the ledger, unique keys, each settlement has its reservation, reserved = open reservations, and per lot granted = remaining + withdrawn + held + consumed |
| `CreditRuns.AnyRunAgreesWithReplay` | packages/db/src/credits.ts:262-296 | after any run of operations every account is the replay of its ledger, its balance is the sum of its lots, reserved counts the open reservations, and no lot is negative |
| `CreditRuns.LotUsageNeverClips` | packages/db/src/credits.ts:421-455 | the clip to zero in the lot usage never bites: what it reports as used is what was consumed or is held |
| `CreditRuns.ApplyAppends` | packages/db/src/credits.ts:1-20 | the ledger is append-only: every operation leaves the old entries as a prefix |
| `CreditRuns.AtMostOnce` | packages/db/src/credits.ts:48-51 | an operation that wrote entries left its own idempotency key; one that finds its key writes no entry and moves no credit (also packages/db/src/credits.ts:93-100) |
| `CreditOutcomes.DeductOutcomeIff` | packages/db/src/credits.ts:375-418 | a deduction is refused for want of credits iff it is new and the account's lots that can pay sum to less than is asked for, done iff they do not and no part whose turn comes finds its key taken, and skipped iff its key is there; none but a done one moves a credit |
| `CreditOutcomes.RetryIsRecognised` | packages/db/src/credits.ts:93-100 | whatever an operation did, doing it again writes nothing and is answered with what happened the first time: the same lot, the same settlement; what was refused left no entry (also packages/db/src/credits.ts:162-248) |
| `CreditOutcomes.SettleOutcomeIff` | packages/db/src/credits.ts:208-248 | a settlement finds nothing to settle iff its session has neither a reservation nor a settlement, and settles anew iff it has the one and not the other |
| `CreditStore.CreditStore.LoadAccount` | packages/db/src/credits.ts:52-59 | loading an account creates it when missing and raises its version: every transaction writes the document it read |
| `CreditStore.CreditStore.GrantCredits` | packages/db/src/credits.ts:93-142 | the store afterwards is the ledger model's, field by field, and so is the answer |
| `CreditStore.CreditStore.ReserveCredit` | packages/db/src/credits.ts:162-200 | the same for a reservation; an error leaves the store as it was |
| `CreditStore.CreditStore.SettleCredit` | packages/db/src/credits.ts:208-248 | the same for a settlement, which increments balance and lot only on a refund |
| `CreditStore.CreditStore.RevokeLotCredits` | packages/db/src/credits.ts:303-341 | the same for a revocation, which moves no credit when nothing is left |
| `CreditStore.CreditStore.TakeLots` | packages/db/src/credits.ts:388-416 | the loop over the lots gives the state of taking part after part, and stops at a key already taken |
| `CreditStore.CreditStore.AdjustCredits` | packages/db/src/credits.ts:362-418 | a positive adjustment grants a lot, a negative one deducts, zero is refused; a failed deduction leaves nothing behind |
| `CreditStore.CreditStore.RecomputeCreditAccount` | packages/db/src/credits.ts:267-296 | the replay loop gives the account the ledger prescribes |
| `CreditTransactions.PostMerges` | packages/db/src/credits.ts:52-59 | a posting prepared on a snapshot with an equal account writes the same account and entry on the current store, other users' entries in between |
| `CreditSerial.CommitIsSerial` | packages/db/src/credits.ts:31-59 | committing a transaction that read a snapshot, with no written document changed since, gives the store and the answer that running it now would give |
| `CreditSystem.CommitExtends` | packages/db/src/credits.ts:31-59 | one commit extends the serial history: its writes include the account document and every key it appended |
| `CreditSystem.InterleavingsAreSerial` | packages/db/src/credits.ts:31-59 | under snapshot transactions with first-committer-wins, any interleaving of any number of callers equals the serial run of the committed operations in commit order, answers included (also packages/db/src/credits.ts:93-341) |
| `CreditSystem.InterleavingsKeepInv` | packages/db/src/credits.ts:52-59 | so under any interleaving no idempotency key is ever written twice and every account equals the replay of its ledger (also packages/db/src/credits.ts:267-296) |
| `SessionPaths.ConsentComesFirst` | packages/interview-engine/src/session-machine.ts:159-167 | along any events, a session that needs consent is not ready to start, in progress or evaluated before the consent was accepted (also packages/interview-engine/src/session-machine.ts:127-130) |
| `SessionPaths.DeviceCheckComesFirst` | packages/interview-engine/src/session-machine.ts:159-167 | nor does one that needs a device check get as far as the consent before the check passed (also packages/interview-engine/src/session-machine.ts:127-130) |
| `SessionPaths.ReportsAreEarned` | packages/interview-engine/src/session-machine.ts:227-236 | every report comes from an evaluation, and every evaluation from an interview that was finalised or from an expired one admitted to processing |
| `SessionPaths.ExpiryComesAfterGrace` | packages/interview-engine/src/session-machine.ts:198-207 | an interview is paused or expires only after its grace period ran out while it was reconnecting |
| `SessionPaths.TerminalIff` | packages/interview-engine/src/session-machine.ts:138-254 | for a started session the states that refuse every event in every context are exactly REPORT_READY, CANCELLED and FAILED (also packages/interview-engine/src/session-machine.ts:110-110) |
| `SessionPaths.CompletionHasACause` | packages/interview-engine/src/session-machine.ts:177-225 | along any events from DRAFT, an interview is completing only if its last round ended, someone asked for the end, or time ran out while it was active, between rounds or reconnecting, never while paused |
| `SessionPaths.EveryStateIsReached` | packages/interview-engine/src/session-machine.ts:138-254 | from a draft every state of the table can be reached by some events |
| `SessionInvariant.EventKeepsOk` | packages/interview-engine/src/session-machine.ts:138-254 | every event of the table, with its effects, keeps every session well-formed: clock, rounds, resume target, credit status and state fit together (also packages/db/src/interview-state.ts:186-318) |
| `SessionInvariant.SaveKeepsOk` | packages/db/src/interview-state.ts:101-125 | so does every save between events: holding and releasing the clock, recording a question or an assessment (also apps/api/src/modules/live/live.service.ts:667-679) |
| `SessionInvariant.CreatedPlanIsFresh` | packages/interview-engine/src/planner.ts:128-160 | a created plan has only pending rounds and no current one |
| `InterviewRuns.StepCredits` | packages/db/src/interview-state.ts:210-246 | an applied event carries out exactly one credit operation or none: reserve on a paid start, settle by use on the end or expiry, refund on a failure with a reserved credit, nothing else (also packages/interview-engine/src/session-machine.ts:133-136) |
| `InterviewRuns.RelabelKeepsOkIffUnstarted` | packages/db/src/interview-state.ts:65-84 | setting a session's state alone, as role analysis and cancellation do, is safe if and only if the session never started |
| `InterviewRuns.RunKeepsOk` | packages/db/src/interview-state.ts:186-318 | every run of creations, events, saves, analyses and credit operations, over all sessions and users at once, keeps ledger, accounts and sessions in agreement, and never changes a campaign's used credits through settlement (also packages/db/src/credits.ts:93-418) |
| `InterviewTheorems.CreditMirrorsLedger` | packages/db/src/interview-state.ts:210-262 | in every reachable state a session is RESERVED iff a reserve entry without a settlement exists, CONSUMED or REFUNDED iff the settlement of that kind exists, and otherwise it has no entry (also packages/db/src/credits.ts:162-248) |
| `InterviewTheorems.OneReserveOneSettle` | packages/db/src/credits.ts:162-248 | the ledger never holds two reserve entries or two settle entries of one session |
| `InterviewTheorems.OnlyProgressHoldsCredit` | packages/interview-engine/src/session-machine.ts:101-117 | in every reachable state a session holds a credit iff it is in progress and not free or sponsored: no finished state leaks one (also packages/interview-engine/src/session-machine.ts:205-251) |
| `InterviewTheorems.ReservedCountsSessions` | packages/db/src/interview-state.ts:210-262 | an account's reserved count is the number of the user's self-paid interviews in progress (also packages/db/src/credits.ts:162-248) |
| `InterviewTheorems.SettledByUse` | packages/interview-engine/src/session-machine.ts:205-229 | when a self-paid interview is finalised or expires, its credit is consumed if the use was meaningful and refunded if not (also packages/interview-engine/src/session-machine.ts:133-136, packages/interview-engine/src/usage.ts:11-23) |
| `InterviewTheorems.PaidForIffUsed` | packages/interview-engine/src/usage.ts:11-23 | in a reachable state a self-paid interview that is finalised or expires is paid for iff a question was answered and either as many as the policy asks or its share of a positive budget was used: by default three answers, or one and two fifths of the time; otherwise the credit goes back (also packages/interview-engine/src/session-machine.ts:133-136, packages/interview-engine/src/session-machine.ts:205-229) |
| `InterviewTheorems.LateFailureRefundsNothing` | packages/interview-engine/src/session-machine.ts:244-251 | a failure from PROCESSING changes no credit: a consumed credit is not given back |
| `InterviewTheorems.EarlyFailureRefunds` | packages/interview-engine/src/session-machine.ts:244-251 | a failure in progress gives a reserved credit back: balance one up, reserved one down (also packages/db/src/interview-state.ts:231-262) |
| `InterviewTheorems.OnlyStartThrows` | packages/db/src/interview-state.ts:205-300 | in a reachable state no event but a start can throw |
| `InterviewTheorems.NeverStuck` | packages/interview-engine/src/session-machine.ts:183-203 | NEXT_ROUND between rounds, RECONNECTED while reconnecting and RESUME while paused are always applied for a caller who is up to date |
| `InterviewTheorems.StartsIffPaidAndPlanned` | packages/db/src/interview-state.ts:212-225 | a start from READY_TO_START succeeds iff the interview is a drill, sponsored or the account has a usable lot, and the plan has time in it (also packages/interview-engine/src/session-machine.ts:169-175, packages/db/src/credits.ts:162-200) |
| `InterviewOutcomes.StartBegins` | packages/db/src/interview-state.ts:205-300 | a start that succeeds leaves the session active in its first round, with a clock of the whole plan's time that runs from then on, and paid for by the platform, a campaign or a credit (also packages/interview-engine/src/session-machine.ts:169-175, packages/interview-engine/src/planner.ts:185-195) |
| `InterviewTheorems.WhereSessionsCanBe` | packages/interview-engine/src/session-machine.ts:169-233 | in every reachable state the clock runs iff the state is live and not held; RECONNECTING and PAUSED have a resume target with the round situation it needs; ROUND_TRANSITION has a next round; ACTIVE a running one; COMPLETING none active or pending (also packages/db/src/interview-state.ts:101-125, packages/db/src/interview-state.ts:263-300) |
| `InterviewTheorems.OneRoundAtATime` | packages/interview-engine/src/planner.ts:175-203 | at most one round is active, it is the current one, and never while COMPLETING or between rounds (also packages/db/src/interview-state.ts:263-300) |
| `InterviewTheorems.AppliedIsCurrent` | packages/db/src/interview-state.ts:186-204 | an event is applied only for the owner and on the version its caller read, makes the next version, and no second event is applied to the same version (also packages/db/src/interview-state.ts:302-311) |
| `InterviewOutcomes.AppliedIff` | packages/interview-engine/src/session-machine.ts:138-254 | in a reachable state, for an up-to-date caller, an event other than a start is applied iff it leads somewhere from the session's state, written state by state, and there is the session then: resumption to where it was, a round's end by whether another follows, processing of an expired one by its use (also packages/db/src/interview-state.ts:186-318) |
| `InterviewOutcomes.CanFinish` | packages/interview-engine/src/session-machine.ts:205-240 | every interview under way in a reachable state can be ended, finalised and evaluated: three events, all applied, lead to its report (also packages/db/src/interview-state.ts:186-318) |
| `InterviewOutcomes.SavesIff` | packages/db/src/interview-state.ts:101-125 | exact conditions for a hold, a release, a question and an assessment to be saved; a hold stops the clock, a release runs it iff the interview is live, a question is the last asked and counts once, and an assessment counts one answer unless there was none (also apps/api/src/modules/live/live.service.ts:667-679) |
| `InterviewTheorems.AskingRunsTheClock` | apps/api/src/modules/live/live.service.ts:780-812 | recording a question in a reachable session ends a hold: the clock runs while the answer is awaited (also packages/db/src/interview-state.ts:106-123) |
| `InterviewTheorems.EndIsRecordedOnce` | packages/db/src/interview-state.ts:297-300 | the end time is set when a started interview first completes, expires or fails, and no later event moves it |
| `InterviewTheorems.EndIsFinal` | packages/db/src/interview-state.ts:297-300 | once recorded, the end of an interview stays as it is over every run of events, saves, analyses and credit operations (also packages/db/src/interview-state.ts:101-125) |
| `InterviewTheorems.TimeUpTimesOut` | packages/db/src/interview-state.ts:267-274 | when time runs out the round under way is marked TIMED_OUT, on a requested end COMPLETED (also packages/interview-engine/src/planner.ts:175-183) |
| `InterviewTheorems.ComingBackRestores` | packages/interview-engine/src/session-machine.ts:187-203 | a disconnect, with or without the grace period running out, followed by a return restores state, rounds, credit and resume target, and the time away is not counted (also packages/interview-engine/src/clock.ts:38-48) |
| `InterviewTheorems.RestartIsUnpaid` | packages/db/src/interview-state.ts:65-84 | a settled session set back to READY_TO_START would start again without any credit moving and with a status the ledger contradicts (also packages/db/src/credits.ts:162-175) |
| `InterviewTheorems.TablePermitsReanalysis` | packages/interview-engine/src/session-machine.ts:264-302 | the from/to table allows FAILED to ROLE_ANALYSIS although the machine refuses it for every started session (also packages/interview-engine/src/session-machine.ts:138-150) |
| `InterviewTheorems.ReanalysedInterviewIsFree` | packages/db/src/interview-state.ts:65-84 | the whole detour: a failed and refunded interview that is analysed and started again runs without a credit (also apps/api/src/modules/interviews/interviews.service.ts:255-273) |
| `InterviewExamples.SecondInterviewIsFree` | packages/db/src/interview-state.ts:65-84 | the same from the empty database: a run to a failed and refunded interview, and the detour after it (also apps/api/src/modules/interviews/interviews.service.ts:255-273) |
| `InterviewStore.InterviewStore.ApplySessionEvent` | packages/db/src/interview-state.ts:186-318 | the effect loop, the derived fields and the conditional save leave the database exactly as the event model says, and a thrown effect or a refused event leaves it unchanged |
| `InterviewStore.InterviewStore.CarryOutAll` | packages/db/src/interview-state.ts:205-285 | the loop over effects gives the state of carrying them out in order, and stops at the first that throws |
| `InterviewTime.ElapsedIsLiveTime` | packages/interview-engine/src/clock.ts:20-62 | along any run with non-decreasing times the elapsed time of a session grows by exactly the time it was live and not held (also packages/db/src/interview-state.ts:101-130) |
| `InterviewTime.ElapsedFromTheStart` | packages/interview-engine/src/clock.ts:20-62 | from the empty system, elapsed time is the time spent live and not held and nothing else |
| `InterviewTime.ActiveMsNeverDecreases` | packages/interview-engine/src/clock.ts:26-48 | whatever the servers' clocks say, forward or backward, recorded interview time never decreases |
| `InterviewExpiry.RunOfExpired` | packages/interview-engine/src/session-machine.ts:205-233 | over any run an expired session's time is frozen, and its answers grow by exactly those whose assessments land late (also packages/db/src/interview-state.ts:101-130, packages/interview-engine/src/planner.ts:410-439) |
| `InterviewExpiry.ExpiredAdmittedIff` | packages/interview-engine/src/session-machine.ts:205-233 | an expired interview is admitted to evaluation iff its credit was consumed, or its use at the expiry together with the answers assessed since is meaningful; its credit was consumed iff the use at the expiry alone was (also packages/db/src/interview-state.ts:133-152, packages/interview-engine/src/usage.ts:11-23) |
| `InterviewExpiry.AdmittedIffUsed` | packages/interview-engine/src/session-machine.ts:235-238 | so an expired interview is admitted iff, its late answers counted along the run, a question was answered and either enough of them or enough of the time was used: by default three answers, or one and two fifths of the time (also packages/interview-engine/src/usage.ts:19-23) |
| `InterviewExamples.LateAssessmentAdmits` | packages/interview-engine/src/planner.ts:410-439 | a run from the empty database: an interview expires after two answers and is refunded, a third is assessed late, and it is admitted (also packages/interview-engine/src/usage.ts:19-23) |
| `PlannerRuns.DecidedFits` | packages/interview-engine/src/planner.ts:277-362 | what is decided to be asked is a follow-up within the depth or a primary question within the count, and with less than a minute left no primary question but a round's first |
| `PlannerDecisions.DecisionIff` | packages/interview-engine/src/planner.ts:277-362 | in a running round a follow-up is asked iff one is due and time is left; a primary question iff none is due, some are left and there is a minute, or any time for the first; the round is completed iff all were asked and timed out iff time is what is missing |
| `PlannerDecisions.DecisionCanBeAsked` | packages/interview-engine/src/planner.ts:277-362 | nothing is decided iff no round is running, and every question decided on can be recorded (also packages/interview-engine/src/planner.ts:364-398) |
| `PlannerDecisions.FollowUpIff` | packages/interview-engine/src/planner.ts:289-317 | after an answer a follow-up is asked iff its assessment asked for one, there was an answer, the depth allows it and time is left, on the competency asked about if the blueprint has it (also packages/interview-engine/src/planner.ts:410-440) |
| `PlannerDecisions.RoundAsksAll` | packages/interview-engine/src/planner.ts:277-398 | over any turns from the start of a round, if it ends by decision with a minute left, exactly its planned number of primary questions was asked and it is completed; it times out only with less |
| `PlannerDecisions.PrimaryIsAboutLeast` | packages/interview-engine/src/planner.ts:212-220 | a primary question is about a competency of its round asked about least, the heaviest of these, the first by key; about none iff the round has none (also packages/interview-engine/src/planner.ts:261-275, packages/interview-engine/src/planner.ts:319-326) |
| `PlannerRuns.RoundIsBounded` | packages/interview-engine/src/planner.ts:277-439 | a round asks at most questionCount x (1 + followUpDepth) questions, whatever the answers |
| `PlannerRuns.QuestionsAreBounded` | packages/interview-engine/src/planner.ts:128-160 | so the ask and assess loop ends: a plan asks at most the sum of its rounds' bounds (also packages/interview-engine/src/planner.ts:277-439) |
| `PlannerRuns.ProbesAreNotRepeated` | packages/interview-engine/src/planner.ts:328-331 | no probe topic is used twice in an interview, and none is forgotten (also packages/interview-engine/src/planner.ts:364-405) |
| `PlannerRuns.EachTopicOnce` | packages/interview-engine/src/planner.ts:328-331 | over any turns of an interview no two questions asked probe the same topic, so long as topics have names (also packages/interview-engine/src/planner.ts:364-398) |
| `PlannerRuns.ProbesWhenItCan` | packages/interview-engine/src/planner.ts:319-361 | a question carries a probe iff it is a primary question after the first of a probing round and some topic of the blueprint is unused, and the probe is such a topic |
| `PlannerRuns.EveryRoundAsks` | packages/interview-engine/src/planner.ts:185-195 | a round just started with a question planned asks one iff any of its time is left (also packages/interview-engine/src/planner.ts:277-362) |
| `PlannerRuns.AnswersAreCounted` | packages/interview-engine/src/planner.ts:410-439 | over any turns the answered count grows by the assessments recorded for questions that were answered |
| `PlannerRecords.PlanHasTheTemplatesTime` | packages/interview-engine/src/planner.ts:128-168 | a plan has the time of its template, in milliseconds |
| `PlannerRecords.PlanFollowsTemplate` | packages/interview-engine/src/planner.ts:128-160 | a plan has its template's rounds one by one, all waiting, and covers exactly the competencies, none asked about; there is none iff the template has no round |
| `PlannerRecords.NextRoundStarts` | packages/interview-engine/src/planner.ts:185-195 | the next round starts at the clock's reading iff there is one; one still running is completed and no other changes |
| `PlannerRecords.RoundAssesses` | packages/interview-engine/src/planner.ts:212-220 | a round assesses exactly the competencies that name its type, and where none does exactly those of its categories (also packages/interview-engine/src/planner.ts:98-105) |
| `PlannerRecords.FollowUpContinuesThread` | packages/interview-engine/src/planner.ts:289-317 | a follow-up is to the question just asked, one deeper, on the same competency, only when it was answered and its assessment asked for one; the thread keeps its root (also packages/interview-engine/src/planner.ts:364-439) |
| `PlannerRecords.EveryVerdictCounts` | packages/interview-engine/src/planner.ts:410-439 | every verdict on a covered competency counts once, for it alone, and is its last; evidence goes to the current round and only grows |
| `PlannerRecords.AskedAreCounted` | packages/interview-engine/src/planner.ts:364-405 | over any turns the asked count grows by the questions asked |
| `PlannerRecords.SkippedNeverStarted` | packages/interview-engine/src/planner.ts:175-203 | in every plan that is run rounds start in order, and a round waits or was skipped iff it never started |
| `PlannerSpread.PickIsLeast` | packages/interview-engine/src/planner.ts:261-275 | the competency picked is a candidate asked about least, the heaviest of those, and by key the first of these |
| `PlannerSpread.QuestionsAreSpread` | packages/interview-engine/src/planner.ts:261-439 | while a round runs, the asked counts of its competencies stay within a spread that one question with its follow-ups fits in |
| `PlannerSpread.SpreadFromRoundStart` | packages/interview-engine/src/planner.ts:261-439 | from the start of a round the spread never exceeds max(initial spread, 1 + followUpDepth) |
| `CouponUses.ReserveKeepsOk` | packages/db/src/purchases.ts:110-148 | taking a use keeps both counters equal to the number of unreleased redemptions |
| `CouponUses.CountedIsPositive` | packages/db/src/purchases.ts:151-181 | a counted use keeps both counters positive, so the guards of a release never hold it back |
| `CouponUses.ReleaseUseKeepsOk` | packages/db/src/purchases.ts:151-181 | releasing a use keeps the counters exact, and does nothing twice |
| `CouponUses.RedeemKeepsOk` | packages/db/src/purchases.ts:189-227 | redeeming keeps them exact, whether a live reservation is found or a use is recorded late |
| `CouponUses.EnsureKeepsOk` | packages/db/src/purchases.ts:95-103 | creating a missing counter starts it at the number of uses the user holds |
| `DocumentNumbers.OneNumber` | packages/db/src/purchases.ts:236-276 | giving one document the next number of its series keeps the numbers of every series 1 to its counter, each in one place (also packages/db/src/purchases.ts:283-313) |
| `RefundProtocol.RefundStateAgrees` | packages/db/src/purchases.ts:585-689 | what the payment invariant says: refunded = sum of processed entries; REFUNDED together iff the sum reaches the amount; an entry is open iff a refund is requested or pending; never two open |
| `RefundProtocol.ClaimKeepsOk` | packages/db/src/purchases.ts:467-511 | a claim keeps it |
| `RefundProtocol.ReleaseKeepsOk` | packages/db/src/purchases.ts:514-533 | giving a claim back keeps it |
| `RefundProtocol.AcceptedKeepsOk` | packages/db/src/purchases.ts:536-556 | the gateway's acceptance keeps it |
| `RefundProtocol.RenamedKeepsOk` | packages/db/src/purchases.ts:557-567 | so does an answer that comes when the claim is gone |
| `RefundProtocol.RefundedKeepsOk` | packages/db/src/purchases.ts:585-689 | a processed refund, ours or the dashboard's, keeps it and makes payment and purchase REFUNDED exactly when everything is refunded |
| `RefundProtocol.RefundFailedKeepsOk` | packages/db/src/purchases.ts:696-733 | a failed refund keeps it and reopens the payment only when nothing else is open |
| `ShopOutcomes.ClaimGivenIff` | packages/db/src/purchases.ts:467-511 | in every reachable shop a claim is given iff the purchase is paid under a known payment id, no refund of it is open, and the amount is at most what was paid less the processed refunds; then its entry is requested and nothing else changes |
| `ShopOutcomes.ReleaseGivenIff` | packages/db/src/purchases.ts:514-533 | in every reachable shop a claim is given back iff its entry is still requested and the purchase paid; then that entry has failed and the payment is captured again |
| `ShopOutcomes.AnswerIsNoted` | packages/db/src/purchases.ts:536-583 | in every reachable shop an answer names its entry and no other, and makes it and the payment pending iff it was still requested and the purchase paid |
| `ShopOutcomes.RefundCountsIff` | packages/db/src/purchases.ts:585-689 | in every reachable shop a processed refund counts iff the purchase is paid, the first entry with its id is not processed, and it is for something; it adds that entry's amount, else the answered claim's, else what was reported or is left, and completes the purchase iff the total reaches what was paid |
| `ShopOutcomes.RefundIsRecorded` | packages/db/src/purchases.ts:625-689 | in every reachable shop a refund that counts leaves its entry processed under its id, with what it withdrew and a note numbered one past the last of its year; a partial one withdraws what was chosen as far as the lot goes, unless one of this id withdrew before |
| `ShopOutcomes.FailureNotedIff` | packages/db/src/purchases.ts:696-733 | a failed refund is noted unless the first entry with its id is closed: on that entry, else on the claim whose answer was lost, else by the flag alone |
| `RefundBounds.RefundKeepsRoomIff` | packages/db/src/purchases.ts:585-689 | a processed refund stays within what was paid iff there is room for it beside whatever else is under way; one that was under way itself always has it |
| `RefundBounds.NeverMoreThanPaidIff` | packages/db/src/purchases.ts:467-733 | over any run what was refunded, together with an open refund, never exceeds what was paid iff every refund applied fits when it is applied: with what was refunded before and any other under way |
| `ShopExamples.MoreThanWasPaid` | packages/db/src/purchases.ts:604-635 | that condition is needed: a run in which a dashboard refund beside an open claim ends in 130 refunded of 100 |
| `RefundBounds.UnknownAmountIsTheRest` | packages/db/src/purchases.ts:604-632 | a refund reported without an amount that matches no entry is for all that is left |
| `RefundBounds.FailedRefundIsNoted` | packages/db/src/purchases.ts:696-733 | a failed refund is noted, changes no total, closes its entry, and makes the payment captured again when nothing else is open |
| `RefundBounds.FailedAttemptKeepsUse` | packages/db/src/purchases.ts:401-429 | a failed attempt keeps the coupon use, the failure of the order releases it, and a payment that comes afterwards ends with one use either way (also packages/db/src/purchases.ts:189-227) |
| `ShopSystem.StepKeepsOk` | packages/db/src/purchases.ts:110-733 | every step of every caller keeps purchases, payments, coupons, numbers and ledger in agreement |
| `ShopSystem.RunKeepsOk` | packages/db/src/purchases.ts:110-733 | so does every run, in whatever order checkout, webhooks, admins and reconciliation arrive |
| `ShopSystem.InvoiceIsThere` | packages/db/src/purchases.ts:236-265 | asking for the invoice number changes nothing and answers the number stored: every paid purchase has one |
| `ShopSystem.NoteIsThere` | packages/db/src/purchases.ts:283-313 | asking for a processed refund's credit-note number changes nothing and answers the number stored, which is always there |
| `ShopTheorems.RefundsAgree` | packages/db/src/purchases.ts:467-733 | in every reachable state a paid purchase's refund total, entries, payment status and purchase status agree as the protocol promises |
| `ShopTheorems.CreditsIssuedOnce` | packages/db/src/purchases.ts:324-394 | plan credits are in the ledger iff the purchase became paid, in exactly one entry, to its user, for its credits, on its lot, expiring the plan's days after the payment |
| `ShopTheorems.PaidStaysPaid` | packages/db/src/purchases.ts:324-446 | no step takes a paid purchase back to unpaid, or a refunded one back to paid (also packages/db/src/purchases.ts:585-689) |
| `ShopOutcomes.StatusMovesIff` | packages/db/src/purchases.ts:324-445 | in every reachable shop a step changes statuses exactly so: an unpaid purchase is paid by a payment whatever became of it, a created one fails, a created or failed one expires, and a paid one is refunded by the refund that completes it (also packages/db/src/purchases.ts:585-689) |
| `ShopOutcomes.PaidIsInvoiced` | packages/db/src/purchases.ts:324-395 | in every reachable shop a payment that counts is captured under its id, and its purchase gets an invoice numbered one past the last of the year of the payment (also packages/db/src/purchases.ts:236-270) |
| `ShopOutcomes.NumberedLater` | packages/db/src/purchases.ts:236-320 | records from before numbers were kept get theirs when asked for, one past the last of the series: a paid purchase in the year of its payment, a processed refund in the year of the asking |
| `ShopOutcomes.FailureReleasesIff` | packages/db/src/purchases.ts:401-430 | in every reachable shop a failed attempt gives the order's coupon use back iff the order itself failed |
| `ShopTheorems.FullRefundEmptiesLotIff` | packages/db/src/purchases.ts:633-645 | a full refund leaves nothing in the purchase's lot iff no earlier refund of its id has withdrawn or nothing was left, and reports exactly what it took (also packages/db/src/credits.ts:303-341) |
| `ShopTheorems.PaidLotGainsIff` | packages/db/src/credits.ts:208-248 | in every reachable state a step raises the credits of a paid or refunded purchase's lot iff it settles, with a refund, an unsettled reservation held on that lot (also packages/db/src/purchases.ts:633-645) |
| `LotRefills.LotGainsIff` | packages/db/src/credits.ts:208-248 | any ledger operation raises a lot in use iff it refunds a reservation held on it, and then by one |
| `ShopExamples.EmptiedLotRefills` | packages/db/src/purchases.ts:633-645 | a run from the empty database: a purchase is refunded in full while an interview holds one of its credits, its lot is empty, and the interview's refund puts one back (also packages/db/src/credits.ts:208-248) |
| `ShopTheorems.CouponsAgree` | packages/db/src/purchases.ts:110-227 | in every reachable state usedCount and each user's held are the numbers of unreleased redemptions, and every redemption follows its purchase's status |
| `ShopOutcomes.OrderTakenIff` | packages/db/src/purchases.ts:110-148 | in every reachable shop an order is taken iff it needs no coupon or the coupon has a use left, for anyone and for its user, counted in the redemptions themselves; then purchase, reserved use and payment are there, else nothing changed |
| `ShopTheorems.OnlyLatePaymentsOverrun` | packages/db/src/purchases.ts:110-148 | over any run a coupon passes its limits by at most the number of payments that arrived after their use was released (also packages/db/src/purchases.ts:183-227) |
| `ShopTheorems.LimitBreaksIff` | packages/db/src/purchases.ts:183-227 | in every reachable state a step takes a coupon from within its limit to past it iff it is a late payment, whose use was given back, and the last use was taken when it arrived (also packages/db/src/purchases.ts:110-148) |
| `ShopExamples.LatePaymentOverruns` | packages/db/src/purchases.ts:183-227 | a run from the empty database in which a coupon for one use is used twice |
| `ShopTheorems.UserLimitBreaksIff` | packages/db/src/purchases.ts:183-227 | and it takes a user from within their own limit of the coupon to past it iff it is a late payment of that user's, and the last use allowed to them was held when it arrived (also packages/db/src/purchases.ts:110-148) |
| `ShopExamples.LatePaymentOverrunsUser` | packages/db/src/purchases.ts:183-227 | a run from the empty database in which one user, allowed one use of a coupon, uses it twice |
| `ShopTheorems.SeriesHasNoGaps` | packages/db/src/purchases.ts:229-313 | a number of a series is stored somewhere iff it is between 1 and the counter, and never in two places |
| `ShopTheorems.DocumentsFollow` | packages/db/src/purchases.ts:236-265 | a purchase has an invoice number iff it is paid or refunded, a refund has a credit note iff it is processed (also packages/db/src/purchases.ts:377-377, packages/db/src/purchases.ts:646-654) |
| `ShopTheorems.ReconcileMakesProgress` | packages/db/src/purchases.ts:751-786 | reconciling an open refund waits, releases a claim at least 15 minutes old that the gateway never got, or completes the pending refund the gateway made; each only when the open entry calls for it, and what it does takes effect, unless an earlier entry of the same id is processed |
| `RefundIds.EachRefundOnce` | packages/db/src/purchases.ts:585-615 | each gateway refund is applied at most once in a run, whoever reports it and however often, as long as no answer spoils the record; RefundIds.Spoils says when, before the answer is recorded (also packages/db/src/purchases.ts:536-567) |
| `RefundIds.AnswerCountsAgainIff` | packages/db/src/purchases.ts:557-567 | after an answer some refund applied before can be counted again iff the claim's entry was processed under another id that no later processed entry has, or was not processed and comes before the processed entry of the very refund the answer names (also packages/db/src/purchases.ts:604-614) |
| `ShopExamples.DashboardRefundCountsTwice` | packages/db/src/purchases.ts:557-567 | a run from the empty database: a dashboard refund takes the place of a same-amount claim, the answer renames its entry, and it is counted a second time (also packages/db/src/purchases.ts:604-632) |
| `ShopExamples.ReleasedClaimCountsTwice` | packages/db/src/purchases.ts:557-567 | another: a claim is released as stale, the refund is reported, the late answer gives the released entry its id, and it is counted a second time (also packages/db/src/purchases.ts:514-533) |
| `PurchaseStore.PurchaseStore.TakeCouponUse` | packages/db/src/purchases.ts:110-148 | the conditional increments take one use or leave everything as it was, as the coupon model says |
| `PurchaseStore.PurchaseStore.MarkPurchasePaid` | packages/db/src/purchases.ts:324-394 | the sequence of updates in the transaction leaves the database as the purchase model says |
| `PurchaseStore.PurchaseStore.MarkPurchaseFailed` | packages/db/src/purchases.ts:401-429 | the same for a failed attempt |
| `PurchaseStore.PurchaseStore.ExpirePurchase` | packages/db/src/purchases.ts:432-446 | the same for an expired order |
| `PurchaseStore.PurchaseStore.MarkPurchaseRefunded` | packages/db/src/purchases.ts:585-689 | the same for a processed refund: entry, total, credits withdrawn, note number, statuses and coupon |
| `PurchaseStore.PurchaseStore.RequestRefund` | apps/api/src/modules/payments/payments.service.ts:954-1024 | an admin's refund from claim to answer gives the state of the run of its steps, and asks nothing of the gateway and changes nothing without the claim (also packages/db/src/purchases.ts:417-540) |
| `RefundRequests.RequestEnds` | apps/api/src/modules/payments/payments.service.ts:954-1024 | a request nobody interrupts adds one entry that stands as the gateway replied; the total grows by the amount iff the refund was made; the payment is open for another refund unless this one is pending or all is refunded; only a refusal flags it, and only a refund that was made touches anything but the payment |
| `ModelCalls.Router.CallModel` | packages/ai-core/src/router.ts:364-512 | the retry loop makes the calls the policy prescribes, ends as it prescribes, writes one usage row per call and returns the sum of their costs |
| `ModelCalls.CallsAreBounded` | packages/ai-core/src/router.ts:364-512 | at least one and at most retries + 2 provider calls, whatever the provider answers |
| `ModelOutcomes.CallsGoOnIff` | packages/ai-core/src/router.ts:364-512 | for every script the n-th call is followed by another iff it failed for a while only with retries left and the caller waits, or is the first invalid output; and the last call's reply is how the series ends |
| `ModelOutcomes.TimeIsSpent` | packages/ai-core/src/router.ts:268-271 | for every script the series takes exactly the time of its calls and of the pauses before its retries: the draw, at most the base doubled with each failure and at most the maximum (also packages/ai-core/src/router.ts:364-512) |
| `ModelOutcomes.RowSaysHow` | packages/ai-core/src/router.ts:317-362 | each call's usage row says how that call went (also packages/ai-core/src/router.ts:364-512) |
| `ModelCalls.RowsAreCalls` | packages/ai-core/src/router.ts:317-362 | there is one usage row per call, numbered from one, and together they cost what the answered calls cost |
| `ModelCalls.TimeFrom` | packages/ai-core/src/router.ts:268-271 | calls and backoffs together take at most the timeouts of the calls still possible and the largest backoffs still due (also packages/ai-core/src/router.ts:364-512) |
| `ModelCalls.LeaseFitsIff` | packages/ai-core/src/router.ts:67-75 | under the default policy every series of calls and backoffs fits the slot's lease if and only if there are at most four retries (also packages/ai-core/src/router.ts:238-256, packages/ai-core/src/router.ts:268-271) |
| `Slots.SlotStore.AcquireSlot` | packages/ai-core/src/coordination.ts:81-95 | expired leases are dropped one by one and a lease is taken iff there is room (also packages/ai-core/src/coordination.ts:25-33) |
| `Slots.GivenIffRoom` | packages/ai-core/src/coordination.ts:86-94 | a slot is given iff fewer leases than the limit have not expired; the expired ones are gone, the others stay |
| `Slots.GivenIffFewer` | packages/ai-core/src/coordination.ts:86-97 | over any run of prompt holders one more gets a slot iff there are fewer than the limit |
| `Slots.NeverOverLimit` | packages/ai-core/src/coordination.ts:25-33 | as long as every holder returns its slot within its lease, there are never more holders than the limit (also packages/ai-core/src/coordination.ts:81-97) |
| `SlotLeases.ConcurrencyHolds` | packages/ai-core/src/router.ts:238-256 | with at most four retries, whatever the provider answers and however takes and returns interleave, a model never has more callers than its concurrency: callers that give back when their calls are done are within their lease (also packages/ai-core/src/router.ts:364-512, packages/ai-core/src/coordination.ts:81-97) |
| `SlotLeases.FiveRetriesOverrun` | packages/ai-core/src/router.ts:238-256 | with five retries, for every timeout some answers let two callers hold the only slot, although both give back as soon as they are done (also packages/ai-core/src/router.ts:268-271) |
| `Slots.LateHolderIsForgotten` | packages/ai-core/src/coordination.ts:25-33 | and a holder that outstays its lease can be joined by another although the limit is one |
| `ModelChain.ThroughChain` | packages/ai-core/src/router.ts:794-870 | the loop over the chain, the entries in priority order, does what trying them one after the other does: attempts, usage rows and ending |
| `ModelChain.PriorityOrder` | packages/ai-core/src/router.ts:794-815 | sorting by priority is a permutation in order |
| `ModelChain.EqualsKeepTheirOrder` | packages/ai-core/src/router.ts:794-815 | models of equal priority are tried in the order in which they are configured |
| `ModelChain.AttemptsFollowChain` | packages/ai-core/src/router.ts:653-699 | one attempt summary per entry tried, in order, and only the last of them served (also packages/ai-core/src/router.ts:794-870) |
| `ModelChain.ExhaustedChain` | packages/ai-core/src/router.ts:794-870 | an exhausted chain has one summary per entry, in priority order, none of them served |
| `ModelOutcomes.FirstServes` | packages/ai-core/src/router.ts:794-870 | the feature is served by the first model that serves unless the caller aborts before; the chain is exhausted iff none serves and the caller does not abort; and every call on the way has its row |
| `ModelStream.OneCall` | packages/ai-core/src/router.ts:526-651 | the calls before the last had nothing to emit and all the last one sent is emitted; the model serves iff that call finished, and has emitted nothing if it did not serve |
| `ModelStream.SingleProviderCall` | packages/ai-core/src/router.ts:526-651 | everything a stream delivers comes from a single provider call of a single model, the serving one when it is served (also packages/ai-core/src/router.ts:794-870) |
| `ModelOutcomes.StreamGoesOnIff` | packages/ai-core/src/router.ts:526-651 | a stream is called again iff it broke off for a while only, before any text, with retries left; a model that declines before any text is passed over, one that stops after some is interrupted |
| `ModelOutcomes.FirstStreams` | packages/ai-core/src/router.ts:526-651 | the chain's stream is that of the first model not passed over, and there is none iff all are (also packages/ai-core/src/router.ts:794-870) |
| `ModelStream.TextsAreAll` | packages/ai-core/src/router.ts:526-651 | what is emitted of a call is together all that it sent, and no piece is empty |
| `ModelStream.PumpDelivers` | packages/ai-core/src/router.ts:1209-1255 | however producer and consumer interleave, what is delivered is a prefix of what was emitted; the end comes after everything and is the producer's; the consumer is never parked while something waits (also packages/ai-core/src/router.ts:1325-1367) |
| `ModelStream.PumpTakesAll` | packages/ai-core/src/router.ts:1209-1255 | over any steps the pump takes all that the producer sends until it settles, and its first outcome; the consumer parks iff nothing waits (also packages/ai-core/src/router.ts:1325-1367) |
| `ModelStream.ConsumerGetsOn` | packages/ai-core/src/router.ts:1209-1255 | while an item or the outcome waits, each turn of the consumer makes progress (also packages/ai-core/src/router.ts:1325-1367) |
| `ConfigCache.OneLoadPerGeneration` | packages/ai-core/src/config-source.ts:36-52 | however calls, loads and invalidations interleave, there is at most one load under way per generation |
| `ConfigCache.AnswersAreFresh` | packages/ai-core/src/config-source.ts:19-52 | every call is answered with a configuration at least as new as the one stored at the last invalidation before the call, so long as no failing load finds an outdated value |
| `ConfigCache.StepKeepsFreshIff` | packages/ai-core/src/config-source.ts:26-31 | a step loses that freshness if and only if it is a failed load that finds a value the last invalidation outdated |
| `ConfigCache.LateFailureRevives` | packages/ai-core/src/config-source.ts:26-31 | a concrete run in which an older load's failure revives the old configuration after the invalidation |
| `ConfigServing.ServedWhileItLastsIff` | packages/ai-core/src/config-source.ts:19-47 | after a load ended, and until another ends or an invalidation, a call is answered at once with its value iff its time lasts, five seconds at most after a failure; later calls wait for the load under way, or start one |
| `ConfigServing.LoadAnswersItsCallers` | packages/ai-core/src/config-source.ts:19-47 | the end of a load answers those who waited for it and nobody else, and only a failure with nothing to fall back on leaves them without |
| `MediaSafety.StepKeepsOk` | packages/db/src/media.ts:158-222 | every step of uploads, builds, deletes and sweeps, and every crash of one, keeps the recording's invariant; a delete is given any time up to its beginning, as in a long sweep (also packages/db/src/media.ts:236-298, packages/db/src/media.ts:396-446, apps/api/src/modules/media/media.service.ts:260-305) |
| `MediaSafety.NothingIsForgotten` | packages/db/src/media.ts:158-222 | in every state reached by builds that write before the delete's time plus the delay, each stored segment or joined file of a deleted recording is named on its record with a sweep due, belongs to a writer in flight, or was left by an upload that crashed (also packages/db/src/media.ts:396-446, apps/api/src/modules/media/media.service.ts:260-305) |
| `MediaSafety.DeletedIsGone` | packages/db/src/media.ts:158-222 | then, with no writer in flight and no sweep due, nothing of a deleted recording is left in storage but what crashed uploads left (also packages/db/src/media.ts:396-446) |
| `MediaRuns.PromptBuildsAreSwept` | packages/db/src/media.ts:158-206 | when deletes are given the time they begin, builds that write within the delay of their claim leave nothing behind (also packages/db/src/media.ts:236-262) |
| `MediaForgotten.StepForgetsIff` | packages/db/src/media.ts:158-206 | after any run whatever, a step takes a recording with nothing forgotten to one with something forgotten iff, with the recording deleted and its file there, it is the end or the crash of the file's last writer once no sweep is due, or the end of the sweep that is due once no build has the file in hand (also packages/db/src/media.ts:236-298, packages/db/src/media.ts:368-446) |
| `MediaForgotten.NothingForgottenIff` | packages/db/src/media.ts:158-206 | nothing of a deleted recording is forgotten at any time along a run iff no step of the run is one of those three (also packages/db/src/media.ts:236-446) |
| `MediaForgotten.SegmentsAreNeverForgotten` | packages/db/src/media.ts:158-206 | in any run whatever, every stored segment of a recording in deletion, or deleted, still has its upload under way, or is listed with a delete or sweep to come: builds can only make the joined file forgotten (segments of crashed uploads are named apart) (also packages/db/src/media.ts:368-394) |
| `MediaRuns.LongSweepForgets` | packages/db/src/media.ts:368-446 | a run of the code from the new recording: a delete given the beginning of a long sweep as its time lets a build, within the delay of its claim, leave its file behind (also packages/db/src/media.ts:158-206) |
| `MediaRuns.SweepForgets` | packages/db/src/media.ts:236-298 | a second such run, in which the build writes and ends while the sweep is under way, and the end of the sweep leaves the file behind (also packages/db/src/media.ts:368-394) |
| `MediaSafety.DeletedStaysBare` | packages/db/src/media.ts:186-206 | once deleted a recording stays deleted, with no segment listed and no file to play, whatever comes late |
| `MediaFencing.ClaimStandsIff` | packages/db/src/media.ts:236-298 | over any run a build's claim stands at the end iff it stood before and no closing, claim, delete or end of the build came, or the file was claimed again in that very millisecond and nothing came after (also packages/db/src/media.ts:158-172) |
| `MediaFencing.LostStaysLost` | packages/db/src/media.ts:236-298 | once its millisecond is over, a claim that was lost never stands again |
| `MediaFencing.BuildMarksIff` | packages/db/src/media.ts:236-298 | from a build's claim to its report, whatever happens in between: it marks the file READY iff nothing ended its claim, or the same millisecond's claim was given again; otherwise the record stays as it was |
| `MediaFencing.FencedBuildsMarkNothing` | packages/db/src/media.ts:236-298 | so without another claim in the same millisecond a build marks the file READY iff nothing ended its claim |
| `MediaSafety.BuildsAreRetried` | packages/db/src/media.ts:266-330 | a build is tried again exactly after a failure with attempts left; READY, UNAVAILABLE and FAILED say how it ended, and a request queues it again |
| `MediaProgress.ListedIsStored` | apps/api/src/modules/media/media.service.ts:233-315 | however uploads, retries and builds interleave, every segment a recording lists is in storage until it is deleted, and so is what crashed uploads are said to have stored |
| `MediaProgress.UploadBeginsIff` | apps/api/src/modules/media/media.service.ts:233-272 | an upload begins iff no delete has begun and its segment is not listed yet |
| `MediaProgress.UploadEnds` | apps/api/src/modules/media/media.service.ts:260-315 | in any run an upload whose object is stored ends with its segment listed iff no delete has begun; otherwise its object is deleted again or left for a sweep half an hour later (also packages/db/src/media.ts:214-222) |
| `MediaProgress.DeletedIsFrozen` | packages/db/src/media.ts:73-140 | once its delete has begun nothing closes, extends or builds a recording, over any steps: it stays as it was until it is emptied, and once deleted for good (also packages/db/src/media.ts:158-206, packages/db/src/media.ts:236-298) |
| `MediaProgress.AbandonedIsClaimedIff` | packages/db/src/media.ts:224-262 | after a claim and any steps that leave it standing, another claim is given iff more than half an hour has passed and the recording is still closed |
| `MediaProgress.ClosedIsBuilt` | packages/db/src/media.ts:73-139 | a recording closed with segments can be built, unless it is being deleted; one without segments has nothing to build (also packages/db/src/media.ts:236-262) |
| `MediaSafety.SameMillisecondClaims` | packages/db/src/media.ts:236-298 | the claim's time tells builds apart only to the millisecond |
| `MediaStore.MissingSegments` | packages/db/src/media.ts:19-27 | the missing indexes are exactly those below the expected number, or below the highest stored, that were never stored, in order |
| `MediaStore.MediaStore.DeleteMediaAsset` | packages/db/src/media.ts:158-206 | a delete removes exactly its keys and marks the record with them and a sweep; a storage failure leaves it DELETING; a deleted recording is left alone |
| `MediaStore.MediaStore.ClaimMediaFileBuild` | packages/db/src/media.ts:236-262 | a claim is given iff the file is waiting or its lease ran out, and then it stands |
| `MediaStore.MediaStore.SweepDeleted` | packages/db/src/media.ts:396-446 | a due sweep deletes every key on the record and clears the sweep; a failure keeps it due |
| `Base32.Base32Encode` | packages/auth-core/src/totp.ts:13-27 | the encoder's loop, on a word that drops its high bits, writes digits whose bits are the bytes' bits padded with fewer than five zeros |
| `Base32.Base32Decode` | packages/auth-core/src/totp.ts:29-45 | the decoder's loop gives the whole bytes of the digits' bits, and fails iff a character, blanks aside and raised to upper case, is outside the alphabet |
| `Base32.EncodingIsUnique` | packages/auth-core/src/totp.ts:13-27 | a byte string has one encoding |
| `Base32.DecodeEncodes` | packages/auth-core/src/totp.ts:13-45 | decoding an encoding gives the bytes back, for every byte string |
| `Base32.RoundTrip` | packages/auth-core/src/totp.ts:13-45 | the two loops after each other, on a 32-bit word, return every byte string unchanged |
| `Totp.VerifyTotp` | packages/auth-core/src/totp.ts:74-95 | the loop over the window finds the earliest matching step, and refuses one already used |
| `Totp.AcceptedIff` | packages/auth-core/src/totp.ts:74-95 | a six-digit code is accepted iff it is the code of a step in the window and of no step up to the last used one there |
| `Totp.AcceptedInTime` | packages/auth-core/src/totp.ts:74-95 | an unused code is accepted for 30 seconds times the window before and after the moment it was made (also packages/auth-core/src/totp.ts:53-53) |
| `Totp.AcceptedOnlyInTime` | packages/auth-core/src/totp.ts:74-95 | a code is accepted no sooner than the window before its half minute begins and no later than the window after it ends |
| `Totp.NoReplay` | packages/auth-core/src/totp.ts:74-95 | over any series of attempts the accepted steps strictly increase: none is accepted twice |
| `Totp.OneMoreAttempt` | packages/auth-core/src/totp.ts:74-95 | one attempt more accepts the same steps, and its own iff it is verified after the last of them |
| `Csv.InBatches` | packages/db/src/campaign-results.ts:432-452 | batching changes nothing: the chunks add up to the header and all the lines |
| `Csv.ParseCsvRows` | packages/shared-types/src/invite-csv.ts:14-51 | the character loop gives the rows that reading character by character from a clean start gives |
| `Csv.TextIsNoFormula` | packages/db/src/campaign-results.ts:381-387 | no text cell is shown with a first character that a spreadsheet would run, and an apostrophe is all that is ever added |
| `Csv.ColumnsLineUp` | packages/db/src/campaign-results.ts:389-428 | every value stands under its column: the fixed ones, each score under its dimension, the interview id last |
| `Csv.CellIsRead` | packages/db/src/campaign-results.ts:381-387 | a printed cell, whatever it contains, is read back as what it says, up to the comma or line end after it (also packages/shared-types/src/invite-csv.ts:14-51) |
| `Csv.PrintedPlainIff` | packages/db/src/campaign-results.ts:381-387 | a cell is printed as it stands iff it has no comma, quote or line break, and in quotes otherwise |
| `Csv.TableRoundTrip` | packages/db/src/campaign-results.ts:381-428 | parsing a printed table of non-empty rows gives its cells back, whatever quotes, commas, CRs and LFs they hold (also packages/shared-types/src/invite-csv.ts:14-51) |
| `Csv.AnyTextIsRead` | packages/shared-types/src/invite-csv.ts:14-51 | rows with any one kind of line end are read back, with a byte order mark or without; a last row without an end is read iff it is not a single empty cell (also packages/db/src/campaign-results.ts:381-428) |
| `Csv.ResultsRoundTrip` | packages/db/src/campaign-results.ts:376-452 | the exported results, however batched, parse to the header and the rows (also packages/shared-types/src/invite-csv.ts:14-51) |
| `Months.CountMonths` | packages/documents/src/linkedin.ts:130-146 | the sort-and-merge loop counts exactly the distinct months the spans cover (also packages/scoring-core/src/ats.ts:290-304) |
| `Months.ExperienceYears` | packages/documents/src/linkedin.ts:121-149 | the profile's years are the months covered in tenths of a year, at most sixty years, and none when no role is dated |
| `Months.CandidateYears` | packages/scoring-core/src/ats.ts:283-307 | the matcher's years are the same months without the cap, unless a total was parsed |
| `Months.OrderDoesNotMatter` | packages/documents/src/linkedin.ts:121-149 | neither answer depends on the order or repetition of roles, not even whether there is one (also packages/scoring-core/src/ats.ts:283-307) |
| `Months.MonthCountedIff` | packages/documents/src/linkedin.ts:115-149 | a month is counted iff some role with a start covers it, from its first month to its last, which is now for a current role or one without an end |
| `Months.YearsAreWhole` | packages/documents/src/linkedin.ts:115-120 | a role known by its years alone counts every month from the first January to the last December |
| `Scoring.EffectiveWeights` | packages/scoring-core/src/index.ts:30-57 | the loops over categories and dimensions give each dimension its share as specified |
| `Scoring.WeightsAreShares` | packages/scoring-core/src/index.ts:30-57 | weights are not negative and add up to one for any blueprint with a dimension |
| `Scoring.CategoryGetsItsWeight` | packages/scoring-core/src/index.ts:30-50 | inside a covered category the raw weights add up to the category's weight |
| `Scoring.CategoryCountsForItsWeight` | packages/scoring-core/src/index.ts:30-57 | each covered category counts for its weight over the sum of those covered |
| `ScoringMeans.WeightsInProportion` | packages/scoring-core/src/index.ts:39-66 | inside a category, and everywhere when no covered category is weighted, weights are in proportion to the blueprint's; dimensions it weighs alike count alike |
| `ScoringMeans.CategoriesInProportion` | packages/scoring-core/src/index.ts:39-66 | when a covered category is weighted at all, covered categories count in proportion to what the template gives them |
| `Scoring.GuardHolds` | packages/scoring-core/src/index.ts:116-152 | an AI score moves a dimension at most 25 points from what its evidence alone says, and makes no score appear or disappear |
| `Scoring.AiScoreStandsInBand` | packages/scoring-core/src/index.ts:138-152 | an AI score inside the band stands unchanged, one outside is moved to the nearer end and marked, a missing one gives way to the evidence |
| `Scoring.StrengthScale` | packages/scoring-core/src/index.ts:112-118 | the evidence score rises with the mean strength, from 0 at -2 over 50 at 0 to 100 at 2 |
| `ScoringMeans.StrengthIsLinear` | packages/scoring-core/src/index.ts:112-118 | it is 25 points for each unit of strength around 50, to the nearest whole score |
| `ScoringMeans.ScoreIffEvidence` | packages/scoring-core/src/index.ts:130-152 | there is a score iff there is evidence, whatever the AI says; where the AI gives none it is the evidence's own |
| `Scoring.Aggregate` | packages/scoring-core/src/index.ts:172-194 | the aggregation loop gives the weighted mean over the scored dimensions, and none below the minimum assessed weight |
| `ScoringMeans.OverallIsMean` | packages/scoring-core/src/index.ts:172-194 | the overall score is what the scores balance around, to the nearest whole score, halves up: their weighted deviations from it sum to at most half of the scored weight |
| `ScoringMeans.OverallIff` | packages/scoring-core/src/index.ts:154-194 | there is an overall score iff half of the weight is scored, up to that weight's rounding to four decimals |
| `Scoring.HalfTheWeightIsEnough` | packages/scoring-core/src/index.ts:154-194 | half of the weight scored gives an overall score, less than that, but for rounding, gives none |
| `Scoring.OverallBetween` | packages/scoring-core/src/index.ts:172-194 | the overall score lies between the lowest and the highest scored dimension |
| `Scoring.AiMovesOverallLittle` | packages/scoring-core/src/index.ts:138-152 | whatever scores the AI gives, the overall exists iff the evidence-only overall does and differs from it by at most 25 points (also packages/scoring-core/src/index.ts:172-194) |
| `Streaks.ComputeStreak` | packages/scoring-core/src/progress.ts:58-76 | the scan gives the longest run of consecutive days up to today, the run that ends today or yesterday, and zero once a day was missed |
| `Streaks.FirstRunDay` | packages/scoring-core/src/progress.ts:79-89 | the scan gives the earliest day that completes a run of the length, and none iff there is no such run |
| `Streaks.ScansAgree` | packages/scoring-core/src/progress.ts:58-89 | the two scans agree: a run of some length was completed iff the longest run is as long, and the current run is never longer |
| `Streaks.PracticeOnlyHelps` | packages/scoring-core/src/progress.ts:58-76 | more days of practice never shorten the longest run; the streak is alive iff there was practice today or yesterday |

## Left out

- Entries without a lot: the ledger schema allows a missing lot id on old entries; here every entry has one.
- Replay order: ledger entries are replayed in commit order; the order of their ids and times in the database is not modelled.
- Legacy data: redemptions without a status, refunds without entries and payments from before reservations are assumed migrated.
- Orders: creating an order is one step (purchase, payment, coupon use); plans, prices, coupons' validity and discounts, order amounts and gateway order ids are not modelled.
- Coupon edits: a coupon's limits do not change after it is created.
- Refund requests: what is checked before the claim (credits used, the amount and the credits offered) and the audit records are left out.
- Financial years: the year of a date is a parameter (`fy`), and a document number is a pair of series and count, not its printed form.
- Reconciliation of unpaid orders: the lookup of an order at the gateway ends in the steps that are modelled (paid, failed, expired) and is itself left out; so are status histories and the single refund field kept for old clients.
- Campaign budgets: claiming a campaign's budget before a sponsored start happens outside the modelled effects; only that settlement never changes it is proved.
- Interview mode: switching a session between voice and text, before the start or during the interview, is left out; the mode is a fixed field.
- `transitionSession`: restricted to role analysis and cancellation of sessions that never started; what happens otherwise is proved as a result.
- Session bookkeeping: state history, end reason and last-seen time are left out.
- Question texts: difficulty, objectives, recent results and the angle of a follow-up do not affect what is proved; the collation of competency keys is a parameter (`keyRank`).
- One-time codes: the code of a step is an abstract function of the secret (`codeAt`); the hash itself is not modelled.
- Text encoding: text, in CSV files and in Base32, is a sequence of characters, not of UTF-16 units, and what is not text in a cell is given as its text.
- Date texts: months and years are numbers, parsed elsewhere.
- Scoring: weights and scores are exact reals, dimensions are told apart by position (keys are distinct), and evidence statistics, confidence and bands are not modelled.
- Router: token counts, prices, logging and the text of the repair message are left out; skipped entries (circuit open, disabled, no key, no slot) are one case; time spent metering between calls is not counted against the lease.
- Slots: the expiry of a whole slot set, and going on without slots when the store is down, are left out.
- Streaming: an early stop by the consumer is an abort of the call; times between deltas are not modelled.
- Configuration loads: a load's end and the clearing of the shared promise are one step; what is loaded is a revision number.
- Recordings: one recording, its segments and its joined file; manifests are left out, because a finalisation racing a delete can leave one behind. What an upload stored before it crashed is remembered (`lost`), and nothing in the code removes it unless a delete lists its segment.
- Circuit breaker, pricing and practice schedules: left out.
- Everything else: HTTP and sockets, user interfaces, schemas, analytics, erasure, text heuristics and cryptography.
