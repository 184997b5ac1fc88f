# Goals, Cycles, their AI budget, and what they rest on

This project models the workspace backend: Goals that move through Cycles and reviews, the AI operations
that work on their texts, the monthly budget and the rolling quota those operations are charged to, the
selection of what an AI provider is shown, the data keys that encrypt content, and the limit on anonymous
Users. It proves that these parts keep their promises in every state any interleaving of commands can reach.

## How it is put together

- **Rows** holds one datatype a table and the history the proofs keep beside them: every AI operation ever
  accepted with its fate, every identifier handed out, and the latest committed clock. **Schema** and **Keys**
  hold the unique indexes. **Text**, **CycleDomain** and **GoalDomain** are the pure domain rules, **Views** the
  read models with their validators, **Ledger** the money side of an operation.
- **UseCases** says what each command does to the rows and what it answers. **Statements** are the guarded
  updates as functions that also say how many rows they affected; **Queries** and the `...Transactions` modules
  are the commands as written: statement by statement on a copy of the rows, with every row-count check, and
  the copy dropped on a refusal. Each is proved to do what its use case says. **Database** holds the class `Store`
  with one method a command; its state is always the state of a run.
- **Runs** is the protocol: an event per transaction, what the environment guarantees for it (`Enabled`), runs,
  and reachable states. **LedgerInvariant**, **Lifecycle...**, **Targets**, **Quota**, **Soundness** and the `...Steps`
  modules prove that every step keeps the invariant; **Operations** and **Persistence** what endures over runs.
  **Outcomes** lists the few worlds a begin, a report, an adoption or the end of a Draft can leave, and **Quiet**
  what most transactions leave alone. **Accounts**, **Overrun**, **Landing**, **Leases**, **Reads**, **Laws**, **Replays** and
  **Answers** are the results over runs; **Edits**, **Transitions**, **Reviews**, **Deletions**, **Admissions**,
  **Suggestions** and **Refusals** say, row by row, exactly when each command goes through and what it leaves;
  **Grounds** derives from the invariant why no transaction fails halfway.
- **Selection**, **ContextCheck** and **Truncation** are the context selector, its independent check and the
  truncating search, **ContextAgreement** when the two agree, **Contexts** what a begin makes of them;
  **AiOutput** the output validators; **Attempts** the retry loop, its cost and its time.
- **KeyCache**, **KeyRing** and **KeyService** are the key cache over byte arrays, the key store with all racing
  processes, and the service over both. **RateLimiter** is the anonymous limiter.

## What is assumed

- An operation's identifiers are new; a provider's cost is at most the reservation (proved of the retry loop in
  `Leases.CostIsPlausible`) and its output has passed its validator (proved storable in **AiOutput**).
- An operation is accepted with a clock at most 15 minutes behind the latest committed one, the margin the
  retention deadline is built on.
- Requests are stored as they are where the source stores and compares their hashes.

## Findings

- Replaying a completion is refused after its Review Draft's success signal was edited, which is a legal edit
  (backend/internal/application/workspace/cycle_use_cases.go:699); the replay is answered exactly while the
  signal is unedited or the Draft is gone (`Replays.EditedSignalRefusesReplay`, `Replays.CompleteReplayIff`).
- A month can go above its limit (backend/internal/application/workspace/goal_draft_use_cases.go:914-917 and
  backend/internal/infrastructure/postgres/account_repository.go:248-264): exactly when a released operation
  reports a cost, or a deleted Account leaves exposures, for which there is no room (`Overrun.LimitIsExceeded`,
  `Overrun.OverrunIff`), and by at most what was released before it was charged (`Accounts.BudgetBound`).
- The selector and its check can disagree (backend/internal/application/workspace/context_selector.go:170-177 and
  backend/internal/application/workspace/action_ai_use_cases.go:692-704): over all requests exactly when
  appending the truncation marker lowers some text's token count (`ContextAgreement.SelectorCanDisagree`,
  `ContextAgreement.AgreesIff`).
- The lease inequality counts one pause (backend/internal/config/config.go:299): it is enough exactly for at most
  two attempts, or when the maximum pause covers all of them (`Attempts.LeaseCoversIff`).

## Model

| member | source | states |
|---|---|---|
| Runs.StepKeepsInv | backend/internal/application/workspace/goal_draft_use_cases.go:221-333 | every transaction keeps the whole invariant: ledger, budget bound, lifecycle, targets of running operations, unique rows, goal limit, quota, deletion receipts |
| Runs.RunKeepsInv | backend/internal/application/workspace/action_ai_use_cases.go:67-285 | so does every interleaving of transactions, begin and finish of an AI operation being separate ones |
| Runs.ReachableInv | backend/internal/application/workspace/action_ai_use_cases.go:319-501 | the invariant holds in every state reachable from the empty database |
| Runs.RunEndures | backend/internal/application/workspace/goal_use_cases.go:257-400 | over any run a Goal keeps its owner, a terminated Goal and a closed Cycle keep their rows while the Goal exists, and a deleted Goal does not come back |
| Runs.RunKeepsGenerations | backend/internal/application/workspace/action_ai_use_cases.go:287-317 | over any run a generation keeps the command it was accepted for, and once it has ended its outcome; its identifier is not used again |
| Accounts.LedgerConserved | backend/internal/application/workspace/action_ai_use_cases.go:214-279 | in every reachable state each month holds exactly: reserved = reservations of the operations still running, actual = costs of those settled, unattributed = reservations of those written off, by month of acceptance |
| Accounts.FateFinal | backend/internal/application/workspace/action_ai_use_cases.go:579-646 | over every run an operation is running, then released or settled or written off; a settled or written-off one never changes again, is charged at most its reservation, and keeps its owner, month and reservation |
| Accounts.BudgetBound | backend/internal/application/workspace/goal_draft_use_cases.go:512-533 | in every reachable state the three amounts of a month are at most the limit plus the reservations that were released first and charged or written off later |
| Overrun.OverrunIff | backend/internal/application/workspace/goal_draft_use_cases.go:895-925 | a reachable month within the limit is above it after a transaction iff a report comes too late for its reservation and costs more than there is room for, or an Account is deleted whose released operations still expose more than there is room for; all of it rows a caller can look up |
| Overrun.LimitIsExceeded | backend/internal/application/workspace/goal_draft_use_cases.go:912-917 | and it happens: a run of two attempts on a limit for one, the first recovered and reporting late, ends above the limit |
| Accounts.LimitAtAcceptance | backend/internal/application/workspace/action_ai_use_cases.go:214-239 | when an operation is accepted its month is within the plain limit |
| Accounts.RollingQuota | backend/internal/application/workspace/ai_usage_retention.go:5-16 | in every reachable state a User has at most the quota of accepted operations in any half-open 24-hour window, although usage rows are deleted and clocks commit out of order by up to the margin |
| LedgerInvariant.AcceptKeepsLedger | backend/internal/application/workspace/action_ai_use_cases.go:240-279 | accepting an operation keeps every row and every month in agreement with the history |
| LedgerInvariant.ReleaseKeepsLedger | backend/internal/application/workspace/action_ai_use_cases.go:503-548 | giving back any set of running reservations, month by month, keeps the ledger |
| LedgerInvariant.SettleKeepsLedger | backend/internal/application/workspace/action_ai_use_cases.go:436-484 | settling a running operation moves exactly its reservation out and its cost in |
| LedgerInvariant.SettleLateKeepsLedger | backend/internal/application/workspace/goal_draft_use_cases.go:872-938 | a late settlement charges the acceptance month once and touches nothing else |
| LedgerInvariant.WriteOffKeepsLedger | backend/internal/infrastructure/postgres/account_repository.go:151-281 | deleting an Account moves what its operations still expose to the unattributed amounts, running and released ones each once |
| Landing.FinishLands | backend/internal/application/workspace/action_ai_use_cases.go:365-436 | from begin over any run to finish: if the operation was not recovered its report finds the Cycle active on the current Version with the very Action text and revision it started from; the answer is the provider's failure or its output, row, usage and month record it, and exactly the Action is overwritten |
| Landing.ActionStillThere | backend/internal/application/workspace/cycle_use_cases.go:118-136 | while an Action operation runs, no edit, completion, replan, termination or deletion touches its Cycle's status, Version or Action |
| Leases.StaysRunning | backend/internal/application/workspace/action_ai_use_cases.go:503-548 | over any run without a begin of its User at or past the lease, its own report, or the deletion of its Goal or Account, a running operation is still running and its row and entry are untouched |
| Leases.RunsUntilReport | backend/internal/config/config.go:296-302 | with a validated configuration, if the clocks read meanwhile are no later than the attempts, pauses and finalization may take, an accepted operation of either kind is still running when it reports |
| Leases.ReportsInTime | backend/internal/application/workspace/service.go:480-536 | so its report lands on exactly the Action it started from, without assuming that it is still running |
| Leases.RefinementReportsInTime | backend/internal/application/workspace/goal_draft_use_cases.go:568-720 | and the report of a refinement finds its Draft and is recorded as it came, again without assuming that it is still running |
| Landing.RefineReportLands | backend/internal/application/workspace/goal_draft_use_cases.go:568-720 | while a refinement runs its Draft is there, and its report is recorded as it came without touching any text |
| Landing.LateReportSettles | backend/internal/application/workspace/action_ai_use_cases.go:579-646 | a report for a released operation is charged once, to its acceptance month, whatever became of its rows; every other month stays as it is |
| Landing.RepeatedReport | backend/internal/application/workspace/action_ai_use_cases.go:346-372 | a second report for an operation that is charged or written off changes nothing |
| Landing.AdoptsExactText | backend/internal/application/workspace/goal_draft_use_cases.go:750-789 | a suggestion replaces a Draft body only when the body is exactly the text the refinement started from, and the new body is exactly the output |
| Landing.AdoptedOnce | backend/internal/application/workspace/goal_draft_use_cases.go:757-789 | a suggestion is adopted at most once, over any run |
| Reads.ReachableLifecycle | backend/internal/domain/goal/goal.go:169-280 | in every reachable state: Cycle numbers are exactly 1..next-1 and Version numbers exactly 1..current, each once; active_cycle iff exactly one active Cycle, the last, on the current Version; goal_review iff exactly one Review Draft on the last, completed Cycle; the revision law; the goal limit |
| Reads.NumbersAreExact | backend/internal/domain/goal/goal.go:220-280 | a number is used iff it is below the Goal's counter, and by one row |
| Reads.WorkIsExact | backend/internal/application/workspace/cycle_use_cases.go:208-486 | the status of a Goal and its one piece of current work determine each other |
| Reads.ReachableReads | backend/internal/application/workspace/cycle_use_cases.go:838-897 | no Goal read and no Cycle read of an owner ever fails its validator in a reachable state |
| Reads.CycleReadAccepted | backend/internal/application/workspace/cycle_use_cases.go:838-897 | the Cycle read validator accepts every Cycle: revision sums, status times, and a predecessor that is completed with a non-blank Action within the limit or replanned on the same Version |
| Reads.GoalReadAccepted | backend/internal/application/workspace/goal_use_cases.go:207-245 | the Goal read shows exactly the work the status calls for, and a review date only with a schedule revision |
| Laws.ReachableCycles | backend/internal/domain/cycle/cycle.go:199-301 | every Cycle of every reachable state: revisions add up, times and reason go with the status, texts are storable, what is completed was written in full, and before it comes a completed Cycle at most one Version back or one replanned on the same Version |
| Laws.CycleReadRefuses | backend/internal/application/workspace/cycle_use_cases.go:838-864 | a Cycle read that passes would not with another identity, content revision, time or reason |
| Laws.PredecessorRefuses | backend/internal/application/workspace/cycle_use_cases.go:866-897 | nor with a predecessor that cannot be its own, whatever Action is shown |
| Laws.PreviousRefuses | backend/internal/application/workspace/cycle_use_cases.go:878-897 | nor with an Action that is not the predecessor's, or blank, or too long |
| Laws.GoalReadRefuses | backend/internal/application/workspace/goal_use_cases.go:207-245 | a Goal read that passes would not with other work than its status calls for |
| Lifecycle.SameGoalInv | backend/internal/domain/goal/goal.go:169-346 | what holds of a Goal depends on that Goal's rows alone |
| LifecycleTransitions.CompleteKeepsLifecycle | backend/internal/application/workspace/cycle_use_cases.go:208-346 | completing a Cycle keeps the lifecycle of every Goal |
| LifecycleTransitions.ReplanKeepsLifecycle | backend/internal/application/workspace/cycle_use_cases.go:348-486 | replanning keeps the lifecycle of every Goal |
| LifecycleTransitions.ContinueKeepsLifecycle | backend/internal/application/workspace/review_transition_use_cases.go:28-214 | continuing a review keeps the lifecycle of every Goal, whether or not a new Version is made |
| LifecycleEdges.StartKeepsLifecycle | backend/internal/application/workspace/goal_draft_use_cases.go:940-963 | starting a Goal keeps the lifecycle of every Goal |
| Replays.StartOnce | backend/internal/application/workspace/goal_draft_use_cases.go:238-253 | while the Goal exists, over any run, the same start is replayed without a change and its operation id is refused to any other start, replan or continuation |
| Replays.ReplanOnce | backend/internal/application/workspace/cycle_use_cases.go:506-558 | the same for a replan |
| Replays.ContinueOnce | backend/internal/application/workspace/review_transition_use_cases.go:483-533 | the same for a continuation |
| Replays.ClaimAnswers | backend/internal/application/workspace/cycle_use_cases.go:453-462 | an operation id claims at most one Cycle: for any claimed Cycle each of the three commands with that id is replayed if it is the very command and refused otherwise |
| Replays.CompleteOnce | backend/internal/application/workspace/cycle_use_cases.go:635-716 | a completed Cycle is not completed again over any run; the same command changes nothing and is replayed iff the success signal of the Draft it opened was not edited |
| Replays.CompleteReplayIff | backend/internal/application/workspace/cycle_use_cases.go:688-716 | the completion replay validator accepts iff that Draft is gone or still carries the Version's success signal |
| Replays.EditedSignalRefusesReplay | backend/internal/application/workspace/cycle_use_cases.go:699-699 | concretely: after a legal edit of the signal the identical completion, replayed before, is refused as an invariant violation |
| Replays.TerminateOnce | backend/internal/application/workspace/review_transition_use_cases.go:493-549 | a terminated Goal is not terminated again; the same command is replayed without a change |
| Replays.DeleteOnce | backend/internal/application/workspace/goal_use_cases.go:278-290 | within the receipt's 24 hours the same deletion is replayed without a change, a different one with the key is refused, and the Goal stays gone |
| Answers.CompleteReadsBack | backend/internal/application/workspace/cycle_use_cases.go:718-742 | a completion that wrote its rows reads back an answer its own validator accepts |
| Answers.ReplanReadsBack | backend/internal/application/workspace/cycle_use_cases.go:567-588 | the same for a replan: canceled Cycle and empty successor on the same Version |
| Answers.ContinueReadsBack | backend/internal/application/workspace/review_transition_use_cases.go:628-660 | the same for a continuation: the previous Action shown is that of the very Cycle that was reviewed |
| Answers.ActiveEndReadsBack | backend/internal/application/workspace/review_transition_use_cases.go:662-690 | the same for ending an active Cycle |
| Answers.ReviewEndReadsBack | backend/internal/application/workspace/review_transition_use_cases.go:662-690 | the same for ending a review: the Version is the one reviewed |
| Answers.StartReadsBack | backend/internal/application/workspace/goal_draft_use_cases.go:325-331 | the same for a start |
| Answers.ScheduleReadsBack | backend/internal/application/workspace/cycle_use_cases.go:195-203 | a schedule change that was written reads back a Cycle view that its validator accepts |
| Edits.SaveFrameIff | backend/internal/domain/cycle/cycle.go:199-239 | a frame is saved iff the User's Cycle runs, the text is storable, nothing works on an Action to be written, and the text or its revision is the stored one; a different text over a stale revision is a conflict |
| Edits.SaveFrameWrites | backend/internal/domain/cycle/cycle.go:184-239 | then the named frame holds the normalized text, its own and the content revision count the change, and no other text, revision or row is touched; a refusal writes nothing |
| Edits.ChangeScheduleIff | backend/internal/application/workspace/cycle_use_cases.go:159-206 | a review date is changed iff the User's Cycle runs and the date or the schedule revision is the stored one; then the row shows that date and nothing else is touched |
| Edits.CreateDraftIff | backend/internal/application/workspace/goal_draft_use_cases.go:46-73 | a Creation Draft is opened iff the User exists and has none and the text is storable, with that text, no signal and revision 0 |
| Edits.SaveDraftIff | backend/internal/application/workspace/goal_draft_use_cases.go:75-106 | a Creation Draft is saved iff it is the User's, its texts are storable and they or the revision are the stored ones; then it holds exactly those texts, a blank signal being none |
| Edits.SaveReviewIff | backend/internal/application/workspace/goal_draft_use_cases.go:108-149 | the same for a Review Draft |
| Refusals.SaveFrameAnswer | backend/internal/domain/cycle/cycle.go:199-239 | every refusal of a frame edit, in order: the Goal and Cycle, an operation on the Action, the text, the revision |
| Refusals.ChangeScheduleAnswer | backend/internal/domain/cycle/cycle.go:143-175 | the same for a review date |
| Refusals.CompleteAnswer | backend/internal/domain/cycle/cycle.go:262-282 | the same for a completion of a Goal's current work: revisions, an operation, an unwritten frame |
| Refusals.SaveDraftAnswer | backend/internal/domain/goal/goal.go:147-167 | the same for a Creation Draft: the texts, then the revision |
| Refusals.ContinueAnswer | backend/internal/domain/goal/goal.go:220-243 | a review at its revisions and at rest is only refused for a Draft without a text |
| Transitions.AbandonIff | backend/internal/application/workspace/goal_draft_use_cases.go:151-219 | a Creation Draft is abandoned iff it is the User's and nothing runs on it; its operations go with it, their usages stay without content while the day's quota or a settlement may need them, and nothing else changes |
| Transitions.StartIff | backend/internal/domain/goal/goal.go:169-195 | a Goal is started iff the operation is new, the Draft is the User's, at its revision, not blank and at rest, and the User has fewer Goals under way than the limit; the first Version holds the Draft's own body and signal, the first Cycle is empty and stands on it, and the Draft's operations move to it |
| Transitions.CompleteIff | backend/internal/application/workspace/cycle_use_cases.go:208-346 | a Cycle is completed iff it runs, all four frames are written, both revisions match and nothing works on it; its row is closed as it was and the Review Draft starts from its Version's texts |
| Transitions.ReplanIff | backend/internal/application/workspace/cycle_use_cases.go:348-486 | a Cycle is replanned iff it is confirmed, runs, all three revisions match and nothing works on it; it is canceled as it was and an empty one on the same Version follows |
| Reviews.ContinueIff | backend/internal/domain/goal/goal.go:220-303 | a review is continued iff the operation is new, Goal and Draft are at their revisions, the Draft is not blank and at rest; the new Cycle stands on a Version with exactly the Draft's body and signal, and no Version is added iff the current one has both |
| Reviews.EndCycleIff | backend/internal/application/workspace/review_transition_use_cases.go:262-332 | a Goal in a Cycle is ended iff the request fits, both revisions match and nothing runs for the Goal; the Cycle is canceled for the very reason the Goal ends |
| Reviews.EndReviewIff | backend/internal/application/workspace/review_transition_use_cases.go:334-439 | a Goal in review is ended iff the request fits, the revision matches, the Draft is at rest, and discarding is asked for or the Draft's body and signal are the Version's |
| Deletions.DeleteGoalIff | backend/internal/application/workspace/goal_use_cases.go:257-400 | a Goal is deleted iff its User confirms it at its revision with a key never used; exactly its rows go, its usages stay without content while needed, and the receipt stands for 24 hours |
| Deletions.DeleteAccountIff | backend/internal/infrastructure/postgres/account_repository.go:126-295 | an Account is deleted iff it exists; every row of the User goes and no other |
| Deletions.CleanupIff | backend/internal/infrastructure/postgres/queries/cleanup.sql:18-34 | the retention job deletes a usage iff it has lost its content and neither a window nor a settlement may ask for it |
| Admissions.BeginActionIff | backend/internal/application/workspace/action_ai_use_cases.go:67-285 | an Action operation is let through iff its key is new, the User's Cycle runs at the asked revision with the texts it needs, context and rate are in order, only overdue operations run on it, and day and month have room once those are given back; its row, usage and reservation say what was asked |
| Admissions.BeginActionAgain | backend/internal/application/workspace/action_ai_use_cases.go:287-317 | a repeated begin answers from the row: in progress, the recorded failure, the recorded output, or an expired lease; another request with the key is refused |
| Admissions.RecoverRows | backend/internal/application/workspace/action_ai_use_cases.go:503-548 | recovery fails exactly the User's running operations past their lease, marks their usages, and takes exactly their reservations out of their months |
| Suggestions.BeginRefineIff | backend/internal/application/workspace/goal_draft_use_cases.go:371-566 | a refinement is let through iff its key is new, the Draft is at the asked revision and not blank, its Goal too, only overdue operations run on it, and day and month have room; its row says what was asked |
| Suggestions.BeginRefineAgain | backend/internal/application/workspace/goal_draft_use_cases.go:411-447 | a repeated refinement answers from the row as it is after recovery |
| Suggestions.AdoptIff | backend/internal/application/workspace/goal_draft_use_cases.go:722-794 | a suggestion is adopted iff it is for the Draft, succeeded, nobody adopted it and the Draft still holds the very text and revision; repeated it is a replay iff the Draft is as the adoption left it, and refused as adopted otherwise |
| Database.Store.CreateDraft | backend/internal/application/workspace/goal_draft_use_cases.go:46-73 | the command on the stored rows (create a Creation Draft): from a reachable state to the next one of the run, with the answer its use case gives; so no row-count check and no final validator of it ever fails |
| Database.Store.SaveDraft | backend/internal/application/workspace/goal_draft_use_cases.go:75-106 | the command on the stored rows (save a Creation Draft): from a reachable state to the next one of the run, with the answer its use case gives; so no row-count check and no final validator of it ever fails |
| Database.Store.SaveReview | backend/internal/application/workspace/goal_draft_use_cases.go:108-149 | the command on the stored rows (save a Review Draft): from a reachable state to the next one of the run, with the answer its use case gives; so no row-count check and no final validator of it ever fails |
| Database.Store.AbandonDraft | backend/internal/application/workspace/goal_draft_use_cases.go:151-219 | the command on the stored rows (abandon a Draft): from a reachable state to the next one of the run, with the answer its use case gives; so no row-count check and no final validator of it ever fails |
| Database.Store.StartGoal | backend/internal/application/workspace/goal_draft_use_cases.go:221-333 | the command on the stored rows (start a Goal): from a reachable state to the next one of the run, with the answer its use case gives; so no row-count check and no final validator of it ever fails |
| Database.Store.BeginAction | backend/internal/application/workspace/action_ai_use_cases.go:67-285 | the command on the stored rows (begin an Action operation): from a reachable state to the next one of the run, with the answer its use case gives; so no row-count check and no final validator of it ever fails |
| Database.Store.FinishAction | backend/internal/application/workspace/action_ai_use_cases.go:319-501 | the command on the stored rows (finish an Action operation): from a reachable state to the next one of the run, with the answer its use case gives; so no row-count check and no final validator of it ever fails |
| Database.Store.BeginRefine | backend/internal/application/workspace/goal_draft_use_cases.go:371-566 | the command on the stored rows (begin a refinement): from a reachable state to the next one of the run, with the answer its use case gives; so no row-count check and no final validator of it ever fails |
| Database.Store.FinishRefine | backend/internal/application/workspace/goal_draft_use_cases.go:568-720 | the command on the stored rows (finish a refinement): from a reachable state to the next one of the run, with the answer its use case gives; so no row-count check and no final validator of it ever fails |
| Database.Store.AdoptSuggestion | backend/internal/application/workspace/goal_draft_use_cases.go:722-794 | the command on the stored rows (adopt a suggestion): from a reachable state to the next one of the run, with the answer its use case gives; so no row-count check and no final validator of it ever fails |
| Database.Store.SaveFrame | backend/internal/application/workspace/cycle_use_cases.go:101-157 | the command on the stored rows (save a frame): from a reachable state to the next one of the run, with the answer its use case gives; so no row-count check and no final validator of it ever fails |
| Database.Store.ChangeSchedule | backend/internal/application/workspace/cycle_use_cases.go:159-206 | the command on the stored rows (change the review date): from a reachable state to the next one of the run, with the answer its use case gives; so no row-count check and no final validator of it ever fails |
| Database.Store.CompleteCycle | backend/internal/application/workspace/cycle_use_cases.go:208-346 | the command on the stored rows (complete a Cycle): from a reachable state to the next one of the run, with the answer its use case gives; so no row-count check and no final validator of it ever fails |
| Database.Store.ReplanCycle | backend/internal/application/workspace/cycle_use_cases.go:348-486 | the command on the stored rows (replan a Cycle): from a reachable state to the next one of the run, with the answer its use case gives; so no row-count check and no final validator of it ever fails |
| Database.Store.ContinueReview | backend/internal/application/workspace/review_transition_use_cases.go:28-214 | the command on the stored rows (continue a review): from a reachable state to the next one of the run, with the answer its use case gives; so no row-count check and no final validator of it ever fails |
| Database.Store.Terminate | backend/internal/application/workspace/review_transition_use_cases.go:216-260 | the command on the stored rows (terminate a Goal): from a reachable state to the next one of the run, with the answer its use case gives; so no row-count check and no final validator of it ever fails |
| Database.Store.DeleteGoal | backend/internal/application/workspace/goal_use_cases.go:257-400 | the command on the stored rows (delete a Goal): from a reachable state to the next one of the run, with the answer its use case gives; so no row-count check and no final validator of it ever fails |
| Database.Store.DeleteAccount | backend/internal/infrastructure/postgres/account_repository.go:126-295 | the command on the stored rows (delete an Account): from a reachable state to the next one of the run, with the answer its use case gives; so no row-count check and no final validator of it ever fails |
| Transactions.RecoverExpired | backend/internal/application/workspace/action_ai_use_cases.go:503-548 | statement by statement, grouped by month: every row-count check passes and the rows are those of giving back all expired reservations |
| Transactions.ReleaseMonthly | backend/internal/application/workspace/goal_draft_use_cases.go:809-823 | the monthly sums that go back add up to the reservations, and no month goes below zero |
| Transactions.FailAll | backend/internal/application/workspace/goal_draft_use_cases.go:824-840 | every expired generation and its usage is failed, and no other row |
| Transactions.AcceptOperation | backend/internal/application/workspace/action_ai_use_cases.go:214-279 | month, reservation, generation and usage are written together |
| Transactions.SettleOperation | backend/internal/application/workspace/action_ai_use_cases.go:437-484 | the three guarded updates all hit, and together settle the operation |
| Transactions.SettleLateUsage | backend/internal/application/workspace/action_ai_use_cases.go:579-646 | the late path charges exactly the exposed month, or does nothing if the usage is final or gone |
| ActionTransactions.BeginAction | backend/internal/application/workspace/action_ai_use_cases.go:67-285 | the transaction does what the use case says, and a refusal leaves the rows as they were even after recovery |
| ActionTransactions.Replay | backend/internal/application/workspace/action_ai_use_cases.go:101-142 | a repeated begin answers from its generation; an expired one is failed and that is committed |
| ActionTransactions.CheckAction | backend/internal/application/workspace/action_ai_use_cases.go:143-239 | an operation is admitted iff nothing runs on the Cycle, its Version and content are the ones asked for, its texts are complete and no Action is lost unasked, the context and the rate are in order, and reserving leaves the month within the limit and the User within the quota |
| ActionTransactions.FinishAction | backend/internal/application/workspace/action_ai_use_cases.go:319-501 | apply, terminalize, settle, finalize, or settle late |
| ActionTransactions.ApplyOutput | backend/internal/application/workspace/action_ai_use_cases.go:407-430 | the output is written over exactly the revisions that were locked |
| RefineTransactions.BeginRefine | backend/internal/application/workspace/goal_draft_use_cases.go:371-566 | the transaction does what the use case says |
| RefineTransactions.FinishRefine | backend/internal/application/workspace/goal_draft_use_cases.go:568-720 | the transaction does what the use case says |
| RefineTransactions.AdoptSuggestion | backend/internal/application/workspace/goal_draft_use_cases.go:722-794 | the transaction does what the use case says |
| RefineTransactions.WriteSuggestion | backend/internal/application/workspace/goal_draft_use_cases.go:766-789 | Draft and mark are written together, over the locked revision |
| DraftTransactions.StartGoal | backend/internal/application/workspace/goal_draft_use_cases.go:221-333 | the transaction does what the use case says, attach counts and the final reads included |
| DraftTransactions.AttachToGoal | backend/internal/application/workspace/goal_draft_use_cases.go:302-317 | the attach succeeds iff every listed operation still has its usage, and then moves exactly the Draft's generations and usages |
| DraftTransactions.InsertAggregate | backend/internal/application/workspace/goal_draft_use_cases.go:940-963 | Goal, Version and Cycle are inserted and the operation is claimed |
| DraftTransactions.PartitionUsages | backend/internal/application/workspace/goal_draft_use_cases.go:1162-1195 | a usage is retained iff its deadline is ahead or it is not finalized, and expired otherwise |
| DraftTransactions.RemoveUsages | backend/internal/application/workspace/goal_draft_use_cases.go:182-203 | the retained usages lose their content, the others go, and both counts match |
| DraftTransactions.RemoveDraft | backend/internal/application/workspace/goal_draft_use_cases.go:171-218 | exactly the Draft, its generations and their expired usages go |
| DraftTransactions.AbandonDraft | backend/internal/application/workspace/goal_draft_use_cases.go:151-219 | the transaction does what the use case says |
| DraftTransactions.SaveLocked | backend/internal/application/workspace/goal_draft_use_cases.go:85-103 | a save over the locked row hits it; saving the same text writes nothing |
| CycleTransactions.SaveFrame | backend/internal/application/workspace/cycle_use_cases.go:101-157 | the transaction does what the use case says |
| CycleTransactions.ChangeSchedule | backend/internal/application/workspace/cycle_use_cases.go:159-206 | the transaction does what the use case says, final read and validation included |
| CycleTransactions.CompleteCycle | backend/internal/application/workspace/cycle_use_cases.go:208-346 | the transaction does what the use case says, final validation included |
| CycleTransactions.WriteCompletion | backend/internal/application/workspace/cycle_use_cases.go:305-325 | Cycle, Review Draft and Goal are written together, each over what was locked |
| CycleTransactions.ReplanCycle | backend/internal/application/workspace/cycle_use_cases.go:348-486 | the transaction does what the use case says, final validation included |
| CycleTransactions.WriteReplan | backend/internal/application/workspace/cycle_use_cases.go:446-470 | cancel, claim and advance all hit |
| ReviewTransactions.ContinueReview | backend/internal/application/workspace/review_transition_use_cases.go:28-214 | the transaction does what the use case says, with the usages it locked, final validation included |
| ReviewTransactions.WriteContinued | backend/internal/application/workspace/review_transition_use_cases.go:147-172 | Version, claim and Goal are written together |
| ReviewTransactions.EndActive | backend/internal/application/workspace/review_transition_use_cases.go:262-332 | the transaction does what the use case says |
| ReviewTransactions.EndReview | backend/internal/application/workspace/review_transition_use_cases.go:334-439 | the transaction does what the use case says |
| ReviewTransactions.Terminate | backend/internal/application/workspace/review_transition_use_cases.go:216-260 | the transaction does what the use case says |
| DeletionTransactions.DeleteGoal | backend/internal/application/workspace/goal_use_cases.go:257-400 | the transaction does what the use case says |
| DeletionTransactions.RemoveGoal | backend/internal/application/workspace/goal_use_cases.go:314-386 | release by month, fail, redact or delete usages, delete the Goal: all counts match and the rows are those of the cascade |
| DeletionTransactions.RemoveGoalUsages | backend/internal/application/workspace/goal_use_cases.go:402-429 | what the redaction and deletion leave of a Goal's usages |
| DeletionTransactions.DeleteAccount | backend/internal/infrastructure/postgres/account_repository.go:126-295 | the transaction does what the use case says |
| DeletionTransactions.MoveMonths | backend/internal/infrastructure/postgres/account_repository.go:248-264 | every month loses exactly the User's running reservations and gains them and the released exposures as unattributed |
| DeletionTransactions.DropExposures | backend/internal/infrastructure/postgres/account_repository.go:265-281 | exactly the usages that were released and not settled are deleted |
| Queries.CompleteReplay | backend/internal/application/workspace/cycle_use_cases.go:645-716 | decides the completion replay validator |
| Queries.ReplanReplay | backend/internal/application/workspace/cycle_use_cases.go:538-614 | decides the replan replay validator |
| Queries.TerminateReplay | backend/internal/application/workspace/review_transition_use_cases.go:535-549 | decides the termination replay validator |
| Selection.DivisionFair | backend/internal/application/workspace/context_selector.go:210-221 | the division every operation makes is fair: its shares never promise more than there is |
| Selection.AllocationFair | backend/internal/application/workspace/context_selector.go:142-162 | every field keeps its guaranteed share, what is used stays within what is available, and either nothing is left or every field is covered |
| Selection.Guarantee | backend/internal/application/workspace/context_selector.go:142-151 | the guaranteed shares, and how much of them is used |
| Selection.Redistribute | backend/internal/application/workspace/context_selector.go:153-162 | what is left goes to the fields in their order, in place, as far as each needs it |
| Selection.TruncateCurrentInput | backend/internal/application/workspace/context_selector.go:123-208 | the loop computes the shrinking search from the fair division |
| Selection.Shrink | backend/internal/application/workspace/context_selector.go:181-207 | at most the given rounds, each cutting every text again; stops at the first that fits |
| Selection.LowerLargest | backend/internal/application/workspace/context_selector.go:192-202 | a round lowers the first of the largest allocations by the excess, at least by one, not below zero |
| Selection.RoundLowersLargest | backend/internal/application/workspace/context_selector.go:192-202 | the entry a round lowers is the first of the largest, it gets strictly smaller, and no other entry changes |
| Selection.SelectedFits | backend/internal/application/workspace/context_selector.go:51-97 | on success the counted request is within the maximum, and the kept past Cycles are the longest prefix of the capped candidates that fits step by step |
| Selection.ConfiguredFits | backend/internal/application/workspace/context_selector.go:259-281 | as configured: instructions, retry instruction when a retry is possible, the encoded selection and the overhead together are within the limit |
| Selection.Select | backend/internal/application/workspace/context_selector.go:51-97 | the selector as written computes that selection |
| Attempts.RetryWithinSize | backend/internal/application/workspace/context_selector.go:259-281 | the size that was fitted covers a retry with its longer instruction |
| ContextCheck.SharesServe | backend/internal/application/workspace/context_selector.go:210-221 | the texts are served in their order with shares of 70 and 30, four times 10, and 40, 20 and three times 13.3 percent |
| ContextCheck.ShareKeepsText | backend/internal/application/workspace/context_selector.go:123-170 | a text within its guaranteed share is shown whole, however long the others are |
| ContextCheck.Scan | backend/internal/application/workspace/action_ai_use_cases.go:672-681 | the two-pointer scan accepts iff the kept Cycles are an in-order subsequence of the candidates |
| ContextCheck.Check | backend/internal/application/workspace/action_ai_use_cases.go:648-704 | the validators of the three operations as conditions on candidate and selection |
| ContextCheck.AcceptsIff | backend/internal/application/workspace/action_ai_use_cases.go:648-704 | a context is accepted iff it is of the same operation and current Cycle, every text it may cut is whole, empty or really shorter, it says so iff one was cut, and its past Cycles are the Goal's, in the candidate's order |
| ContextCheck.SelectorAgrees | backend/internal/application/workspace/goal_draft_use_cases.go:1003-1049 | whatever the selector returns is accepted, for all three operations, if appending the marker never lowers a token count |
| ContextAgreement.AgreesIff | backend/internal/application/workspace/action_ai_use_cases.go:648-704 | with a token counter that is monotone on the texts: selector and check agree over all request encodings, instructions, retries and limits iff the candidate mixes Goals, so that nothing is selected, or the marker makes none of its texts cheaper |
| ContextAgreement.SelectorCanDisagree | backend/internal/application/workspace/context_selector.go:166-191 | a configured selector, a counter and a Draft for which what is selected is refused by the check |
| Contexts.SelectorDecides | backend/internal/application/workspace/action_ai_use_cases.go:190-203 | if the marker makes no text cheaper a context is in order iff one can be selected |
| Contexts.ActionContextRejected | backend/internal/application/workspace/action_ai_use_cases.go:164-203 | an Action operation is then refused for its context only when its texts cannot be cut to the budget |
| Contexts.RefineContextRejected | backend/internal/application/workspace/goal_draft_use_cases.go:448-490 | and so is a refinement |
| Contexts.ActionSources | backend/internal/application/workspace/action_ai_use_cases.go:164-178 | field by field, an Action operation shows the Cycle's own texts under its Version's body |
| Contexts.RefineSources | backend/internal/application/workspace/goal_draft_use_cases.go:466-470 | and a refinement the Draft's body, with the Goal's if there is one |
| ContextCheck.AcceptsShortened | backend/internal/application/workspace/action_ai_use_cases.go:692-704 | the text check accepts iff the text is whole, empty, or a strictly shorter prefix and the marker |
| Truncation.Truncate | backend/internal/infrastructure/aiprovider/tokenizer.go:26-60 | the binary search as written computes the truncation, or refuses a negative limit |
| Truncation.TruncatedFits | backend/internal/infrastructure/aiprovider/tokenizer.go:26-60 | whatever the counter does, a non-empty result is within the limit |
| Truncation.TruncatedLongest | backend/internal/infrastructure/aiprovider/tokenizer.go:45-60 | with counts monotone in the prefix, no longer prefix fits together with the marker |
| Truncation.ShortensIff | backend/internal/infrastructure/aiprovider/tokenizer.go:45-60 | with monotone counts the result is whole, empty or really shorter iff it is not the case that the marker makes a text that is too long fit |
| Truncation.TruncatedShortens | backend/internal/infrastructure/aiprovider/tokenizer.go:45-60 | the same for any counter that the marker never makes smaller |
| AiOutput.RenderGeneratedActions | backend/internal/domain/ai/output.go:34-55 | the loop renders the numbered actions, or gives the first error |
| AiOutput.ValidatedIff | backend/internal/domain/ai/output.go:20-69 | a suggestion and a refined Action pass iff, line endings apart, they hold no control character, are not blank and are within 80 and 200 characters, and pass unchanged |
| AiOutput.RenderedIs | backend/internal/domain/ai/output.go:34-55 | one to three actions come out numbered, trimmed and a blank line apart, within 200 characters |
| AiOutput.RenderedStorable | backend/internal/domain/ai/output.go:34-55 | rendered actions are a non-blank fixpoint of the Cycle text rule |
| AiOutput.RefinedStorable | backend/internal/domain/ai/output.go:57-69 | a validated refined Action is a non-blank fixpoint of the Cycle text rule |
| AiOutput.SuggestionStorable | backend/internal/domain/ai/output.go:20-32 | a validated suggestion is a non-blank fixpoint of the Goal text rule |
| AiOutput.ApplyNeverFails | backend/internal/domain/cycle/cycle.go:241-260 | applying validated output to an active Cycle cannot fail and stores it verbatim |
| Attempts.ExecuteAttempts | backend/internal/application/workspace/service.go:480-528 | the retry loop: usage summed over the attempts made, the last answer decides, and the time taken |
| Attempts.MadeIff | backend/internal/application/workspace/service.go:480-528 | an attempt is made iff every one before it failed with invalid output or an unavailable provider and nobody had given up |
| Attempts.ReservationIs | backend/cmd/server/main.go:33-36 | the reservation is what all attempts at both caps cost at prices per million tokens |
| Attempts.CostWithinReservation | backend/cmd/server/main.go:33-36 | whatever attempts are made within the token caps, their cost is at most the reservation |
| Attempts.CostWithinUnits | backend/internal/application/workspace/goal_draft_use_cases.go:1135-1137 | rounded alike to ledger units the cost is still at most the reservation |
| Leases.CostIsPlausible | backend/internal/application/workspace/action_ai_use_cases.go:440-452 | which is what the ledger assumes of every report |
| Attempts.LeaseOutlives | backend/internal/config/config.go:296-302 | with a validated configuration all attempts, pauses and the finalization take less than the lease |
| Attempts.LeaseIsExact | backend/internal/config/config.go:296-302 | and where the one pause cannot end early it is exact: a lease is accepted iff the longest call ends before it |
| Attempts.PausesWithinIff | backend/internal/application/workspace/service.go:512-524 | the pauses stay within one maximum iff there are at most two attempts or the maximum covers all pauses uncut |
| Attempts.LeaseCoversIff | backend/internal/config/config.go:296-302 | the lease inequality covers the longest call iff there are at most two attempts or one maximum covers all pauses |
| Text.LineEndingsJoin | backend/internal/domain/goal/goal.go:348-350 | line endings are rewritten piece by piece, wherever a text is cut but inside a CR LF |
| Text.LineEndings | backend/internal/domain/goal/goal.go:348-350 | a CR LF and a CR each become one LF, every other character stays |
| Text.TextRules | backend/internal/domain/goal/goal.go:101-136 | what is storable: no control character but line feed and tab, 200 characters for a frame, 80 for a Goal, 120 for a signal, a blank signal being none |
| RateLimiter.AnonymousLimiter.Check | backend/internal/infrastructure/postgres/anonymous_rate_limiter.go:26-69 | one attempt: the canonical time never runs back, the attempt is recorded, and it is blocked iff its hour or its rolling count is over the limit |
| RateLimiter.AnonymousLimiter.RollingCount | backend/internal/infrastructure/postgres/anonymous_rate_limiter.go:52-60 | the sum over the stored buckets equals the attempts of those hours |
| RateLimiter.AnonymousLimiter.Cleanup | backend/internal/infrastructure/postgres/queries/cleanup.sql:36-65 | removing expired guards and buckets keeps every later count exact |
| RateLimiter.RollingDay | backend/internal/infrastructure/postgres/anonymous_rate_limiter.go:43-63 | in any 24 hours the attempts let through are within the day limit |
| RateLimiter.RecentBucketExact | backend/internal/infrastructure/postgres/anonymous_rate_limiter.go:43-51 | a bucket that a check still counts has not expired |
| KeyCache.Cache.Get | backend/internal/infrastructure/contentcrypto/service.go:405-421 | a hit is a fresh copy of the entry and counts as its latest use; an expired entry is zeroed and gone |
| KeyCache.Cache.Put | backend/internal/infrastructure/contentcrypto/service.go:422-442 | the new entry is a private copy, the replaced key is zeroed, and what is left fits the capacity with the least recently used gone first |
| KeyCache.Cache.Evict | backend/internal/infrastructure/contentcrypto/service.go:430-441 | eviction removes only entries used before all that stay, zeroing them, until the rest fits |
| KeyCache.Cache.FindOldest | backend/internal/infrastructure/contentcrypto/service.go:431-437 | the victim is an entry with the smallest use number |
| KeyCache.Cache.Clear | backend/internal/infrastructure/contentcrypto/service.go:443-450 | all entries are zeroed and gone |
| KeyCache.Zero | backend/internal/infrastructure/contentcrypto/service.go:451-455 | every byte is zero |
| KeyCache.PutKeepsNewest | backend/internal/infrastructure/contentcrypto/service.go:422-442 | the entry just put stays if anything fits |
| KeyCache.PutEvictsOldest | backend/internal/infrastructure/contentcrypto/service.go:430-441 | what went was used no later than what stayed, and what stayed fills the capacity |
| KeyRing.KeyStore.StoreInitialKey | backend/internal/infrastructure/postgres/content_encryption.go:72-128 | the first key of a User is stored once; any later bootstrap gets the stored write key |
| KeyRing.KeyStore.StoreRotatedKey | backend/internal/infrastructure/postgres/content_encryption.go:147-195 | a rotation stores exactly the next version and leaves it the only write key |
| KeyRing.KeyStore.NextVersion | backend/internal/infrastructure/postgres/content_encryption.go:143-145 | the highest version plus one |
| KeyRing.StepCoherent | backend/internal/infrastructure/contentcrypto/service.go:215-335 | every step of any process keeps caches, keys in flight and store coherent |
| KeyRing.CacheAgreesWithStore | backend/internal/infrastructure/contentcrypto/service.go:215-335 | over any interleaving of bootstraps, rotations, loads, puts, evictions and User deletions a cached key is the one in the stored record, versions are contiguous and a User with keys has exactly one write key |
| KeyRing.PutIsStep | backend/internal/infrastructure/contentcrypto/service.go:422-442 | what the cache class leaves after a put is a step of that interleaving |
| KeyRing.GetIsStep | backend/internal/infrastructure/contentcrypto/service.go:405-421 | and so is what it leaves after a lookup |
| KeyService.Service.Key | backend/internal/infrastructure/contentcrypto/service.go:300-312 | the key of a version can be had iff it is cached, or it is stored and the KMS answers with 32 bytes; it is the stored record's, in an array of the caller's own, and only a version that is not stored is not found |
| KeyService.Service.UnwrapRecord | backend/internal/infrastructure/contentcrypto/service.go:314-335 | from the cache or from the KMS: the record's key, then cached if the cache holds anything; succeeds iff it is cached or the KMS answers with a key of the right length |
| KeyService.Service.Bootstrap | backend/internal/infrastructure/contentcrypto/service.go:266-298 | a known User without keys and content gets exactly the key that was made, stored as version 1; the loser of a race returns the winner's key iff that can be had; the plaintext that was generated is zeroed on every path |
| KeyService.Service.ActiveKey | backend/internal/infrastructure/contentcrypto/service.go:254-264 | the stored write key with its plaintext iff that can be had, or a first one |
| KeyService.Service.RotateUserKey | backend/internal/infrastructure/contentcrypto/service.go:215-252 | with the next version as read before: succeeds iff the KMS answers, the User exists and has a key, and no other process stored that version since; it is then the only write key, and the cache stays coherent |
| KeyService.Service.ReserveNonce | backend/internal/infrastructure/contentcrypto/service.go:337-352 | a reserved nonce was never used with the key version; the tries are exhausted iff every one was made and used |

## Left out

- Rate buckets of AI operations and Goal starts: a begin or a start takes the verdict as an input.
- SQL text, transaction isolation and row locks: a transaction is one atomic step.
- Encryption of stored texts: rows hold the plaintext. AES-GCM, HMAC and the KMS are reduced to what they tie together.
- The tokenizer and the provider: an arbitrary counter, and any result within the assumptions above.
- Hashes, UUID syntax, session ids and the syntax of review dates.
- Integer widths and the wrap of the cache's 64-bit use counter, where the model's numbers are unbounded.
- Selection.Guarantee: the shares are exact thousandths where the source multiplies floating-point numbers.
- Decimal rounding: exact rationals in `Attempts`, whole units of 1e-8 USD in the ledger, and any rounding that keeps the order between them.
- The JSON of a provider request: an arbitrary function of the selection.
- Creation, update and start times of rows, and the order of locked rows: views and validators leave them out.
- The failure code of a generation whose Goal is deleted: the row goes in the same transaction.
- The error a failed read inside a replayed start carries: it is reported as an invariant violation.
- Liveness of expired leases: only a later begin of the same User recovers them, and nothing says one comes.
- Listing, cursors, HTTP, sessions, sign-in, metrics, migrations and the frontend.
- Programs other than these commands: a usage row deleted by hand would make a later start fail its attach count.
- RateLimiter.AnonymousLimiter.Check: the clock may run back but not behind a clean-up that has been carried out.
- KeyService.Service.Bootstrap: the random key, the KMS key version and the salt are inputs, and one input says whether the KMS and the random source answer.
- KeyService.Service.RotateUserKey: the version is an input, read earlier; which error a failure carries is not distinguished.
- KeyService.Service.ReserveNonce: the random nonces are inputs, with one that could not be made or stored.
