# Delivery lifecycle: models and proofs

This project models the part of agent-run that must stay right when processes die and remotes change: how a
ticket is published, checked and merged, and the budgets, retries and identities around that. The state is
what the program keeps in its job record, and every model makes explicit where that record is saved, so a
crash is always a prefix of what happened followed by a restart from the last save.

`PublishedHead` is the publish, check and merge routine itself, statement by statement, on a job that is
changed in place. Every remote answer and every stop request is an arbitrary input. The routine writes a
history of saves, live reads and remote writes, and `PublicationLedger` says which histories are legal and
proves the safety properties of all of them. `PublicationRuns` strings activations, deaths, resumptions and
redeliveries together, and `PublicationRemote` adds the remote side: when a pull request was merged, by
whomever, and which reads are then truthful (a merge is final, and a mergeable pull request is open). The
other modules stand alone or build on one another in the same way:

- `CredentialRenewal` and `CredentialLifecycle`: the renewal loop in real time, and its critical sections interleaved with expiry and close
- `CiBudget` and `CiRepairChain`: the CI Development quota, and the evidence chain behind unreviewed CI repairs
- `AgentInvocation` and `StructuredOutput`: the durable Invocation journal, and the output repair and recovery loop that restarts from it
- `AgentProfiles`: the incremental profile resolver and the thread bindings
- `ThreadIdentity`, `AttemptEvidence`, `DeliveryCleanup`, `DevelopmentCharges`: identity, evidence, cleanup and charging

Where a promise turned out to hold only under a condition, the code is kept as it is, a lemma or method
gives an input that breaks the promise, and the condition is proved:

- A ticket can be completed by somebody else's merge. The merge intent is saved after the final read of the pull request, and a merge made by somebody else in between is indistinguishable from the routine's own. The condition is exact: nobody looks at the pull request between the foreign merge and the first save in `merging`. Once it was read as merged before that save, it never completes the job.
- The completion branch compares the recorded merge commit and not the head it was recorded for. It is safe because an integration record never outlives its merge intent and because a merged pull request stays merged: on a truthful remote every completed head was armed.
- With the default renewal margin an episode makes at most 14 provider calls, not 24: the credential expires before the retry window ends. An episode of n calls is possible exactly when its back-off fits both.
- A repair call may write exactly when the checkout may be written and the latest validation error is empty. No validator in the repository raises an empty text (src/agent_run/codex.py:1050-1057), so this needs one that does.
- A thread accepted for a request that named none is new exactly if it is not the current one. A new attempt under the rotating policy has no current thread; an explicit new thread inside one attempt may repeat it.
- Closed attempts and charges differ by invalidated attempts, which stay pending after their semantic attempt is closed, by integration attempts that are tried again under the same name, and by refunds under a name that an integration attempt was charged for. The name of an attempt does not contain its kind.
- The engine marks the CI quota exhausted without checking it. This is right if and only if a failed head was observed before, and a repair is scheduled only then.
- A cleanup that dies after its first save can be stored as completed with an item still pending, exactly if it was completed before and the call named a new branch. The next call that returns repairs it.

The documentation comment on a following Publication says that its provenance is the Development profile's.
The code keeps the preset name of a formerly independent Publication, and so does the model.

## Model

| member | source | states |
|---|---|---|
| `PublicationLedger.WritesFollowDurableIntents` | src/agent_run/change_delivery_published_head.py:353-371 | Every push, pull request write and merge call in a history is preceded by a durable save of an intent that names the same branch, expected head and new head; a merge is sent only with 1 to 3 attempts already spent on a saved intent for that head |
| `PublicationLedger.AtMostThreeMergesPerIntent` | src/agent_run/change_delivery_published_head.py:729-737 | In any stretch of a history in which the saved merge intent is not dropped, at most three merges are sent, across all crashes and restarts |
| `PublicationLedger.SentCountsTheStretch` | src/agent_run/change_delivery_published_head.py:729-737 | The number of merges counted since the intent appeared is the number of merge calls in that stretch of the history |
| `PublicationLedger.MergesPassTheGate` | src/agent_run/change_delivery_published_head.py:497-608 | Every merge call is for the saved publication head, with a `none` or `pass` observation for exactly that pull request and head, a live base equal to the publication base, an authority that names the current candidate and its tree, and a head that was durably armed before |
| `PublicationLedger.CompletionWasArmed` | src/agent_run/change_delivery_published_head.py:217-269 | Whatever the remote answers: a job that completes was read live as MERGED with its own head, tree, message and parent, its ticket was closed, it carries its integration record, and its saved merge intent is for a head that had been durably armed; a job whose intent names its publication completes for an armed head |
| `PublicationRemote.CompletedHeadsWereArmed` | src/agent_run/change_delivery_published_head.py:217-269 | When merges are final and reads truthful, every completed job had been saved in `merging` with an intent for exactly the head it completes for, and that head is the one the remote merged |
| `PublicationRemote.TruthKeepsRecordedInv` | src/agent_run/change_delivery_published_head.py:230-263 | A recorded merge commit always is the merge of the job's pull request, and its publication keeps the armed head from then on |
| `PublicationRemote.OutsidersNeverComplete` | src/agent_run/change_delivery_published_head.py:230-239 | A pull request that is read as MERGED before the first save in `merging` never completes the job, whoever merged it and whatever happens later |
| `PublicationRemote.ForeignMergeCompletesOnlyUnseen` | src/agent_run/change_delivery_published_head.py:504-511 | A merge that precedes the first save in `merging` can complete the job only if nobody looked at the pull request between the two |
| `PublicationRemote.MergeMayBeEarlier` | src/agent_run/github_publish.py:1405-1440 | That is exactly the condition: a history fits a merge at an earlier moment as well as at its own if and only if it never looks at the pull request in between |
| `PublicationLedger.WithoutArmingNothingIntegrates` | src/agent_run/change_delivery_published_head.py:719-720 | No history without a save in `merging` records a merged commit |
| `PublicationLedger.ArmedHeadsWereSaved` | src/agent_run/change_delivery_published_head.py:694-720 | A head counts as armed only after a save in `merging` whose merge intent is for that head |
| `PublicationLedger.LegalKeepsInvariant` | src/agent_run/change_delivery_published_head.py:126-788 | Every legal history keeps: no merge beyond the attempts saved in the intent, a saved intent only for an armed head, an integration record only beside an intent, completion only with a recorded merge and its record |
| `PublicationLedger.CrashLeavesLegalHistory` | src/agent_run/change_delivery.py:188-198 | What a crash at any point leaves behind is again a legal history |
| `PublicationLedger.Extend` | src/agent_run/change_delivery.py:188-198 | A legal history followed by an admitted event is legal, and its ledger is the recorded event |
| `PublishedHead.PublishedHeadStage.Save` | src/agent_run/change_delivery.py:188-198 | A save makes exactly the job in memory durable |
| `PublishedHead.PublishedHeadStage.Block` | src/agent_run/change_delivery.py:829-840 | Blocking keeps the phase to resume and is durable; a blocked job stays as it is |
| `PublishedHead.PublishedHeadStage.PauseIfRequested` | src/agent_run/ticket_pause.py:18-48 | A stop is honoured exactly when it is requested and no remote write is unsettled; a paused merge resumes before its checks |
| `PublishedHead.PublishedHeadStage.OperationFailed` | src/agent_run/change_delivery.py:642-670 | The first four failures are counted, saved and raised; the fifth parks the job with the phase to return to; a sixth changes nothing |
| `PublishedHead.PublishedHeadStage.Operation` | src/agent_run/change_delivery_published_head.py:97-108 | Only an I/O error is counted; a GitHub error leaves job and history as they were |
| `PublishedHead.PublishedHeadStage.RejectStale` | src/agent_run/change_delivery.py:803-822 | Stale requirements block the job durably; current ones change nothing |
| `PublishedHead.PublishedHeadStage.Reconcile` | src/agent_run/ticket_integration.py:98-122 | Goes on exactly when the integration record is valid and both live heads are the recorded ones, or the source is the job's own push; otherwise it blocks or returns the job to `accepted` |
| `PublishedHead.PublishedHeadStage.InvalidatePublication` | src/agent_run/ticket_integration.py:125-145 | An invalidated publication drops head, intents and observations but keeps candidate, authority and recorded merge |
| `PublishedHead.PublishedHeadStage.AcceptMerged` | src/agent_run/delivery_loop.py:453-611 | The closing read is accepted exactly when head, tree, message and parent are the publication's, and only then the job is saved as merged |
| `PublishedHead.PublishedHeadStage.AfterMerge` | src/agent_run/delivery_loop.py:453-611 | The closeout succeeds exactly when the closing read matches and the ticket can be closed, and then everything completion demands is durable |
| `PublishedHead.PublishedHeadStage.AdoptMerge` | src/agent_run/change_delivery_published_head.py:217-269 | An already merged pull request completes the job exactly when its identity is the publication's, the job was merging or had recorded that very merge commit, and the closeout succeeds; otherwise a foreign merge blocks it |
| `PublishedHead.PublishedHeadStage.ObserveExisting` | src/agent_run/change_delivery_published_head.py:195-300 | An open pull request lets the routine go on exactly when no merge is under way, both heads are current and the pull request sits at the recorded boundary; the push counts as done only for the job's own write |
| `PublishedHead.PublishedHeadStage.ObserveRefs` | src/agent_run/change_delivery_published_head.py:304-331 | Without a pull request the exact live refs decide whether the push already happened |
| `PublishedHead.PublishedHeadStage.VerifyBeforePush` | src/agent_run/change_delivery_published_head.py:332-352 | A push is tried only after the expected head was verified; a refused check first re-reads the heads |
| `PublishedHead.PublishedHeadStage.AnnouncePush` | src/agent_run/change_delivery_published_head.py:353-359 | The intent of the push is durable before the push, and is not replaced when it already is the same |
| `PublishedHead.PublishedHeadStage.Push` | src/agent_run/change_delivery_published_head.py:360-386 | The push goes to the contract branch, from the recorded source head to the publication head; a changed remote never counts as pushed |
| `PublishedHead.PublishedHeadStage.AcknowledgePush` | src/agent_run/change_delivery_published_head.py:387-400 | The readback drops the push intent only; an announced pull request write keeps its intent |
| `PublishedHead.PublishedHeadStage.AnnouncePr` | src/agent_run/change_delivery_published_head.py:401-415 | The pull request intent names branch, base and head and is durable; a matching saved intent keeps its narrative |
| `PublishedHead.PublishedHeadStage.AdmitWrite` | src/agent_run/pr_write.py:24-51 | The original number and text are saved once, and exactly one write is admitted: from the saved prior text to the saved target |
| `PublishedHead.PublishedHeadStage.AdmitAndWrite` | src/agent_run/github_publish.py:574-720 | A pull request write is sent exactly when it is admitted, with the saved target text |
| `PublishedHead.PublishedHeadStage.RecoverPr` | src/agent_run/pr_write.py:54-99 | An earlier write counts as done only if the readback shows the saved target on the original pull request |
| `PublishedHead.PublishedHeadStage.SettlePr` | src/agent_run/change_delivery_published_head.py:437-456 | The pull request number is recorded and the intent dropped in one save; a failed save restores the announced write |
| `PublishedHead.PublishedHeadStage.EnsurePullRequest` | src/agent_run/change_delivery_published_head.py:401-456 | Going on means the pull request is recorded and its write settled |
| `PublishedHead.PublishedHeadStage.ReadCreated` | src/agent_run/change_delivery_published_head.py:457-478 | The ensured pull request must be open; a merged or closed one blocks the job |
| `PublishedHead.PublishedHeadStage.VerifyIdentity` | src/agent_run/change_delivery_required_checks.py:143-216 | Goes on exactly when all seven live identity fields match; a drifted identity blocks |
| `PublishedHead.PublishedHeadStage.ReadChecks` | src/agent_run/change_delivery_required_checks.py:219-320 | An observation is kept exactly when it names this pull request and head, is consistent, and is bracketed by a matching live identity and current requirements |
| `PublishedHead.PublishedHeadStage.CommitChecks` | src/agent_run/change_delivery.py:200-213 | The observation and its copy in the active review-free receipt are saved together, after validation |
| `PublishedHead.PublishedHeadStage.RouteFailure` | src/agent_run/change_delivery_required_checks.py:360-451 | A failure reaches repair or escalation only between two matching identity reads and with evidence about this head; the observation is then cleared |
| `PublishedHead.PublishedHeadStage.ObserveChecks` | src/agent_run/change_delivery_required_checks.py:219-454 | The routine goes on exactly for a complete observation with result `none` or `pass` |
| `PublishedHead.PublishedHeadStage.PassGate` | src/agent_run/change_delivery_published_head.py:496-609 | The gate opens exactly when checks, authority, integration record, trees, the final live read and both live heads agree |
| `PublishedHead.PublishedHeadStage.Arm` | src/agent_run/change_delivery_published_head.py:629-728 | The integration record and a merge intent for the publication are saved in `merging`; a saved intent for another boundary blocks |
| `PublishedHead.PublishedHeadStage.ArmedJobPassesGate` | src/agent_run/change_delivery_published_head.py:497-737 | A job armed after an open gate satisfies every demand of a merge |
| `PublishedHead.PublishedHeadStage.SpendAttempt` | src/agent_run/change_delivery_published_head.py:734-735 | The attempt is spent durably before the call |
| `PublishedHead.PublishedHeadStage.SendMerge` | src/agent_run/change_delivery_published_head.py:729-754 | With three attempts spent nothing is sent; otherwise the merge of exactly the publication head is sent after the spent attempt is saved |
| `PublishedHead.PublishedHeadStage.FinishMerge` | src/agent_run/change_delivery_published_head.py:755-788 | The job completes exactly when the target is synchronised, the live read says MERGED and the closeout succeeds |
| `PublishedHead.PublishedHeadStage.GateAndMerge` | src/agent_run/change_delivery_published_head.py:496-788 | From the gate on, the ticket completes exactly when its merge is sent successfully and closes out |
| `PublishedHead.PublishedHeadStage.PublishHead` | src/agent_run/change_delivery_published_head.py:353-478 | Going on means the job differs from before only by its acknowledged push and its pull request |
| `PublishedHead.PublishedHeadStage.PublishAndMerge` | src/agent_run/change_delivery_published_head.py:126-788 | Every pass keeps the history legal; a fresh publication with friendly answers completes |
| `PublishedHead.PublishedHeadStage.ReconcilePendingWrite` | src/agent_run/change_pr_reconciliation.py:13-47 | A sent pull request write is settled from its readback or the job blocks; a failed save restores intent and number |
| `PublishedHead.PublishedHeadStage.Step` | src/agent_run/change_delivery.py:247-320 | An activation ends with memory equal to the store unless it raises |
| `PublishedHead.PublishedHeadStage.Advance` | src/agent_run/change_delivery.py:229-320 | Phases outside publication are left alone; a prepared publication with friendly answers is completed by one activation |
| `PublicationRuns.Run` | src/agent_run/change_delivery.py:215-227 | Any sequence of activations, deaths in the middle of one, resumptions and redeliveries: the trace of histories follows the happenings one by one, each history is what its happening makes of the one before, and all are legal |
| `PublicationRuns.Happen` | src/agent_run/controller.py:2011-2075 | A resumption restores exactly the phase that was kept, a merged publication goes back to its closeout, and a prepared delivery is taken over as it is |
| `PublicationRuns.DieDuring` | src/agent_run/change_delivery.py:188-198 | A process that dies after any number of events of an activation keeps exactly those events, and restarts from the last saved job among them |
| `PublicationRuns.OutsiderWinsTheRace` | src/agent_run/change_delivery_published_head.py:504-788 | The routine's own gate, merge and closeout on a truthful remote where somebody else merges the pull request after the final read and before the first save in `merging`: the foreign merge is adopted and the ticket completes |
| `PublicationRuns.FriendlyDelivery` | src/agent_run/change_delivery_published_head.py:126-788 | A concrete delivery that one activation takes from its push to the closed ticket, so the favourable case is not empty |
| `CredentialRenewal.Renew` | src/agent_run/credential_lifecycle.py:162-204 | The loop calls the provider at exactly the turns the closed condition names, whatever wake-ups occur, and leaves attempts and expiry as specified |
| `CredentialRenewal.EveryCallIsSpaced` | src/agent_run/credential_lifecycle.py:174-204 | After the first call, successive calls are at least a second apart, also across episodes; inside an episode call k comes no earlier than the back-off table, and within window and margin |
| `CredentialRenewal.LoopKeepsInvariant` | src/agent_run/credential_lifecycle.py:162-204 | Deadline, delay and attempts always describe the current streak of failures |
| `CredentialRenewal.BackOffTable` | src/agent_run/credential_lifecycle.py:195-199 | The delays are 1, 2, 4, 8, 16 and then 30 seconds, so the offsets are 31 + 30m |
| `CredentialRenewal.EpisodeLimit` | src/agent_run/credential_lifecycle.py:171-199 | An episode makes no more calls than fit the shorter of window and margin |
| `CredentialRenewal.AtMost24Calls` | src/agent_run/credential_lifecycle.py:47-70 | A failure episode of the 600-second window makes at most 24 provider calls, whatever the margin |
| `CredentialRenewal.AtMost14CallsByDefault` | src/agent_run/credential_lifecycle.py:11-13 | With the default margin of 300 seconds the credential expires first: at most 14 calls |
| `CredentialRenewal.EpisodeLengthExactly` | src/agent_run/credential_lifecycle.py:162-204 | An episode of n calls is possible exactly when the back-off before its last call is shorter than window and margin |
| `CredentialRenewal.FailingEpisode` | src/agent_run/credential_lifecycle.py:195-199 | A provider that always fails at once is called as often as the limit allows |
| `CredentialLifecycle.RenewableCredential.Deliver` | src/agent_run/credential_lifecycle.py:145-160 | A valid value is handed over and stored under the lock only while the lifecycle is open; an expired value is refused |
| `CredentialLifecycle.RenewableCredential.Launch` | src/agent_run/credential_lifecycle.py:88-96 | The threads start only for an open lifecycle, which then holds a credential |
| `CredentialLifecycle.RenewableCredential.WatchExpiry` | src/agent_run/credential_lifecycle.py:120-132 | Expiry removes the held credential at its time and closes; an open lifecycle always holds one |
| `CredentialLifecycle.RenewableCredential.ReportExhaustion` | src/agent_run/credential_lifecycle.py:133-143 | The callback runs once, after an expiry |
| `CredentialLifecycle.RenewableCredential.Close` | src/agent_run/credential_lifecycle.py:102-106 | Closing drops the credential at once |
| `CredentialLifecycle.Interleave` | src/agent_run/credential_lifecycle.py:102-160 | Every interleaving of the critical sections leaves exactly the state and the log that its turns describe |
| `CredentialLifecycle.NothingAfterTheEnd` | src/agent_run/credential_lifecycle.py:102-160 | Under every interleaving nothing is delivered after a close or an expiry |
| `CredentialLifecycle.ExhaustionOnlyAfterExpiry` | src/agent_run/credential_lifecycle.py:120-143 | Exhaustion is reported at most once, only to an owner that asked for it, and only after the held credential expired while the lifecycle was open |
| `CiBudget.Budget.ObserveFailure` | src/agent_run/ci_development_budget.py:67-78 | A new head is recorded once with the usage at that time; the quota is declared exhausted exactly when it is full |
| `CiBudget.Budget.ChargeAttempt` | src/agent_run/ci_development_budget.py:81-93 | One charge for a failed head with quota left, none for work that is already charged, an error otherwise |
| `CiBudget.Budget.SettleWithoutCandidate` | src/agent_run/ci_recovery_budget.py:52-57 | An attempt without a candidate is settled and stays charged |
| `CiBudget.Budget.CheckpointAfterReviewerFailure` | src/agent_run/ci_recovery_budget.py:114-119 | A rejection parks the repair exactly when the quota is full |
| `CiBudget.Budget.StartOrCheckpoint` | src/agent_run/change_delivery.py:393-404 | The engine starts exactly a repair that has quota, and its checkpoint is truthful exactly when a failed head was observed |
| `CiBudget.Budget.Renew` | src/agent_run/ci_development_budget.py:96-106 | Only an exhausted quota is renewed, and the resumption records a full one |
| `CiBudget.Run` | src/agent_run/ci_development_budget.py:26-106 | The record, updated in place step by step, is exactly the one the steps describe |
| `CiBudget.QuotaIsConserved` | src/agent_run/ci_development_budget.py:26-106 | After any steps the charges ever made are (window - 1) * limit + used, every closed window was full and is recorded in order, exhausted means full, and a repair is scheduled only after a failed head was observed |
| `CiBudget.ChargesNeedResumptions` | src/agent_run/ci_development_budget.py:81-106 | No cycle charges more attempts than one quota for the start and one for every explicit resumption |
| `CiBudget.CheckpointTruthfulExactly` | src/agent_run/change_delivery.py:393-404 | The engine's unchecked checkpoint leaves a sound quota if and only if a failed head was observed before; an unused quota without one would be declared exhausted |
| `CiRepairChain.TicketCi.RouteFailure` | src/agent_run/change_delivery_required_checks.py:58-92 | The failed head is the published one, and the authority behind it is kept as the previous authorization |
| `CiRepairChain.TicketCi.StartRepair` | src/agent_run/change_delivery.py:393-404 | A repair is charged before it starts, or the job is parked with its quota used up |
| `CiRepairChain.TicketCi.NoCandidate` | src/agent_run/change_delivery_development.py:284-314 | An investigation without code keeps its charge and its failed head |
| `CiRepairChain.TicketCi.AuthorizeRepair` | src/agent_run/change_delivery_fallback.py:35-121 | A repair is authorised exactly when it descends from the failed published head, changes code, and answers a pending, charged, unreviewed repair; otherwise nothing changes |
| `CiRepairChain.TicketCi.Publish` | src/agent_run/change_delivery_fallback.py:35-121 | A head is published under the authority that names the current candidate |
| `CiRepairChain.TicketCi.Resume` | src/agent_run/ci_development_budget.py:96-106 | A new window continues the repair of the same failed head |
| `CiRepairChain.GroundedHeadsEndChains` | src/agent_run/change_delivery_fallback.py:186-253 | A head that repairs an earlier failed head ends a finite chain down to a head with acceptance or fallback authority |
| `CiRepairChain.Run` | src/agent_run/change_delivery_fallback.py:43-121 | The job and its quota, updated in place step by step, are exactly what the steps describe, log included |
| `CiRepairChain.CycleIsSound` | src/agent_run/change_delivery_fallback.py:43-121 | Across failures, repairs and renewals an unreviewed receipt always names the current candidate and a published, failed head that it descends from and differs from |
| `CiRepairChain.EveryHeadEndsAChain` | src/agent_run/change_delivery_fallback.py:186-253 | Every head published in any cycle ends a finite chain of repairs, each candidate descending from the failed head before it, down to a head with acceptance or fallback authority |
| `StructuredOutput.Invoke` | src/agent_run/codex.py:307-541 | The loop makes exactly the specified worker calls, every counter is saved before it is used, and a delivered result is recorded as completed |
| `StructuredOutput.OneTurn` | src/agent_run/codex.py:391-420 | A turn saves its output step before the worker is called |
| `StructuredOutput.Call` | src/agent_run/codex.py:420-541 | A worker call ends as specified for every outcome and every death of the process |
| `StructuredOutput.Judge` | src/agent_run/codex.py:504-540 | A valid, current output completes; an invalid one is repaired at most twice |
| `StructuredOutput.RecoverOrFail` | src/agent_run/codex.py:441-489 | Recovery counters are saved while waiting; a lost authorization stops without a recovery |
| `StructuredOutput.CallsArePaid` | src/agent_run/codex.py:391-541 | Every call after the first is paid for by an output step, the ordinary recovery or a capacity recovery |
| `StructuredOutput.AtMostFourCallsPlusCapacity` | src/agent_run/codex.py:374-541 | A fresh loop makes at most four worker calls plus one for each recovered capacity failure |
| `StructuredOutput.OneThread` | src/agent_run/codex.py:382-389 | Once a call used a thread all later calls use it, and a requested thread is never left |
| `StructuredOutput.HeardThreadIsKept` | src/agent_run/codex.py:382-389 | A thread that a worker reported stays the thread of the loop |
| `StructuredOutput.LaterCallsUseTheReportedThread` | src/agent_run/codex.py:382-389 | Every call after the one in which a worker reported its thread uses exactly that thread |
| `StructuredOutput.WritableExactlyWithoutError` | src/agent_run/codex.py:432-434 | Call by call: it may write exactly when the checkout may be written and the latest validation error before it is empty |
| `StructuredOutput.RepairsAreReadOnly` | src/agent_run/codex.py:432-434 | If every validation error has a text, no call after an invalid output may write to the checkout |
| `StructuredOutput.EmptyErrorReopensCheckout` | src/agent_run/codex.py:432-434 | A later validation error without a text makes the next repair writable again; this needs a validator that raises an empty text |
| `StructuredOutput.Sessions` | src/agent_run/agent_invocation.py:69-102 | Every session starts its loop from exactly what the one before saved, makes exactly the calls of that loop and saves its counters and its last output step |
| `StructuredOutput.SessionsArePaid` | src/agent_run/agent_invocation.py:69-102 | Over any crashes and resumes of one semantic attempt the saved output step stays in 1..3 and never decreases, the capacity count never decreases, the ordinary recovery is used at most once, and the worker is called at most 3 + sessions + capacity recoveries times |
| `StructuredOutput.SessionIsPaid` | src/agent_run/agent_invocation.py:69-102 | One session is paid for by what it adds to the saved counters, plus one call |
| `StructuredOutput.RunSession` | src/agent_run/agent_invocation.py:69-102 | A session inherits the counters of its predecessor, and its calls and saves are those of its loop |
| `AgentInvocation.Journal.Sync` | src/agent_run/agent_invocation.py:13-31 | The snapshot of a started Invocation is replaced in place, or added when there is none |
| `AgentInvocation.Journal.Start` | src/agent_run/agent_invocation.py:124-191 | A restart of the same work inherits its counters, and its validation error only when it resumes an interrupted output on the same thread |
| `AgentInvocation.Journal.ThreadStarted` | src/agent_run/agent_invocation.py:250-277 | A thread other than the requested one fails the Invocation |
| `AgentInvocation.Journal.ExecutionFinished` | src/agent_run/agent_invocation.py:202-208 | A finish closes the open segment, or records an end without a start |
| `AgentInvocation.Journal.RecoveryWaiting` | src/agent_run/agent_invocation.py:211-230 | A wait is opened unless one is open, and the counters are saved with it |
| `AgentInvocation.Journal.RecoveryStarted` | src/agent_run/agent_invocation.py:231-249 | Starting a recovery closes the open wait and no other |
| `AgentInvocation.Journal.Update` | src/agent_run/agent_invocation.py:13-31 | Updating the active Invocation updates exactly its snapshot |
| `AgentInvocation.Journal.Select` | src/agent_run/controller.py:2031-2034 | Selecting another Ticket makes its Invocation the active one and keeps the other's |
| `AgentInvocation.Journal.InterruptExited` | src/agent_run/agent_invocation.py:404-446 | Once the executors are gone the open Invocations are closed Ticket by Ticket and then the selected one, in their slots and in the history at once |
| `AgentInvocation.RecordAll` | src/agent_run/agent_invocation.py:124-294 | The records of any number of live Tickets, kept event by event, are exactly the ones the events describe |
| `AgentInvocation.RecordsStaySound` | src/agent_run/agent_invocation.py:13-31 | After any events of any Tickets the history holds exactly one snapshot per started Invocation, every slot's snapshot is current, and in each at most one wait and only the last segment is open |
| `AgentInvocation.HistoryOnlyGrows` | src/agent_run/agent_invocation.py:13-31 | No event reorders, renames or drops a snapshot |
| `AgentInvocation.NothingRunsAfterExit` | src/agent_run/agent_invocation.py:404-446 | Once the executors are gone an Invocation in a slot is left open exactly if it belongs to another, completed Ticket |
| `AgentProfiles.LastOverrideWins` | src/agent_run/agent_profiles.py:87-261 | Development and Review have the last explicit value since the last preset, else the preset's own |
| `AgentProfiles.FollowersFollow` | src/agent_run/agent_profiles.py:200-212 | A Publication that follows Development always has its values |
| `AgentProfiles.IndependentPublicationSurvives` | src/agent_run/agent_profiles.py:160-188 | An independent Publication keeps its values through presets and overrides of other roles |
| `AgentProfiles.WhoFollows` | src/agent_run/agent_profiles.py:200-212 | A configured Publication follows exactly when it is told to, or when it did, is not overridden and meets no preset with a Publication of its own |
| `AgentProfiles.InitializeTwice` | src/agent_run/agent_profiles.py:271-305 | Asking again with the same options resolves to the stored snapshot, provenance included |
| `AgentProfiles.Unique` | src/agent_run/agent_profiles.py:241-246 | Override lists keep every field once |
| `AgentProfiles.ProfileStore.Initialize` | src/agent_run/agent_profiles.py:271-305 | The document is created once; the same options return it and a different profile is refused |
| `AgentProfiles.ProfileStore.Configure` | src/agent_run/agent_profiles.py:307-342 | Each configuration adds one revision and leaves the bindings alone |
| `AgentProfiles.ProfileStore.BindThread` | src/agent_run/agent_profiles.py:347-391 | A bound thread keeps its binding, except that an independent Publication starts a thread of its own |
| `AgentProfiles.ProfileStore.AttachThread` | src/agent_run/agent_profiles.py:393-420 | All threads keep their bindings exactly if the reported thread is the requested one or none was |
| `AgentProfiles.ProfileStore.DiscardPending` | src/agent_run/agent_profiles.py:422-437 | Only a binding without a thread is dropped |
| `AgentProfiles.Serve` | src/agent_run/agent_profiles.py:264-437 | The document, updated request by request, is exactly the one the requests describe |
| `AgentProfiles.DocumentsAreSound` | src/agent_run/agent_profiles.py:264-437 | In every reachable document threads are unique, revisions are numbered in order, and each binding matches its role in the revision it names |
| `AgentProfiles.RequestFreezesExactly` | src/agent_run/agent_profiles.py:347-437 | A request keeps the binding of every thread if and only if it does not attach a thread other than the requested one |
| `AgentProfiles.BindingsLast` | src/agent_run/agent_profiles.py:347-437 | As long as reported threads match the requested ones, a thread keeps its binding through all later requests |
| `ThreadIdentity.Threads.SelectThread` | src/agent_run/agent_execution.py:26-43 | Only a new attempt under the rotating policy puts the current thread away, and no thread is forgotten |
| `ThreadIdentity.Threads.StoreDevelopment` | src/agent_run/change_delivery_threads.py:10-43 | A worker's thread is refused if it is a Reviewer's, a historical one in a fresh session, blank, or an unverified replacement |
| `ThreadIdentity.Threads.RecordDevelopment` | src/agent_run/change_delivery_threads.py:29-43 | The returned thread becomes current and a replaced one stays in the history |
| `ThreadIdentity.Threads.RecordReviewer` | src/agent_run/change_delivery_threads.py:46-77 | A Reviewer thread is accepted exactly when it is new and independent, or the one to resume, and is listed once |
| `ThreadIdentity.Run` | src/agent_run/change_delivery_threads.py:10-77 | The thread books, updated in place stage by stage, are exactly the ones the steps describe |
| `ThreadIdentity.ThreadsStayIndependent` | src/agent_run/change_delivery_threads.py:10-77 | In every run Reviewer threads are distinct and never Development threads, current or past |
| `ThreadIdentity.FreshExactlyUnlessCurrent` | src/agent_run/change_delivery_threads.py:17-26 | A thread accepted for a request that named none was never used before, if and only if it is not the current one |
| `ThreadIdentity.NewAttemptsUseNewThreads` | src/agent_run/agent_execution.py:26-43 | Under the rotating policy every new attempt of any run records a thread that no earlier session used |
| `ThreadIdentity.NewSessionMayRepeat` | src/agent_run/change_delivery_threads.py:17-26 | An explicit new thread inside one attempt may be the current thread again, so freshness holds only when no thread is current |
| `AttemptEvidence.Bundle` | src/agent_run/attempt_evidence.py:418-466 | The collected identities are exactly the scalars on the allowed nested paths, in the groups their keys name |
| `AttemptEvidence.DeclaredUnfolds` | src/agent_run/attempt_evidence.py:450-465 | An identity is declared by a field of the object or inside one of its nested records |
| `AttemptEvidence.Merge` | src/agent_run/attempt_evidence.py:468-474 | Merged identities are those of any of the values |
| `AttemptEvidence.MergeIgnoresOrder` | src/agent_run/attempt_evidence.py:468-474 | Neither order nor repetition of the merged values matters |
| `AttemptEvidence.Matches` | src/agent_run/attempt_evidence.py:503-576 | A record matches an attempt exactly when its declared identities agree with the attempt's and prove at least one object |
| `AttemptEvidence.Compare` | src/agent_run/attempt_evidence.py:522-576 | The group by group comparison decides exactly that agreement |
| `AttemptEvidence.CandidateBinds` | src/agent_run/attempt_evidence.py:537-545 | A matching record that names a Candidate names exactly the attempt's one Candidate |
| `AttemptEvidence.TwoAttemptsShareTheCandidate` | src/agent_run/attempt_evidence.py:537-545 | Such a record can match two attempts only if both have exactly that Candidate |
| `DeliveryCleanup.CleanupEngine.Schedule` | src/agent_run/delivery_cleanup.py:241-262 | An item is registered once and keeps its first head |
| `DeliveryCleanup.CleanupEngine.TryOnce` | src/agent_run/delivery_cleanup.py:282-312 | One attempt works exactly when every step does, and deletes only at the recorded heads, nothing remote for a run repair |
| `DeliveryCleanup.CleanupEngine.AttemptItem` | src/agent_run/delivery_cleanup.py:270-312 | At most three attempts in a row and none after the first that works; an unmanaged branch is never attempted |
| `DeliveryCleanup.CleanupEngine.Attempt` | src/agent_run/delivery_cleanup.py:264-323 | Every pending managed item is tried, completed ones are left alone, and the status is completed exactly when every item is |
| `DeliveryCleanup.CleanupEngine.CompleteDelivery` | src/agent_run/delivery_cleanup.py:35-114 | A completed delivery schedules its branch and tries it; an incomplete one changes nothing; a death in between leaves the books of the first save |
| `DeliveryCleanup.CleanupEngine.Resume` | src/agent_run/delivery_cleanup.py:116-129 | A resume schedules every completed owner and retries every pending item; a death in between leaves the books of the first save |
| `DeliveryCleanup.CleanupEngine.PreserveDirtyCheckout` | src/agent_run/delivery_cleanup.py:131-169 | A dirty checkout reopens its item with the first heads kept, and deletes nothing |
| `DeliveryCleanup.Run` | src/agent_run/delivery_cleanup.py:171-323 | Over any calls, Git failures and deaths, also inside a resume, the books are exactly what the calls describe, nothing was done that they do not license, and whatever they call completed was really deleted at the recorded heads |
| `DeliveryCleanup.TriesExactly` | src/agent_run/delivery_cleanup.py:282-312 | At most three attempts in a row, none after the first that works, and the item is completed exactly if its last attempt worked |
| `DeliveryCleanup.ItemsStay` | src/agent_run/delivery_cleanup.py:241-262 | An item keeps its kind and first head for ever, and a completed one stays untouched until its dirty checkout is preserved |
| `DeliveryCleanup.CallsSettle` | src/agent_run/delivery_cleanup.py:313-323 | Every call that returns leaves `completed` exactly when every item is |
| `DeliveryCleanup.UnmanagedStayUntouched` | src/agent_run/delivery_cleanup.py:276-280 | In no run is an unmanaged branch ever attempted |
| `DeliveryCleanup.DeathStaysHonest` | src/agent_run/delivery_cleanup.py:264-323 | A death loses what the attempts recorded and not what they did, and that stays licensed by the saved books |
| `DeliveryCleanup.DeathLeavesStaleStatusExactly` | src/agent_run/delivery_cleanup.py:264-268 | A death leaves a status that lies if and only if a completed cleanup had just been given an item it did not have |
| `DeliveryCleanup.DeathLeavesStaleStatus` | src/agent_run/delivery_cleanup.py:264-268 | A death after the first save of a call leaves `completed` with an item that is still pending |
| `DevelopmentCharges.DevelopmentJob.Allocate` | src/agent_run/change_delivery_development.py:59-123 | An attempt is charged once, before it is saved as pending; a pending one is resumed without a charge, or refused for other work |
| `DevelopmentCharges.DevelopmentJob.CloseWithCandidate` | src/agent_run/change_delivery_development.py:320-354 | A candidate closes the attempt without another charge |
| `DevelopmentCharges.DevelopmentJob.CloseWithoutCode` | src/agent_run/change_delivery_development.py:262-318 | An attempt without code is closed and stays charged |
| `DevelopmentCharges.DevelopmentJob.CloseAfterIntegrityFailure` | src/agent_run/change_delivery_development.py:357-423 | A restored checkout closes the attempt; a failed restoration keeps it pending |
| `DevelopmentCharges.DevelopmentJob.RefundUnstarted` | src/agent_run/change_delivery.py:514-559 | An attempt whose credential was never available first gives back a charged integration name, else its ordinary charge; a CI repair is settled without a refund |
| `DevelopmentCharges.DevelopmentJob.Invalidate` | src/agent_run/change_delivery.py:803-822 | Changed requirements close the semantic attempt and keep the charged attempt pending |
| `DevelopmentCharges.Run` | src/agent_run/change_delivery_development.py:59-123 | The job, updated in place step by step, carries exactly the charges the steps describe |
| `DevelopmentCharges.BooksBalance` | src/agent_run/change_delivery_development.py:59-123 | For every kind the durable charges equal its closed attempts plus a pending one, corrected by exactly the counted exceptions: invalidations, settled CI repairs, integration attempts under an already charged name and refunds that returned another attempt's integration charge |
| `DevelopmentCharges.PlainRunsChargeOnce` | src/agent_run/change_delivery_development.py:59-123 | While nothing is invalidated or refunded, every ordinary and CI charge is exactly one closed or pending attempt |
| `DevelopmentCharges.RefundRestoresExactly` | src/agent_run/change_delivery.py:514-559 | Allocating and refunding an attempt leaves all charges as they were if and only if it is no CI repair and its name was not charged before |
| `DevelopmentCharges.RefundMayCross` | src/agent_run/change_delivery.py:530-538 | An ordinary attempt under the name of a charged integration attempt gives back the integration charge and stays paid itself |
| `DevelopmentCharges.RetriedIntegrationIsUnpaid` | src/agent_run/integration_development_budget.py:40-59 | Two closed integration attempts with one charge, because both have the same name |

## Left out

- Parent-only and run-repair deliveries: only the Ticket label of the publication routine is modelled, so linked branch display, explicit approval and the append-only parent integration are absent.
- Status comments, linked branches and supervision windows: they carry no write authority.
- A failed save: it counts as a crash, except for the two saves after a pull request write, whose rollback is modelled.
- Supervision of mismatched failure evidence: the model keeps the wait and not its limits.
- Development, review and integration before publication: one step that may prepare any job which keeps or drops the merge intent, the integration record and the recorded merge.
- Resumption rules: any parked job may be reopened, which allows more runs than the controller does.
- Renewal of the ordinary and the integration Development budget: the window is only part of an attempt's name, and charges are counted without a renewal; the CI windows are in `CiBudget`.
- Integration conflicts that are resolved outside the Development stage: they share the integration budget and the names, and appear only as the kind that a later stage chooses for an attempt.
- Closeouts that the controller prepares again: a candidate without a pending semantic attempt is treated as an error.
- Wall-clock deadlines of an Invocation: a turn either has time left or has not.
- Prompts, worker processes, sandboxes and credential files.
- Files, locks and JSON encoding: a save is atomic and never returns malformed data, so the checks for malformed records are absent.
- Model names are taken as already trimmed, and invalid model names or efforts cannot be expressed.
- The policy that chooses which Invocations belong to an attempt: the retained values are a parameter of `AttemptEvidence.Matches`.
- Review rounds and their budget.
- Run Acceptance reviewer threads and run repair thread identities.
