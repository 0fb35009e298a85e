# Verification of the messaging, distribution, operations and login protocols

A Dafny model of five components of the backend, with proofs about all their runs. `dafny verify dfyconfig.toml` checks everything.

Transactions are single steps, and what happens between two transactions interleaves freely. The classes carry each operation out statement by statement, the way the source updates its rows, and are proved against specification functions; the protocol lemmas are about sequences of those functions.

**Pin AI replies** (`AutoRepository`, `AutoResponder`, `HostInbox`, `PinAi*`). Workers race to answer the messages of a guest thread. A claim takes a 180 second lease on the thread and the message, a check reads the conversation twice, a fence marks both rows as sending, and a receipt per (organization, request key) is taken before the provider POST. Hosts switch threads between HUMAN and AUTO and reply themselves. A step that is not enabled changes nothing, so every list of steps is an interleaving, and a worker that is not scheduled again has crashed. `PinAiSafety`, `PinAiTakeover` and `PinAiScenarios` are about all runs; `PinAiOutcomes` says what becomes of a message, by what its worker meets.

**Airbnb activation** (`Activation*`, `ChannelLifecycle`). A durable claim and an audit row precede a POST that must not be repeated; uncertain outcomes are settled by a GET, by the same request or by a later verification. The lifecycle webhook rewrites the same row and clears the claim on every event but `activate_channel`. Three layers of results: what holds in every run (`ActivationKeys`), what holds exactly if webhooks clear spent claims only (`ActivationSafety`), and exactly if they find no open audit (`ActivationLink`). `ActivationOutcomes` says how an activation or a verification that nobody disturbs ends.

**Full-sync evidence** (`FullSync*`). Two services decide whether the last full synchronisation covers the horizon and is recent enough: one compares expanded dates with an expected sequence, the other collects them in a set.

**Operational issues** (`Operational*`). Rows with a workflow state, an append-only transition log, explicit reopening, bulk resolution, and the reconciliation of guest-message deliveries as a client. `OperationalMeaning` tells what each call accepts and stores without its own functions.

**Property matching and login challenges** (`Property*`, `MfaChallenge`). Scoring and ranking of listings, the conflict pass and later corroboration; attempt counting under a resend cooldown.

## What turned out false, and when it holds

- A lifecycle webhook can clear the claim under a POST that is still in doubt; a second activation then posts blindly (`BlindSecondPost`). Over a whole run nothing is ever in doubt without a claim if and only if every clearing webhook finds the claim spent (`QuietExactlyWhen`), and every open audit's claim is in force if and only if every clearing webhook finds no open audit (`LinkedExactlyWhen`). A webhook that looks for open audits first meets both conditions (`ClosedRunsAreSafe`).
- An activation claim is not always released again. Once its requests have given up or died, later activations and verifications can release it if and only if exactly one audit is open and the channel is active or a POST in flight may still activate it (`ReleasableExactlyWhen`); a webhook is the only other way out. A crash right after the claim is enough (`CrashBeforePostSticks`), and so is a verification that reads no claim just before one is taken (`VerificationCanWedge`).
- A resume does not by itself keep older guest messages out: the boundary is read from the clock before the transaction, so an earlier AUTO control may commit last and lower it (`LateResumeLowersBoundary`). On an idle automatic thread, a message no later than a boundary can still be answered before the next resume if and only if the thread's row carries an earlier one (`ResumeHoldsExactlyWhen`).
- A HUMAN control that answers `sending: false` does not rule out a later automatic POST. One is possible exactly when some worker is past its fence, short of its POST, and past its lease (`TakeoverIsFinalExactlyWhen`, `StalledWorkerPostsAfterTakeover`).
- A consumed login challenge stays CONSUMED if and only if nobody verifies it again; the next verification relabels it LOCKED or EXPIRED (`ConsumedExactlyWhen`). It never becomes usable again.
- A similarity of 1, reported as NAME_EXACT, does not mean equal names (`ExactNameExactlyWhen`, `DifferentNamesCanBeExact`).
- Taken alone, the exported portfolio matching can match a listing with an empty identifier to two properties (`ExclusiveExactlyWhen`, `EmptyIdCanBeShared`). Its caller refuses empty identifiers (src/distribution/airbnb-host-self-service.listings.service.ts:61-66, :178), and then matches are always exclusive (`ExclusiveWithIdentifiers`).
- After a crash between the reopening and the upsert of an attention issue the next evidence is settled as usual, but the same evidence finds nothing to do, so the row keeps what only the upsert would refresh (`CrashLeavesOpenGap`, `CrashBetweenStillSettles`).
- The two payload checks do not accept the same payloads: a null date beside a range, or ranges out of order, pass the set check only. `OrderedIsSetInOrder` is the exact relation (`SetSpanStates`, `TilingIsOrderedPartition`).
- The fence's own conflict error cannot occur (`FenceNeverConflicts`).

## Model

| member | source | states |
|---|---|---|
| AutoRepository.ClaimFirstTakesOneRow | src/channex-messaging/pin-ai-auto.runtime.ts:40-52 | A scheduler pass takes at most one message, one without a live owner, returns the job for it, and leaves every other message untouched |
| AutoRepository.ClaimFirstTakesTheFirst | src/channex-messaging/pin-ai-auto.runtime.ts:40-52 | A scheduler pass gets the first candidate that can be claimed, and comes back empty only if none can |
| AutoRepository.EnqueueMeans | src/channex-messaging/pin-ai-auto.repository.ts:11-14 | After an enqueue the message waits in the queue, unless it was known, and nothing else has changed |
| AutoRepository.ClaimMeans | src/channex-messaging/pin-ai-auto.repository.ts:37-55 | A claim succeeds exactly on an idle thread for a message that still has the status read and is queued or was left by a worker whose lease is past; it leases both rows for three minutes and works from the later boundary |
| AutoRepository.ControlMeans | src/channex-messaging/pin-ai-auto.repository.ts:18-32 | A takeover changes the mode only; a resume works exactly on an idle thread that is not sending, and sets mode and boundary |
| AutoRepository.FenceMeans | src/channex-messaging/pin-ai-auto.repository.ts:56-65 | The fence told of the two rows: exactly when it succeeds, and that it marks them sending and nothing else |
| AutoRepository.FinishMeans | src/channex-messaging/pin-ai-auto.repository.ts:66-76 | An outcome is written exactly under the message lease; the thread is freed exactly under its own, and becomes the host's exactly for NEEDS_HOST and UNKNOWN |
| AutoRepository.Repository.EnqueueMessage | src/channex-messaging/pin-ai-auto.repository.ts:11-14 | Enqueues a message once; a duplicate changes nothing |
| AutoRepository.Repository.SetMode | src/channex-messaging/pin-ai-auto.repository.ts:18-32 | A takeover always succeeds and reports whether a send is in progress; a resume is refused, without a trace, exactly while the thread is sending or leased |
| AutoRepository.Repository.ClaimCandidate | src/channex-messaging/pin-ai-auto.repository.ts:37-55 | Claims exactly when thread and message are free and the message still has the status read; otherwise gives back what it took; the job's boundary is the later of the two |
| AutoRepository.Repository.FenceJob | src/channex-messaging/pin-ai-auto.repository.ts:56-65 | Commits exactly for an automatic idle thread under the job's live lease with the message still being processed; a conflict rolls back |
| AutoRepository.Repository.FinishJob | src/channex-messaging/pin-ai-auto.repository.ts:66-76 | Writes the outcome only under the job's lease, frees the thread only if that lease is the job's, and hands it to the host on NEEDS_HOST and UNKNOWN |
| AutoRepository.Repository.RunNext | src/channex-messaging/pin-ai-auto.runtime.ts:40-52 | Tries the candidates in order and stops at the first claim |
| AutoResponder.SortSorts | src/channex-messaging/pin-ai-auto.service.ts:17 | The conversation order is by time then identifier, and a permutation of the page |
| AutoResponder.CheckedMessage | src/channex-messaging/pin-ai-auto.service.ts:13-29 | A passed check pins the answered message: in the page, by a guest, the latest, and strictly after the boundary |
| AutoResponder.CheckSeesEveryHostMessage | src/channex-messaging/pin-ai-auto.service.ts:18-22 | A passed check means no host message at or after the boundary in the whole conversation, not just in the page |
| AutoResponder.CheckAnswers | src/channex-messaging/pin-ai-auto.service.ts:13-29 | Every answer of the check, if and only if, over the page as it came: a host message or a cut-off page is told before anything about the message itself |
| AutoResponder.HostGetsItExactlyWhen | src/channex-messaging/pin-ai-auto.service.ts:31-34 | A failed check gives the message to the host if and only if somebody else may be at the thread or its time is impossible, and otherwise skips it |
| HostInbox.ReceiptTable.Reserve | src/channex-messaging/host-inbox.runtime.ts:25-36 | Creates the receipt once per key, and otherwise returns the stored one |
| HostInbox.ReceiptTable.Complete | src/channex-messaging/host-inbox.runtime.ts:37-40 | Marks the receipt sent with its message |
| HostInbox.ReceiptTable.MarkUnknown | src/channex-messaging/host-inbox.runtime.ts:41-43 | Marks only a pending receipt uncertain |
| HostInbox.ReceiptTable.Send | src/channex-messaging/host-inbox.ts:105-128 | Posts exactly for a new key; a known key is answered from its stored message, for the same fingerprint only, or refused |
| PinAiSafety.RunsAreGood | src/channex-messaging/pin-ai-auto.repository.ts:9-76 | The lease, fence and receipt invariant holds in every state of every interleaving |
| PinAiSafety.AtMostOnePost | src/channex-messaging/pin-ai-auto.service.ts:32-56 | At most one POST per message by any worker, and per (organization, request key) by anybody |
| PinAiSafety.AtMostOneFence | src/channex-messaging/pin-ai-auto.repository.ts:56-65 | A fence succeeds at most once per message over all workers, crashes and re-claims |
| PinAiSafety.FencedWindow | src/channex-messaging/pin-ai-auto.repository.ts:37-76 | A fenced, unfinished worker under a live lease still owns the thread, which is marked sending; two such windows never overlap |
| PinAiSafety.FenceNeverConflicts | src/channex-messaging/pin-ai-auto.repository.ts:62 | The fence's conflict branch is unreachable |
| PinAiSafety.StatusIsTruthful | src/channex-messaging/pin-ai-auto.service.ts:32-56 | A posted message is SENDING, SENT or UNKNOWN; SENT has a delivered receipt; a dispatched status has a successful fence; so SKIPPED and NEEDS_HOST were never posted |
| PinAiSafety.StatusesOnlyAdvance | src/channex-messaging/pin-ai-auto.repository.ts:46-48 | Dispatched messages stay dispatched and terminal rows never change |
| PinAiSafety.ReplayReturnsStored | src/channex-messaging/host-inbox.ts:111-116 | Whatever a call returns is stored as delivered under the same key and fingerprint |
| PinAiSafety.ReceiptsSettleOnce | src/channex-messaging/host-inbox.runtime.ts:25-43 | A receipt keeps owner and fingerprint, and leaves PENDING at most once, for good; posts are only added |
| PinAiReceipts.NextAdvancesReceipts | src/channex-messaging/host-inbox.runtime.ts:37-43 | No single step takes a settled receipt back |
| PinAiTakeover.HumanBlocksFences | src/channex-messaging/pin-ai-auto.repository.ts:56-65 | While a thread stays in human hands no new fence succeeds on it |
| PinAiTakeover.TakeoverSafety | src/channex-messaging/pin-ai-auto.repository.ts:18-32 | After a takeover that reports no send, and until a resume: no fence succeeds, and any automatic POST comes from an earlier fence after its lease ran out |
| PinAiTakeover.TakeoverIsFinalExactlyWhen | src/channex-messaging/pin-ai-auto.runtime.ts:68-73 | An automatic POST after the takeover is possible if and only if a worker is past its fence and short of its POST |
| PinAiTakeover.ResumeSafety | src/channex-messaging/pin-ai-auto.repository.ts:23-28 | Every fence after a resume belongs to a job claimed after it and answers a message strictly after the boundary the thread carries, which is the resume's unless an earlier one commits later |
| PinAiScenarios.ResumeHoldsExactlyWhen | src/channex-messaging/pin-ai-auto.repository.ts:23-28 | On an idle automatic thread a message no later than a boundary can be answered before the next resume if and only if the thread's row carries an earlier boundary |
| PinAiScenarios.LateResumeLowersBoundary | src/channex-messaging/pin-ai-auto.runtime.ts:66 | A run in which two resumes commit out of order and an older message is answered |
| PinAiScenarios.StalledWorkerPostsAfterTakeover | src/channex-messaging/pin-ai-auto.repository.ts:71-74 | A run in which another message's finish clears the sending flag and the stalled worker posts after the takeover |
| PinAiScenarios.ThreadRecovers | src/channex-messaging/pin-ai-auto.repository.ts:37-76 | Once its lease has run out, a thread with a queued message can be freed and resumed, whatever crashed on it |
| PinAiOutcomes.WaitingIsAnswered | src/channex-messaging/pin-ai-auto.service.ts:32-50 | A message that waits, or that a dead worker left before its fence, is claimed, checked twice, fenced and posted once, for any page that calls for an answer and any draft, if nobody disturbs it; it ends SENT on a free automatic thread if the provider's message came back, and UNKNOWN with the host otherwise |
| PinAiOutcomes.WaitingIsClaimed | src/channex-messaging/pin-ai-auto.runtime.ts:40-52 | The first half of that run: the claim of a waiting message starts a worker that owns both rows |
| PinAiOutcomes.ConfirmedDelivers | src/channex-messaging/pin-ai-auto.service.ts:38-50 | The second half: two clean reads lead to the fence, the POST and the outcome |
| PinAiOutcomes.FailedCheckCloses | src/channex-messaging/pin-ai-auto.service.ts:38-44 | A failed check ends the job with the status its reason calls for, and posts nothing |
| PinAiOutcomes.HostMessageHandsOver | src/channex-messaging/pin-ai-auto.service.ts:21-23 | Once a host has written at or after the boundary, the message ends NEEDS_HOST and the thread HUMAN |
| PinAiOutcomes.OldMessageIsPassedOver | src/channex-messaging/pin-ai-auto.service.ts:24-26 | A superseded or old message ends SKIPPED and leaves the thread in its mode |
| PinAiOutcomes.DraftGoesOutExactlyWhen | src/channex-messaging/pin-ai-auto.service.ts:43-45 | The draft goes on to the fence if and only if the page is unchanged and the draft answers this message; otherwise the host gets it |
| PinAiOutcomes.FailureCloses | src/channex-messaging/pin-ai-auto.service.ts:51-55 | A failure before the fence is SKIPPED for the five known refusals and NEEDS_HOST for every other |
| PinAiOutcomes.LostFenceCloses | src/channex-messaging/pin-ai-auto.service.ts:46 | A fence that fails gives message and thread to the host and posts nothing |
| PinAiOutcomes.TakeoverBeatsFence | src/channex-messaging/pin-ai-auto.repository.ts:29-30 | A host who takes over before the fence gets the message, and nothing is posted for it |
| PinAiOutcomes.ExpiredDispatchIsGivenUp | src/channex-messaging/pin-ai-auto.service.ts:36-37 | A message whose worker died after its fence is never posted again and becomes the host's as UNKNOWN |
| PinAiOutcomes.FencedCallIsForTheMessage | src/channex-messaging/pin-ai-auto.service.ts:48-49 | A fenced worker sends its own text to its own conversation under the one key of its message |
| PinAiOutcomes.RejectedCallGivesUp | src/channex-messaging/host-inbox.ts:106-109 | A call refused before its reservation leaves no receipt and no POST; the message ends UNKNOWN |
| PinAiOutcomes.TakenKeyIsNotPosted | src/channex-messaging/host-inbox.ts:111-116 | A call that finds its key taken posts nothing; the message is SENT if and only if the same reply was delivered |
| PinAiOutcomes.ReplyTakesOver | src/channex-messaging/pin-ai-auto.runtime.ts:68-73 | A host's reply takes the thread over first and goes ahead unless the automation is just sending |
| PinAiOutcomes.HostReserves | src/channex-messaging/host-inbox.ts:111-116 | A host's call reserves a new key, and is answered from the receipt of a known one |
| PinAiOutcomes.HostReplyIsSent | src/channex-messaging/host-inbox.ts:117-127 | A host's reply under a new key is posted once, and its message returned and stored if it came back |
| ActivationStore.Rows.ClaimActivation | src/distribution/airbnb-host-activation.service.ts:509-520 | Takes claim and audit together, exactly when the key is new, no claim stands and the row is unchanged since it was read |
| ActivationStore.Rows.MarkActivationUnverified | src/distribution/airbnb-host-activation.service.ts:367-403 | Closes an open audit, and releases the claim only for a definitive failure of that claim |
| ActivationStore.Rows.FinalizeActivationVerified | src/distribution/airbnb-host-activation.service.ts:405-484 | Releases exactly the claim it was given, records the verification, and closes the open audit |
| ActivationStore.Rows.ApplyLifecycleEvent | src/distribution/channex-channel-lifecycle.evidence.ts:418-547 | Clears the claim on every Airbnb event but activate_channel, whatever audits are open |
| ActivationKeys.RunKeepsKeyed | src/distribution/airbnb-host-activation.service.ts:486-624 | In every run, whoever clears the claim: claims, POSTs and held claims belong to one request key each |
| ActivationKeys.OnePostPerRequestKey | src/distribution/airbnb-host-activation.service.ts:486-566 | In every run one request key never yields two POSTs |
| ActivationKeys.OneClaimPerRequestKey | src/distribution/airbnb-host-activation.service.ts:504-520 | Once a key has been claimed, every later claim under it is refused, over any further run |
| ActivationKeys.HoldersHaveOwnKeys | src/distribution/airbnb-host-activation.service.ts:504-520 | Two requests never hold claims under one key |
| ActivationSafety.NextKeepsSafe | src/distribution/airbnb-host-activation.service.ts:486-624 | Every step keeps the claim, audit, POST and request invariant, a clearing webhook as long as the claim is spent |
| ActivationSafety.ClearingIsSafeExactlyWhen | src/distribution/channex-channel-lifecycle.evidence.ts:454-461 | A clearing webhook keeps the invariant, and leaves nothing in doubt, if and only if the claim is spent |
| ActivationSafety.QuietExactlyWhen | src/distribution/airbnb-host-activation.service.ts:367-566 | Over a whole run, no POST is in doubt, in flight or to come while no claim stands, if and only if every clearing webhook finds the claim spent |
| ActivationSafety.PostsAreSettled | src/distribution/airbnb-host-activation.service.ts:486-566 | In such runs a request about to post, and anybody who finds no claim, finds every earlier POST rejected or followed by a GET that saw the channel active, and none in flight |
| ActivationSafety.ClosedAuditIsSpent | src/distribution/airbnb-host-activation.service.ts:428-482 | In such runs a closed audit has no POST in doubt, in flight or to come |
| ActivationLink.ClearingIsLinkedExactlyWhen | src/distribution/channex-channel-lifecycle.evidence.ts:454-461 | A clearing webhook keeps the link between audits and claim if and only if it finds no open audit |
| ActivationLink.LinkedExactlyWhen | src/distribution/airbnb-host-activation.service.ts:504-520 | Over a whole run every open audit's claim is in force if and only if no webhook clears over an open audit |
| ActivationLink.ClosedRunsAreSafe | src/distribution/airbnb-host-activation.service.ts:367-566 | Webhooks that find no open audit also find the claim spent |
| ActivationLink.OpenAuditIsTheClaim | src/distribution/airbnb-host-activation.service.ts:504-520 | In such runs at most one audit is open, and its start is the claim in force |
| ActivationScenarios.BlindSecondPost | src/distribution/channex-channel-lifecycle.evidence.ts:454-461 | A run in which a webhook clears the claim under a POST in flight and a second activation reaches its own POST |
| ActivationScenarios.StuckForever | src/distribution/airbnb-host-activation.service.ts:568-624 | Without a webhook, a claim over several or no open audits, or over a dead channel, is never released, and nothing is posted again |
| ActivationScenarios.ReleasableExactlyWhen | src/distribution/airbnb-host-activation.service.ts:486-624 | An abandoned claim can be released by activations and verifications if and only if exactly one audit is open and the channel is or may turn active |
| ActivationScenarios.CrashBeforePostSticks | src/distribution/airbnb-host-activation.service.ts:509-521 | A crash right after the claim leaves it for good although nothing was posted |
| ActivationScenarios.VerificationCanWedge | src/distribution/airbnb-host-activation.service.ts:568-624 | A run in which a verification reads no claim, another request claims, and its audit is closed without the claim |
| ActivationScenarios.VerificationReleases | src/distribution/airbnb-host-activation.service.ts:580-620 | With one open audit and the channel active, one verification releases the claim and closes the audit |
| ActivationOutcomes.ActivationSucceeds | src/distribution/airbnb-host-activation.service.ts:486-566 | The undisturbed activation, whether the answer to its POST arrives or gets lost: no claim afterwards, the audit a success, the verification on record, one POST |
| ActivationOutcomes.ConfirmedCompletes | src/distribution/airbnb-host-activation.service.ts:542-554 | Over an active channel the last GET and the last transaction release the claim, close the audit as a success and record the verification |
| ActivationOutcomes.UnconfirmedWaits | src/distribution/airbnb-host-activation.service.ts:542-557 | A last GET that sees an inactive or foreign channel keeps the claim and leaves the audit UNKNOWN for a verification |
| ActivationOutcomes.DeactivatedWaits | src/distribution/airbnb-host-activation.service.ts:544 | So does a channel that is deactivated before that GET |
| ActivationOutcomes.RefusedFinalizationWaits | src/distribution/airbnb-host-activation.service.ts:414-427 | So does a last transaction that finds another context |
| ActivationOutcomes.FailureEnds | src/distribution/airbnb-host-activation.service.ts:529-540 | A definitive failure over an inactive channel releases the claim and fails the audit; an uncertain one keeps the claim and leaves the audit open |
| ActivationOutcomes.ActivationFails | src/distribution/airbnb-host-activation.service.ts:521-540 | The whole activation with a rejected POST, and with a lost one |
| ActivationOutcomes.ErrorEnds | src/distribution/airbnb-host-activation.service.ts:521-540 | An error between the claim and the POST ends like a POST that fails |
| ActivationOutcomes.AlreadyActiveIsRecorded | src/distribution/airbnb-host-activation.service.ts:501-503 | An activation of an active channel takes no claim and records the verification |
| ActivationOutcomes.RefusedBeforeClaim | src/distribution/airbnb-host-activation.service.ts:495-508 | A claim in force, a foreign channel and a channel that is not ready end the request before it writes anything |
| ActivationOutcomes.ClaimGoesToExactly | src/distribution/airbnb-host-activation.service.ts:509-520 | The claim goes to a request if and only if its key is new, no claim is in force and the row is as it was read |
| ActivationOutcomes.TouchedRowRefuses | src/distribution/airbnb-host-activation.service.ts:513-518 | A row touched in between refuses the claim |
| ActivationOutcomes.InactiveVerificationWaits | src/distribution/airbnb-host-activation.service.ts:607-613 | A verification over an inactive channel keeps the claim and marks the audit UNKNOWN |
| ActivationOutcomes.VerificationStops | src/distribution/airbnb-host-activation.service.ts:595-606 | A verification stops, without a write, at a foreign channel and unless exactly one audit is open |
| FullSyncHorizon.ExpandPayloadDates | src/distribution/channex-airbnb-transport-readiness.policy.ts:233-258 | The loop yields exactly the days of the stated span, or nothing for malformed, reversed or overlong ranges |
| FullSyncHorizon.ValidateFields | src/distribution/channex-airbnb-transport-readiness.policy.ts:310-370 | The entry checks and their two errors |
| FullSyncHorizon.CheckItem | src/distribution/channex-airbnb-transport-readiness.policy.ts:310-378 | Yields an entry's days exactly if its fields and dates are well formed and it is no longer than the horizon |
| FullSyncHorizon.CollectCovered | src/distribution/channex-airbnb-transport-readiness.policy.ts:310-390 | Collects the days of all entries in payload order, and gives up only on payloads that cannot tile the horizon |
| FullSyncHorizon.ValidateFullSyncPayload | src/distribution/channex-airbnb-transport-readiness.policy.ts:279-411 | Accepts if and only if the entries are well formed and their ranges, in payload order, tile the horizon |
| FullSyncHorizon.CoversHorizon | src/distribution/airbnb-host-activation.service.ts:276-293 | Accepts if and only if the ranges partition the horizon, in any order |
| FullSyncHorizon.FlattenIsTiling | src/distribution/channex-airbnb-transport-readiness.policy.ts:372-396 | Equality with the expected day sequence is tiling |
| FullSyncHorizon.FullSetIsHorizon | src/distribution/airbnb-host-activation.service.ts:293 | Distinct days within the horizon number N exactly when they are all of it |
| FullSyncHorizon.TilingIsOrderedPartition | src/distribution/channex-airbnb-transport-readiness.policy.ts:372-396 | Tilings are exactly the partitions in ascending order: what separates the two checks |
| FullSyncHorizon.OrderedImpliesSet | src/distribution/airbnb-host-activation.service.ts:276-293 | Whatever the ordered check accepts, the set check accepts |
| FullSyncHorizon.OrderedIsSetInOrder | src/distribution/channex-airbnb-transport-readiness.policy.ts:279-411 | The ordered check accepts if and only if the set check does, the ranges ascend, every entry is well formed, and metadata and hash are sound |
| FullSyncHorizon.WholeRangeIsAccepted | src/distribution/channex-airbnb-transport-readiness.policy.ts:310-411 | One well formed entry over the whole horizon is accepted |
| FullSyncHorizon.DailyEntriesAreAccepted | src/distribution/channex-airbnb-transport-readiness.policy.ts:310-411 | One well formed entry per day is accepted |
| FullSyncHorizon.SetSpanStates | src/distribution/airbnb-host-activation.service.ts:276-284 | What an entry states to the set check: a day over a range, and a range in place of a missing or null day, which the ordered check refuses |
| FullSyncEvidence.FrontierRoundsUp | src/distribution/airbnb-host-activation.service.ts:88-91 | At or after the millisecond frontier is at or after the event in microseconds; the rounding costs less than one millisecond |
| FullSyncEvidence.CompareIsTotalOrder | src/distribution/airbnb-host-activation.service.ts:78-86 | Recorded events are totally ordered by microseconds and precedence |
| FullSyncEvidence.LatestInvalidation | src/distribution/channex-channel-lifecycle.evidence.ts:281-303 | The pass over the audits finds the greatest event |
| FullSyncEvidence.ReadingsAgree | src/distribution/channex-canonical-readiness.service.ts:271-356 | Both services read the same watermark from the same columns; the readiness service alone also rejects derived instants that are out of order |
| FullSyncEvidence.ServicesAgree | src/distribution/channex-canonical-readiness.service.ts:592-646 | From the columns on: the activation service has a frontier and the derived instants are in order, if and only if the readiness service has one and the audits end with the last invalidating event; the frontiers are equal |
| FullSyncEvidence.TimesMeanAfterTheEvent | src/distribution/channex-airbnb-transport-readiness.policy.ts:449-586 | Passing the time gates means the request came strictly after the governing event in microseconds and after the mapping change |
| FullSyncEvidence.TimesPassExactlyWhen | src/distribution/channex-airbnb-transport-readiness.policy.ts:449-586 | The time gates pass if and only if everything is on record in order and the request follows the mapping change and the governing frontier: the invalidation's after an Airbnb activation, else the last event's, and then not before the activation |
| FullSyncEvidence.AfterTheFrontierExactlyWhen | src/distribution/channex-airbnb-transport-readiness.policy.ts:577-586 | Strictly after the frontier is exactly at least one millisecond after the event, in microseconds |
| FullSyncEvidence.TimeProblemsAreReal | src/distribution/channex-airbnb-transport-readiness.policy.ts:449-586 | Whatever reason the time gates give is so |
| FullSyncEvidence.OrdinaryFrontiers | src/distribution/channex-canonical-readiness.service.ts:592-646 | After any event whose audits are complete, both services find the frontier of the governing event |
| FullSyncEvidence.ActivationKeepsEvidence | src/distribution/airbnb-host-activation.service.ts:233-250 | A request that let an activation through still passes the readiness gates after the activate_channel event |
| FullSyncEvidence.CheckRow | src/distribution/channex-airbnb-transport-readiness.policy.ts:644-749 | A row passes exactly when it is timely, dated over the common horizon, mapped, and its payload is accepted |
| FullSyncEvidence.Qualify | src/distribution/channex-airbnb-transport-readiness.policy.ts:413-774 | The qualification succeeds exactly for a correlated pair with all the evidence |
| FullSyncEvidence.QualifiedMeans | src/distribution/channex-airbnb-transport-readiness.policy.ts:644-760 | Qualified evidence: requested after the event and the mapping change, both deliveries inside, the later one at completion, each payload covering every day once |
| FullSyncEvidence.QualifiesExactlyWhen | src/distribution/channex-airbnb-transport-readiness.policy.ts:413-774 | The whole qualification in plain terms, if and only if: the times, the two kinds, both deliveries inside the window with the later at completion, and each payload an ascending partition of one horizon |
| OperationalService.IssueService.Upsert | src/apms/operational-intelligence.service.ts:363-636 | Writes row and log entry as specified or throws the right error without a trace, and keeps the log invariant |
| OperationalService.IssueService.Reopen | src/apms/operational-intelligence.service.ts:638-802 | Reopens a resolved row with one log edge, or throws without a trace, and keeps the log invariant |
| OperationalService.IssueService.ActiveIssues | src/apms/operational-intelligence.service.ts:828-840 | Lists exactly the reservation's unresolved issues, oldest first |
| OperationalService.IssueService.ResolveForReservation | src/apms/operational-intelligence.service.ts:804-946 | Resolves exactly the active issues other than recovery reviews, oldest first, and returns them |
| OperationalService.BulkResolvesTheReservation | src/apms/operational-intelligence.service.ts:828-945 | Afterwards no selected issue is active, every other row is untouched, and the new log entries, the list and the selected issues are equally many |
| OperationalLog.UpsertNeverReopens | src/apms/operational-transition-policy.ts:64-109 | An upsert adds no edge out of RESOLVED to any issue, and a resolved row stays resolved |
| OperationalLog.ResolveAllExact | src/apms/operational-intelligence.service.ts:842-945 | Bulk resolution rewrites exactly the listed rows and logs one edge each from the state it was in |
| OperationalLog.UpsertKeepsValid | src/apms/operational-intelligence.service.ts:405-631 | An upsert keeps every row consistent and its log a path |
| OperationalLog.ReopenKeepsValid | src/apms/operational-intelligence.service.ts:661-800 | A reopen keeps every row consistent and its log a path |
| OperationalLog.ReopenCountsOnce | src/apms/operational-intelligence.service.ts:719-721 | A reopen adds exactly one edge out of RESOLVED to its own issue and none to any other |
| OperationalLog.ResolveAllNeverReopens | src/apms/operational-intelligence.service.ts:842-945 | Bulk resolution adds no such edge to any issue |
| OperationalLog.ResolveAllKeepsValid | src/apms/operational-intelligence.service.ts:828-945 | So does a bulk resolution |
| OperationalLog.EveryRunKeepsTheLog | src/apms/operational-intelligence.service.ts:343-946 | The row and log invariant holds over every sequence of operations |
| OperationalLog.TransitionLogIsPath | src/apms/operational-intelligence.service.ts:343-361 | Each issue's log starts from nothing, continues where it ended, ends in the row's state and code, and holds reopenedCount edges out of RESOLVED |
| OperationalLog.LogOnlyGrows | src/apms/operational-intelligence.service.ts:589-631 | The log is append-only |
| OperationalMeaning.UpsertAnswers | src/apms/operational-intelligence.service.ts:174-636 | An upsert is refused exactly if its row would be inconsistent, else if a required text is blank, else if it would leave RESOLVED; accepted, it stores what it was given, and logs exactly a new issue, another state or another code |
| OperationalMeaning.ValidExactlyWhenRowOk | src/apms/operational-intelligence.service.ts:174-248 | The validator accepts exactly the upserts whose row is consistent |
| OperationalMeaning.WrittenStores | src/apms/operational-intelligence.service.ts:418-588 | Column by column, what an upsert stores and what it keeps of the earlier row |
| OperationalMeaning.UpsertStoresAnyRow | src/apms/operational-intelligence.service.ts:418-588 | Round trip: any consistent row can be stored as it is, and storing it again leaves it as it is |
| OperationalMeaning.ReopenAnswers | src/apms/operational-intelligence.service.ts:250-341 | Each error of a reopen, if and only if, in order; accepted, it rewrites one row and logs one edge out of RESOLVED |
| OperationalMeaning.ReopenStores | src/apms/operational-intelligence.service.ts:692-735 | A reopen stores the wanted state and no resolution, counts itself, and keeps code, reservation and detection |
| OperationalMeaning.ReopenIsAnUpsert | src/apms/operational-intelligence.service.ts:692-735 | Apart from its count, a reopen stores what an upsert of the same state would |
| OperationalMeaning.BulkStores | src/apms/operational-intelligence.service.ts:853-893 | Bulk resolution stores the given code, summary, kind, actor and time, leaves nobody anything to do, and keeps the rest |
| OperationalMeaning.BulkIsAnUpsert | src/apms/operational-intelligence.service.ts:853-893 | It stores what an upsert that resolves the issue in the same words would |
| OperationalMeaning.DetectionIsKept | src/apms/operational-intelligence.service.ts:363-946 | Over every sequence of calls no issue disappears, changes the time of its first detection or loses a reopening |
| OperationalMeaning.TrimIsExact | src/apms/operational-intelligence.service.ts:137-152 | Trimming takes exactly the spaces off both ends; a text is blank exactly if it is all spaces |
| OperationalAttention.NeverThrows | src/channex-messaging/ota-operational-attention.service.ts:55-149 | From any store every call passes all validators and transition checks; only the message's issue changes, and exactly as the answer says |
| OperationalAttention.HostSeesTheGap | src/channex-messaging/ota-operational-attention.service.ts:77-147 | After a change the host sees an open gap of the right severity, reason and recommendation, or the acceptance that closed it, with the time of the first detection kept |
| OperationalAttention.ReasonIgnoresCaseAndSpace | src/channex-messaging/ota-operational-attention.service.ts:64-65 | Neither the case of an error nor the space around it changes its reason or whether it is actionable |
| OperationalAttention.ReconcileKeepsValid | src/channex-messaging/ota-operational-attention.service.ts:55-149 | The reconciliation keeps the row and log invariant |
| OperationalAttention.Idempotent | src/channex-messaging/ota-operational-attention.service.ts:75-108 | The same evidence again, at any time, answers UNCHANGED and logs nothing |
| OperationalAttention.CrashLeavesOpenGap | src/channex-messaging/ota-operational-attention.service.ts:109-122 | A crash after the reopening leaves a valid store with the gap open under its reason, and the old issue code |
| OperationalAttention.CrashBetweenStillSettles | src/channex-messaging/ota-operational-attention.service.ts:109-148 | After such a crash any next evidence is settled like any other, and the same evidence changes nothing |
| OperationalAttention.KeysAreDistinct | src/channex-messaging/ota-operational-attention.service.ts:47-49 | Two reservations or message types never share an issue key |
| OperationalAttention.OneEntryPerFlip | src/channex-messaging/ota-operational-attention.service.ts:55-149 | Over any history of one message the log holds one entry per opening or closing of the gap |
| OperationalAttention.Reconcile | src/channex-messaging/ota-operational-attention.service.ts:55-149 | The method does what the specification says on the issue service and answers accordingly |
| PropertyNames.CollectBigrams | src/distribution/airbnb-property-auto-matching.ts:118-125 | The loop collects all adjacent pairs, or the single character |
| PropertyNames.CountCommon | src/distribution/airbnb-property-auto-matching.ts:131-140 | The counting map computes the size of the multiset intersection |
| PropertyNames.DiceSimilarity | src/distribution/airbnb-property-auto-matching.ts:127-142 | The loops compute twice the common bigrams over all bigrams |
| PropertyNames.DiceIsASimilarity | src/distribution/airbnb-property-auto-matching.ts:127-142 | Symmetric, within [0, 1], and 1 exactly for equal bigram multisets |
| PropertyNames.TokenCoverage | src/distribution/airbnb-property-auto-matching.ts:144-153 | The loop computes the share of the smaller word set found in the larger |
| PropertyNames.CoverageIsASimilarity | src/distribution/airbnb-property-auto-matching.ts:144-153 | Symmetric, within [0, 1], and 1 exactly when one word set contains the other |
| PropertyNames.NameSimilarityIsSymmetric | src/distribution/airbnb-property-auto-matching.ts:155-184 | The similarity does not depend on the order of the names |
| PropertyNames.NameSimilarityIsBounded | src/distribution/airbnb-property-auto-matching.ts:155-184 | Within [0, 1], and at most 0.75 for different numbers |
| PropertyNames.ExactNameExactlyWhen | src/distribution/airbnb-property-auto-matching.ts:155-184 | The similarity is 1 if and only if the names are equal, or have the same bigrams and numbers and no single word covers the other |
| PropertyNames.DifferentNamesCanBeExact | src/distribution/airbnb-property-auto-matching.ts:226 | Two different names that are reported as exact |
| PropertyNames.TokensUndoSpaced | src/distribution/airbnb-property-auto-matching.ts:104-106 | Splitting a normalised name undoes joining its words |
| PropertyNames.SimilarityOfWords | src/distribution/airbnb-property-auto-matching.ts:155-184 | The similarity by the words of two different names: exactly 0.82, 0.75 or 0.55 or at least 0.94 if one contains the other, never above 0.75 or 0.55 for different numbers, and else the better of bigrams and nine tenths of the coverage |
| PropertyNames.UnitsStayApart | src/distribution/airbnb-property-auto-matching.ts:172-181 | Names that end in different numbers score at most 0.55, whatever else they share |
| PropertyMatching.ScoreCandidate | src/distribution/airbnb-property-auto-matching.ts:218-265 | The running score and reasons amount to the specified candidate |
| PropertyMatching.AutomaticScoreNeedsThePlace | src/distribution/airbnb-property-auto-matching.ts:236-252 | Unless city and country are both known and equal, no name scores above 85 |
| PropertyMatching.ScoreIsWeighted | src/distribution/airbnb-property-auto-matching.ts:218-265 | The score is seventy points for the name, fifteen for the city and ten for the country, to the nearest hundredth |
| PropertyMatching.EitherNameCounts | src/distribution/airbnb-property-auto-matching.ts:205-213 | The better of the two names of a property counts |
| PropertyMatching.RankRanks | src/distribution/airbnb-property-auto-matching.ts:277-283 | The ranking is sorted and a permutation |
| PropertyMatching.RankingIsUnique | src/distribution/airbnb-property-auto-matching.ts:277-283 | Without repeated identifiers there is one ranking only |
| PropertyMatching.AutoMatchExactlyWhen | src/distribution/airbnb-property-auto-matching.ts:273-325 | AUTO_MATCH if and only if some titled listing is in the same known city and country, has a strong name and 90 points, and leads every other titled listing by 15; it is the candidate |
| PropertyMatching.DecisionReportsTheBest | src/distribution/airbnb-property-auto-matching.ts:267-347 | The decision reports the best titled listing: its score, exactly what its name and place say, AMBIGUOUS_RUNNER_UP if and only if some other titled listing comes within the margin, the runner-up's score, and exactly from the review threshold on its identifier; status and confidence follow the score |
| PropertyMatching.OrderDoesNotMatter | src/distribution/airbnb-property-auto-matching.ts:273-347 | The decision is the same for every order of listings with distinct identifiers |
| PropertyPortfolio.ConflictPass | src/distribution/airbnb-property-auto-matching.ts:427-448 | Rewriting in place, listing by listing, sends exactly the contested claims to review |
| PropertyPortfolio.PassMeans | src/distribution/airbnb-property-auto-matching.ts:427-448 | A listing with an identifier claimed twice sends both decisions to a review of medium confidence with the conflict as a further reason; every other decision stays |
| PropertyPortfolio.MatchPortfolio | src/distribution/airbnb-property-auto-matching.ts:419-460 | The decisions are those of the pass, and the summary counts them and adds up |
| PropertyPortfolio.CountsAddUp | src/distribution/airbnb-property-auto-matching.ts:450-459 | The three counts sum to the number of properties |
| PropertyPortfolio.CountIsExact | src/distribution/airbnb-property-auto-matching.ts:450-459 | Each count is the number of decisions with that status |
| PropertyPortfolio.CorroborationExactlyWhen | src/distribution/airbnb-property-auto-matching.ts:358-417 | A review is promoted if and only if all the evidence convinces; nothing else about the decision changes but added reasons |
| PropertyPortfolio.CorroborationIsIdempotent | src/distribution/airbnb-property-auto-matching.ts:349-417 | The same evidence again adds nothing |
| PropertyPortfolio.CorroborationExplains | src/distribution/airbnb-property-auto-matching.ts:358-417 | The reasons corroboration adds are exactly those the details give |
| PropertyPortfolio.AutomaticMatchesLead | src/distribution/airbnb-property-auto-matching.ts:309-417 | After the pass and any corroborations, every automatic match is to a titled listing that leads every other titled listing by the margin |
| PropertyPortfolio.EvidenceMatchesExactlyWhen | src/distribution/airbnb-property-auto-matching.ts:273-417 | For an unshared best listing in another city, its details make it the automatic match if and only if they agree, the name is strong, the score reaches a review, it has an identifier and every other listing is behind by the margin |
| PropertyPortfolio.SoleListingIsCorroborated | src/distribution/airbnb-property-auto-matching.ts:358-417 | Such evidence exists: any property that bears the name of its only listing, in another city, is matched by agreeing details |
| PropertyPortfolio.MatchesStayExclusive | src/distribution/airbnb-property-auto-matching.ts:358-460 | After the pass and any corroborations no two properties are matched to one listing with an identifier |
| PropertyPortfolio.ExclusiveExactlyWhen | src/distribution/airbnb-property-auto-matching.ts:429-432 | The outcome is exclusive if and only if no two properties are dominated by a listing with the empty identifier |
| PropertyPortfolio.ExclusiveWithIdentifiers | src/distribution/airbnb-host-self-service.listings.service.ts:61-66 | With identifiers on all listings, as their discovery guarantees, the outcome is always exclusive |
| PropertyPortfolio.EmptyIdCanBeShared | src/distribution/airbnb-property-auto-matching.ts:431 | The exported function alone: two properties matched to one listing with the empty identifier |
| MfaChallenge.Challenges.Create | src/auth/mfa-login-challenge.ts:46-128 | Stores a pending challenge with a fresh count and a five minute life |
| MfaChallenge.Challenges.Verify | src/auth/mfa-login-challenge.ts:134-248 | Expires, locks, counts or consumes the challenge as specified, and verifies the factor exactly on success |
| MfaChallenge.Challenges.Resend | src/auth/mfa-canary-flow.ts:131-242 | Sends a new code and resets the count exactly for a live challenge past its cooldown and a delivered mail |
| MfaChallenge.RetryAfterIsExact | src/auth/mfa-canary-flow.ts:175-187 | Waiting the reported seconds is enough, and one second less is not |
| MfaChallenge.VerifyAnswers | src/auth/mfa-login-challenge.ts:134-248 | What a verification of any challenge in use answers and stores, by the last code sent, its time and the wrong codes since |
| MfaChallenge.SucceedsExactlyWhen | src/auth/mfa-login-challenge.ts:187-247 | While a challenge is pending, a verification succeeds if and only if it brings the last code delivered within five minutes |
| MfaChallenge.ResendAnswers | src/auth/mfa-canary-flow.ts:131-242 | What a resend of a pending challenge answers and stores: expired, cooling down, not addressed, not delivered, or sent |
| MfaChallenge.ClosedAnswers | src/auth/mfa-login-challenge.ts:158-184 | A challenge that has left PENDING refuses every verification and every resend, and how |
| MfaChallenge.GuessBound | src/auth/mfa-otp.ts:4-6 | Over any mix of calls at most four wrong codes per completed minute plus five |
| MfaChallenge.GuessBoundIsTight | src/auth/mfa-otp.ts:50-52 | The bound is reached after any number of minutes |
| MfaChallenge.LeavingPendingIsFinal | src/auth/mfa-core.ts:105-120 | A challenge that left PENDING never returns, compares no further code and never succeeds again |
| MfaChallenge.AtMostOneSuccess | src/auth/mfa-login-challenge.ts:134-248 | A challenge succeeds at most once |
| MfaChallenge.SuccessNeedsTheLastCode | src/auth/mfa-canary-flow.ts:196-222 | Only the code delivered last is accepted, and only within its five minutes |
| MfaChallenge.ConsumedExactlyWhen | src/auth/mfa-login-challenge.ts:164-184 | A challenge that left PENDING is CONSUMED later if and only if it was and only resends have come since |

## Assumptions

- One clock that never goes back; lease tokens, claim times and row versions (`updatedAt`) that never repeat; hashes that never collide.
- Database calls inside the modelled protocols do not throw; a crash may happen between any two steps.
- The activation protocol's channel turns active only through the modelled POSTs, and a definitively rejected POST has no effect. The channel may turn inactive at any time, lifecycle webhooks may arrive at any time, and a webhook that changes nothing is no step. Runs that show that something is possible assume that the connection's other columns let a request through.
- Identifiers that are only compared and ordered (messages, listings) are numbers in that order. Rounding of floating-point scores is not modelled; scores are real numbers.

## Left out

- The `reason` texts of threads and messages, display texts of issues, security events and audit metadata: nothing modelled reads them.
- HTTP transports, JSON parsing, identifier and address patterns: a call's result is a parameter of the step.
- Text normalisation of names, countries and postal codes: the matcher's inputs are the normalised texts.
- Hashing, one-time-code generation and mail delivery: codes are numbers, and whether a mail was delivered is a parameter.
- Draft generation: any answer or any failure.
- Routes, dashboards, scripts, other transport policies and the derived readiness table: branch tables without state over time.
- AutoRepository.Repository.RunNext: one pass without interference, at one clock reading; in the protocol every claim is a step of its own, so a pass interleaves there.
- AutoRepository.ClaimFirstTakesOneRow: speaks of that undisturbed pass.
- HostInbox.ReceiptTable.Send: the call without interference, with its preflight checks as one boolean; the protocol interleaves its steps.
- FullSyncHorizon.ValidateFields: the identifier, value and key checks of an entry are summarised as booleans, because they are independent of the horizon.
- FullSyncHorizon.CoversHorizon: the column comparisons that surround the set check in the activation service are not modelled, only the set check; its time gates are the hypotheses of ActivationKeepsEvidence.
- FullSyncEvidence.Qualify: scope, status and mapping columns are summarised as booleans, and the canonical JSON hash is one of them.
- FullSyncHorizon.ValidateFullSyncPayload: the metadata, hash and entry field checks are booleans for the same reason.
- FullSyncEvidence.CheckRow: scope, status and mapping columns of a row are booleans too.
- FullSyncEvidence.LatestInvalidation: the parsing and scope checks of the audits are not modelled, only the choice of the latest.
- OperationalService.IssueService.Upsert: the columns that are merely copied are not kept.
- OperationalAttention.Reconcile: its calls run one after the other without interference, letters outside ASCII are not upper-cased, and the two recommendations stand for their full texts.
- PropertyMatching.OrderDoesNotMatter: says nothing about listings that share an identifier, where the first of equal scores wins.
- MfaChallenge.GuessBound: each call is atomic; two verifications that read the same count before either writes it are not modelled.
- MfaChallenge.Challenges.Create: reuses no token, as the source draws a random one.
