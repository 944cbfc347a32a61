# DueBack follow-through: a verified model

DueBack follows up on a promise a company has made: it extracts the promise, has the owner approve a
plan, sends the approved follow-ups, and closes the case only on matching evidence. This project models
the parts of that system where several writers and crashes meet, and the byte and text codecs it
depends on, and proves what they keep. `dafny verify dfyconfig.toml` checks everything.

## How it is laid out

- The protocol. `Contracts`, `Policy`, `Verifier` and `Findings` hold the shared records and the two
  deciders. `CaseHistory` is the life of one run as the sequence of its committed versions. `Documents`
  specifies each Firestore transaction as a function on values and `Store` has the transactions
  themselves, updating the stored documents. `Machine` is the step machine: runners (with the broker
  inside), the wake scheduler, the evidence service, the control service, bounces and duplicate
  deliveries, one store, queue or adapter call a step, with crashes between any two. `HistoryInvariant`,
  `LedgerInvariant`, `CommandInvariant`, `WakeInvariant` and `EvidenceInvariant` are its inductive
  invariants, `FollowThrough` the theorems over whole runs, `DoubleSend` the one exception and `SendAgain`
  its exact reach.
- The services. `Sessions` makes one worker's calls, each exactly one of its steps, with any steps of
  others in between: `Interfere` stands for them, and callers may rely on its contract only.
  `Services` is the runner, broker, scheduler, evidence and control code written out over those calls,
  each proved to be a run of the machine, so the theorems hold of that code.
- From intake to the run. `Drafts`, `Plans` and `PlanChain`.
- Codecs. `JsonText`, `Serialization` and `Identity` for the canonical text behind keys and hashes;
  `Csv`; `Bytes`, `Jpeg`, `Png`, `Pdf`, `Utf8` and `Upload` for uploads.
- Smaller machines. `SendBudget`, `AnalysisLease`, `EventLog` and `Paging`.

## What is assumed

- Firestore transactions are atomic. A call that throws has had no effect, except that `fail` may throw
  once it has freed the key, which ends where no throw does.
- Hashes are injective. Clocks are integers in milliseconds, given to each step of the machine; no order
  among the times of different workers is assumed.
- A queue task is not delivered again while its handler still runs; duplicates are tasks of their own.
- The machine is about one case, from its activation on. `PlanChain.ActivationIsFinal` shows that there
  is only one.

## Where the code falls short of its promise

- One key per approved action: when settling an accepted action throws and releasing it does not, the
  broker frees its key (`DoubleSend.KeyFreedIff`), and the action can be sent again
  (`DoubleSend.SecondEffect`, `DoubleSend.FirstActionTwice`). Of two executions of a key the earlier was
  rejected, or accepted and its key freed in just that way (`FollowThrough.AtMostOneEffect`). Once a key
  is free, its action can be sent again exactly while a worker is about to reserve it, or the unrevoked
  run is still at it and is due before its approval expires, needs attention, or has a receipt that may
  bounce; otherwise it never is (`SendAgain.ResentIff`).
- An amount or currency added in review is approved but never shared, because `sharedFields` stays that
  of intake: every proposal of that run is denied (`PlanChain.DeniedOnlyForExpiry`,
  `PlanChain.AddedMoneyIsApprovable`).
- REVISE reopens the draft for a new approval, but no approval of it can commit, because the first event
  of the run exists already (`PlanChain.ActivationIsFinal`, `PlanChain.ReopenedIsStuck`).
- A rejection does not raise the plan version, and `replace` checks nothing else. An approval or an edit
  that has read the draft before is written over it (`PlanChain.RejectionCanBeLost`). Before activation
  the rejection is final exactly when no such call is pending (`PlanChain.RejectionIsFinalIff`).
- `markAttemptFailed` and the write of `retryOwned` check neither who holds the lease nor the status. A
  failure report, or the write of a retry, keeps the lease exclusive in every safe continuation exactly
  when no other worker holds the job at that time (`AnalysisLease.ReleaseIsSafeIff`). READY is final exactly while there is neither
  (`AnalysisLease.ReadyIsFinalIff`).
- Canonical text cannot tell an array of one undefined from an empty array, nor NaN from null
  (`Serialization.UnsettledCollide`); negative zero prints as 0. It tells everything else apart
  (`Serialization.StableExact`).
- A JPEG whose first start of frame is too short to hold its dimensions can lose them
  (`Jpeg.ShortFrameLosesDimensions`). It keeps them exactly when the bytes they are read from are the
  same without the metadata (`Jpeg.DimensionsSurviveIff`), which `Jpeg.SurvivesByInput` tells from the
  input alone.

## Model

| member | source | states |
|---|---|---|
| `FollowThrough.NoLostWake` | packages/runtime/src/wake-outbox.ts:65-84 | In every interleaving with crashes, a live run has a pending intent for its version, or an unacknowledged task for a version not above it, or an action record that is reserved or of unknown outcome for its current ordinal |
| `FollowThrough.AtMostOneEffect` | packages/runtime/src/action-broker.ts:93-157 | Of two adapter executions with one idempotency key, over any workers and crashes, the earlier was rejected, or it was accepted, its settlement threw and its key was then freed; so none follows an execution that is in progress, of unknown outcome, or accepted and still holding its key |
| `DoubleSend.SecondEffect` | packages/runtime/src/action-broker.ts:97-131 | Wherever the key of an accepted action is free and its version can be sent, a continuation sends it again and has it accepted a second time |
| `DoubleSend.FirstActionTwice` | packages/runtime/src/action-broker.ts:133-156 | Every activated run whose first action is due and authorised has a behaviour in which the provider accepts that action twice under one key |
| `DoubleSend.KeyFreedIff` | packages/runtime/src/action-broker.ts:133-156 | In every reachable state an accepted action whose key was not freed before holds its key, and loses it in a step exactly when that step is its own worker freeing it after its settlement has thrown |
| `SendAgain.ResentIff` | packages/runtime/src/case-runner.ts:99-178 | In every reachable state where the key of an executed action is free, the action can be sent and accepted again exactly if a worker is about to reserve the key, or the unrevoked run is still at it and is due before its approval expires, needs attention, or has a receipt in its ledger; otherwise no execution of it ever begins again |
| `FollowThrough.SendsBounded` | packages/runtime/src/case-runner.ts:124-150 | Over a whole run, duplicates, evidence and any number of RESUMEs included, at most as many executions as the plan's `maxLogicalSends`, or three where it gives none, can have reached the provider, and one more for each accepted one whose key was freed; every ordinal passed has a SUCCEEDED record with a receipt |
| `FollowThrough.RevocationHolds` | packages/persistence/src/retention.ts:64-87 | After a revoking commit no writer loses the revocation, the run never becomes live or DONE again, and every execution acts on a version read before that commit |
| `FollowThrough.ExecutionsLicensed` | packages/runtime/src/case-runner.ts:107-165 | Every execution that was ever begun acts on a committed version that was live, due, within the plan's number of sends and under an approval of this plan in force at that time |
| `FollowThrough.DoneHasProof` | packages/persistence/src/runtime-store.ts:414-465 | A reachable DONE run came from WAITING_EXTERNAL by evidence that satisfies every fact of the approved requirement, carries its level, and the accepted record is stored under its id |
| `FollowThrough.CommandsExactlyOnce` | packages/persistence/src/retention.ts:50-115 | At most one commit per control key, which advances the version by one; every non-DELETE answer for a key is the stored result of a command of the same case, owner and action |
| `FollowThrough.RepliesStand` | packages/persistence/src/retention.ts:64-115 | Every answer a caller was given names the state its command leads to: CANCELLED for STOP, REVOKE and REVISE, EXPIRED for EXPIRE, NEEDS_ATTENTION for REOPEN, READY with a wake at the request's time for RESUME, acceptance for DELETE |
| `FollowThrough.RunnerTerminates` | packages/runtime/src/case-runner.ts:242-294 | Runner commits never exceed sends * max(1, maxAttempts) + RESUMEs + 1, with the plan's own number of sends, whatever evidence interleaves |
| `FollowThrough.InvariantKept` | packages/runtime/src/case-runner.ts:99-295 | All five invariants hold after any sequence of steps, and the committed history is only extended |
| `HistoryInvariant.HistoryStep` | packages/persistence/src/runtime-store.ts:163-194 | Every step appends to the history only commits that follow from the version before, and every run a worker holds is a committed version that passed the worker's gate |
| `LedgerInvariant.LedgerStep` | packages/persistence/src/runtime-store.ts:197-241 | Every step keeps reservation ownership, one execution a worker, at most one execution a key that is neither rejected nor forgotten, and a receipt behind every published send |
| `LedgerInvariant.OrdinalsSettled` | packages/runtime/src/case-runner.ts:183-211 | Every ordinal below the current one has a SUCCEEDED record |
| `EvidenceInvariant.EvidenceStep` | packages/persistence/src/runtime-store.ts:414-465 | Every step keeps the record of every evidence commit stored under its evidence id |
| `CommandInvariant.CommandStep` | packages/persistence/src/retention.ts:50-115 | Every step keeps command records, commits and replies in one-to-one agreement |
| `CommandInvariant.OneCommitPerKey` | packages/persistence/src/retention.ts:55-63 | Two control commits under one key are the same commit |
| `WakeInvariant.WakeStep` | packages/runtime/src/wake-outbox.ts:65-84 | Every step keeps a live version covered by an intent, a task that will be delivered again, or an open action |
| `WakeInvariant.NeverUncovered` | packages/runtime/src/case-runner.ts:107-122 | From the invariants, a live version can always be woken |
| `CaseHistory.IdentityKept` | packages/runtime/src/case-runner.ts:183-211 | No writer changes case, owner, plan, due time or approval (but for its revocation), and versions count commits |
| `CaseHistory.RevocationPermanent` | packages/persistence/src/retention.ts:71-87 | Once a version is revoked every later one is, in CANCELLED, EXPIRED or NEEDS_ATTENTION |
| `CaseHistory.RevokedExactly` | packages/runtime/src/case-control.ts:115-139 | A version is revoked exactly when a STOP, REVOKE, EXPIRE or REVISE has been committed by then |
| `CaseHistory.LiveHasWake` | packages/runtime/src/case-runner.ts:107-122 | A live version past the first always has a wake time, and no run is ever RUNNING, DRAFT or AWAITING_APPROVAL |
| `CaseHistory.StatesEarned` | packages/runtime/src/case-control.ts:115-139 | A run waits for an answer or is DONE only past its first action, and is cancelled or expired only if revoked |
| `CaseHistory.DoneEarned` | packages/runtime/src/evidence-service.ts:78-114 | A DONE version was written over WAITING_EXTERNAL by evidence that satisfies the activated plan, and is not revoked |
| `CaseHistory.OrdinalsBounded` | packages/runtime/src/case-runner.ts:124-150 | Ordinals stay between 1 and one past the plan's `maxLogicalSends`, or three where it gives none |
| `CaseHistory.OrdinalsSent` | packages/runtime/src/case-runner.ts:183-195 | Every ordinal below the current one was spent by a commit that published its receipt |
| `CaseHistory.MeasureDecreases` | packages/runtime/src/case-runner.ts:242-294 | Every runner commit leaves the live states or strictly decreases (sends left, attempts left) lexicographically |
| `CaseHistory.RunnerCommitsBounded` | packages/runtime/src/case-runner.ts:99-295 | A history has at most sends * max(1, maxAttempts) + RESUMEs + 1 runner commits, with the plan's own number of sends |
| `CaseHistory.SentCommit` | packages/runtime/src/case-runner.ts:124-217 | A published send was due, within the plan's number and under an approval in force; it waits for an answer with the next ordinal, no attempts and a wake one interval on |
| `CaseHistory.RecoveredCommit` | packages/runtime/src/case-runner.ts:242-294 | A failed attempt counts one more; it is retried after the delay exactly while attempts are left and needs attention otherwise |
| `CaseHistory.EndedCommit` | packages/runtime/src/case-runner.ts:124-150 | The runner commits a spent budget, not a denial, exactly when the ordinal exceeds the plan's number of sends; a denied action was not licensed and fails the run |
| `CaseHistory.EvidenceCommit` | packages/runtime/src/evidence-service.ts:78-114 | Evidence writes DONE exactly if it satisfies the requirement, WAITING_EXTERNAL with a wake one interval on exactly if it does not and its level is below the minimum, and NEEDS_ATTENTION without a wake otherwise |
| `CaseHistory.ControlCommit` | packages/persistence/src/retention.ts:64-87 | For each command the states it is let through in, the state it leads to, and what it does to wake and revocation |
| `CaseHistory.BouncedCommit` | packages/persistence/src/runtime-store.ts:262-353 | A delivery that does not arrive puts any run that is not DONE or CANCELLED into NEEDS_ATTENTION, and changes nothing else |
| `CaseHistory.FollowUpAuthorizedIff` | packages/runtime/src/case-runner.ts:62-86 | A follow-up is authorised exactly while an approval of this very plan by its owner is in force, the plan allows follow-ups, and every known fact of its requirement may be shared |
| `Services.HandleRunCaseTask` | apps/web/lib/task-controller.ts:9-37 | One delivery, whatever interferes, takes only steps of the machine; the task is acknowledged and free when the answer is 200, and free to be delivered again when it is 503 for NOT_DUE or 500 for an error |
| `Services.CaseRunner.Run` | packages/runtime/src/case-runner.ts:99-295 | `run` follows the machine from reading the case to its end, is acknowledged unless NOT_DUE or an error, commits at most one version, and reports exactly the version it committed; its answer fits the run it read, so a spent budget is reported exactly if that run is current, due and past the plan's number of sends |
| `Services.CaseRunner.Exhaust` | packages/runtime/src/case-runner.ts:124-150 | Over the approved sends: the one version it may commit needs attention, and has been committed if that is reported |
| `Services.CaseRunner.Act` | packages/runtime/src/case-runner.ts:152-178 | The guarded part leads to a published send, a refusal, a duplicate in flight or recovery |
| `Services.CaseRunner.PublishSent` | packages/runtime/src/case-runner.ts:179-217 | A sent action is published as the next version with its wake, or the attempt is recovered |
| `Services.CaseRunner.Refuse` | packages/runtime/src/case-runner.ts:220-241 | A denied action fails the run: that is the one version it may commit, and has been committed if it is reported |
| `Services.CaseRunner.GiveUp` | packages/runtime/src/case-runner.ts:242-268 | After the last attempt the one version it may commit needs attention, and has been committed if that is reported |
| `Services.CaseRunner.Retry` | packages/runtime/src/case-runner.ts:269-294 | Before the last attempt the run waits for its retry, with a wake for it |
| `Services.ActionBroker.Execute` | packages/runtime/src/action-broker.ts:90-110 | DENIED exactly when the policy does not license the proposal; otherwise reserved, found succeeded, found in flight, or thrown, each where the machine stands |
| `Services.ActionBroker.Send` | packages/runtime/src/action-broker.ts:112-157 | Under a fresh reservation: budget, adapter, settlement; an unknown outcome keeps the key, any other failure frees it |
| `Services.DurableWakeScheduler.ScheduleCase` | packages/runtime/src/wake-outbox.ts:65-84 | Succeeds only if a task was enqueued and the intent has left PENDING; fails only if a call threw, and the intent is then PENDING again unless noting that threw as well |
| `Services.ReconcileWakes` | packages/runtime/src/wake-outbox.ts:86-104 | Pending intents up to the limit, each tried once in turn; each that was persisted has a dispatcher of its own, and is counted as dispatched only if it put a task on the queue and left PENDING, as failed only if a call of its dispatcher threw |
| `Services.TryEach` | packages/runtime/src/wake-outbox.ts:90-103 | The loop of the sweep: from world to world through the turns of the listed intents, counting those that succeed and those that do not |
| `Services.EvidenceService.Reconcile` | packages/runtime/src/evidence-service.ts:68-114 | Commits at most one version, and with the verification it returns, which is accepted exactly if the evidence satisfies the requirement of the run that was read |
| `Services.CaseControlService.Command` | packages/runtime/src/case-control.ts:71-171 | Whatever it returns has been recorded as the answer to this request, and in every reachable world names the state that the action leads to |
| `Services.CaseControlService.Refusal` | packages/runtime/src/case-control.ts:108-141 | The guards refuse exactly the commands the run does not allow, written out for each action |
| `Sessions.OthersLeave` | packages/runtime/src/case-runner.ts:99-105 | The steps of others leave a worker where it stands and take back no task, no stored intent and no reply |
| `Sessions.Session.CompareAndSet` | packages/runtime/src/case-runner.ts:211 | One call of `compareAndSet` is one step: committed with its writer, or lost with nothing changed |
| `Sessions.Session.Reserve` | packages/runtime/src/action-broker.ts:99-110 | One call of `reserve` is one step, with the machine's place after each answer |
| `Sessions.Session.Execute` | packages/runtime/src/action-broker.ts:121-124 | The adapter call is two steps, its start and its accepted, unknown or rejected end |
| `Store.CaseStore.PersistWake` | packages/persistence/src/wake-outbox-store.ts:5-19 | A given intent becomes PENDING with no attempts; none leaves the outbox as it was |
| `Store.CaseStore.MarkDispatched` | packages/persistence/src/wake-outbox-store.ts:33-47 | The intent leaves PENDING and one attempt is counted, the document being created if missing |
| `Store.CaseStore.MarkFailed` | packages/persistence/src/wake-outbox-store.ts:49-62 | The intent is PENDING again and one attempt is counted |
| `Store.CaseStore.ListPending` | packages/persistence/src/wake-outbox-store.ts:24-31 | Distinct pending intents, at most the clamped limit, and all of them when they fit |
| `Store.CaseStore.CompareAndSet` | packages/persistence/src/runtime-store.ts:163-194 | Replaces run and outbox exactly at the expected version; otherwise nothing changes |
| `Store.CaseStore.Reserve` | packages/persistence/src/runtime-store.ts:197-214 | Creates a reservation exactly for a free key, and returns the receipt exactly of a succeeded one |
| `Store.CaseStore.Succeed` | packages/persistence/src/runtime-store.ts:216-241 | The key's record becomes SUCCEEDED with the receipt, and nothing else changes |
| `Store.CaseStore.Fail` | packages/persistence/src/runtime-store.ts:381-389 | The key is free, and nothing else changes |
| `Store.CaseStore.MarkUnknown` | packages/persistence/src/runtime-store.ts:391-412 | The key's record becomes UNKNOWN, and nothing else changes |
| `Store.CaseStore.RecordTransportEvent` | packages/persistence/src/runtime-store.ts:262-353 | Stamps the receipt exactly of a succeeded action; a bounce, complaint or suppression then moves a run that is not DONE or CANCELLED to NEEDS_ATTENTION |
| `Store.CaseStore.Record` | packages/persistence/src/runtime-store.ts:414-466 | Records new evidence with the next version, completed level and wake; known evidence is a duplicate before the version is looked at |
| `Store.CaseStore.GetCommandResult` | packages/persistence/src/retention.ts:16-31 | The stored result, none, or a refusal when the key was used for another case, owner or action |
| `Store.CaseStore.Transition` | packages/persistence/src/retention.ts:38-116 | One transaction: the stored result of a used key; otherwise a refusal exactly for a missing run, another owner or another version; otherwise the next version in the state of the action, with command record and wake |
| `Store.CaseStore.BeginReapproval` | packages/persistence/src/retention.ts:118-187 | REVISE cancels and revokes, or replays, and otherwise refuses exactly if run or draft is missing or another's, or the version is another |
| `Store.CaseStore.RequestDeletion` | packages/persistence/src/retention.ts:189-239 | Deletes run and draft under a command record; any command under the key makes it a no-op |
| `Verifier.AcceptedIffSatisfied` | packages/domain/src/verifier.ts:13-46 | Evidence is accepted exactly when it meets every fact, origin, level and age the requirement pins; what is not accepted is a conflict exactly if its level reaches the minimum |
| `Verifier.DueReasonsExact` | packages/domain/src/verifier.ts:21-43 | Each reason is given exactly when its own check fails |
| `Verifier.VerifyEvidence` | packages/domain/src/verifier.ts:13-46 | The code that pushes reasons computes that verification, reasons in order |
| `Policy.AuthorizedIffLicensed` | packages/domain/src/policy.ts:41-75 | An action is authorised exactly when owner, plan, hash, expiry, revocation, action, recipient, channel and fields are all as approved |
| `Policy.DenialsExact` | packages/domain/src/policy.ts:46-71 | Each denial is given exactly when its own check fails |
| `Policy.AuthorizeAction` | packages/domain/src/policy.ts:41-75 | The code that pushes denials decides that way, denials in order |
| `Drafts.UnblockedIffResolved` | packages/runtime/src/intake-service.ts:89-114 | Nothing blocks approval exactly when every critical fact is certain, with a time to follow up and a reachable recipient |
| `Drafts.BlockingCriticalFields` | packages/runtime/src/intake-service.ts:89-114 | The code that lists the critical facts, filters the unsure ones and pushes what else is missing returns a name exactly if the owner still has something to settle under it, in the order of the list |
| `Drafts.FirstPlan` | packages/runtime/src/intake-service.ts:138-223 | The first plan field by field: type, goal, recipient, channel, follow-up times, three sends, a week until expiry, and one requirement that asks for the promised facts |
| `Drafts.IntakeIff` | packages/runtime/src/intake-service.ts:138-223 | Intake fails exactly where the plan schema refuses: a refund, also one inferred from an amount or a currency, that lacks one of the two, or a replacement without a named result |
| `Plans.PlanService.Replace` | packages/persistence/src/intake-store.ts:62-74 | An edited draft is stored exactly at the expected plan version |
| `Plans.PlanService.Activate` | packages/persistence/src/intake-store.ts:70-107 | Draft, run and wake are created together, once: a second activation changes nothing |
| `Plans.PlanService.Change` | packages/runtime/src/plan-service.ts:231-286 | From a copy read at any time before, revising and selecting a channel write the specified draft at the expected plan version, or refuse and change nothing |
| `Plans.PlanService.Approve` | packages/runtime/src/plan-service.ts:288-329 | From a copy read at any time before, approval activates at the expected plan version, is a no-op when repeated, or refuses and changes nothing |
| `Plans.PlanService.Reject` | packages/runtime/src/plan-service.ts:331-337 | From a copy read at any time before, a rejection is written at the expected plan version, whatever the draft has become, or refused |
| `Plans.RevisionApplied` | packages/runtime/src/plan-service.ts:87-190 | A revision that is written sets amount, currency and due time to the given values and marks them certain, drops them if cleared and keeps them otherwise; promisor, result and reference likewise; plan and requirement follow from it and all else stays |
| `Plans.SelectionApplied` | packages/runtime/src/plan-service.ts:125-190 | A selected channel brings its type, sender, reply route, recipient and trusted issuer, and leaves the promise, the times and all else as they were |
| `Plans.RevisesIff` | packages/runtime/src/plan-service.ts:231-259 | A revision goes through exactly for its owner, at this version, while the draft awaits approval and if the revised facts still suit its type |
| `Plans.ApprovesIff` | packages/runtime/src/plan-service.ts:288-314 | An approval writes exactly for its owner, this version and hash, an open draft with nothing unsettled, and before expiry; it is a no-op exactly when the same plan has been approved already |
| `Plans.ApprovalApplied` | packages/persistence/src/intake-store.ts:77-107 | The approval, the first version of the run and its due time and first wake, field by field |
| `PlanChain.IntakeIsSound` | packages/runtime/src/intake-service.ts:138-223 | A first plan is version 1, hashed, allowed by the schema, and asks for exactly what the promise says |
| `PlanChain.RevisedIsSound` | packages/runtime/src/plan-service.ts:125-190 | A revision bumps the version by one, keeps the plan hashed and in agreement with the revised promise, and never widens `sharedFields` |
| `PlanChain.PlansStaySound` | packages/runtime/src/plan-service.ts:231-337 | After intake and any interleaving of the reads and writes of any commands the plan is hashed and agrees with its promise, and an activated run carries an approval for exactly its own plan |
| `PlanChain.VersionIdentifiesPlan` | packages/runtime/src/plan-service.ts:139 | In every such interleaving versions never go back, and one version is one plan of one promise |
| `PlanChain.ActivationIsFinal` | packages/persistence/src/intake-store.ts:95-107 | Run, wake and approved draft never change after activation, and no approval changes anything any more |
| `PlanChain.ReopenedIsStuck` | packages/persistence/src/retention.ts:159-162 | REVISE does make an activated draft await its owner again, and then no approval changes it, whatever is done first |
| `PlanChain.RejectionIsFinalIff` | packages/runtime/src/plan-service.ts:331-337 | A rejection before activation is final exactly when no pending call, having read the draft before, would be written over it |
| `PlanChain.RejectionCanBeLost` | packages/persistence/src/intake-store.ts:74-77 | Any draft that can be approved is activated by an approval that had read it before it was rejected |
| `PlanChain.FirstWakeIsDue` | packages/runtime/src/plan-service.ts:199-203 | When the first wake comes, the run it wakes is due |
| `PlanChain.DeniedOnlyForExpiry` | packages/runtime/src/case-runner.ts:62-86 | A proposal of the activated run, in any version, is denied exactly for expiry or revocation, and for a field not allowed exactly when an amount or currency was added after intake |
| `PlanChain.AddedMoneyIsApprovable` | packages/runtime/src/plan-service.ts:174-183 | Such an addition is possible: every unblocked draft without money can be given an amount and currency and be approved |
| `PlanChain.DoneMatchesPromise` | packages/runtime/src/evidence-service.ts:78-114 | A DONE run was closed by stored, accepted evidence with the reference, amount and currency of the promise as approved, through any interleaving of revisions |
| `Serialization.StableExact` | packages/domain/src/identity.ts:3-11 | For all values the canonical texts are equal exactly when the values are equal up to key order, once non-finite numbers read as null and an array of one undefined as empty |
| `Serialization.SettledExact` | packages/domain/src/identity.ts:3-11 | For values without those, the texts are equal exactly when the values are equal up to key order |
| `Serialization.StableCut` | packages/domain/src/identity.ts:3-11 | Unique decodability: no value's text begins another's when punctuation follows both |
| `Serialization.SameTextOnlyIfEquivalent` | packages/domain/src/identity.ts:3-11 | Equal texts come only from equivalent values |
| `Serialization.EquivalentHasSameText` | packages/domain/src/identity.ts:7-10 | The order in which keys were inserted does not show |
| `Serialization.UnsettledCollide` | packages/domain/src/identity.ts:4-5 | The two collisions: an array of one undefined with the empty one, and a non-finite number with null |
| `Serialization.StableWellFormed` | packages/domain/src/identity.ts:13-15 | The text is well-formed UTF-16, so the bytes that are hashed determine it |
| `Serialization.KeysAscend` | packages/domain/src/identity.ts:7-10 | An object is printed with its entries in ascending order of their keys |
| `JsonText.LessExact` | packages/domain/src/identity.ts:8 | Keys are ordered by the first code unit in which they differ, a beginning before what it begins |
| `JsonText.EscapeReadsBack` | packages/domain/src/identity.ts:4 | A quoted string reads back, whatever follows its closing quote, lone surrogates and control characters included |
| `JsonText.QuoteUnambiguous` | packages/domain/src/identity.ts:9 | No quoted string is the beginning of another |
| `Identity.KeysInjective` | packages/domain/src/identity.ts:17-55 | A key determines its kind and all its inputs: keys of different namespaces or different inputs never share a preimage |
| `Identity.DigitsReadBack` | packages/domain/src/identity.ts:17-24 | Version and ordinal read back from their printed digits |
| `Csv.ParseCsvRows` | scripts/research/report.ts:28-58 | The loop over index, field, row and quoted computes the specified rows or error |
| `Csv.PrintedReadsBack` | scripts/research/report.ts:28-58 | Records printed with fields quoted, or bare where allowed, each ended by CRLF or LF and the last perhaps by nothing, read back exactly, blank ones dropped, also when a last field ends in CR |
| `Csv.DroppedExactly` | scripts/research/report.ts:57 | A row is dropped exactly if all its fields are white space |
| `Csv.FailsIffQuotesOdd` | scripts/research/report.ts:52 | Reading fails exactly on an odd number of quotes |
| `Jpeg.StripJpegMetadata` | packages/channel-adapters/src/upload.ts:98-127 | The offset loop and the filled buffer compute the stripped image, or the error |
| `Jpeg.WalkExact` | packages/channel-adapters/src/upload.ts:101-118 | The header walk is the one way to cut a header into marker segments and a tail |
| `Jpeg.StripExact` | packages/channel-adapters/src/upload.ts:98-127 | The output is the first two bytes, the segments whose marker is not 0xe1, 0xed or 0xfe in order, and the tail from a 0xd9 or 0xda marker or unmarked bytes on; its own header walk meets no metadata |
| `Jpeg.StripIdempotent` | packages/channel-adapters/src/upload.ts:98-127 | Stripping twice is stripping once |
| `Jpeg.JpegDimensions` | packages/channel-adapters/src/upload.ts:71-96 | The offset loop finds the first start of frame, or fails |
| `Jpeg.FrameAmongSegments` | packages/channel-adapters/src/upload.ts:71-96 | The dimensions found are the bytes 5 to 8 from the first start of frame on, its own or not; none are found without a start of frame or with fewer than nine bytes left |
| `Jpeg.DimensionsExact` | packages/channel-adapters/src/upload.ts:84-91 | Height and width are the two big-endian numbers at bytes 5 and 7 from the first segment on that carries one of the thirteen frame markers |
| `Jpeg.DimensionsSurviveIff` | packages/channel-adapters/src/upload.ts:71-127 | Stripping leaves dimensions, or their absence, as they are exactly when the bytes 5 to 8 from the first start of frame on are the same with and without the metadata behind it |
| `Jpeg.SurvivesByInput` | packages/channel-adapters/src/upload.ts:71-127 | The same from the input alone: the first start of frame is complete, or nine bytes are not there anyway, or no metadata starts in the at most five bytes behind it, but for a marker in the ninth byte that another replaces and a tail that repeats what it replaces |
| `Jpeg.StripKeepsDimensions` | packages/channel-adapters/src/upload.ts:71-127 | So it does when the first start of frame, if any, has length 7 or more |
| `Jpeg.ShortFrameLosesDimensions` | packages/channel-adapters/src/upload.ts:84-91 | Every start of frame of length 2 to 6 before metadata that makes up nine bytes with it loses its dimensions |
| `Png.StripPngMetadata` | packages/channel-adapters/src/upload.ts:129-153 | The offset loop and the filled buffer compute the stripped image, or the error |
| `Png.WalkExact` | packages/channel-adapters/src/upload.ts:134-143 | An accepted input is exactly a list of whole chunks with nothing after IEND, and every such list is accepted |
| `Png.StripExact` | packages/channel-adapters/src/upload.ts:129-153 | The output parses to exactly the chunks that are not removable, byte for byte; stripping never fails on its own output and is idempotent |
| `Png.RemovedByName` | packages/channel-adapters/src/upload.ts:131-142 | A chunk is removed exactly if its type spells tEXt, zTXt, iTXt, eXIf or tIME, and one that spells IEND is the last |
| `Png.StripKeepsDimensions` | packages/channel-adapters/src/upload.ts:65-69 | Stripping keeps the dimensions when the first chunk is kept and has at least 8 bytes of data: they are the two big-endian numbers that data starts with |
| `Upload.AcceptUpload` | packages/channel-adapters/src/upload.ts:161-202 | Size, detection, then characters, pages or dimensions and pixels, then stripping, with each error in order |
| `Upload.DetectMediaType` | packages/channel-adapters/src/upload.ts:52-63 | PDF, PNG and JPEG are told by their signatures in this order, the rest is text or nothing |
| `Upload.DetectExact` | packages/channel-adapters/src/upload.ts:53-55 | The signatures as they are spelled decide between PDF, PNG and JPEG |
| `Upload.AcceptedIff` | packages/channel-adapters/src/upload.ts:161-199 | Accepted exactly if it is not empty, of at most 10 MiB and the declared type, with at most 50,000 characters, 1 to 20 pages, or dimensions of at most 20,000,000 pixels and a header that can be stripped |
| `Upload.TextExact` | packages/channel-adapters/src/upload.ts:56-63 | Content that does not start like a PDF is text exactly if it encodes characters other than NUL |
| `Utf8.DecodeExact` | packages/channel-adapters/src/upload.ts:56-58 | The fatal decoder reads exactly the encodings of scalar values, and reads them back |
| `Pdf.PagesExact` | packages/channel-adapters/src/upload.ts:182-183 | The non-overlapping matches counted one after the other are all the places where a page entry stands |
| `Pdf.PageStandsIff` | packages/channel-adapters/src/upload.ts:183 | A page entry is /Type, white space and /Page, not followed by a letter, digit or underscore |
| `Upload.AcceptedAgain` | packages/channel-adapters/src/upload.ts:161-202 | A sanitized file is accepted again unchanged: same type, same pages or dimensions, not one more byte removed |
| `Bytes.Assemble` | packages/channel-adapters/src/upload.ts:119-126 | The buffer sized by the chunks and filled at a cursor holds their concatenation |
| `SendBudget.BudgetStore.ReserveExternalSend` | packages/persistence/src/runtime-store.ts:32-99 | One transaction: free for a charged key, refused when a bucket is full, otherwise three counts go up by one |
| `SendBudget.RunConserves` | packages/persistence/src/runtime-store.ts:32-99 | After any requests each count is the number of distinct keys charged to its bucket and within its limit, recipients add up to their domain, domains to channels |
| `SendBudget.RetriesAreFree` | packages/persistence/src/runtime-store.ts:71-72 | A retry of a charged key might as well not have been sent, whatever is requested after it |
| `SendBudget.RefusedIffFull` | packages/persistence/src/runtime-store.ts:73-78 | A new key is refused exactly when three earlier keys of this owner and day went to its recipient, ten to its domain or ten over its channel |
| `SendBudget.DomainExact` | packages/persistence/src/runtime-store.ts:43-45 | The domain of a recipient is what follows its last @, and none without one |
| `AnalysisLease.AnalysisStore.Start` | packages/persistence/src/analysis-store.ts:83-121 | STARTED with a lease of 90 seconds, BUSY, READY, or FAILED after three attempts, with the job document each leaves |
| `AnalysisLease.AnalysisStore.MarkReady` | packages/persistence/src/analysis-store.ts:133-144 | The job is READY without a lease; where there is no job, a document is left that does not parse |
| `AnalysisLease.AnalysisStore.MarkAttemptFailed` | packages/persistence/src/analysis-store.ts:146-164 | Queued again, or FAILED after the third attempt |
| `AnalysisLease.AnalysisStore.RetryOwned` | packages/persistence/src/analysis-store.ts:182-207 | Uninterrupted, the owner resets a FAILED job and no other |
| `AnalysisLease.AnalysisStore.WriteRetry` | packages/persistence/src/analysis-store.ts:186-207 | The write of a retry queues the job it has read, whatever the job has become |
| `AnalysisLease.AttemptsBounded` | packages/persistence/src/analysis-store.ts:98-120 | In every run, whatever workers report and when, attempts stay within 3 and STARTED results within 3 * (1 + resets) |
| `AnalysisLease.OneHolder` | packages/persistence/src/analysis-store.ts:83-121 | While no failure is reported and no stale retry written over another holder, no two workers hold the job at one time |
| `AnalysisLease.HolderIsAlone` | packages/persistence/src/analysis-store.ts:91-97 | While every step is safe and a worker holds the job, deliveries find it BUSY or READY and no retry gets past its read |
| `AnalysisLease.ReleaseIsSafeIff` | packages/persistence/src/analysis-store.ts:146-164 | In every world, however reached, a failure report, or the write of a retry, keeps the lease exclusive in every safe continuation exactly when no other worker holds the job at that time |
| `AnalysisLease.ReadyIsFinalIff` | packages/persistence/src/analysis-store.ts:146-164 | READY lasts exactly while no failure is reported and no pending retry is written |
| `EventLog.CaseRepository.Transition` | packages/persistence/src/firestore.ts:26-68 | One transaction: a known event is answered again, a refused command changes nothing, otherwise snapshot and event are written together |
| `EventLog.LogReplays` | packages/domain/src/reducer.ts:58-102 | In every reachable repository the events are a chain by sequence without gaps that replays, through legal transitions only, to the current state |
| `EventLog.AppliesIff` | packages/domain/src/reducer.ts:58-102 | A new event is persisted exactly at the expected version, along one of the table's transitions, with an approval in force where the target works, and with an accepted verification for DONE; snapshot and event field by field |
| `EventLog.RefusedBecause` | packages/domain/src/reducer.ts:58-102 | Otherwise the first of version, transition, approval and verification that fails is the error |
| `EventLog.TransitionsAgree` | packages/domain/src/reducer.ts:4-23 | The table of transitions, told from each target |
| `EventLog.NothingAfterTerminal` | packages/domain/src/reducer.ts:20-22 | An event into CANCELLED or EXPIRED is the last |
| `EventLog.RedeliveryIsIdempotent` | packages/persistence/src/firestore.ts:44-50 | A redelivered event id is answered with the event first persisted and leaves no trace in any run that follows |
| `EventLog.EventsAreImmutable` | packages/persistence/src/firestore.ts:65-66 | A persisted event is never rewritten |
| `Paging.PagesAreTheInbox` | apps/web/lib/cases-controller.ts:172-184 | On an unchanged inbox without shared keys, following the cursor until there is none ends and yields every item once, in order, with any limits |
| `Paging.InboxIsPaged` | apps/web/lib/cases-controller.ts:159-184 | Runs and analysis jobs merged, filtered and sorted in any way have no shared keys, so their pages are that very list |
| `Paging.InboxHasDistinctIds` | apps/web/lib/cases-controller.ts:159-166 | A case shows once, as a run or as an analysis job, whatever the filter |
| `Paging.InboxExact` | apps/web/lib/cases-controller.ts:159-166 | The inbox shows exactly the runs, and the jobs that are not ready and have no run, of the bucket asked for |
| `Paging.PageFull` | apps/web/lib/cases-controller.ts:147-181 | A page holds ten items, or the number asked for between 1 and 25, or what is left; a cursor is given exactly if more is left |
| `Paging.CursorRefusedIff` | apps/web/lib/cases-controller.ts:174-178 | A cursor is refused exactly if it was given for another filter or names no item |
| `Paging.NextPageStarts` | apps/web/lib/cases-controller.ts:174-183 | A next cursor is found exactly where its page ended, and is given exactly when more is left |
| `Paging.CursorsResolveIff` | apps/web/lib/cases-controller.ts:174-183 | For any list, every cursor a page can end in leads to the item after it exactly when all items but the last have keys of their own |
| `Paging.SharedKeyRepeats` | apps/web/lib/cases-controller.ts:174-178 | The cursor of an item that shares its key leads back behind the first that has it |

## Left out

- Eventual delivery: the theorems are about safety. In particular a case whose action has an unknown outcome stays in WAITING_RETRY by design.
- Calls that throw although they have committed.
- Queue-side name de-duplication of tasks, which only removes duplicates that the version gate makes harmless.
- The notification and intervention ledgers: a runner's notice is one call that may fail.
- Services.EvidenceService.Reconcile: ends with the recorded evidence and its wake; the notices and interventions it then raises decide nothing more.
- Descriptive fields of the run (`lastError`, `updatedAt`, `correlationId`, `controlReason`, last attempt and its key) and the `events` subcollection of a run, which no decision reads, except that the first event makes activation unique.
- TTL deletion.
- Store.CaseStore.RequestDeletion: the tombstone and the clean-up after the transaction are not modelled.
- Store.CaseStore.Fail: the failure record that is added after the delete is not modelled.
- Store.CaseStore.Succeed: the reply route that is stored with a receipt is not modelled.
- Store.CaseStore.BeginReapproval: the draft's own state and approval are not in this store; `PlanChain` has that half as `Reapprove`.
- Services.ReconcileWakes: an intent that only a status merge has created names no case; trying it is counted as failed rather than modelled call by call.
- Store.CaseStore.RecordTransportEvent: the query by provider message id is given as the action's key, so an ambiguous id is not modelled; its two writes follow each other here and are two steps of the machine.
- `markTerminalFailure` of an analysis job, which is used before any start, and the dedupe documents beside the jobs.
- AnalysisLease.AnalysisStore.RetryOwned: its contract is that of a call nobody interrupts; in the runs its read and its write are steps of their own.
- Plans.PlanService.Approve: the scheduling call that follows the replacement is a step of the machine and not of this method.
- Plans.PlanService.Change: the message body, counterparty name, confirmation time and notification address of a plan are not modelled, nor the deletion of a draft.
- Schema limits on text lengths and formats.
- The extraction of a promise by the language model: any promise draft is an input. Dedupe of intake and the daily case budget.
- Identity.KeysInjective: SHA-256 and UTF-8 are taken to be injective, and numbers above 10^21, which print with an exponent, are not keys.
- Drafts.FirstIssuer: lower-casing is that of ASCII.
- SendBudget.DomainExact: recipients are given in lower case already.
- Upload.AcceptUpload: the hash, the artifact id and the retention time are not modelled.
- Csv: the validation of the study's columns and rows after they have been read.
- Paging: sorting by `localeCompare` (any order serves), the base64url coding of the cursor and its 512 character limit.
- EventLog: `Date.now()` is the time given with each command.
- React components, HTTP routes, authentication, mail and partner clients, case export, technical trace and release scripts.
