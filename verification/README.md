# A verified model of the governed coding and delivery workflow

This project models the parts of the repository that must not go wrong when a process dies, a
provider answers late or twice, or a customer's approval is at stake, and proves what they guarantee.

**The durable coding-provider protocol.** `ProviderModel` defines the durable world (operations,
results, receipts, patch records, cancellations, progress logs, one Git workspace, and the ledger of
submissions that left the process) and its atomic effects. `ProtocolScripts` and `PatchScripts` say
for every service call which effects it has in which order and how it ends; a crash leaves the world
after any prefix of them. `ProviderAnswers`, `PollAnswers`, `ApplyAnswers` and `DirectEndings` state
every call's answer and what it leaves as conditions on the stored records, the request and the
replies, without the scripts; `PermittedChanges` spells out what may ever be written to the workspace.
`ProtocolSafety`, `PatchSafety` and `ProtocolRuns` prove the invariants of all runs, `ReportedStates`
and `SubmissionTies` what every stored state, submission, result and cancellation of a run rests on,
`PaidResponses`, `CompleteRuns` and `ProgressLog` what becomes of paid answers, whole runs and logs.
`PatchExact`, `PatchCrash`, `PatchAccepted` and `PatchRetry` prove what patching leaves in the workspace
and what recovery makes of an interrupted patch; `PatchTracking`, `AcceptanceRuns` and
`OverlookedDeletion` carry that to all runs. `ProviderStore`, `PatchApplier` and `ProviderService` are
the imperative service: classes over mutable stores whose methods go through exactly those effects.
`DeterministicProvider` is the offline provider.

**The customer's three linked records.** `ApprovalRecords` is the approve-then-effect protocol that
execution plan, delivery review and acceptance share, `CustomerDesk` the worlds each call passes
through, `CustomerSafety` and `CustomerRuns` the invariants over all runs, `CustomerAnswers` every
call's answer and what each invocation of an effect rests on, `CustomerServices` the imperative
services with their write-once and compare-and-swap stores. `DeliveryAdapter` delivers a reviewed
commit over an abstract Git and GitHub in which every external command may fail before or after its
effect; `DeliveredPatch` follows an accepted patch into that commit.

**The smaller cores.** `CodingReview` (the bounded review loop) with `ReviewOutcomes` (exactly when it
returns), `ContextBuilder` over `Utf8` (the byte-budgeted context), `Estimate` (effort ranges through
double-precision arithmetic) and `RuntimeEvidence` (counting evidence by journey).

A digest is modelled by the value it is taken of, so digests are injective. Replies of providers, of
Git inspections, test runs and scans, and clock readings are parameters, arbitrary unless a row says
otherwise. Every store write and every file replacement is atomic.

Where code and documentation could be read differently, the model follows the code. In particular:
`reconcile` looks neither at the operation's state nor at the result's status; validation compares
normalised path texts, not the files they denote; recovery never looks at whether a deletion happened.

## Model

| member | source | states |
|---|---|---|
| `PatchCrash.CrashConsistency` | runtime/coding_providers/service.py:334-384 | Kill any fresh `apply_and_accept` that would have been accepted after any number of its effects past the staging intent, with `k` operations applied: the next call resets if recovery finds none of the contents it looks for and nothing is recorded, accepts with the manifest of the uninterrupted run if every change happened and everything looked for is found, and hands over to an operator otherwise; the checkpoints are exact or lag by one. A write is found once it happened; a deletion that names a content, which validation lets through, is found as long as it has not happened and its file holds just that content |
| `PatchCrash.CrashConsistencyOfWrites` | runtime/coding_providers/service.py:568-614 | For a non-empty list of writes the next call leaves the record `PREPARED` iff k = 0, `RECONCILIATION_REQUIRED` iff 0 < k < n, and `ACCEPTED` iff k = n, with the same manifest, the operation saved as accepted and the workspace untouched |
| `PatchCrash.DirectInterrupted` | runtime/coding_providers/patching.py:52-81 | At every cut of the direct path the workspace is exactly the first `k` operations applied to the base, and the record is the staging intent with exact or lagging checkpoints |
| `PatchCrash.RecoveryDecides` | runtime/coding_providers/service.py:568-605 | For every accepted list, what the recovery concludes from file contents and Git's listing is a function of the base and of how many operations were applied |
| `PatchCrash.StatusMidway` | runtime/coding_providers/service.py:590-593 | Git lists exactly the announced paths once every change has happened, and at no earlier point |
| `PatchRetry.ResetLeavesOnlyStages` | runtime/coding_providers/service.py:577-586 | After a crash with nothing replaced, the next call resets the record, and only leftover stage files (for an empty result also the manifest recorded at its end) then distinguish the world from one with just the intent stored; where a deletion names the content of its file, the next call hands the patch to an operator instead and changes nothing else |
| `PatchRetry.RetryAfterReset` | runtime/coding_providers/service.py:334-338 | The next call leaves the record prepared iff no deletion names its file's content; then, with leftover stage files, the retry raises and changes nothing, and once they are removed it ends in the same outcome and the same world as the interrupted call would have |
| `PatchRetry.SomeCallDiesMidway` | runtime/coding_providers/service.py:339-343 | A concrete call of the kind the crash theorems speak of: it would be accepted, and dies right after its staging intent |
| `PatchAccepted.DirectlyAcceptedIsExact` | runtime/coding_providers/service.py:339-384 | Whatever its record holds beside being prepared, a direct acceptance leaves the workspace equal to the clean base overridden by exactly the result's operations; the record, manifest and operation say so, and nothing else changed |
| `PatchAccepted.CrashedThenAcceptedIsExact` | runtime/coding_providers/service.py:587-614 | What the very next call accepts after a crash at any point is exact as well, for every accepted list, deletions included |
| `PatchAccepted.RecoveredAcceptance` | runtime/coding_providers/service.py:587-614 | The recovery path touches no file; what it accepts in an arbitrary workspace is exact if and only if every path the operations leave absent is absent |
| `AcceptanceRuns.EveryAcceptance` | runtime/coding_providers/service.py:270-384 | In every run, with crashes, other operations and anyone changing the workspace, whenever a call saves a patch as `ACCEPTED` the workspace stands on the operation's branch and on the commit of the intent, under a known policy; exactly the announced paths differ from the base, and the files are exactly what the operations ask for if and only if every path they leave absent is absent; on the direct path they always are |
| `AcceptanceRuns.UndisturbedAcceptance` | runtime/coding_providers/service.py:270-384 | In every run in which nothing but this operation's own `apply_and_accept` changed the files since its intent was stored, whenever its patch is saved as `ACCEPTED` the files are exactly what it asks for, whatever became of its earlier applications: killed anywhere, raised midway, killed while recovering, reset and retried |
| `AcceptanceRuns.UndisturbedIsTracked` | runtime/coding_providers/service.py:334-384 | In such a run the files are at every moment the base changed by some first operations of the stored patch |
| `AcceptanceRuns.AloneIsUndisturbed` | runtime/coding_providers/service.py:270-384 | Calls of the service other than `apply_and_accept` of another operation disturb nobody: with one operation applied in a workspace of its own, every acceptance is exact |
| `AcceptanceRuns.AcceptingCall` | runtime/coding_providers/service.py:371-384 | A patch is saved as `ACCEPTED` only by an `apply_and_accept` of its operation that holds its own certified result, under a known policy and on the operation's branch, as the last effect before the operation is saved; no file and no other patch changes afterwards |
| `AcceptanceRuns.AcceptedIsAnnounced` | runtime/coding_providers/service.py:293-331 | At that moment the workspace's branch is the branch, and its commit the commit, that the accepted intent names, and the intent announces this operation's result |
| `OverlookedDeletion.AcceptedWithoutItsDeletion` | runtime/coding_providers/service.py:570-605 | The condition is needed without anybody outside: a run of the service from empty stores on a clean workspace, in which one operation's application dies with its intent being staged, another operation's patch is accepted, and the recovery of the first then accepts although the file it deletes is still there |
| `ApplyAnswers.ApplyRefuses` | runtime/coding_providers/service.py:270-338 | All refusals of `apply_and_accept`, condition by condition: without a certified result of its own the operation goes to an operator; an unknown operation, a state without a result, a missing record, a result accepted elsewhere, an unknown policy, a foreign branch and an unclean workspace raise and touch nothing; an intent made for something else goes to an operator |
| `ApplyAnswers.ApplyTouchesOnlyIf` | runtime/coding_providers/service.py:293-338 | No call stores an intent, writes a stage, changes a file or marks a patch unless the operation holds its own certified result, nobody else accepted it, the policy is known and the operation's branch is checked out; and, beside handing over a foreign intent, only with an intent made for this result on this commit |
| `ApplyAnswers.RecoveryAnswers` | runtime/coding_providers/service.py:568-614 | What a recovery concludes, in terms of the sought contents: reset iff none is found and no checkpoint recorded, accepted iff all are found, Git lists exactly the announced paths and a recorded manifest is the observed one, and handed to an operator otherwise; with the exact record each leaves |
| `ApplyAnswers.MatchingIsFound` | runtime/coding_providers/service.py:570-576 | A path matches iff its file holds the content of the last operation that names one for it |
| `DirectEndings.DirectApplicationAnswers` | runtime/coding_providers/service.py:311-384 | The four endings of a direct application and the exact world each leaves: refused as a whole, stopped at the first change the file system refuses, applied but not listed as announced, or accepted with its manifest |
| `DirectEndings.ChangeIs` | runtime/coding_providers/patching.py:72-79 | Which single changes the file system refuses, and that an accepted one changes exactly its own path |
| `PermittedChanges.EveryChangeIsPermitted` | runtime/coding_providers/patching.py:24-81 | Whatever any call stages, replaces or removes is one of the operations of the operation's own certified result, at the place its path denotes; and that whole list is permitted for the files the call found |
| `PermittedChanges.ValidatedIff` | runtime/coding_providers/patching.py:24-50 | The lists validation lets through, spelt out: each path relative and without a step upwards, outside `.git`, below an allowed and no forbidden prefix component by component, allowed by the change policy and not below a file; texts without NUL and within the size limits; deletions only if enabled; no two equal normalised paths |
| `PermittedChanges.TotalSizeIs` | runtime/coding_providers/patching.py:45-48 | The patch size is the sum of the encoded sizes of what is written |
| `PermittedChanges.PlacesAreInside` | runtime/coding_providers/path_policy.py:29-57 | A permitted operation takes effect at a well-formed path inside the workspace |
| `PatchTracking.TrackedRecoveryIsExact` | runtime/coding_providers/service.py:587-605 | When the files are the base changed by the first operations of a list, for any number of them, a recovery that accepts finds the whole list applied exactly |
| `PatchTracking.ApplyTracks` | runtime/coding_providers/service.py:270-384 | Wherever `apply_and_accept` dies, on whichever path, the files stay the base changed by the first operations of its patch |
| `PatchTracking.OthersStayOut` | runtime/coding_providers/service.py:37-628 | Only `apply_and_accept` touches patches and the workspace |
| `PatchExact.RecoveredIsExactIff` | runtime/coding_providers/service.py:568-605 | The condition under which what the recovery accepts is exact, for the decision function itself in an arbitrary workspace |
| `PatchExact.RecoveredWithoutDeletionsIsExact` | runtime/coding_providers/service.py:568-605 | A recovered result without deletions is always exact |
| `PatchExact.DirectAcceptsIff` | runtime/coding_providers/service.py:339-384 | The direct path accepts if and only if validation passes, no change is refused by the file system, and every operation is spelled as Git lists its file and changes that file |
| `PatchExact.ListedIffEffective` | runtime/coding_providers/service.py:367-370 | Git's listing equals the operations' paths if and only if each is canonical and effective |
| `PatchExact.ReplaceOutcome` | runtime/coding_providers/patching.py:72-81 | The replacement loop, from any point, ends as the whole list applied at once does |
| `PatchExact.CanonicalAreDistinct` | runtime/coding_providers/patching.py:29-33 | Accepted operations with canonical paths have pairwise distinct destinations |
| `PatchExact.TwoSpellingsOneFile` | runtime/coding_providers/patching.py:29-33 | Two spellings of one file pass the duplicate check of validation; the application is never accepted |
| `Patching.Validate` | runtime/coding_providers/patching.py:24-50 | Validation only reads, and accepts exactly the lists whose every operation is safe, allowed, not forbidden, outside `.git`, within the size limits, and pairwise distinct as normalised text |
| `Patching.AcceptableStep` | runtime/coding_providers/patching.py:29-49 | What one more operation must satisfy to extend an accepted list: the checks of one pass of the loop, in both directions |
| `Patching.ApplyAllIsExact` | runtime/coding_providers/patching.py:72-79 | Applying the operations one after the other equals the base overridden by the last operation for each path |
| `Paths.ComponentsOfJoin` | runtime/coding_providers/path_policy.py:11-13 | Listing a path and taking the listing apart again is the identity |
| `Paths.SafeComponents` | runtime/managed_execution/policy.py:28-38 | A safe relative path denotes a file inside the workspace or the workspace itself |
| `Paths.MatchesIffUnder` | runtime/coding_providers/path_policy.py:16-26 | A path matches a prefix iff it lies at or below it component by component, whatever separators and trailing slashes the prefix is written with |
| `Paths.SplitIs` | runtime/coding_providers/path_policy.py:11-13 | The parts of a text joined by slashes are the text, and no part has a slash |
| `PatchApplier.ControlledPatchApplier.Stage` | runtime/coding_providers/patching.py:61-71 | Writes one stage file per write, and no other effect, dying anywhere |
| `PatchApplier.ControlledPatchApplier.Replace` | runtime/coding_providers/patching.py:72-79 | Each replacement is followed by its checkpoint; the object goes through exactly the specified effects and stops at the first refused change |
| `PatchApplier.ControlledPatchApplier.ApplyStaged` | runtime/coding_providers/patching.py:52-81 | Nothing is written unless the whole list is acceptable; then staging and replacing as specified |
| `ProtocolSafety.SafeKeepsInv` | runtime/coding_providers/service.py:37-628 | Every admissible durable effect keeps the protocol invariant and undoes nothing |
| `ProtocolSafety.PrefixKeepsInv` | runtime/coding_providers/service.py:37-628 | However many effects of a call happen, the invariant holds |
| `ProtocolSafety.SubmitIsSafe` | runtime/coding_providers/service.py:114-180 | Every effect of `submit`, whatever request is passed and whatever is answered, is admissible: the intent precedes the call and nothing becomes `PREPARED` again |
| `ProtocolSafety.PollIsSafe` | runtime/coding_providers/service.py:190-217 | Every progress log a poll stores extends the one before and is numbered 1..n |
| `ProtocolSafety.ResultIsSafe` | runtime/coding_providers/service.py:219-268 | The effects of `result` are admissible |
| `ProtocolSafety.CancelIsSafe` | runtime/coding_providers/service.py:386-419 | The effects of `cancel` are admissible |
| `PatchSafety.ApplyIsSafe` | runtime/coding_providers/service.py:270-384 | Every effect of `apply_and_accept` is admissible: acceptance only where no other operation of the project accepted the result, and the accepted patch is durable before the operation says so |
| `PatchSafety.ScriptIsSafe` | runtime/coding_providers/service.py:37-628 | The same for every call of the service |
| `ProtocolRuns.EveryRun` | runtime/coding_providers/service.py:37-628 | In every run from empty stores, with crashes between any two effects and anyone changing the workspace, the invariant holds and everything an earlier moment recorded as submitted, logged or identified is still there |
| `ProtocolRuns.AtMostOneSubmission` | runtime/coding_providers/service.py:140-152 | In every run `submit_task` is called at most once per operation, and never while it is only prepared |
| `ProtocolRuns.OneAcceptancePerResult` | runtime/coding_providers/service.py:281-289 | In every run at most one operation of a project holds an accepted patch for a result, and an accepted operation has its accepted patch |
| `ProtocolRuns.ProgressOnlyGrows` | runtime/coding_providers/storage.py:130-141 | In every run a stored log is numbered exactly 1..n and only ever grows at its end |
| `SubmissionTies.SubmittedIsTied` | runtime/coding_providers/service.py:114-180 | Every effect of `submit` that saves an operation as `SUBMITTED`, whatever state it was in and whatever request the caller passed, leaves it tied to its own identity: by the provider's own record of the task, or by a durable receipt with its durable result |
| `SubmissionTies.ReconciledIsTied` | runtime/coding_providers/service.py:421-458 | The same for `reconcile` |
| `SubmissionTies.OthersNeverSubmit` | runtime/coding_providers/service.py:37-628 | No other call saves an operation as `SUBMITTED` |
| `SubmissionTies.SubmittedWasTied` | runtime/coding_providers/service.py:114-180 | In every run, an operation that is `SUBMITTED` was saved exactly as it is now by an earlier `submit` or `reconcile` of it, at which moment it was tied to its own identity |
| `ReportedStates.EveryStateWasReported` | runtime/coding_providers/service.py:37-628 | In every run each stored operation was saved, exactly as it is, by a call entitled to its state: each failure state, time-out, cancellation and result by a poll, settlement, receipt or acceptance that says so, and no submission without both consents unless the provider is the deterministic one |
| `ReportedStates.SubmitCalls` | runtime/coding_providers/service.py:124-152 | If any effect of any `submit` calls the provider, it is the call for that operation, which was prepared, its provider enabled, and both consents were given unless the provider is the deterministic one |
| `ReportedStates.EverySubmissionWasConsented` | runtime/coding_providers/service.py:124-152 | In every run each entry of the submission ledger was made by an earlier `submit` of that operation, prepared at that moment, with both consents unless its provider is the deterministic one |
| `ReportedStates.EveryResultWasChecked` | runtime/coding_providers/service.py:219-268 | In every run each stored result was stored by a call entitled to it: a `result` of the available operation that it fits within the call's budgets, or the answer of a provider that stores its answers |
| `ReportedStates.StoredResultsFit` | runtime/coding_providers/service.py:231-241 | Hence every stored result of an operation whose provider does not store its answers is successful, the operation's own by task, workspace and branch, and within the approved content size |
| `ReportedStates.EveryCancellationWasReported` | runtime/coding_providers/service.py:386-495 | In every run each cancellation was saved by a call entitled to its state: confirmed only if the provider reported the task cancelled, uncertain only if asking raised |
| `ProviderAnswers.PrepareAnswers` | runtime/coding_providers/service.py:49-112 | `prepare` refuses attempts outside the limits, providers that cannot do the work and unbuildable contexts; otherwise it stores the new operation, or returns the stored one iff request, context, provider, workspace, branch and version are the same, and asks an operator if not |
| `ProviderAnswers.PreparingTwice` | runtime/coding_providers/service.py:86-101 | Preparing again what was just prepared returns it and stores nothing |
| `ProviderAnswers.SubmitRefuses` | runtime/coding_providers/service.py:114-139 | Which operations, states, providers and missing consents `submit` refuses, with which error, touching nothing |
| `ProviderAnswers.SubmitReconciles` | runtime/coding_providers/service.py:136-139 | A submission from `SUBMITTED` or `UNCERTAIN` does exactly what `reconcile` does |
| `ProviderAnswers.SubmitSends` | runtime/coding_providers/service.py:140-152 | A prepared operation is saved as in progress, then the provider is called once; if that raises the operation is `UNCERTAIN` |
| `ProviderAnswers.LookedUpAnswers` | runtime/coding_providers/service.py:167-180 | A provider with a record of its own: `SUBMITTED` iff the lookup names exactly this task and its identity is the operation's; otherwise an operator, or a failing lookup that leaves it in progress |
| `ProviderAnswers.SinkAnswers` | runtime/coding_providers/service.py:153-166 | A provider whose sink stores its answer: `SUBMITTED` iff the operation's stored receipt certifies its stored result under the returned task; otherwise an operator |
| `ProviderAnswers.ReconcileAnswers` | runtime/coding_providers/service.py:421-458 | `reconcile` decides by a stored receipt and result alone if there are both; without them a provider that stores its answers goes to an operator, and any other is asked: exactly one matching task of the operation's identity makes it `SUBMITTED`, two, none or a foreign one go to an operator |
| `ProviderAnswers.PollRefuses` | runtime/coding_providers/service.py:182-190 | What `poll` refuses, touching nothing |
| `PollAnswers.PollReturnsIff` | runtime/coding_providers/service.py:190-217 | A whole poll returns iff the status call answers and every reported event can be stored; then every event stands in the log under its number after the unchanged log before it, the operation has the state named for each of the five statuses and the log's length as cursor, and nothing else changed |
| `PollAnswers.GrownHolds` | runtime/coding_providers/storage.py:130-141 | Events that are in order, each at its number or next after one before it, all come to stand at their numbers, and nothing else is added |
| `ProviderAnswers.PollEnds` | runtime/coding_providers/service.py:203-217 | The state after a poll for each of the five statuses; the rest of the operation stays |
| `ProviderAnswers.PollStores` | runtime/coding_providers/service.py:190-202 | What the first reported event does: a foreign or oversized one hands over, a wrong number or content raises, a stored one is passed over, the next one is stored redacted |
| `ProviderAnswers.AppendedByNumber` | runtime/coding_providers/storage.py:130-141 | `append_progress` takes the next number, keeps an equal event under its number, and refuses every other |
| `ProviderAnswers.FetchReturnsIff` | runtime/coding_providers/service.py:219-268 | `result` returns r iff the operation is available, its provider enabled, r is its own by task, external task, workspace and branch, successful, within both size limits and both given budgets, and for a provider that stores its answers certified by the stored receipt |
| `ProviderAnswers.FetchStores` | runtime/coding_providers/service.py:253-268 | What it then leaves: the result, a receipt that certifies it, and the operation's reference to it |
| `ProviderAnswers.FetchRefuses` | runtime/coding_providers/service.py:219-268 | Every other answer: what does not fit or is not certified goes to an operator; an unknown or unavailable operation, a disabled provider, a failing one, a result above a budget and a missing receipt raise and store nothing |
| `ProviderAnswers.TotalContentIs` | runtime/coding_providers/service.py:227-229 | The content size is the sum of the encoded contents |
| `ProviderAnswers.CancelRefuses` | runtime/coding_providers/service.py:386-400 | What `cancel` refuses, touching nothing |
| `ProviderAnswers.CancelAnswers` | runtime/coding_providers/service.py:400-419 | `cancel` records the request before it asks; it is uncertain if asking raises; otherwise the operation is `CANCELLED` and the cancellation confirmed iff the provider reports the task cancelled, the result available iff it reports success, and else an operator is needed and the operation keeps its state |
| `ProviderAnswers.ReconcileCancellationAnswers` | runtime/coding_providers/service.py:460-495 | `reconcile_cancellation` refuses unknown records and disabled providers, and settles by the reported status in the same way |
| `PaidResponses.StepKeepsPaid` | runtime/coding_providers/service.py:114-268 | Every step of a caller that submits each operation with one of its own requests, and of providers that answer for the operations of a given map with that one result, keeps each durable receipt of a live operation, and of every operation of the map, backed by the result it states |
| `PaidResponses.EveryHonestRun` | runtime/customer_execution/service.py:437-439 | In every run of such callers and providers what is stored of each operation stays so: nothing before submission, no receipt without its result, and nothing but the one answer |
| `PaidResponses.ReceiptsAreBacked` | runtime/coding_providers/service.py:219-268 | In every such run a durable receipt of a live operation, or of one whose provider repeats its answer, has its durable result with the digest it states |
| `PaidResponses.FetchBacksReceiptsIff` | runtime/coding_providers/service.py:219-268 | `result`, for whatever provider, leaves a receipt without its result if and only if it stores an answer other than the one the stored receipt states and the process dies after the first write; for a live provider that never happens, as the answer is compared with the receipt first |
| `PaidResponses.ChangedAnswerBreaksReceipt` | runtime/coding_providers/service.py:264-266 | That case in a run: whatever non-live operation is brought to a stored result, its provider answering otherwise the second time and a crash after one effect leave a receipt with a result it does not state |
| `PaidResponses.SomeAnswersDiffer` | runtime/coding_providers/service.py:264-266 | Such a run with concrete answers, from empty stores |
| `PaidResponses.PaidResponseNeverLost` | runtime/coding_providers/service.py:421-448 | Kill a live submission after any number of its effects: `reconcile` returns exactly the paid answer's result iff its receipt is durable, asks an operator otherwise, and never submits again |
| `PaidResponses.SinkBacksReceiptsIff` | runtime/coding_providers/codex_sdk_provider.py:208-213 | A live submission keeps a backed receipt backed unless, and only unless, the caller passed a request whose operation already holds a receipt for another answer and the process died between the sink's two writes |
| `PaidResponses.ReceiptLosesItsResult` | runtime/customer_execution/service.py:437-439 | A run from empty stores: two live operations are prepared, one is submitted and answered, the other is submitted with the request of the first and the process dies between the two writes; the first one's receipt then states a result that is not the stored one |
| `CompleteRuns.ResultIsReached` | runtime/coding_providers/service.py:49-268 | From any world that does not know the operation, a provider that keeps its word brings it by `prepare`, `submit`, `poll` and `result` to its stored result with a matching receipt: it is submitted exactly once and nothing else changes |
| `ProgressLog.PollingTwice` | runtime/coding_providers/service.py:182-217 | After a successful poll the cursor is the length of the log and the log holds every reported event; polling again with the same events stores only the operation |
| `ProgressLog.HeldEventsChangeNothing` | runtime/coding_providers/storage.py:130-141 | Events already in the log are not stored again |
| `ProgressLog.AppendedIsFound` | runtime/coding_providers/storage.py:130-141 | An appended event is found under its number, and the log before it is a prefix |
| `ProviderStore.DurableState.AppendProgress` | runtime/coding_providers/storage.py:130-141 | Stores the next event, keeps an equal one, refuses any other number or content; dies before or after the one write |
| `ProviderStore.DurableState.SaveOperation` | runtime/coding_providers/storage.py:39-41 | One atomic durable write, or the process dies before it; nothing else changes |
| `ProviderStore.DurableState.SaveResult` | runtime/coding_providers/storage.py:58-59 | One atomic durable write, or the process dies before it; nothing else changes |
| `ProviderStore.DurableState.SaveReceipt` | runtime/coding_providers/storage.py:77-79 | One atomic durable write, or the process dies before it; nothing else changes |
| `ProviderStore.DurableState.SavePatch` | runtime/coding_providers/storage.py:89-90 | One atomic durable write, or the process dies before it; nothing else changes |
| `ProviderStore.DurableState.SaveCancellation` | runtime/coding_providers/storage.py:117-119 | One atomic durable write, or the process dies before it; nothing else changes |
| `ProviderStore.DurableState.ReplaceFile` | runtime/coding_providers/patching.py:78 | One atomic replacement of a file by its stage file |
| `ProviderService.CodingProviderService.Prepare` | runtime/coding_providers/service.py:49-112 | `prepare` over the mutable stores goes through exactly the specified effects, in order, up to the one the process dies before, and returns or raises as specified; `ProviderAnswers.PrepareAnswers` spell out which effects and answers these are |
| `ProviderService.CodingProviderService.Submit` | runtime/coding_providers/service.py:114-180 | `submit` over the mutable stores goes through exactly the specified effects, in order, up to the one the process dies before, and returns or raises as specified; `SubmitRefuses`, `SubmitReconciles`, `SubmitSends`, `LookedUpAnswers` and `SinkAnswers` in `ProviderAnswers` spell out which effects and answers these are |
| `ProviderService.CodingProviderService.FinishSubmission` | runtime/coding_providers/service.py:144-180 | what `submit` does after `submit_task` over the mutable stores goes through exactly the specified effects, in order, up to the one the process dies before, and returns or raises as specified |
| `ProviderService.CodingProviderService.Poll` | runtime/coding_providers/service.py:182-217 | `poll` over the mutable stores goes through exactly the specified effects, in order, up to the one the process dies before, and returns or raises as specified; `PollAnswers.PollReturnsIff` and `ProviderAnswers.PollRefuses` spell out which effects and answers these are |
| `ProviderService.CodingProviderService.PollAll` | runtime/coding_providers/service.py:190-217 | The loop over the reported events and the status after it go through exactly the specified effects; `PollAnswers.PollReturnsIff` spells out which these are |
| `ProviderService.CodingProviderService.FetchResult` | runtime/coding_providers/service.py:219-268 | `result` over the mutable stores goes through exactly the specified effects, in order, up to the one the process dies before, and returns or raises as specified; `FetchReturnsIff`, `FetchStores` and `FetchRefuses` in `ProviderAnswers` spell out which effects and answers these are |
| `ProviderService.CodingProviderService.ApplyAndAccept` | runtime/coding_providers/service.py:270-384 | `apply_and_accept` over the mutable stores goes through exactly the specified effects, in order, up to the one the process dies before, and returns or raises as specified; `ApplyAnswers` and `DirectEndings` spell out which effects and answers these are |
| `ProviderService.CodingProviderService.ReconcilePatch` | runtime/coding_providers/service.py:568-614 | `_reconcile_patch` over the mutable stores goes through exactly the specified effects, in order, up to the one the process dies before, and returns or raises as specified; `ApplyAnswers.RecoveryAnswers` spell out which effects and answers these are |
| `ProviderService.CodingProviderService.Cancel` | runtime/coding_providers/service.py:386-419 | `cancel` over the mutable stores goes through exactly the specified effects, in order, up to the one the process dies before, and returns or raises as specified; `ProviderAnswers.CancelRefuses` and `CancelAnswers` spell out which effects and answers these are |
| `ProviderService.CodingProviderService.Reconcile` | runtime/coding_providers/service.py:421-458 | `reconcile` over the mutable stores goes through exactly the specified effects, in order, up to the one the process dies before, and returns or raises as specified; `ProviderAnswers.ReconcileAnswers` spell out which effects and answers these are |
| `ProviderService.CodingProviderService.ReconcileCancellation` | runtime/coding_providers/service.py:460-495 | `reconcile_cancellation` over the mutable stores goes through exactly the specified effects, in order, up to the one the process dies before, and returns or raises as specified; `ProviderAnswers.ReconcileCancellationAnswers` spell out which effects and answers these are |
| `ProviderService.CodingProviderService.ContentBytes` | runtime/coding_providers/service.py:227-229 | The sum of the encoded contents |
| `ProviderService.CallIsStep` | runtime/coding_providers/service.py:37-628 | Whatever call the object did by its contract is one step of a run, so the protocol invariant holds again after it and nothing was undone |
| `ProviderService.CallIsAnswered` | runtime/coding_providers/service.py:37-628 | A call of the object that the process survives returns the answer, and leaves the stores, of the tables of answers |
| `ProviderService.CallsAreRuns` | runtime/coding_providers/service.py:37-628 | A store that was empty at first and went through call after call is where the run of these calls leads: all that is proved about runs holds of the mutable object |
| `DeterministicProvider.DeterministicCodingProvider.SubmitTask` | runtime/coding_providers/deterministic_provider.py:34-61 | Idempotent by key: a known key returns its task and changes nothing; a new one gets the task numbered next, for this request, succeeded, with two numbered events of its operation and the configured file operations |
| `DeterministicProvider.DeterministicCodingProvider.CancelTask` | runtime/coding_providers/deterministic_provider.py:72-77 | Changes the status and drops the operations of that task only |
| `DeterministicProvider.DeterministicCodingProvider.ReconcileTask` | runtime/coding_providers/deterministic_provider.py:79-83 | Returns no more than one task; a task is returned iff it is held, was submitted under this very key, and is the one named if one is named; so the answer is empty iff no such task is held |
| `DeterministicProvider.SubmissionSettles` | runtime/coding_providers/service.py:167-180 | A submission to this provider ends `SUBMITTED` iff the task held for the key carries this very operation's identity |
| `DeterministicProvider.DecimalsDiffer` | runtime/coding_providers/deterministic_provider.py:37 | Task identifiers of different numbers differ |
| `ApprovalRecords.TransitionsNeedOnlyTheClock` | runtime/customer_delivery/models.py:147-201 | Each transition of a stored record, the failure handler's included, can be constructed exactly when the clock is not behind the record's creation |
| `CustomerSafety.MoveKeepsInv` | runtime/customer_delivery/service.py:241-264 | Every atomic step keeps the linked records' invariant; no scope changes, finished records never change |
| `CustomerSafety.CallsOnlyMove` | runtime/customer_execution/service.py:210-391 | Every call of the three services consists of such steps |
| `CustomerRuns.AtMostOneEffect` | runtime/customer_delivery/service.py:203-210 | In every run each adapter's effect method is invoked at most once per request |
| `CustomerRuns.RecordedBeforeEffect` | runtime/customer_execution/service.py:334-342 | At the moment of an invocation the very record handed over is durable and in progress, and no earlier invocation is on record |
| `CustomerRuns.FrozenChain` | runtime/customer_acceptance/service.py:251-281 | A delivery stands on a reviewed plan and an acceptance on a created draft, with their digests; the upstream records never change again and the binding checks hold at every later moment |
| `CustomerRuns.RunsExtend` | runtime/customer_execution/persistence.py:103-114 | All versions of a record stored over a run share one scope; finished records and calls stay |
| `CustomerRuns.WhatRunsWasApproved` | runtime/customer_delivery/service.py:152-171 | Every invocation was requested by a command that named the scope of the record it was handed, and approved by an earlier command that named the same scope |
| `CustomerRuns.PastWasApproved` | runtime/customer_execution/service.py:269-290 | Nothing gets past approval but by a command that approves exactly its scope |
| `CustomerRuns.OneTaskPlans` | runtime/customer_execution/service.py:320-333 | An approved plan's first task is its first pending one, a reviewable plan has exactly one completed task: the missing-pending-task branch is never taken and the exactly-one-task guard always passes |
| `CustomerRuns.ExecutionEnds` | runtime/customer_execution/service.py:341-391 | A started execution that is not killed ends done iff it returns, in `RECONCILIATION_REQUIRED` iff it raises and the clock is not behind the record's creation, and stays in progress only in the remaining case |
| `CustomerRuns.DeliveryEnds` | runtime/customer_delivery/service.py:209-232 | The same for delivery |
| `CustomerRuns.AcceptanceEnds` | runtime/customer_acceptance/service.py:208-242 | The same for acceptance |
| `CustomerRuns.BusyRequestsStay` | runtime/customer_delivery/service.py:193-200 | Once a record of a request is in progress or waits for reconciliation, no call for the request changes anything |
| `CustomerAnswers.EveryInvocationWasChecked` | runtime/customer_execution/service.py:292-391 | In every run each invocation of an effect was started by its command with every confirmation, under an enabled live configuration, for the record that was approved at that moment with the scope the command names, with current authority or evidence, and with passing preflight checks; it was handed that record marked as in progress |
| `CustomerAnswers.EveryHeaderIsComplete` | runtime/customer_delivery/models.py:147-201 | In every run each stored record says when and by whom it was approved iff it was, by the request's own customer, and why it failed iff it did |
| `CustomerAnswers.PlanAnswers` | runtime/customer_execution/service.py:210-257 | `plan`, condition by condition: what it refuses, the new record it stores, and when it returns the stored one |
| `CustomerAnswers.ApprovePlanAnswers` | runtime/customer_execution/service.py:259-290 | `approve` of a plan: exactly a waiting plan with this scope under current authority is approved, by this customer now; the same approval again returns it; everything else raises as listed |
| `CustomerAnswers.ExecuteRefuses` | runtime/customer_execution/service.py:292-333 | Every refusal of `execute_next` with its error; nothing changes |
| `CustomerAnswers.ExecuteStarts` | runtime/customer_execution/service.py:334-391 | A started execution: the worlds it goes through, record by record, and which of the three endings follows from the reported turn and the clock |
| `CustomerAnswers.FirstPendingIs` | runtime/customer_execution/service.py:320-325 | The task that is executed is pending and none before it is |
| `CustomerAnswers.SourceIs` | runtime/customer_delivery/service.py:266-328 | A review is made iff exactly one task awaits review, its turn is known, and the evidence holds; it is made from that turn |
| `CustomerAnswers.PrepareDeliveryAnswers` | runtime/customer_delivery/service.py:99-136 | `prepare` of a delivery: its refusals, the whole new record, and when the stored one is returned |
| `CustomerAnswers.ApproveDeliveryAnswers` | runtime/customer_delivery/service.py:138-171 | `approve` of a delivery: exactly a confirmed, waiting review of the current plan with this scope and unchanged evidence is approved; everything else raises as listed |
| `CustomerAnswers.DeliverRefuses` | runtime/customer_delivery/service.py:173-203 | Every refusal of `deliver` with its error, and when a finished delivery is returned again |
| `CustomerAnswers.DeliverStarts` | runtime/customer_delivery/service.py:203-232 | A started delivery: the worlds it goes through and which ending follows from the receipt and the clock |
| `CustomerAnswers.PrepareAcceptanceAnswers` | runtime/customer_acceptance/service.py:72-135 | `prepare` of an acceptance: its refusals, the whole new record, and when the stored one is returned |
| `CustomerAnswers.ApproveAcceptanceAnswers` | runtime/customer_acceptance/service.py:137-167 | `approve` of an acceptance: exactly a confirmed, waiting record of the current delivery with this scope is approved; everything else raises as listed |
| `CustomerAnswers.RunRefuses` | runtime/customer_acceptance/service.py:169-201 | Every refusal of `execute` with its error, both confirmations included, and when a finished acceptance is returned again |
| `CustomerAnswers.RunStarts` | runtime/customer_acceptance/service.py:202-242 | A started acceptance: the worlds it goes through and which ending follows from the evidence and the clock |
| `CustomerServices.CustomerExecutionService.MakePlan` | runtime/customer_execution/service.py:210-257 | `plan` over the mutable store passes through exactly the specified durable worlds, up to the step the process dies before |
| `CustomerServices.CustomerExecutionService.Approve` | runtime/customer_execution/service.py:259-290 | `approve` over the mutable store passes through exactly the specified durable worlds, up to the step the process dies before |
| `CustomerServices.CustomerExecutionService.ExecuteNext` | runtime/customer_execution/service.py:292-391 | `execute_next` over the mutable store passes through exactly the specified durable worlds, up to the step the process dies before; no replacement in it is ever refused |
| `CustomerServices.CustomerExecutionService.NextPending` | runtime/customer_execution/service.py:320-325 | The index of the first pending task |
| `CustomerServices.CustomerDeliveryService.Prepare` | runtime/customer_delivery/service.py:99-136 | `prepare` likewise |
| `CustomerServices.CustomerDeliveryService.Approve` | runtime/customer_delivery/service.py:138-171 | `approve` likewise |
| `CustomerServices.CustomerDeliveryService.Deliver` | runtime/customer_delivery/service.py:173-232 | `deliver` likewise, with no replacement ever refused |
| `CustomerServices.CustomerAcceptanceService.Prepare` | runtime/customer_acceptance/service.py:72-135 | `prepare` likewise |
| `CustomerServices.CustomerAcceptanceService.Approve` | runtime/customer_acceptance/service.py:137-167 | `approve` likewise |
| `CustomerServices.CustomerAcceptanceService.Execute` | runtime/customer_acceptance/service.py:169-242 | `execute` likewise, with no replacement ever refused |
| `CustomerServices.CustomerStores.ReplacePlan` | runtime/customer_execution/persistence.py:103-132 | Writes iff the stored record is the expected one and the scope stays the same; otherwise it says which comparison failed and changes nothing |
| `CustomerServices.CustomerStores.ReplaceDelivery` | runtime/customer_delivery/persistence.py:102-131 | Writes iff the stored record is the expected one and the scope stays the same; otherwise it says which comparison failed and changes nothing |
| `CustomerServices.CustomerStores.ReplaceAcceptance` | runtime/customer_acceptance/persistence.py:102-131 | Writes iff the stored record is the expected one and the scope stays the same; otherwise it says which comparison failed and changes nothing |
| `CustomerServices.CustomerExecutionService.ReplaceAndReturn` | runtime/customer_execution/service.py:284-290 | With the stored record as the expected one and its scope kept, the comparison succeeds: the call ends in the next version stored and returned, or dies before the write |
| `CustomerServices.CustomerDeliveryService.ReplaceAndReturn` | runtime/customer_delivery/service.py:165-171 | The same for a delivery |
| `CustomerServices.CustomerAcceptanceService.ReplaceAndReturn` | runtime/customer_acceptance/service.py:161-167 | The same for an acceptance |
| `CustomerServices.CallIsStep` | runtime/customer_execution/service.py:210-391 | Whatever call the stores did by its contract is one step of a run, so the linked records' invariant holds again after it and nothing was undone |
| `CustomerServices.CallIsAnswered` | runtime/customer_execution/service.py:210-391 | A call of a service that the process survives answers as its trail does and leaves its last world |
| `CustomerServices.CallsAreRuns` | runtime/customer_execution/service.py:210-391 | Stores that were empty at first and went through call after call are where the run of these calls leads |
| `DeliveryAdapter.Workspace.Deliver` | runtime/customer_delivery/provider.py:224-297 | At every exit, raised or not, the remote is as before or gained exactly the reviewed branch at exactly the reviewed commit, whose parent is the reviewed base and whose tree is the base overridden by the reviewed files; at most the requested pull request was opened, and only with that branch in place; it returns iff nothing raised, the review is admitted, every file differs from the base and the draft is kept as asked |
| `DeliveryAdapter.AdmittedIff` | runtime/customer_delivery/provider.py:203-222 | A review is admitted iff it is approved for the configured target, branch and base are checked out, exactly its files show as changed with exactly its contents and patch, the remote is the expected one without that branch, and no pull request asks for it |
| `DeliveryAdapter.DeliveredMeans` | runtime/customer_delivery/provider.py:226-292 | The reviewed commit has the reviewed base as parent, the reviewed message, and the base's files overridden by exactly the reviewed ones; the draft is accepted iff it is open, a draft, and has the reviewed repository, branches and title |
| `DeliveryAdapter.EffectiveIff` | runtime/customer_delivery/provider.py:228-236 | The commit changes exactly the reviewed paths iff every reviewed file differs from the base |
| `DeliveryAdapter.Workspace.Preflight` | runtime/customer_delivery/provider.py:203-222 | Reads only; admits exactly an approved review on the configured target whose workspace shows exactly the reviewed files, with no remote branch and no pull request |
| `DeliveryAdapter.Workspace.VerifyWorkspace` | runtime/customer_delivery/provider.py:306-337 | Branch, base commit, changed paths, each content and the rendered patch are as reviewed, and conversely |
| `DeliveryAdapter.Workspace.CommitReviewed` | runtime/customer_delivery/provider.py:226-258 | Succeeds iff no command raised and every reviewed file differs from the base; then the commit is the reviewed one and the workspace is clean |
| `DeliveryAdapter.Workspace.Publish` | runtime/customer_delivery/provider.py:259-297 | Push, remote check, draft and its check: what each exit leaves on the remote |
| `DeliveryAdapter.AddedIsReviewed` | runtime/customer_delivery/provider.py:227-236 | In a verified workspace, adding the reviewed paths stages the base tree overridden by exactly the reviewed files, whatever was staged before |
| `DeliveredPatch.EvidenceFixesFiles` | runtime/customer_delivery/service.py:286-323 | A workspace that passes the delivery's check of an accepted patch's manifest holds exactly the accepted files, the unlisted ones included |
| `DeliveredPatch.EvidenceIsDelivered` | runtime/customer_delivery/service.py:286-328 | Such a workspace is one that the delivery adapter verifies against the reviewed files, every one of which differs from the base, and the reviewed commit's tree is the accepted workspace file by file |
| `DeliveredPatch.ExactIsDelivered` | runtime/customer_delivery/service.py:286-328 | When the accepted workspace is exactly what the operations ask for, so is the delivered commit at every path, and the operations leave no path absent |
| `DeliveredPatch.DeliveredAsAskedIff` | runtime/customer_delivery/service.py:310-315 | Whatever workspace an acceptance found, the delivered commit is what the operations ask for if and only if they leave no path absent |
| `CodingReview.ExecutionIsSound` | runtime/coding_review/models.py:402-443 | Whatever the review loop returns satisfies every check of the observation's constructor, resolves in each round exactly the codes of the round before, passes only in the last round, uses all plans and both budgets, and each final file holds the last patch to its path |
| `ReviewOutcomes.ReturnsIff` | runtime/coding_review/provider.py:57-183 | The review returns iff the plans are numbered from one within the rounds allowed, each resolves exactly the codes reported of the workspace before it, each patch is its owner's and finds its place, the tests exist, writes, tool calls and routes stay within their limits, and the last workspace and no earlier one passes QA and scan; and every record then says what happened in its round |
| `ReviewOutcomes.RoundsIff` | runtime/coding_review/provider.py:90-153 | Any number of rounds goes through iff each of them does, judged by the workspaces after the rounds |
| `ReviewOutcomes.RoundIff` | runtime/coding_review/provider.py:90-146 | One round goes through iff its plan is feasible and within the writes left; its record then states changed paths, statuses, findings, state and counts of that round |
| `ReviewOutcomes.OwnerIs` | runtime/coding_review/models.py:160-166 | A path belongs to QA if it is one of the declared tests, and otherwise to the first assignment that lists it |
| `CodingReview.LocalDeterministicCodingReviewProvider.Execute` | runtime/coding_review/provider.py:57-183 | The loop with its accumulators returns exactly the specified observation, or raises |
| `CodingReview.LocalDeterministicCodingReviewProvider.RunRound` | runtime/coding_review/provider.py:90-146 | One round, with QA always and security only after QA passed |
| `CodingReview.LocalDeterministicCodingReviewProvider.WriteAll` | runtime/coding_review/provider.py:96-99 | The writes of a round leave the patches' left fold and count them |
| `CodingReview.LocalDeterministicCodingReviewProvider.ValidatePatches` | runtime/coding_review/provider.py:186-200 | Every patch has its path's owner and a placeable destination, and conversely |
| `CodingReview.PatchedHolds` | runtime/coding_review/provider.py:96-99 | After a list of patches each path holds its last patch's content, or what it held before |
| `CodingReview.RoundsReach` | runtime/coding_review/provider.py:90-153 | What holds after any number of rounds: chained records, the fold of all patches, the sum of writes within the budget |
| `CodingReview.RepeatedCodesEndTheLoop` | runtime/coding_review/provider.py:91-94 | A round whose findings repeat a code, or number more than eight, cannot be followed by another |
| `ContextBuilder.EntriesFillBudget` | runtime/coding_providers/context.py:25-51 | Each entry is the longest code-point prefix of its file whose encoding fits what is left, the entries are those of the first readable candidates, `truncated` says whether the prefix is proper, the byte sum never exceeds the limit, and a readable file is left out only when nothing is left |
| `ContextBuilder.RefusedIff` | runtime/coding_providers/context.py:26-46 | The build raises over a candidate iff one that is unsafe comes up before the budget is used up |
| `ContextBuilder.InspectIs` | runtime/coding_providers/context.py:26-41 | A candidate is read iff it is not named like a secret, stays inside the workspace, lies below an allowed and no forbidden prefix, runs through no file, and is a file that holds the encoding of its text without NUL; the build stops iff it leaves the workspace, or is allowed and runs through a file |
| `ContextBuilder.EntriesAreLongest` | runtime/coding_providers/context.py:42-51 | Entry by entry: as many leading characters as fit both the limit per file and what is left of the total, and no more; a readable file is left out only when nothing more can fit |
| `ContextBuilder.Build` | runtime/coding_providers/context.py:22-78 | The loop with its running total returns the specified entries and their exact byte sum |
| `ContextBuilder.ShorterEncoding` | runtime/coding_providers/context.py:49-51 | Comparing encoded sizes tells whether anything was cut off |
| `Utf8.CutDecodesToFit` | runtime/coding_providers/context.py:47-48 | Cutting an encoding at any byte and ignoring what is ill-formed keeps exactly the characters that fit (section 3 of RFC 3629) |
| `Utf8.FitIsLongest` | runtime/coding_providers/context.py:42-49 | No longer prefix fits, and every shorter one does |
| `Utf8.DecodeExactlyEncoded` | runtime/coding_providers/context.py:38-41 | A byte string decodes strictly to a text exactly when it is that text's encoding |
| `Estimate.TotalsAreBounded` | runtime/customer_estimate/service.py:143-203 | For every grouping of the same requirements the total minimum is the sum of all points, and the total maximum lies between the factor times that sum and the number of milestones above it |
| `Estimate.CeilingBounds` | runtime/customer_estimate/service.py:150-151 | The ceiling of the double-precision product is at least the exact product and at most one above it |
| `Estimate.RoundedIsNear` | runtime/customer_estimate/service.py:151 | The rounding error is at most half a unit in the last place |
| `Estimate.FactorsAreNearest` | runtime/customer_estimate/service.py:138-142 | The factors are the doubles nearest to 1.20, 1.35 and 1.60 |
| `Estimate.PointsAre` | runtime/customer_estimate/service.py:36-54 | The points of each priority, and how many each category adds |
| `Estimate.RoundedUpOverAnInteger` | runtime/customer_estimate/service.py:151 | 180 times 1.35 is 243, and its ceiling in double precision is 244 |
| `Estimate.Build` | runtime/customer_estimate/service.py:134-208 | The loop returns the specified milestones and totals iff the milestones cover exactly the document's requirements |
| `Estimate.SumOfSameElements` | runtime/customer_estimate/service.py:146-149 | Two listings of the same requirements have the same points |
| `RuntimeEvidence.CountsPartition` | runtime/complete_runtime_acceptance/models.py:342-355 | For distinct journeys the per-journey counts add up to all evidence iff every item belongs to a declared journey |
| `RuntimeEvidence.EvidenceIsPartitioned` | runtime/complete_runtime_acceptance/provider.py:159-227 | If acceptance returns, every piece of evidence passed and belongs to exactly one declared journey |
| `RuntimeEvidence.ReceivableIff` | runtime/complete_runtime_acceptance/provider.py:177-205 | Item by item: a journey is accepted iff it and all its evidence passed, each of the four kinds is there, exactly one item is a screenshot, the listed identifiers are exactly the items', and there are at most 32 |
| `RuntimeEvidence.Observe` | runtime/complete_runtime_acceptance/provider.py:159-230 | An observation is returned iff every declared journey is complete, ran with no more evidence than its receipt admits, the login journey ran, no evidence belongs to an undeclared journey, and the journeys are within the authority's budget |

## Left out

- PatchCrash.CrashConsistencyOfWrites: asks for at least one write, since none and all are the same for an empty list.
- PaidResponses.PaidResponseNeverLost: is stated for a caller that submits an operation with that operation's own request; `SinkBacksReceiptsIff` says what happens otherwise.
- Estimate.TotalsAreBounded: asks for at most 100 requirements, which the requirements document guarantees.
- ContextBuilder.Build: does not model the evidence strings and the digest of the package; the size of the encoded prompt is an arbitrary function.
- DeliveryAdapter.Workspace.Deliver: assumes nobody else changes the workspace or the remote while it runs, and no Git filters change contents on their way into a commit.
- Usage figures other than the token total, timestamps of the provider protocol, redaction and the wording of recorded details.
- Identifier patterns of stores and records beyond what the model checks; they appear as arbitrary validity predicates.
- Operations that address the applier's own staging directory, symbolic links, directories, special files, and Windows path rules beyond drive and share prefixes.
- Policy prefixes that are themselves unsafe paths, and workspace paths that leave the root; raw paths outside the workspace count as absent in recovery.
- File names that Git ignores or lists in quotes, and the line counts in the manifest.
- The provider registry, the context manager and configuration checks, beyond whether a provider is enabled and what it can do.
- Concurrent processes on one store: the files give no atomic compare-and-swap across processes, so one sequential caller with crashes is modelled.
- JSON encoding, file modes, fsync and temporary files; a store's write either happened or did not. The window in which `create` has made an empty file is not modelled.
- Failures of a store's disk inside a call that goes on; such a failure is a crash here.
- The rendering of the reviewed patch, remote address normalisation, and the GitHub command line; the first two are arbitrary functions.
- The customer progress, planning and preview-evidence services: whether they accept is a reply.
- How the execution adapter drives the provider protocol: its report is an arbitrary reply; `DeliveredPatch` takes up again at the accepted patch.
- The coding-review service around the loop, the security scan and the test run themselves, and leftover stage files of the review loop's writes.
- Confidence, effort band and drivers of an estimate, and the authorization checks of runtime acceptance.
