/** `CodingProviderService` over mutable stores. Every method does exactly what its script says, up to
    the effect the process dies before; the scripts are what the properties are proved about. */
module ProviderService {
  import opened Wrappers
  import opened ProviderModel
  import opened Patching
  import opened PatchScripts
  import opened PatchApplier
  import opened ProtocolScripts
  import opened ProviderStore
  import ProtocolRuns
  import ProtocolSafety
  import ProviderAnswers
  import Utf8

  class CodingProviderService {
    const cfg: Config
    const store: DurableState

    constructor (cfg: Config, store: DurableState)
      ensures this.cfg == cfg && this.store == store
    {
      this.cfg, this.store := cfg, store;
    }

    /** `_reconciliation`: save the operation for an operator and raise. */
    method SaveForOperator(op: Operation) returns (outcome: Outcome)
      modifies store
      ensures store.Did(old(store.Now()), old(store.remaining), Reconciliation(op), outcome)
    {
      hide GoalOf;
      var e := op.(state := NeedsReconciliation);
      GoalOne(store.Now(), store.remaining, SaveOperation(e), Raised(ReconciliationError));
      var alive := store.SaveOperation(e);
      outcome := if alive then Raised(ReconciliationError) else Crashed;
    }

    /** Save one more version of the operation and return it. */
    method SaveAndReturn(op: Operation) returns (outcome: Outcome)
      modifies store
      ensures store.Did(old(store.Now()), old(store.remaining), Script([SaveOperation(op)], Operated(op)), outcome)
    {
      hide GoalOf;
      GoalOne(store.Now(), store.remaining, SaveOperation(op), Operated(op));
      var alive := store.SaveOperation(op);
      outcome := if alive then Operated(op) else Crashed;
    }

    method Prepare(request: PrepareRequest) returns (outcome: Outcome)
      modifies store
      ensures store.Did(old(store.Now()), old(store.remaining), PrepareScript(cfg, old(store.Now()), request), outcome)
    {
      hide GoalOf, IdentityFor;
      GoalRaise(store.Now(), store.remaining);
      if !(1 <= request.attempt <= request.maximumAttempts) {
        return Raised(PolicyError);
      }
      if request.provider !in cfg.coding {
        return Raised(RegistryError);
      }
      if request.context.None? {
        return Raised(PolicyError);
      }
      var identity := IdentityFor(cfg, request, request.context.value);
      var key := KeyOf(identity);
      if key in store.operations {
        var existing := store.operations[key];
        GoalNone(store.Now(), store.remaining, Operated(existing));
        if || existing.identity.request != identity.request
           || existing.identity.context != identity.context
           || existing.provider != request.provider
           || existing.identity.workspace != request.workspace
           || existing.identity.branch != request.branch
           || existing.identity.version != request.version
        {
          return Raised(ReconciliationError);
        }
        return Operated(existing);
      }
      var op := Operation(identity, request.provider, request.maximumOutput, Prepared, None, 0, None);
      outcome := SaveAndReturn(op);
    }

    /** The provider's own record of the task decides. */
    method AdoptTask(op: Operation, lookup: LookupReply, taskId: string) returns (outcome: Outcome)
      modifies store
      ensures store.Did(old(store.Now()), old(store.remaining), LookupScript(op, lookup, taskId), outcome)
    {
      hide GoalOf;
      GoalRaise(store.Now(), store.remaining);
      if lookup.identity.None? {
        return Raised(ProviderFailure);
      }
      if lookup.identity.value != op.identity {
        outcome := SaveForOperator(op);
        return;
      }
      outcome := SaveAndReturn(op.(taskId := Some(taskId), state := Submitted));
    }

    method Reconcile(key: Key, lookup: LookupReply) returns (outcome: Outcome)
      modifies store
      ensures store.Did(old(store.Now()), old(store.remaining), ReconcileScript(cfg, old(store.Now()), key, lookup), outcome)
    {
      hide GoalOf, LookupScript, ReceiptMatches;
      GoalRaise(store.Now(), store.remaining);
      if key !in store.operations {
        return Raised(NotFound);
      }
      var op := store.operations[key];
      if key in store.receipts && key in store.results {
        if !ReceiptMatches(op, store.receipts[key], store.results[key]) {
          outcome := SaveForOperator(op);
          return;
        }
        outcome := SaveAndReturn(op.(taskId := Some(store.receipts[key].taskId), resultReference := Some(key.operation),
                                     state := ResultAvailable));
        return;
      }
      if op.provider == "openai-codex" {
        outcome := SaveForOperator(op);
        return;
      }
      if op.provider !in cfg.enabled {
        return Raised(RegistryError);
      }
      if Live(op.provider) {
        outcome := SaveForOperator(op);
        return;
      }
      if lookup.matches.None? {
        return Raised(ProviderFailure);
      }
      if |lookup.matches.value| != 1 {
        outcome := SaveForOperator(op);
        return;
      }
      outcome := AdoptTask(op, lookup, lookup.matches.value[0]);
    }

    /** `submit`: the intent is durable before the call, and an exception of the provider is recorded. */
    method Submit(key: Key, request: Identity, allowLive: bool, confirmUsage: bool, reply: SubmitReply, lookup: LookupReply)
      returns (outcome: Outcome)
      modifies store
      ensures store.Did(old(store.Now()), old(store.remaining),
                        SubmitScript(cfg, old(store.Now()), key, request, allowLive, confirmUsage, reply, lookup), outcome)
    {
      hide GoalOf, LookupScript, ReceiptMatches, ResultOf, ReceiptOf, ReconcileScript, VerifyLiveScript;
      GoalRaise(store.Now(), store.remaining);
      if key !in store.operations {
        return Raised(NotFound);
      }
      var op := store.operations[key];
      if op.state != Prepared && op.state != Uncertain && op.state != Submitted {
        return Raised(StateError);
      }
      if op.provider !in cfg.enabled {
        return Raised(RegistryError);
      }
      if op.provider != "deterministic" && (!allowLive || !confirmUsage) {
        return Raised(PolicyError);
      }
      if op.state != Prepared {
        outcome := Reconcile(key, lookup);
        return;
      }
      ghost var w := store.Now();
      var inProgress := op.(state := SubmissionInProgress);
      ghost var rest := AfterSubmission(w, key, inProgress, request, reply, lookup);
      GoalTwoSteps(w, store.remaining, SaveOperation(inProgress), CallSubmit(key, request), rest);
      var alive := store.SaveOperation(inProgress);
      if !alive {
        return Crashed;
      }
      alive := store.CallSubmit(key, request);
      if !alive {
        return Crashed;
      }
      outcome := FinishSubmission(w, key, inProgress, request, reply, lookup);
    }

    /** What `submit` does after `submit_task` returned or raised. */
    method FinishSubmission(ghost before: World, key: Key, inProgress: Operation, request: Identity, reply: SubmitReply, lookup: LookupReply)
      returns (outcome: Outcome)
      requires store.results == before.results && store.receipts == before.receipts
      modifies store
      ensures store.Did(old(store.Now()), old(store.remaining), AfterSubmission(before, key, inProgress, request, reply, lookup), outcome)
    {
      hide GoalOf, LookupScript, ReceiptMatches, ResultOf, ReceiptOf, VerifyLiveScript;
      GoalRaise(store.Now(), store.remaining);
      if reply.SubmitRaises? {
        var uncertain := inProgress.(state := Uncertain);
        GoalOne(store.Now(), store.remaining, SaveOperation(uncertain), Raised(ProviderFailure));
        var saved := store.SaveOperation(uncertain);
        return if saved then Raised(ProviderFailure) else Crashed;
      }
      var answer := reply.answer;
      if Live(inProgress.provider) {
        var result, receipt := ResultOf(request, answer), ReceiptOf(request, inProgress.provider, answer);
        ghost var rest := VerifyLiveScript(Stored(before, request, inProgress.provider, answer), key, inProgress, answer.taskId);
        GoalTwoSteps(store.Now(), store.remaining, SaveResult(KeyOf(request), result), SaveReceipt(receipt), rest);
        ReceiptIdentity(request, inProgress.provider, answer);
        var alive := store.SaveResult(KeyOf(request), result);
        if !alive {
          return Crashed;
        }
        alive := store.SaveReceipt(receipt);
        if !alive {
          return Crashed;
        }
        assert rest == VerifyLiveScript(store.Now(), key, inProgress, answer.taskId) by {
          VerifyLiveReads(store.Now(), Stored(before, request, inProgress.provider, answer), key, inProgress, answer.taskId);
        }
        outcome := VerifyLive(key, inProgress, answer.taskId);
        return;
      }
      if lookup.matches.None? {
        return Raised(ProviderFailure);
      }
      if lookup.matches.value != [answer.taskId] {
        outcome := SaveForOperator(inProgress);
        return;
      }
      outcome := AdoptTask(inProgress, lookup, answer.taskId);
    }

    /** A live answer must have left its receipt and its result under this operation. */
    method VerifyLive(key: Key, op: Operation, taskId: string) returns (outcome: Outcome)
      modifies store
      ensures store.Did(old(store.Now()), old(store.remaining), VerifyLiveScript(old(store.Now()), key, op, taskId), outcome)
    {
      hide GoalOf, ReceiptMatches;
      if key !in store.receipts || key !in store.results {
        outcome := SaveForOperator(op);
        return;
      }
      if !ReceiptMatches(op, store.receipts[key], store.results[key]) || store.receipts[key].taskId != taskId {
        outcome := SaveForOperator(op);
        return;
      }
      outcome := SaveAndReturn(op.(taskId := Some(taskId), state := Submitted));
    }

    /** `poll`: every reported event is sanitized, bounded and appended before the status is read. */
    method Poll(key: Key, events: Option<seq<ProgressEvent>>, status: Option<Status>) returns (outcome: Outcome)
      modifies store
      ensures store.Did(old(store.Now()), old(store.remaining), PollScript(cfg, old(store.Now()), key, events, status), outcome)
    {
      hide GoalOf, Appended, Sanitize, StateAfterPoll;
      GoalRaise(store.Now(), store.remaining);
      if key !in store.operations {
        return Raised(NotFound);
      }
      var op := store.operations[key];
      if op.state != Submitted && op.state != Running && op.state != ResultAvailable {
        return Raised(StateError);
      }
      if op.provider !in cfg.enabled {
        return Raised(RegistryError);
      }
      if op.taskId.None? || op.taskId.value == "" {
        return Raised(ReconciliationError);
      }
      if events.None? {
        return Raised(ProviderFailure);
      }
      outcome := PollAll(key, op, events.value, status);
    }

    /** The loop over the reported events, and the status after it. */
    method PollAll(key: Key, op: Operation, events: seq<ProgressEvent>, status: Option<Status>) returns (outcome: Outcome)
      modifies store
      ensures store.Did(old(store.Now()), old(store.remaining),
                        PollEvents(cfg, key, op, LogAt(old(store.Now()), key), events, status), outcome)
    {
      hide GoalOf, Appended, Sanitize, StateAfterPoll, LogAt, PollEvents;
      ghost var goal := GoalOf(store.Now(), store.remaining, PollEvents(cfg, key, op, LogAt(store.Now(), key), events, status));
      for i := 0 to |events|
        invariant goal == GoalOf(store.Now(), store.remaining, PollEvents(cfg, key, op, LogAt(store.Now(), key), events[i..], status))
      {
        PollGoal(store.Now(), store.remaining, cfg, key, op, events, i, status);
        if events[i].operation != key.operation {
          outcome := SaveForOperator(op);
          return;
        }
        var event := Sanitize(cfg, events[i], op.maximumOutput);
        if cfg.eventSize(event) > op.maximumOutput {
          outcome := SaveForOperator(op);
          return;
        }
        var alive, ok := store.AppendProgress(key, event);
        if !alive {
          return Crashed;
        }
        if !ok {
          return Raised(StateError);
        }
      }
      assert events[|events|..] == [];
      PolledGoal(store.Now(), store.remaining, cfg, key, op, status);
      if status.None? {
        return Raised(ProviderFailure);
      }
      outcome := SaveAndReturn(op.(state := StateAfterPoll(status.value), cursor := |LogAt(store.Now(), key)|));
    }

    /** `result`: the fetched result is checked, then stored with its receipt. */
    method FetchResult(key: Key, tokenBudget: Option<nat>, costBudget: Option<real>, reply: Option<Result>) returns (outcome: Outcome)
      modifies store
      ensures store.Did(old(store.Now()), old(store.remaining),
                        ResultScript(cfg, old(store.Now()), key, tokenBudget, costBudget, reply), outcome)
    {
      hide GoalOf, ReceiptMatches, TotalContent, Live;
      GoalRaise(store.Now(), store.remaining);
      if key !in store.operations {
        return Raised(NotFound);
      }
      var op := store.operations[key];
      if op.state != ResultAvailable {
        return Raised(StateError);
      }
      if op.provider !in cfg.enabled {
        return Raised(RegistryError);
      }
      if reply.None? {
        return Raised(ProviderFailure);
      }
      var result := reply.value;
      var contentBytes := ContentBytes(result.operations);
      if || Some(result.taskId) != op.taskId
         || result.external != op.identity.external
         || result.workspace != op.identity.workspace
         || result.branch != op.identity.branch
         || result.status != Succeeded
         || cfg.resultSize(result) > op.maximumOutput
         || contentBytes > op.maximumOutput
      {
        outcome := SaveForOperator(op);
        return;
      }
      if tokenBudget.Some? && result.units > tokenBudget.value {
        return Raised(PolicyError);
      }
      if costBudget.Some? && result.cost.Some? && result.cost.value > costBudget.value {
        return Raised(PolicyError);
      }
      if Live(op.provider) && key !in store.receipts {
        return Raised(NotFound);
      }
      if Live(op.provider) && !ReceiptMatches(op, store.receipts[key], result) {
        outcome := SaveForOperator(op);
        return;
      }
      var receipt := if Live(op.provider) then store.receipts[key] else Receipt(op.identity, op.provider, result.taskId, result);
      outcome := StoreFetched(key, op, result, receipt);
    }

    /** The checked result, its receipt, and the reference to it. */
    method StoreFetched(key: Key, op: Operation, result: Result, receipt: Receipt) returns (outcome: Outcome)
      modifies store
      ensures store.Did(old(store.Now()), old(store.remaining),
                        Script([SaveResult(key, result), SaveReceipt(receipt), SaveOperation(op.(resultReference := Some(key.operation)))],
                               Fetched(result)), outcome)
    {
      hide GoalOf;
      var referenced := op.(resultReference := Some(key.operation));
      ThreeEffects(SaveResult(key, result), SaveReceipt(receipt), SaveOperation(referenced), Fetched(result));
      GoalTwoSteps(store.Now(), store.remaining, SaveResult(key, result), SaveReceipt(receipt),
                     Script([SaveOperation(referenced)], Fetched(result)));
      var alive := store.SaveResult(key, result);
      if !alive {
        return Crashed;
      }
      alive := store.SaveReceipt(receipt);
      if !alive {
        return Crashed;
      }
      GoalOne(store.Now(), store.remaining, SaveOperation(referenced), Fetched(result));
      alive := store.SaveOperation(referenced);
      outcome := if alive then Fetched(result) else Crashed;
    }

    /** The encoded size of everything a result would write. */
    method ContentBytes(ops: seq<FileOperation>) returns (total: nat)
      ensures total == TotalContent(ops)
    {
      hide Utf8.Length;
      total := 0;
      for i := 0 to |ops|
        invariant total == TotalContent(ops[..i])
      {
        assert ops[..i + 1][..i] == ops[..i];
        total := total + if ops[i].content.Some? then Utf8.Length(ops[i].content.value) else 0;
      }
      assert ops[..|ops|] == ops;
    }

    method Cancel(key: Key, actor: string, reason: string, cancelRaises: bool, status: Option<Status>) returns (outcome: Outcome)
      modifies store
      ensures store.Did(old(store.Now()), old(store.remaining),
                        CancelScript(cfg, old(store.Now()), key, actor, reason, cancelRaises, status), outcome)
    {
      hide GoalOf, CancellationScript;
      GoalRaise(store.Now(), store.remaining);
      if actor == "" || reason == "" {
        return Raised(PolicyError);
      }
      if key !in store.operations {
        return Raised(NotFound);
      }
      var op := store.operations[key];
      if op.state != Submitted && op.state != Running {
        return Raised(StateError);
      }
      if op.provider !in cfg.enabled {
        return Raised(RegistryError);
      }
      if op.provider !in cfg.cancellable {
        return Raised(PolicyError);
      }
      var c := Cancellation(op.provider, op.taskId, actor, reason, CancellationPrepared);
      var requested := op.(state := CancellationRequested);
      var inProgress := c.(state := CancellationInProgress);
      ghost var late := CancelCallScript(key, requested, inProgress, cancelRaises, status);
      FourEffects(SaveCancellation(key, c), SaveOperation(requested), SaveCancellation(key, inProgress), CallCancel(key),
                  AfterCancel(key, requested, inProgress, cancelRaises, status));
      GoalTwoSteps(store.Now(), store.remaining, SaveCancellation(key, c), SaveOperation(requested), late);
      var alive := store.SaveCancellation(key, c);
      if !alive {
        return Crashed;
      }
      alive := store.SaveOperation(requested);
      if !alive {
        return Crashed;
      }
      outcome := CallProvider(key, requested, inProgress, cancelRaises, status);
    }

    /** The cancellation intent is durable before `cancel_task` is called. */
    method CallProvider(key: Key, requested: Operation, inProgress: Cancellation, cancelRaises: bool, status: Option<Status>)
      returns (outcome: Outcome)
      modifies store
      ensures store.Did(old(store.Now()), old(store.remaining), CancelCallScript(key, requested, inProgress, cancelRaises, status), outcome)
    {
      hide GoalOf, CancellationScript;
      GoalTwoSteps(store.Now(), store.remaining, SaveCancellation(key, inProgress), CallCancel(key),
                   AfterCancel(key, requested, inProgress, cancelRaises, status));
      var alive := store.SaveCancellation(key, inProgress);
      if !alive {
        return Crashed;
      }
      alive := store.CallCancel(key);
      if !alive {
        return Crashed;
      }
      if cancelRaises {
        var uncertain := inProgress.(state := CancellationUncertain);
        GoalOne(store.Now(), store.remaining, SaveCancellation(key, uncertain), Raised(ProviderFailure));
        alive := store.SaveCancellation(key, uncertain);
        return if alive then Raised(ProviderFailure) else Crashed;
      }
      outcome := SettleCancellation(key, requested, inProgress, status);
    }

    method ReconcileCancellation(key: Key, status: Option<Status>) returns (outcome: Outcome)
      modifies store
      ensures store.Did(old(store.Now()), old(store.remaining), ReconcileCancellationScript(cfg, old(store.Now()), key, status), outcome)
    {
      hide GoalOf, CancellationScript;
      GoalRaise(store.Now(), store.remaining);
      if key !in store.operations || key !in store.cancellations {
        return Raised(NotFound);
      }
      if store.operations[key].provider !in cfg.enabled {
        return Raised(RegistryError);
      }
      outcome := SettleCancellation(key, store.operations[key], store.cancellations[key], status);
    }

    /** The task's status says whether the cancellation took effect. */
    method SettleCancellation(key: Key, op: Operation, c: Cancellation, status: Option<Status>) returns (outcome: Outcome)
      modifies store
      ensures store.Did(old(store.Now()), old(store.remaining), CancellationScript(key, op, c, status), outcome)
    {
      hide GoalOf;
      if status == Some(WasCancelled) {
        var confirmed := c.(state := CancellationConfirmed);
        var cancelled := op.(state := Cancelled);
        TwoEffects(SaveCancellation(key, confirmed), SaveOperation(cancelled), Operated(cancelled));
        GoalStep(store.Now(), store.remaining, SaveCancellation(key, confirmed), Script([SaveOperation(cancelled)], Operated(cancelled)));
        var alive := store.SaveCancellation(key, confirmed);
        if !alive {
          return Crashed;
        }
        outcome := SaveAndReturn(cancelled);
        return;
      }
      if status == Some(Succeeded) {
        outcome := SaveAndReturn(op.(state := ResultAvailable));
        return;
      }
      var required := c.(state := CancellationNeedsReconciliation);
      GoalOne(store.Now(), store.remaining, SaveCancellation(key, required), Raised(ReconciliationError));
      var saved := store.SaveCancellation(key, required);
      outcome := if saved then Raised(ReconciliationError) else Crashed;
    }

    /** `_patch_reconciliation`: save the patch for an operator and raise. */
    method SavePatchForOperator(key: Key, patch: PatchEffect) returns (outcome: Outcome)
      modifies store
      ensures store.Did(old(store.Now()), old(store.remaining), PatchReconciliation(key, patch), outcome)
    {
      hide GoalOf;
      var required := patch.(state := PatchNeedsReconciliation);
      GoalOne(store.Now(), store.remaining, SavePatch(key, required), Raised(ReconciliationError));
      var saved := store.SavePatch(key, required);
      outcome := if saved then Raised(ReconciliationError) else Crashed;
    }

    /** `_reconcile_patch`. */
    method ReconcilePatch(key: Key, op: Operation, patch: PatchEffect, result: Result) returns (outcome: Outcome)
      modifies store
      ensures store.Did(old(store.Now()), old(store.remaining), RecoverScript(key, op, patch, result, old(store.repository)), outcome)
    {
      hide GoalOf, Expected, Matching, Repository.Changed, Repository.StatusIs, ManifestOf;
      var expected := Expected(result.operations);
      var matching := Matching(store.repository.files, expected);
      if matching == {} {
        if patch.completed != [] {
          outcome := SavePatchForOperator(key, patch);
          return;
        }
        var reset := patch.(state := PatchPrepared, completed := []);
        GoalOne(store.Now(), store.remaining, SavePatch(key, reset), Raised(ReconciliationError));
        var saved := store.SavePatch(key, reset);
        return if saved then Raised(ReconciliationError) else Crashed;
      }
      if matching != expected.Keys
         || !store.repository.StatusIs(set i | 0 <= i < |patch.expected| :: patch.expected[i])
      {
        outcome := SavePatchForOperator(key, patch);
        return;
      }
      var manifest := ManifestOf(op, store.repository);
      if patch.manifest.Some? && patch.manifest.value != manifest {
        outcome := SavePatchForOperator(key, patch);
        return;
      }
      outcome := AcceptPatch(key, op, patch.(state := Accepted, manifest := Some(manifest), completed := patch.expected), manifest);
    }

    /** The accepted patch is durable before the operation says so. */
    method AcceptPatch(key: Key, op: Operation, accepted: PatchEffect, manifest: Manifest) returns (outcome: Outcome)
      modifies store
      ensures var done := op.(state := ResultAccepted);
        store.Did(old(store.Now()), old(store.remaining),
                  Script([SavePatch(key, accepted), SaveOperation(done)], Patched(done, manifest)), outcome)
    {
      hide GoalOf;
      var done := op.(state := ResultAccepted);
      TwoEffects(SavePatch(key, accepted), SaveOperation(done), Patched(done, manifest));
      GoalStep(store.Now(), store.remaining, SavePatch(key, accepted), Script([SaveOperation(done)], Patched(done, manifest)));
      var alive := store.SavePatch(key, accepted);
      if !alive {
        return Crashed;
      }
      GoalOne(store.Now(), store.remaining, SaveOperation(done), Patched(done, manifest));
      alive := store.SaveOperation(done);
      outcome := if alive then Patched(done, manifest) else Crashed;
    }

    /** What follows the last replacement: Git's listing decides. */
    method FinishPatch(key: Key, op: Operation, patch: PatchEffect) returns (outcome: Outcome)
      modifies store
      ensures store.Did(old(store.Now()), old(store.remaining), FinishScript(key, op, patch, old(store.repository)), outcome)
    {
      hide GoalOf, PathSet, Repository.Changed, Repository.StatusIs, ManifestOf;
      var applied := patch.(state := Applied);
      var manifest := ManifestOf(op, store.repository);
      var verified := applied.(state := Verified, manifest := Some(manifest));
      var done := op.(state := ResultAccepted);
      ghost var rest := if !store.repository.StatusIs(PathSet(patch.operations)) then PatchReconciliation(key, applied)
        else Script([SavePatch(key, verified), SavePatch(key, verified.(state := Accepted)), SaveOperation(done)], Patched(done, manifest));
      GoalStep(store.Now(), store.remaining, SavePatch(key, applied), rest);
      var alive := store.SavePatch(key, applied);
      if !alive {
        return Crashed;
      }
      if !store.repository.StatusIs(PathSet(patch.operations)) {
        outcome := SavePatchForOperator(key, applied);
        return;
      }
      OneThenTwo(SavePatch(key, verified), SavePatch(key, verified.(state := Accepted)), SaveOperation(done), Patched(done, manifest));
      GoalStep(store.Now(), store.remaining, SavePatch(key, verified),
               Script([SavePatch(key, verified.(state := Accepted)), SaveOperation(done)], Patched(done, manifest)));
      alive := store.SavePatch(key, verified);
      if !alive {
        return Crashed;
      }
      outcome := AcceptPatch(key, op, verified.(state := Accepted), manifest);
    }

    /** The direct path of `apply_and_accept`. */
    method ApplyDirectly(key: Key, op: Operation, task: TaskPolicy, policy: string, patch: PatchEffect) returns (outcome: Outcome)
      modifies store
      ensures store.Did(old(store.Now()), old(store.remaining),
                        DirectScript(cfg.limits(policy), task, key, op, patch, old(store.repository)), outcome)
    {
      hide GoalOf, AppliedScript, FinishScript;
      var staging := patch.(state := Staging);
      DirectlyApplied(cfg.limits(policy), task, key, op, patch, store.repository);
      GoalStep(store.Now(), store.remaining, SavePatch(key, staging),
               AppliedScript(cfg.limits(policy), task, key, op, staging, store.repository));
      var alive := store.SavePatch(key, staging);
      if !alive {
        return Crashed;
      }
      var applier := new ControlledPatchApplier(cfg.limits(policy), store);
      var failure;
      alive, failure := applier.ApplyStaged(key, task, op);
      if !alive {
        return Crashed;
      }
      var current := store.patches[key];
      if failure.Some? {
        var uncertain := current.(state := PatchUncertain);
        GoalOne(store.Now(), store.remaining, SavePatch(key, uncertain), Raised(failure.value));
        alive := store.SavePatch(key, uncertain);
        return if alive then Raised(failure.value) else Crashed;
      }
      outcome := FinishPatch(key, op, current);
    }

    /** `apply_and_accept` once its intent is stored. */
    method ResumePatch(key: Key, op: Operation, task: TaskPolicy, policy: string, patch: PatchEffect, result: Result) returns (outcome: Outcome)
      modifies store
      ensures store.Did(old(store.Now()), old(store.remaining),
                        ResumeScript(cfg.limits(policy), task, key, op, patch, result, old(store.repository)), outcome)
    {
      hide GoalOf, DirectScript, RecoverScript, Repository.Clean;
      GoalRaise(store.Now(), store.remaining);
      if patch.state != PatchPrepared {
        outcome := ReconcilePatch(key, op, patch, result);
        return;
      }
      if !store.repository.Clean() {
        return Raised(PolicyError);
      }
      outcome := ApplyDirectly(key, op, task, policy, patch);
    }

    method ApplyAndAccept(key: Key, task: TaskPolicy, policy: string) returns (outcome: Outcome)
      modifies store
      ensures store.Did(old(store.Now()), old(store.remaining),
                        ApplyScript(cfg.limits(policy), task, policy in cfg.changePolicies, old(store.Now()), key), outcome)
    {
      hide GoalOf, ResumeScript, IntentMatches, ReceiptMatches, IntentFor, Repository.Clean;
      GoalRaise(store.Now(), store.remaining);
      if key !in store.operations {
        return Raised(NotFound);
      }
      var op := store.operations[key];
      if op.state != ResultAvailable {
        return Raised(StateError);
      }
      if key !in store.results || key !in store.receipts {
        return Raised(NotFound);
      }
      var result := store.results[key];
      if op.resultReference != Some(key.operation) || !ReceiptMatches(op, store.receipts[key], result) {
        outcome := SaveForOperator(op);
        return;
      }
      if exists k :: k in store.patches && k.project == key.project && k != key
                  && store.patches[k].result == result && store.patches[k].state == Accepted
      {
        return Raised(PolicyError);
      }
      if policy !in cfg.changePolicies || store.repository.branch != op.identity.branch {
        return Raised(PolicyError);
      }
      if key in store.patches {
        var patch := store.patches[key];
        if !IntentMatches(patch, op, result, store.repository) {
          outcome := SavePatchForOperator(key, patch);
          return;
        }
        outcome := ResumePatch(key, op, task, policy, patch, result);
        return;
      }
      if !store.repository.Clean() {
        return Raised(PolicyError);
      }
      var intent := IntentFor(op, result, store.repository);
      GoalStep(store.Now(), store.remaining, SavePatch(key, intent),
               ResumeScript(cfg.limits(policy), task, key, op, intent, result, store.repository));
      var alive := store.SavePatch(key, intent);
      if !alive {
        return Crashed;
      }
      outcome := ResumePatch(key, op, task, policy, intent, result);
    }
  }

  /** One reported event of `poll`. */
  lemma PollGoal(w: World, fuel: nat, cfg: Config, key: Key, op: Operation, events: seq<ProgressEvent>, i: nat, status: Option<Status>)
    requires i < |events|
    ensures var log := LogAt(w, key);
      var event := Sanitize(cfg, events[i], op.maximumOutput);
      GoalOf(w, fuel, PollEvents(cfg, key, op, log, events[i..], status)) ==
      if events[i].operation != key.operation || cfg.eventSize(event) > op.maximumOutput then GoalOf(w, fuel, Reconciliation(op))
      else if Appended(log, event).None? then Goal(w, Raised(StateError), fuel)
      else if Appended(log, event).value == log then GoalOf(w, fuel, PollEvents(cfg, key, op, log, events[i + 1..], status))
      else if fuel == 0 then Goal(w, Crashed, 0)
      else
        var longer := Appended(log, event).value;
        GoalOf(After(w, SaveProgress(key, longer)), fuel - 1, PollEvents(cfg, key, op, longer, events[i + 1..], status))
    ensures forall longer :: LogAt(After(w, SaveProgress(key, longer)), key) == longer
  {
    LogIsSaved(w, key);
    hide GoalOf, After, Appended, Sanitize, LogAt;
    GoalRaise(w, fuel);
    var log := LogAt(w, key);
    var event := Sanitize(cfg, events[i], op.maximumOutput);
    assert events[i..][0] == events[i] && events[i..][1..] == events[i + 1..];
    if Appended(log, event).Some? {
      var longer := Appended(log, event).value;
      GoalStep(w, fuel, SaveProgress(key, longer), PollEvents(cfg, key, op, longer, events[i + 1..], status));
    }
  }

  lemma LogIsSaved(w: World, key: Key)
    ensures forall longer :: LogAt(After(w, SaveProgress(key, longer)), key) == longer
  {
  }

  lemma PolledGoal(w: World, fuel: nat, cfg: Config, key: Key, op: Operation, status: Option<Status>)
    ensures GoalOf(w, fuel, PollEvents(cfg, key, op, LogAt(w, key), [], status)) ==
      if status.None? then Goal(w, Raised(ProviderFailure), fuel)
      else
        var updated := op.(state := StateAfterPoll(status.value), cursor := |LogAt(w, key)|);
        GoalOf(w, fuel, Script([SaveOperation(updated)], Operated(updated)))
  {
    hide GoalOf, LogAt, StateAfterPoll;
    GoalRaise(w, fuel);
  }

  function AfterCancel(key: Key, requested: Operation, inProgress: Cancellation, cancelRaises: bool, status: Option<Status>): Script {
    if cancelRaises then Script([SaveCancellation(key, inProgress.(state := CancellationUncertain))], Raised(ProviderFailure))
    else CancellationScript(key, requested, inProgress, status)
  }

  /** The part of `CancelScript` from the announcement of the call on. */
  function CancelCallScript(key: Key, requested: Operation, inProgress: Cancellation, cancelRaises: bool, status: Option<Status>): Script {
    Emit([SaveCancellation(key, inProgress), CallCancel(key)], AfterCancel(key, requested, inProgress, cancelRaises, status))
  }

  lemma TwoEffects(a: Effect, b: Effect, outcome: Outcome)
    ensures Script([a, b], outcome) == Emit([a], Script([b], outcome))
  {
    assert [a] + [b] == [a, b];
  }

  lemma ThreeEffects(a: Effect, b: Effect, c: Effect, outcome: Outcome)
    ensures Script([a, b, c], outcome) == Emit([a, b], Script([c], outcome))
  {
    assert [a, b] + [c] == [a, b, c];
  }

  lemma OneThenTwo(a: Effect, b: Effect, c: Effect, outcome: Outcome)
    ensures Script([a, b, c], outcome) == Emit([a], Script([b, c], outcome))
  {
    assert [a] + [b, c] == [a, b, c];
  }

  lemma FourEffects(a: Effect, b: Effect, c: Effect, d: Effect, rest: Script)
    ensures Emit([a, b, c, d], rest) == Emit([a, b], Emit([c, d], rest))
  {
    assert [a, b, c, d] == [a, b] + [c, d];
    EmitTwice([a, b], [c, d], rest);
  }

  lemma DirectlyApplied(limits: Limits, task: TaskPolicy, key: Key, op: Operation, patch: PatchEffect, repository: Repository)
    ensures DirectScript(limits, task, key, op, patch, repository) ==
            Emit([SavePatch(key, patch.(state := Staging))],
                 AppliedScript(limits, task, key, op, patch.(state := Staging), repository))
  {
  }

  /** The part of `SubmitScript` behind the call. */
  function AfterSubmission(w: World, key: Key, inProgress: Operation, request: Identity, reply: SubmitReply, lookup: LookupReply): Script {
    match reply
    case SubmitRaises =>
      Script([SaveOperation(inProgress.(state := Uncertain))], Raised(ProviderFailure))
    case SubmitAnswers(answer) =>
      if Live(inProgress.provider) then
        Emit([SaveResult(KeyOf(request), ResultOf(request, answer)),
              SaveReceipt(ReceiptOf(request, inProgress.provider, answer))],
             VerifyLiveScript(Stored(w, request, inProgress.provider, answer), key, inProgress, answer.taskId))
      else if lookup.matches.None? then Raise(ProviderFailure)
      else if lookup.matches.value != [answer.taskId] then Reconciliation(inProgress)
      else LookupScript(inProgress, lookup, answer.taskId)
  }

  lemma GoalTwoSteps(w: World, fuel: nat, a: Effect, b: Effect, rest: Script)
    ensures GoalOf(w, fuel, Emit([a, b], rest)) ==
      if fuel == 0 then Goal(w, Crashed, 0)
      else if fuel == 1 then Goal(After(w, a), Crashed, 0)
      else GoalOf(After(After(w, a), b), fuel - 2, rest)
  {
    hide GoalOf, After;
    GoalStep(w, fuel, a, Emit([b], rest));
    EmitTwice([a], [b], rest);
    assert [a] + [b] == [a, b];
    if fuel > 0 {
      GoalStep(After(w, a), fuel - 1, b, rest);
    }
  }

  lemma ReceiptIdentity(request: Identity, provider: string, answer: Answer)
    ensures ReceiptOf(request, provider, answer).identity == request
  {
  }

  lemma VerifyLiveReads(w: World, w': World, key: Key, op: Operation, taskId: string)
    requires w.receipts == w'.receipts && w.results == w'.results
    ensures VerifyLiveScript(w, key, op, taskId) == VerifyLiveScript(w', key, op, taskId)
  {
  }

  /** A call that the process survives answers, and leaves, what the tables of answers say. */
  lemma CallIsAnswered(store: DurableState, before: World, cfg: Config, c: Command, fuel: nat, outcome: Outcome)
    requires store.Did(before, fuel, ScriptOf(cfg, before, c), outcome) && outcome != Crashed
    ensures outcome == ProviderAnswers.Reply(cfg, before, c) && store.Now() == ProviderAnswers.Finally(cfg, before, c)
  {
    hide ScriptOf, DurableState.Now, Replay;
    var effects := ScriptOf(cfg, before, c).effects;
    assert effects[..|effects|] == effects;
  }

  /** What a method's contract says is one step of a run, so the invariant survives every call. */
  lemma CallIsStep(store: DurableState, before: World, cfg: Config, c: Command, fuel: nat, outcome: Outcome)
    requires store.Did(before, fuel, ScriptOf(cfg, before, c), outcome)
    ensures store.Now() == ProtocolRuns.Step(before, ProtocolRuns.Invoke(cfg, c, fuel))
    ensures ProtocolSafety.Inv(before) ==> ProtocolSafety.Inv(store.Now()) && ProtocolSafety.Extends(before, store.Now())
  {
    hide ProtocolSafety.Inv, ProtocolSafety.Extends, ScriptOf, DurableState.Now, Reached;
    if ProtocolSafety.Inv(before) {
      ProtocolRuns.StepKeepsInv(before, ProtocolRuns.Invoke(cfg, c, fuel));
    }
  }

  /** So a store that was empty at first and went through one call after the other is where a run leads,
      and everything proved about runs holds of it. */
  lemma CallsAreRuns(store: DurableState, repository: ProviderModel.Repository, events: seq<ProtocolRuns.Event>,
                     cfg: Config, c: Command, fuel: nat, outcome: Outcome)
    requires var before := ProtocolRuns.Run(ProtocolRuns.Initially(repository), events);
      store.Did(before, fuel, ScriptOf(cfg, before, c), outcome)
    ensures store.Now() == ProtocolRuns.Run(ProtocolRuns.Initially(repository), events + [ProtocolRuns.Invoke(cfg, c, fuel)])
  {
    hide ScriptOf, DurableState.Did, DurableState.Now, ProtocolRuns.Step;
    var e := ProtocolRuns.Invoke(cfg, c, fuel);
    CallIsStep(store, ProtocolRuns.Run(ProtocolRuns.Initially(repository), events), cfg, c, fuel, outcome);
    assert (events + [e])[..|events|] == events;
  }
}
