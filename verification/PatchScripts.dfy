/** `apply_and_accept`: the durable effects of applying a stored result, and of deciding after a
    crash what an interrupted application did. */
module PatchScripts {
  import opened Wrappers
  import opened Paths
  import opened ProviderModel
  import opened Patching

  predicate ReceiptMatches(op: Operation, receipt: Receipt, result: Result) {
    && receipt.provider == op.provider
    && receipt.identity == op.identity
    && receipt.taskId == result.taskId
    && receipt.digest == result
  }

  /** Save the operation for an operator and raise. */
  function Reconciliation(op: Operation): Script {
    Script([SaveOperation(op.(state := NeedsReconciliation))], Raised(ReconciliationError))
  }

  function PatchReconciliation(key: Key, patch: PatchEffect): Script {
    Script([SavePatch(key, patch.(state := PatchNeedsReconciliation))], Raised(ReconciliationError))
  }

  function IntentFor(op: Operation, result: Result, repository: Repository): PatchEffect {
    PatchEffect(op.identity.operation, op.identity.plan, op.identity.version, op.identity.workspace,
                op.identity.branch, op.identity.request, op.identity.context, result, result.operations,
                PathList(result.operations), repository.commit, true, PatchPrepared, [], None)
  }

  /** The stored intent still announces this result on this commit. */
  predicate IntentMatches(patch: PatchEffect, op: Operation, result: Result, repository: Repository) {
    && patch.operation == op.identity.operation
    && patch.plan == op.identity.plan
    && patch.version == op.identity.version
    && patch.workspace == op.identity.workspace
    && patch.branch == op.identity.branch
    && patch.request == op.identity.request
    && patch.context == op.identity.context
    && patch.result == result
    && patch.operations == result.operations
    && patch.expected == PathList(result.operations)
    && patch.preCommit == repository.commit
    && patch.preClean
  }

  predicate AcceptedElsewhere(w: World, key: Key, result: Result) {
    exists k :: k in w.patches && k.project == key.project && k != key
             && w.patches[k].result == result && w.patches[k].state == Accepted
  }

  function ManifestOf(op: Operation, repository: Repository): Manifest {
    var changed := repository.Changed();
    Manifest(op.identity.operation, changed,
             map p | p in changed && FileAt(repository.files, p).Some? :: FileAt(repository.files, p).value,
             repository.Diff())
  }

  function StageEffects(key: Key, ops: seq<FileOperation>): seq<Effect> {
    if ops == [] then []
    else
      var last := ops[|ops| - 1];
      StageEffects(key, ops[..|ops| - 1]) +
      if Writes(last) && last.content.Some? then [WriteStage(Stage(key, |ops| - 1), last.content.value)] else []
  }

  /** The atomic change of one operation; meaningful when `ApplyOne` succeeds. */
  function FileEffect(key: Key, index: nat, op: FileOperation): Effect {
    if Writes(op) && op.content.Some? then ReplaceFile(Stage(key, index), Destination(op), op.content.value)
    else RemoveFile(Destination(op))
  }

  function Checkpoint(patch: PatchEffect, path: string): PatchEffect {
    patch.(state := Applying, completed := patch.completed + [path])
  }

  /** The direct path after the last replacement. */
  function FinishScript(key: Key, op: Operation, patch: PatchEffect, repository: Repository): Script {
    var ops := patch.operations;
    var applied := patch.(state := Applied);
    Emit([SavePatch(key, applied)],
      if !repository.StatusIs(PathSet(ops)) then PatchReconciliation(key, applied)
      else
        var manifest := ManifestOf(op, repository);
        var verified := applied.(state := Verified, manifest := Some(manifest));
        var done := op.(state := ResultAccepted);
        Script([SavePatch(key, verified), SavePatch(key, verified.(state := Accepted)), SaveOperation(done)],
               Patched(done, manifest)))
  }

  /** The replacement loop from operation `i` on: each change is followed by its checkpoint. */
  function ReplaceScript(key: Key, op: Operation, patch: PatchEffect, repository: Repository, i: nat): Script
    requires i <= |patch.operations|
    decreases |patch.operations| - i
  {
    if i == |patch.operations| then FinishScript(key, op, patch, repository)
    else
      var item := patch.operations[i];
      if ApplyOne(repository.files, item).None? then
        Script([SavePatch(key, patch.(state := PatchUncertain))], Raised(FileFailure))
      else
        var change := FileEffect(key, i, item);
        var next := Checkpoint(patch, item.path);
        Emit([change, SavePatch(key, next)],
             ReplaceScript(key, op, next, AfterRepository(repository, change), i + 1))
  }

  function StagedRepository(key: Key, ops: seq<FileOperation>, repository: Repository): Repository {
    if ops == [] then repository
    else
      var last := ops[|ops| - 1];
      var before := StagedRepository(key, ops[..|ops| - 1], repository);
      if Writes(last) && last.content.Some? then
        AfterRepository(before, WriteStage(Stage(key, |ops| - 1), last.content.value))
      else before
  }

  /** The direct path from the stored intent on. */
  function DirectScript(limits: Limits, task: TaskPolicy, key: Key, op: Operation, patch: PatchEffect, repository: Repository): Script {
    var staging := patch.(state := Staging);
    Emit([SavePatch(key, staging)],
      if !Acceptable(limits, repository.files, task, patch.operations) then
        Script([SavePatch(key, staging.(state := PatchUncertain))], Raised(PolicyError))
      else
        Emit(StageEffects(key, patch.operations),
             ReplaceScript(key, op, staging, StagedRepository(key, patch.operations, repository), 0)))
  }

  /** The content each path must have; a later operation on the same path text wins. */
  function Expected(ops: seq<FileOperation>): map<string, string> {
    if ops == [] then map[]
    else
      var last := ops[|ops| - 1];
      var before := Expected(ops[..|ops| - 1]);
      if last.content.Some? then before[last.path := last.content.value] else before
  }

  function Matching(files: map<Path, string>, expected: map<string, string>): set<string> {
    set p | p in expected && FileAt(files, p) == Some(expected[p])
  }

  /** `_reconcile_patch`: what an interrupted application is found to have done. */
  function RecoverScript(key: Key, op: Operation, patch: PatchEffect, result: Result, repository: Repository): Script {
    var expected := Expected(result.operations);
    var matching := Matching(repository.files, expected);
    if matching == {} then
      if patch.completed != [] then PatchReconciliation(key, patch)
      else Script([SavePatch(key, patch.(state := PatchPrepared, completed := []))], Raised(ReconciliationError))
    else if matching != expected.Keys then PatchReconciliation(key, patch)
    else if !repository.StatusIs(set i | 0 <= i < |patch.expected| :: patch.expected[i]) then PatchReconciliation(key, patch)
    else
      var manifest := ManifestOf(op, repository);
      if patch.manifest.Some? && patch.manifest.value != manifest then PatchReconciliation(key, patch)
      else
        var done := op.(state := ResultAccepted);
        Script([SavePatch(key, patch.(state := Accepted, manifest := Some(manifest), completed := patch.expected)),
                SaveOperation(done)],
               Patched(done, manifest))
  }

  function ResumeScript(limits: Limits, task: TaskPolicy, key: Key, op: Operation, patch: PatchEffect, result: Result, repository: Repository): Script {
    if patch.state != PatchPrepared then RecoverScript(key, op, patch, result, repository)
    else if !repository.Clean() then Raise(PolicyError)
    else DirectScript(limits, task, key, op, patch, repository)
  }

  /** `apply_and_accept`. */
  function ApplyScript(limits: Limits, task: TaskPolicy, policyKnown: bool, w: World, key: Key): (script: Script)
    ensures script.outcome.Patched? ==> key in w.operations && key in w.results
  {
    if key !in w.operations then Raise(NotFound)
    else
      var op := w.operations[key];
      if op.state != ResultAvailable then Raise(StateError)
      else if key !in w.results || key !in w.receipts then Raise(NotFound)
      else
        var result := w.results[key];
        if op.resultReference != Some(key.operation) then Reconciliation(op)
        else if !ReceiptMatches(op, w.receipts[key], result) then Reconciliation(op)
        else if AcceptedElsewhere(w, key, result) then Raise(PolicyError)
        else if !policyKnown then Raise(PolicyError)
        else if w.repository.branch != op.identity.branch then Raise(PolicyError)
        else if key in w.patches then
          if !IntentMatches(w.patches[key], op, result, w.repository) then PatchReconciliation(key, w.patches[key])
          else ResumeScript(limits, task, key, op, w.patches[key], result, w.repository)
        else if !w.repository.Clean() then Raise(PolicyError)
        else
          var intent := IntentFor(op, result, w.repository);
          Emit([SavePatch(key, intent)], ResumeScript(limits, task, key, op, intent, result, w.repository))
  }
}
