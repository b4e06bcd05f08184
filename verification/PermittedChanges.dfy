/** What validation lets through, spelt out, and that nothing else is ever written to the workspace. */
module PermittedChanges {
  import opened Wrappers
  import opened Paths
  import opened ProviderModel
  import opened Patching
  import opened PatchScripts
  import opened PatchTracking
  import opened ProtocolScripts
  import opened ApplyAnswers
  import Utf8

  // Operations.

  predicate AtOrBelowGit(path: string) {
    path == ".git" || (|path| >= 5 && path[..5] == ".git/")
  }

  /** The operation may be carried out: its path is inside the workspace, outside Git's directory, below some
      allowed prefix if there are any and below no forbidden one, allowed by the change policy, and not below a
      file; a written file has a text without NUL of limited size, and files are deleted only if the applier
      deletes files at all. */
  predicate Permitted(limits: Limits, files: map<Path, string>, task: TaskPolicy, op: FileOperation) {
    var path := Normalize(op.path);
    && StaysInside(op.path) && !AtOrBelowGit(path)
    && (task.allowed == [] || exists i :: 0 <= i < |task.allowed| && Under(path, task.allowed[i]))
    && (forall i :: 0 <= i < |task.forbidden| ==> !Under(path, task.forbidden[i]))
    && limits.changeAllowed(path)
    && (forall i :: 0 < i < |Components(path)| ==> Components(path)[..i] !in files)
    && match op.kind
       case Delete => limits.allowDeletions
       case _ => op.content.Some? && '\0' !in op.content.value && |Utf8.Encode(op.content.value)| <= limits.maximumFileBytes
  }

  lemma GitPaths(path: string)
    ensures path == ".git" || ".git/" <= path <==> AtOrBelowGit(path)
  {
  }

  lemma PermittedIff(limits: Limits, files: map<Path, string>, task: TaskPolicy, op: FileOperation)
    ensures AcceptableOne(limits, files, task, op) <==> Permitted(limits, files, task, op)
  {
    hide SafeRelative, StaysInside, Rooted, Normalize, Components, MatchesPrefix, Under, AtOrBelowGit, Utf8.Length, Utf8.Encode;
    var path := Normalize(op.path);
    SafeIffInside(op.path);
    GitPaths(path);
    forall prefix: string ensures MatchesPrefix(path, prefix) <==> Under(path, prefix) {
      MatchesIffUnder(path, prefix);
    }
    if op.content.Some? {
      LengthIsEncoded(op.content.value);
    }
  }

  lemma LengthIsEncoded(s: string)
    ensures Utf8.Length(s) == |Utf8.Encode(s)|
  {
  }

  /** The bytes a list would write, operation by operation. */
  lemma TotalSizeIs(ops: seq<FileOperation>, op: FileOperation)
    ensures TotalSize([]) == 0
    ensures TotalSize(ops + [op]) == TotalSize(ops) + if op.kind != Delete && op.content.Some? then |Utf8.Encode(op.content.value)| else 0
  {
    assert (ops + [op])[..|ops|] == ops;
  }

  /** The lists validation lets through: every operation permitted, no two with the same normalised path text,
      and no more bytes written than the patch limit. */
  ghost predicate AllPermitted(limits: Limits, files: map<Path, string>, task: TaskPolicy, ops: seq<FileOperation>) {
    && (forall i :: 0 <= i < |ops| ==> Permitted(limits, files, task, ops[i]))
    && (forall i, j :: 0 <= i < |ops| && 0 <= j < |ops| && i != j ==> Normalize(ops[i].path) != Normalize(ops[j].path))
    && TotalSize(ops) <= limits.maximumPatchBytes
  }

  lemma ValidatedIff(limits: Limits, files: map<Path, string>, task: TaskPolicy, ops: seq<FileOperation>)
    ensures Acceptable(limits, files, task, ops) <==> AllPermitted(limits, files, task, ops)
  {
    hide AcceptableOne, Permitted, Normalize;
    forall i | 0 <= i < |ops| ensures AcceptableOne(limits, files, task, ops[i]) <==> Permitted(limits, files, task, ops[i]) {
      PermittedIff(limits, files, task, ops[i]);
    }
  }

  // Effects.

  predicate ChangesFiles(e: Effect) {
    e.WriteStage? || e.ReplaceFile? || e.RemoveFile?
  }

  /** The effect carries out one of the operations, at the place its path denotes. */
  ghost predicate CarriesOut(e: Effect, key: Key, ops: seq<FileOperation>) {
    match e
    case WriteStage(stage, content) =>
      stage.key == key && stage.index < |ops| && ops[stage.index].kind != Delete && ops[stage.index].content == Some(content)
    case ReplaceFile(stage, path, content) =>
      && stage.key == key && stage.index < |ops| && ops[stage.index].kind != Delete && ops[stage.index].content == Some(content)
      && path == Components(Normalize(ops[stage.index].path))
    case RemoveFile(path) => exists i: nat :: Deletes(ops, i, path)
    case _ => true
  }

  predicate Deletes(ops: seq<FileOperation>, i: nat, path: Path) {
    i < |ops| && ops[i].kind == Delete && path == Components(Normalize(ops[i].path))
  }

  lemma {:induction false} StagesCarryOut(key: Key, ops: seq<FileOperation>, n: nat)
    requires n <= |ops|
    ensures forall i :: 0 <= i < |StageEffects(key, ops[..n])| ==> CarriesOut(StageEffects(key, ops[..n])[i], key, ops)
  {
    if n > 0 {
      StagesCarryOut(key, ops, n - 1);
      assert ops[..n][..n - 1] == ops[..n - 1];
    }
  }

  lemma {:induction false} LoopCarriesOut(key: Key, op: Operation, patch: PatchEffect, repository: ProviderModel.Repository, k: nat)
    requires k <= |patch.operations|
    ensures forall i :: 0 <= i < |ReplaceScript(key, op, patch, repository, k).effects| ==>
      CarriesOut(ReplaceScript(key, op, patch, repository, k).effects[i], key, patch.operations)
    decreases |patch.operations| - k
  {
    hide Normalize, Components, Repository.StatusIs, ManifestOf, IsDirectory, ParentIsFile;
    if k < |patch.operations| {
      var item := patch.operations[k];
      if ApplyOne(repository.files, item).Some? {
        var change, next := FileEffect(key, k, item), Checkpoint(patch, item.path);
        assert CarriesOut(change, key, patch.operations) by {
          if item.kind == Delete {
            assert Deletes(patch.operations, k, Destination(item));
          }
        }
        LoopCarriesOut(key, op, next, AfterRepository(repository, change), k + 1);
      }
    }
  }

  lemma DirectCarriesOut(limits: Limits, task: TaskPolicy, key: Key, op: Operation, patch: PatchEffect, repository: ProviderModel.Repository)
    ensures forall i :: 0 <= i < |DirectScript(limits, task, key, op, patch, repository).effects| ==>
      CarriesOut(DirectScript(limits, task, key, op, patch, repository).effects[i], key, patch.operations)
    ensures !Acceptable(limits, repository.files, task, patch.operations) ==>
      forall i :: 0 <= i < |DirectScript(limits, task, key, op, patch, repository).effects| ==>
        !ChangesFiles(DirectScript(limits, task, key, op, patch, repository).effects[i])
  {
    hide Acceptable, ReplaceScript, StagedRepository, StageEffects, Normalize, Components;
    var staging := patch.(state := Staging);
    var ops := patch.operations;
    assert ops[..|ops|] == ops;
    StagesCarryOut(key, ops, |ops|);
    LoopCarriesOut(key, op, staging, StagedRepository(key, ops, repository), 0);
  }

  /** Nothing is ever written to the workspace but what validation let through: whatever a call stages,
      replaces or removes is one of the operations of the operation's own certified result, at the place inside
      the workspace that its path denotes, and the whole list is permitted for the files the call found. */
  lemma EveryChangeIsPermitted(cfg: Config, w: World, c: Command, i: nat)
    requires i < |ScriptOf(cfg, w, c).effects| && ChangesFiles(ScriptOf(cfg, w, c).effects[i])
    ensures MayApply(cfg, w, c) && w.repository.Clean()
    ensures AllPermitted(cfg.limits(c.policy), w.repository.files, c.task, w.results[c.key].operations)
    ensures CarriesOut(ScriptOf(cfg, w, c).effects[i], c.key, w.results[c.key].operations)
  {
    hide Acceptable, AllPermitted, CarriesOut, DirectScript, RecoverScript, Repository.Clean, MayApply;
    if c.ApplyAndAccept? {
      ApplyCarriesOut(cfg, w, c, i);
      ValidatedIff(cfg.limits(c.policy), w.repository.files, c.task, w.results[c.key].operations);
    } else {
      OthersStayOut(cfg, w, c);
    }
  }

  lemma ApplyCarriesOut(cfg: Config, w: World, c: Command, i: nat)
    requires c.ApplyAndAccept? && i < |ScriptOf(cfg, w, c).effects| && ChangesFiles(ScriptOf(cfg, w, c).effects[i])
    ensures MayApply(cfg, w, c) && w.repository.Clean()
    ensures Acceptable(cfg.limits(c.policy), w.repository.files, c.task, w.results[c.key].operations)
    ensures CarriesOut(ScriptOf(cfg, w, c).effects[i], c.key, w.results[c.key].operations)
  {
    hide Acceptable, CarriesOut, DirectScript, Repository.Clean, Repository.StatusIs, Expected, Matching, ManifestOf;
    var op, result := w.operations[c.key], w.results[c.key];
    var patch := if c.key in w.patches then w.patches[c.key] else IntentFor(op, result, w.repository);
    DirectCarriesOut(cfg.limits(c.policy), c.task, c.key, op, patch, w.repository);
  }

  /** Where a permitted operation takes effect: inside the workspace. */
  lemma PlacesAreInside(limits: Limits, files: map<Path, string>, task: TaskPolicy, op: FileOperation)
    requires Permitted(limits, files, task, op)
    ensures var p := Components(Normalize(op.path)); p == [] || WellFormed(p)
  {
    hide Components, Normalize;
    SafeIffInside(op.path);
    if Components(Normalize(op.path)) != [] {
      SafeComponents(op.path);
    }
  }
}
