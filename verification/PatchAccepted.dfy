/** The world an accepted application leaves behind, on the direct and on the recovery path. */
module PatchAccepted {
  import opened Wrappers
  import opened Paths
  import opened ProviderModel
  import opened Patching
  import opened PatchScripts
  import opened PatchExact
  import opened PatchCrash

  /** The accepted result is durable, and so is the patch whose paths the workspace shows; nothing else
      but the operation's state differs. */
  ghost predicate AcceptedWorld(before: World, after: World, key: Key, op: Operation, result: Result, manifest: Manifest) {
    && key in after.patches && after.patches[key].state == Accepted
    && after == before.(operations := before.operations[KeyOf(op.identity) := op.(state := ResultAccepted)],
                        patches := before.patches[key := after.patches[key]], repository := after.repository)
    && after.patches[key].manifest == Some(manifest)
    && after.patches[key].result == result
    && after.repository == before.repository.(files := after.repository.files, stages := map[])
    && after.repository.Changed() == PathSet(result.operations)
    && manifest == ManifestOf(op, after.repository)
  }

  function Completed(w: World, key: Key, op: Operation, staging: PatchEffect): World
    requires ApplyAll(w.repository.files, staging.operations).Some?
  {
    var n := |staging.operations|;
    assert staging.operations[..n] == staging.operations;
    var r := Midway(key, staging.operations, w.repository, n);
    w.(repository := r,
       patches := w.patches[key := PatchAt(staging, n).(state := Accepted, manifest := Some(ManifestOf(op, r)))],
       operations := w.operations[KeyOf(op.identity) := op.(state := ResultAccepted)])
  }

  lemma FinishCompletes(w: World, key: Key, op: Operation, staging: PatchEffect)
    requires ApplyAll(w.repository.files, staging.operations).Some?
    requires Finished(key, op, staging, w.repository).outcome.Patched?
    requires staging.operations[..|staging.operations|] == staging.operations
    ensures Replay(StartAt(w, key, staging, |staging.operations|), Finished(key, op, staging, w.repository).effects) ==
            Completed(w, key, op, staging)
  {
    hide ApplyAll, Midway, PatchAt, Finished, ManifestOf, StartAt;
    var n := |staging.operations|;
    var finish := Finished(key, op, staging, w.repository);
    var start := StartAt(w, key, staging, n);
    var saves := FinishSaves(key, staging, finish.outcome.manifest);
    FinishIs(key, op, staging, w.repository);
    FinishManifest(key, op, staging, w.repository);
    LoopEnds(w, key, op, staging);
    assert saves[..3] == saves;
    SavedTwice(start, key, saves, 3);
    ReplayConcat(start, saves, [SaveOperation(finish.outcome.accepted)]);
    ReplayOne(Replay(start, saves), SaveOperation(finish.outcome.accepted));
    assert start.patches[key := saves[2].patch] == w.patches[key := saves[2].patch];
  }

  lemma FinishManifest(key: Key, op: Operation, staging: PatchEffect, r: Repository)
    requires ApplyAll(r.files, staging.operations).Some?
    requires staging.operations[..|staging.operations|] == staging.operations
    requires Finished(key, op, staging, r).outcome.Patched?
    ensures Finished(key, op, staging, r).outcome.manifest == ManifestOf(op, Midway(key, staging.operations, r, |staging.operations|))
  {
    hide ApplyAll, Midway, PatchAt, ManifestOf;
  }

  lemma {:induction false} LoopCompletes(w: World, key: Key, op: Operation, staging: PatchEffect, k: nat)
    requires k <= |staging.operations| && ContentGiven(staging.operations)
    requires ApplyAll(w.repository.files, staging.operations).Some?
    requires ApplyAll(w.repository.files, staging.operations[..k]).Some?
    requires Finished(key, op, staging, w.repository).outcome.Patched?
    ensures Replay(StartAt(w, key, staging, k), ReplaceScript(key, op, PatchAt(staging, k), Midway(key, staging.operations, w.repository, k), k).effects)
            == Completed(w, key, op, staging)
    decreases |staging.operations| - k
  {
    hide FileEffect, PatchAt, FinishScript, Completed;
    var ops := staging.operations;
    if k == |ops| {
      assert ops[..k] == ops;
      FinishCompletes(w, key, op, staging);
    } else {
      ApplyAllPrefix(w.repository.files, ops, k + 1);
      OneRound(w, key, op, staging, k);
      var change := FileEffect(key, k, ops[k]);
      var save := SavePatch(key, PatchAt(staging, k + 1));
      var rest := ReplaceScript(key, op, PatchAt(staging, k + 1), Midway(key, ops, w.repository, k + 1), k + 1).effects;
      assert ([change, save] + rest)[..2 + |rest|] == [change, save] + rest;
      assert rest[..|rest|] == rest;
      TwoThenRest(StartAt(w, key, staging, k), change, save, rest, 2 + |rest|);
      LoopCompletes(w, key, op, staging, k + 1);
    }
  }

  lemma DirectCompletes(limits: Limits, task: TaskPolicy, w: World, key: Key, op: Operation, patch: PatchEffect)
    requires w.repository.Clean() && DirectScript(limits, task, key, op, patch, w.repository).outcome.Patched?
    ensures ApplyAll(w.repository.files, patch.operations).Some?
    ensures Replay(w, DirectScript(limits, task, key, op, patch, w.repository).effects) ==
            Completed(w, key, op, patch.(state := Staging))
  {
    hide FinishScript, Completed, DirectScript, ReplaceScript, StageEffects, Midway, IsChange;
    var ops := patch.operations;
    var staging := patch.(state := Staging);
    DirectShape(limits, task, key, op, patch, w.repository);
    var stages := StageEffects(key, ops);
    var replace := ReplaceScript(key, op, staging, Midway(key, ops, w.repository, 0), 0).effects;
    var saved := After(w, SavePatch(key, staging));
    ReplayConcat(w, [SavePatch(key, staging)], stages);
    ReplayConcat(w, [SavePatch(key, staging)] + stages, replace);
    ReplayOne(w, SavePatch(key, staging));
    StageEffectsStage(saved, key, ops);
    LoopCompletes(w, key, op, staging, 0);
  }

  lemma CompletedIsExact(limits: Limits, task: TaskPolicy, w: World, key: Key, op: Operation, patch: PatchEffect)
    requires w.repository.Ok() && w.repository.Clean()
    requires DirectScript(limits, task, key, op, patch, w.repository).outcome.Patched?
    requires ApplyAll(w.repository.files, patch.operations).Some?
    ensures var after := Completed(w, key, op, patch.(state := Staging));
      && ExactlyApplied(w.repository.base, after.repository.files, patch.operations)
      && after.repository.Changed() == PathSet(patch.operations)
      && after.repository == w.repository.(files := after.repository.files, stages := map[])
      && DirectScript(limits, task, key, op, patch, w.repository).outcome.manifest == ManifestOf(op, after.repository)
  {
    CleanMeansBase(w.repository);
    assert patch.operations[..|patch.operations|] == patch.operations;
    DirectShape(limits, task, key, op, patch, w.repository);
    ApplyAllIsExact(w.repository.base, patch.operations);
  }

  /** Accepted means exactly applied, directly: the workspace becomes the clean base overridden by
      exactly the result's operations and nothing else. */
  lemma DirectlyAcceptedIsExact(limits: Limits, task: TaskPolicy, w: World, key: Key)
    requires w.repository.Ok() && StartsOver(w, key) && ApplyScript(limits, task, true, w, key).outcome.Patched?
    requires key in w.operations && key in w.results
    ensures var script := ApplyScript(limits, task, true, w, key);
      var after := Replay(w, script.effects);
      && AcceptedWorld(w, after, key, w.operations[key], w.results[key], script.outcome.manifest)
      && ExactlyApplied(w.repository.base, after.repository.files, w.results[key].operations)
  {
    hide DirectScript, ApplyScript, Repository.Clean, WithIntent, Repository.Changed, ApplyAll, AcceptedWorld, IntentMatches,
      ExactlyApplied, Completed, Repository.Ok;
    StartsDirectly(limits, task, w, key);
    var script := ApplyScript(limits, task, true, w, key);
    var w1 := WithIntent(w, key);
    var patch := w1.patches[key];
    var direct := DirectScript(limits, task, key, w.operations[key], patch, w.repository);
    DirectCompletes(limits, task, w1, key, w.operations[key], patch);
    CompletedIsExact(limits, task, w1, key, w.operations[key], patch);
    StoredIntentReplays(w, key, direct.effects);
    IntentOperations(patch, w.operations[key], w.results[key], w.repository);
    CompletedIsAccepted(w, key, w.operations[key], w.results[key], patch.(state := Staging));
  }

  lemma CompletedIsAccepted(w: World, key: Key, op: Operation, result: Result, staging: PatchEffect)
    requires key in w.operations && key in w.results && ApplyAll(w.repository.files, staging.operations).Some?
    requires staging.result == result && staging.operations == result.operations
    requires var after := Completed(WithIntent(w, key), key, op, staging);
      after.repository == w.repository.(files := after.repository.files, stages := map[])
      && after.repository.Changed() == PathSet(staging.operations)
    ensures var after := Completed(WithIntent(w, key), key, op, staging);
      AcceptedWorld(w, after, key, op, result, ManifestOf(op, after.repository))
  {
    hide Midway, Repository.Changed, ManifestOf, ApplyAll, PathSet;
    var after := Completed(WithIntent(w, key), key, op, staging);
    assert after.patches == w.patches[key := after.patches[key]];
  }

  lemma StoredIntentReplays(w: World, key: Key, rest: seq<Effect>)
    requires key in w.operations && key in w.results
    ensures Replay(w, (if key in w.patches then [] else [SavePatch(key, WithIntent(w, key).patches[key])]) + rest) ==
            Replay(WithIntent(w, key), rest)
  {
    if key in w.patches {
      assert [] + rest == rest;
    } else {
      var save := SavePatch(key, WithIntent(w, key).patches[key]);
      ReplayConcat(w, [save], rest);
      ReplayOne(w, save);
    }
  }

  /** On the recovery path the files are not touched; they are the base overridden by exactly the
      operations if and only if every path the operations leave absent is absent. */
  lemma RecoveredAcceptance(limits: Limits, task: TaskPolicy, w: World, key: Key)
    requires w.repository.Ok() && ApplyScript(limits, task, true, w, key).outcome.Patched?
    requires key in w.operations && key in w.results
    requires key in w.patches && w.patches[key].state != PatchPrepared
    ensures var script := ApplyScript(limits, task, true, w, key);
      var after := Replay(w, script.effects);
      var ops := w.results[key].operations;
      && AcceptedWorld(w, after, key, w.operations[key], w.results[key], script.outcome.manifest)
      && after.repository == w.repository
      && (ExactlyApplied(w.repository.base, after.repository.files, ops) <==>
          forall p: Path :: LastFor(ops, p).Some? && Intended(LastFor(ops, p).value).None? ==> p !in w.repository.files)
  {
    hide RecoverScript, DirectScript, AcceptedWorld, AcceptedElsewhere, Repository.Clean;
    var op := w.operations[key];
    var script := ApplyScript(limits, task, true, w, key);
    assert script == RecoverScript(key, op, w.patches[key], w.results[key], w.repository);
    RecoverReplays(w, key, op, w.patches[key], w.results[key]);
    RecoveredIsExactIff(key, op, w.patches[key], w.results[key], w.repository);
  }

  lemma RecoverReplays(w: World, key: Key, op: Operation, patch: PatchEffect, result: Result)
    requires w.repository.Ok() && patch.expected == PathList(result.operations) && patch.result == result
    requires RecoverScript(key, op, patch, result, w.repository).outcome.Patched?
    ensures var script := RecoverScript(key, op, patch, result, w.repository);
      && AcceptedWorld(w, Replay(w, script.effects), key, op, result, script.outcome.manifest)
      && Replay(w, script.effects).repository == w.repository
  {
    hide Matching, Expected, ExactlyApplied, Repository.Changed;
    var script := RecoverScript(key, op, patch, result, w.repository);
    RecoveredIsExactIff(key, op, patch, result, w.repository);
    assert script.effects == [script.effects[0]] + [script.effects[1]];
    ReplayConcat(w, [script.effects[0]], [script.effects[1]]);
    ReplayOne(w, script.effects[0]);
    ReplayOne(After(w, script.effects[0]), script.effects[1]);
  }

  /** With nobody else writing, what the recovery accepts after a crash is exact as well: the workspace
      is the clean base overridden by exactly the operations, deletions included. */
  lemma CrashedThenAcceptedIsExact(limits: Limits, task: TaskPolicy, limits': Limits, task': TaskPolicy, w: World, key: Key, cut: nat)
    requires DiesMidway(limits, task, w, key, cut)
    requires key in w.operations && key in w.results
    requires ApplyScript(limits', task', true, Reached(w, ApplyScript(limits, task, true, w, key), cut), key).outcome.Patched?
    ensures var crashed := Reached(w, ApplyScript(limits, task, true, w, key), cut);
      && ExactlyApplied(w.repository.base, crashed.repository.files, w.results[key].operations)
      && crashed.repository.stages == map[] && crashed.repository.base == w.repository.base
  {
    hide DirectScript, ApplyScript, RecoverScript, ExactlyApplied, ApplyAll, Repository.Clean, IntentMatches, InterruptedPatch;
    var k := CrashConsistency(limits, task, limits', task', w, key, cut);
    var n := CrashedCall(limits, task, w, key, cut);
    FreshCallIsDirect(limits, task, w, key);
    CleanMeansBase(w.repository);
    var ops := w.results[key].operations;
    var w1 := WithIntent(w, key);
    IntentOperations(w1.patches[key], w.operations[key], w.results[key], w.repository);
    assert ops[..|ops|] == ops;
    ApplyAllIsExact(w.repository.base, ops);
  }

  lemma IntentOperations(patch: PatchEffect, op: Operation, result: Result, r: Repository)
    requires IntentMatches(patch, op, result, r)
    ensures patch.operations == result.operations && patch.result == result
  {
  }
}
