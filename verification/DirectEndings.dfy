/** How a direct application ends when the process survives it: refused as a whole, stopped by the file
    system, applied but not as announced, or accepted. */
module DirectEndings {
  import opened Wrappers
  import opened Paths
  import opened ProviderModel
  import opened Patching
  import opened PatchScripts
  import opened PatchExact
  import opened PatchCrash
  import opened ProtocolScripts
  import opened ProtocolSafety
  import opened ProviderAnswers
  import opened ApplyAnswers
  import PatchAccepted

  /** From any point on, a list the file system does not refuse runs to its end. */
  lemma {:induction false} LoopRunsOut(w: World, key: Key, op: Operation, staging: PatchEffect, k: nat)
    requires k <= |staging.operations| && ContentGiven(staging.operations)
    requires ApplyAll(w.repository.files, staging.operations).Some?
    requires ApplyAll(w.repository.files, staging.operations[..k]).Some?
    ensures staging.operations[..|staging.operations|] == staging.operations
    ensures Replay(StartAt(w, key, staging, k), ReplaceScript(key, op, PatchAt(staging, k), Midway(key, staging.operations, w.repository, k), k).effects)
         == Replay(StartAt(w, key, staging, |staging.operations|), Finished(key, op, staging, w.repository).effects)
    decreases |staging.operations| - k
  {
    hide *;
    var ops := staging.operations;
    assert ops[..|ops|] == ops;
    if k == |ops| {
      LoopEnds(w, key, op, staging);
    } else {
      ApplyAllPrefix(w.repository.files, ops, k + 1);
      OneRound(w, key, op, staging, k);
      OneRoundReplays(w, key, op, staging, k);
      LoopRunsOut(w, key, op, staging, k + 1);
    }
  }

  lemma OneRoundReplays(w: World, key: Key, op: Operation, staging: PatchEffect, k: nat)
    requires k < |staging.operations| && ContentGiven(staging.operations)
    requires ApplyAll(w.repository.files, staging.operations[..k]).Some?
    requires ApplyAll(w.repository.files, staging.operations[..k + 1]).Some?
    ensures Replay(StartAt(w, key, staging, k), ReplaceScript(key, op, PatchAt(staging, k), Midway(key, staging.operations, w.repository, k), k).effects)
         == Replay(StartAt(w, key, staging, k + 1),
                   ReplaceScript(key, op, PatchAt(staging, k + 1), Midway(key, staging.operations, w.repository, k + 1), k + 1).effects)
    ensures ReplaceScript(key, op, PatchAt(staging, k), Midway(key, staging.operations, w.repository, k), k).outcome
         == ReplaceScript(key, op, PatchAt(staging, k + 1), Midway(key, staging.operations, w.repository, k + 1), k + 1).outcome
  {
    hide ApplyAll, FileEffect, PatchAt, Midway, StartAt, FinishScript, ContentGiven, After, Replay;
    OneRound(w, key, op, staging, k);
    var rest := ReplaceScript(key, op, PatchAt(staging, k + 1), Midway(key, staging.operations, w.repository, k + 1), k + 1).effects;
    var change, save := FileEffect(key, k, staging.operations[k]), SavePatch(key, PatchAt(staging, k + 1));
    PrefixOfTwo(StartAt(w, key, staging, k), change, save, rest);
    SameOutcome(w, key, op, staging, k);
  }

  lemma SameOutcome(w: World, key: Key, op: Operation, staging: PatchEffect, k: nat)
    requires k < |staging.operations| && ContentGiven(staging.operations)
    requires ApplyAll(w.repository.files, staging.operations[..k]).Some?
    requires ApplyAll(w.repository.files, staging.operations[..k + 1]).Some?
    ensures ReplaceScript(key, op, PatchAt(staging, k), Midway(key, staging.operations, w.repository, k), k).outcome
         == ReplaceScript(key, op, PatchAt(staging, k + 1), Midway(key, staging.operations, w.repository, k + 1), k + 1).outcome
  {
    hide ApplyAll, PatchAt, Midway, FinishScript, FileEffect, AfterRepository, ContentGiven;
    MidwayStep(key, staging.operations, w.repository, k);
    CheckpointStep(staging, k);
  }

  /** The world in which the file system refused operation `i`. */
  ghost function Stopped(w: World, key: Key, staging: PatchEffect, i: nat): World
    requires i <= |staging.operations| && ApplyAll(w.repository.files, staging.operations[..i]).Some?
  {
    w.(repository := Midway(key, staging.operations, w.repository, i),
       patches := w.patches[key := PatchAt(staging, i).(state := PatchUncertain)])
  }

  lemma StopsHere(w: World, key: Key, op: Operation, staging: PatchEffect, k: nat)
    requires k < |staging.operations| && ApplyAll(w.repository.files, staging.operations[..k]).Some?
    requires ApplyOne(ApplyAll(w.repository.files, staging.operations[..k]).value, staging.operations[k]).None?
    ensures var script := ReplaceScript(key, op, PatchAt(staging, k), Midway(key, staging.operations, w.repository, k), k);
      script.outcome == Raised(FileFailure) && Replay(StartAt(w, key, staging, k), script.effects) == Stopped(w, key, staging, k)
  {
    hide ApplyAll, ApplyOne, PatchAt, FinishScript;
    var uncertain := PatchAt(staging, k).(state := PatchUncertain);
    ReplayOne(StartAt(w, key, staging, k), SavePatch(key, uncertain));
    assert w.patches[key := PatchAt(staging, k)][key := uncertain] == w.patches[key := uncertain];
  }

  /** A list the file system refuses stops at the first refused operation. */
  lemma {:induction false} LoopStops(w: World, key: Key, op: Operation, staging: PatchEffect, k: nat) returns (i: nat)
    requires k <= |staging.operations| && ContentGiven(staging.operations)
    requires ApplyAll(w.repository.files, staging.operations).None?
    requires ApplyAll(w.repository.files, staging.operations[..k]).Some?
    ensures k <= i < |staging.operations| && ApplyAll(w.repository.files, staging.operations[..i]).Some?
    ensures ApplyOne(ApplyAll(w.repository.files, staging.operations[..i]).value, staging.operations[i]).None?
    ensures var script := ReplaceScript(key, op, PatchAt(staging, k), Midway(key, staging.operations, w.repository, k), k);
      script.outcome == Raised(FileFailure) && Replay(StartAt(w, key, staging, k), script.effects) == Stopped(w, key, staging, i)
    decreases |staging.operations| - k
  {
    hide *;
    var ops := staging.operations;
    assert k < |ops| by { assert ops[..|ops|] == ops; }
    ApplyAllStep(w.repository.files, ops, k);
    if ApplyAll(w.repository.files, ops[..k + 1]).None? {
      i := k;
      StopsHere(w, key, op, staging, k);
    } else {
      OneRoundReplays(w, key, op, staging, k);
      i := LoopStops(w, key, op, staging, k + 1);
    }
  }

  /** Applied as a whole, but Git does not list exactly what was announced. */
  lemma UnlistedIsHandedOver(w: World, key: Key, op: Operation, staging: PatchEffect)
    requires ApplyAll(w.repository.files, staging.operations).Some?
    requires staging.operations[..|staging.operations|] == staging.operations
    requires !Midway(key, staging.operations, w.repository, |staging.operations|).StatusIs(PathSet(staging.operations))
    ensures var n := |staging.operations|;
      var finish := Finished(key, op, staging, w.repository);
      && finish.outcome == Raised(ReconciliationError)
      && Replay(StartAt(w, key, staging, n), finish.effects) ==
         w.(repository := Midway(key, staging.operations, w.repository, n),
            patches := w.patches[key := PatchAt(staging, n).(state := PatchNeedsReconciliation)])
  {
    hide ApplyAll, Midway, PatchAt, Repository.StatusIs, PathSet, ManifestOf;
    var n := |staging.operations|;
    var applied := PatchAt(staging, n).(state := Applied);
    var start := StartAt(w, key, staging, n);
    var required := applied.(state := PatchNeedsReconciliation);
    assert Finished(key, op, staging, w.repository).effects == [SavePatch(key, applied), SavePatch(key, required)];
    TwoSafe(start, SavePatch(key, applied), SavePatch(key, required));
    assert w.patches[key := PatchAt(staging, n)][key := applied][key := required] == w.patches[key := required];
  }

  lemma ListedIsPatched(w: World, key: Key, op: Operation, staging: PatchEffect)
    requires ApplyAll(w.repository.files, staging.operations).Some?
    requires staging.operations[..|staging.operations|] == staging.operations
    requires Midway(key, staging.operations, w.repository, |staging.operations|).StatusIs(PathSet(staging.operations))
    ensures Finished(key, op, staging, w.repository).outcome.Patched?
  {
    hide ApplyAll, Midway, PatchAt, Repository.StatusIs, PathSet, ManifestOf;
  }

  /** The workspace with the whole list applied, and no stage file left. */
  function WithFiles(r: ProviderModel.Repository, files: map<Path, string>): ProviderModel.Repository {
    r.(files := files)
  }

  /** What one change does: a deletion removes an existing file, a write puts its content at its path unless
      that is a directory or lies below a file; and no other file changes. */
  lemma ChangeIs(files: map<Path, string>, op: FileOperation)
    ensures var p, after := Components(Normalize(op.path)), ApplyOne(files, op);
      && (after.Some? <==>
            if op.kind == Delete then p in files
            else op.content.Some? && p != [] && (forall i :: 0 < i < |p| ==> p[..i] !in files) && (forall f :: f in files ==> !(p < f)))
      && (after.Some? ==> forall q: Path ::
            Lookup(after.value, q) == if q != p then Lookup(files, q) else if op.kind == Delete then None else op.content)
  {
    hide Components, Normalize;
  }

  /** The four endings of a direct application that starts in `w`: a list that validation refuses changes
      nothing; one the file system refuses stops at its first refused operation; one after which Git does not
      list exactly the announced paths goes to an operator; every other one is accepted. */
  ghost predicate DirectlyEnds(limits: Limits, task: TaskPolicy, w: World, after: World, reply: Outcome, key: Key, op: Operation, patch: PatchEffect) {
    var ops, base := patch.operations, w.repository.base;
    if !Acceptable(limits, base, task, ops) then
      && reply == Raised(PolicyError)
      && after == w.(patches := w.patches[key := patch.(state := PatchUncertain)])
    else if ApplyAll(base, ops).None? then
      && reply == Raised(FileFailure)
      && exists i :: StoppedAt(w, after, key, patch, i)
    else
      var r := WithFiles(w.repository, ApplyAll(base, ops).value);
      var done := patch.(completed := patch.completed + PathList(ops));
      if Differing(r) != (set i | 0 <= i < |ops| :: ops[i].path) then
        && reply == Raised(ReconciliationError)
        && after == w.(repository := r, patches := w.patches[key := done.(state := PatchNeedsReconciliation)])
      else
        && reply == Patched(op.(state := ResultAccepted), Observed(op, r))
        && after == w.(repository := r,
                       patches := w.patches[key := done.(state := Accepted, manifest := Some(Observed(op, r)))],
                       operations := w.operations[key := op.(state := ResultAccepted)])
  }

  lemma DirectEnds(limits: Limits, task: TaskPolicy, w: World, key: Key, op: Operation, patch: PatchEffect)
    requires w.repository.Clean() && key in w.patches && w.patches[key] == patch && KeyOf(op.identity) == key
    ensures var script := DirectScript(limits, task, key, op, patch, w.repository);
      DirectlyEnds(limits, task, w, Replay(w, script.effects), script.outcome, key, op, patch)
  {
    hide DirectScript, ReplaceScript, FinishScript, Finished, Acceptable, ApplyAll, ApplyOne, ContentGiven, Midway, StagedRepository,
      Stopped, StartAt, PatchAt, PathList, PathSet, Repository.Clean, Repository.Changed, Repository.StatusIs, Observed, Replay, KeyOf,
      StoppedAt, WithFiles, Differing, ManifestOf;
    var ops := patch.operations;
    var staging := patch.(state := Staging);
    CleanMeansBase(w.repository);
    CleanAgain(w.repository);
    DirectStarts(limits, task, w, key, op, patch);
    if Acceptable(limits, w.repository.files, task, ops) {
      AcceptableGivesContent(limits, w.repository.files, task, ops);
      assert ops[..0] == [];
      ApplyNothing(w.repository.files);
      if ApplyAll(w.repository.files, ops).None? {
        var i := LoopStops(w, key, op, staging, 0);
        StoppedIs(w, key, patch, i);
      } else {
        LoopRunsOut(w, key, op, staging, 0);
        ReplaceOutcome(key, op, staging, w.repository, 0);
        AppliedIs(w, key, patch);
        ObservedIs(op, WithFiles(w.repository, ApplyAll(w.repository.files, ops).value));
        PathsAre(ops);
        WholeOutcome(w, key, op, staging);
        if Midway(key, ops, w.repository, |ops|).StatusIs(PathSet(ops)) {
          ListedIsPatched(w, key, op, staging);
          AcceptedIs(w, key, op, patch);
        } else {
          UnlistedIsHandedOver(w, key, op, staging);
        }
      }
    }
  }

  lemma PathsAre(ops: seq<FileOperation>)
    ensures (set i | 0 <= i < |ops| :: ops[i].path) == PathSet(ops)
  {
  }

  lemma CleanAgain(r: ProviderModel.Repository)
    requires r.Clean()
    ensures r.stages == map[]
  {
  }

  /** Everything before the loop: the staging intent and the stage files, or the refusal. */
  lemma DirectStarts(limits: Limits, task: TaskPolicy, w: World, key: Key, op: Operation, patch: PatchEffect)
    requires w.repository.Clean()
    ensures var script := DirectScript(limits, task, key, op, patch, w.repository);
      var ops, staging := patch.operations, patch.(state := Staging);
      if !Acceptable(limits, w.repository.files, task, ops) then
        script.outcome == Raised(PolicyError) && Replay(w, script.effects) == w.(patches := w.patches[key := patch.(state := PatchUncertain)])
      else
        && ops[..0] == [] && ApplyAll(w.repository.files, []).Some?
        && var loop := ReplaceScript(key, op, PatchAt(staging, 0), Midway(key, ops, w.repository, 0), 0);
           script.outcome == loop.outcome && Replay(w, script.effects) == Replay(StartAt(w, key, staging, 0), loop.effects)
  {
    hide Acceptable, ApplyAll, StageEffects, ReplaceScript, FinishScript, Repository.Clean, StagesFrom, PatchAt, StagedRepository,
      Midway, Replay, StartAt;
    var ops, staging := patch.operations, patch.(state := Staging);
    CleanMeansBase(w.repository);
    assert ops[..0] == [];
    ApplyNothing(w.repository.files);
    StagedIsMidway(key, ops, w.repository);
    AtStart(staging);
    LoopStarts(w, key, staging);
    var save, stages := SavePatch(key, staging), StageEffects(key, ops);
    if Acceptable(limits, w.repository.files, task, ops) {
      var loop := ReplaceScript(key, op, staging, StagedRepository(key, ops, w.repository), 0).effects;
      StageEffectsStage(After(w, save), key, ops);
      ReplayConcat(w, [save], stages + loop);
      ReplayOne(w, save);
      ReplayConcat(After(w, save), stages, loop);
    } else {
      var uncertain := staging.(state := PatchUncertain);
      TwoSafe(w, save, SavePatch(key, uncertain));
      assert [save] + [SavePatch(key, uncertain)] == [save, SavePatch(key, uncertain)];
      assert w.patches[key := staging][key := uncertain] == w.patches[key := uncertain];
    }
  }

  /** The files are those of the first `i` operations, what was staged for the others is left, and the record
      is uncertain with the `i` checkpoints. */
  ghost predicate StoppedAt(w: World, after: World, key: Key, patch: PatchEffect, i: nat) {
    var ops := patch.operations;
    && i < |ops| && ApplyAll(w.repository.base, ops[..i]).Some?
    && ApplyOne(ApplyAll(w.repository.base, ops[..i]).value, ops[i]).None?
    && after == w.(repository := w.repository.(files := ApplyAll(w.repository.base, ops[..i]).value, stages := StagesFrom(key, ops, i)),
                   patches := w.patches[key := patch.(state := PatchUncertain, completed := patch.completed + PathList(ops)[..i])])
  }

  lemma StoppedIs(w: World, key: Key, patch: PatchEffect, i: nat)
    requires w.repository.files == w.repository.base
    requires i < |patch.operations| && ApplyAll(w.repository.files, patch.operations[..i]).Some?
    requires ApplyOne(ApplyAll(w.repository.files, patch.operations[..i]).value, patch.operations[i]).None?
    ensures StoppedAt(w, Stopped(w, key, patch.(state := Staging), i), key, patch, i)
  {
    hide ApplyAll, ApplyOne, StagesFrom;
    assert PathList(patch.operations)[..0] == [];
    assert patch.completed + [] == patch.completed;
  }

  lemma AppliedIs(w: World, key: Key, patch: PatchEffect)
    requires w.repository.stages == map[] && ApplyAll(w.repository.files, patch.operations).Some?
    ensures var ops := patch.operations;
      && ops[..|ops|] == ops
      && Midway(key, ops, w.repository, |ops|) == WithFiles(w.repository, ApplyAll(w.repository.files, ops).value)
      && (Midway(key, ops, w.repository, |ops|).StatusIs(PathSet(ops)) <==>
            WithFiles(w.repository, ApplyAll(w.repository.files, ops).value).Changed() == PathSet(ops))
      && PatchAt(patch.(state := Staging), |ops|) ==
         patch.(state := PatchAt(patch.(state := Staging), |ops|).state, completed := patch.completed + PathList(ops))
  {
    hide ApplyAll, Repository.Changed, PathSet;
    var ops := patch.operations;
    assert ops[..|ops|] == ops;
    assert PathList(ops)[..|ops|] == PathList(ops);
    assert StagesFrom(key, ops, |ops|) == map[];
    if ops == [] {
      assert PathList(ops) == [];
      assert patch.completed + [] == patch.completed;
    }
  }

  lemma WholeOutcome(w: World, key: Key, op: Operation, staging: PatchEffect)
    requires ApplyAll(w.repository.files, staging.operations).Some?
    requires staging.operations[..|staging.operations|] == staging.operations
    ensures FinishScript(key, op, PatchAt(staging, |staging.operations|), Midway(key, staging.operations, w.repository, |staging.operations|))
         == Finished(key, op, staging, w.repository)
  {
    hide ApplyAll, Midway, PatchAt, FinishScript;
  }

  lemma AcceptedIs(w: World, key: Key, op: Operation, patch: PatchEffect)
    requires KeyOf(op.identity) == key
    requires ApplyAll(w.repository.files, patch.operations).Some?
    requires patch.operations[..|patch.operations|] == patch.operations
    requires var staging := patch.(state := Staging);
      Finished(key, op, staging, w.repository).outcome.Patched?
    requires var n := |patch.operations|;
      && Midway(key, patch.operations, w.repository, n) == WithFiles(w.repository, ApplyAll(w.repository.files, patch.operations).value)
      && PatchAt(patch.(state := Staging), n) ==
         patch.(state := PatchAt(patch.(state := Staging), n).state, completed := patch.completed + PathList(patch.operations))
    ensures var n, staging := |patch.operations|, patch.(state := Staging);
      var r := WithFiles(w.repository, ApplyAll(w.repository.files, patch.operations).value);
      var done := patch.(completed := patch.completed + PathList(patch.operations));
      && Finished(key, op, staging, w.repository).outcome == Patched(op.(state := ResultAccepted), Observed(op, r))
      && Replay(StartAt(w, key, staging, n), Finished(key, op, staging, w.repository).effects) ==
         w.(repository := r,
            patches := w.patches[key := done.(state := Accepted, manifest := Some(Observed(op, r)))],
            operations := w.operations[key := op.(state := ResultAccepted)])
  {
    hide ApplyAll, Midway, PatchAt, FinishScript, Finished, KeyOf, Replay, StartAt, Observed, ManifestOf;
    ObservedIs(op, WithFiles(w.repository, ApplyAll(w.repository.files, patch.operations).value));
    var staging := patch.(state := Staging);
    FinishIs(key, op, staging, w.repository);
    PatchAccepted.FinishManifest(key, op, staging, w.repository);
    PatchAccepted.FinishCompletes(w, key, op, staging);
  }

  /** The record that a call without a stored intent makes first. */
  predicate FreshIntent(p: PatchEffect, op: Operation, result: Result, r: ProviderModel.Repository) {
    Announces(p, op, result, r) && p.state == PatchPrepared && p.completed == [] && p.manifest.None?
  }

  /** An application with no earlier one under way, on a clean workspace: the intent is made if there is
      none, and then it ends in one of the four ways. */
  lemma DirectApplicationAnswers(cfg: Config, w: World, c: Command) returns (patch: PatchEffect)
    requires Inv(w) && MayApply(cfg, w, c) && StartsOver(w, c.key) && w.repository.Clean()
    requires c.key in w.patches ==> Announces(w.patches[c.key], w.operations[c.key], w.results[c.key], w.repository)
    ensures var key, op := c.key, w.operations[c.key];
      && (if key in w.patches then patch == w.patches[key] else FreshIntent(patch, op, w.results[key], w.repository))
      && DirectlyEnds(cfg.limits(c.policy), c.task, w.(patches := w.patches[key := patch]), Finally(cfg, w, c), Reply(cfg, w, c), key, op, patch)
  {
    hide Inv, KeyOf, DirectScript, RecoverScript, Repository.Clean, Announces, IntentMatches, DirectlyEnds, Replay, WithIntent, Certifies,
      ScriptOf, FreshIntent;
    var key, op, result := c.key, w.operations[c.key], w.results[c.key];
    StoredUnderOwnKey(w, key);
    var w1 := WithIntent(w, key);
    patch := w1.patches[key];
    IntentIs(w, key);
    GoesDirectly(cfg, w, c);
    var direct := DirectScript(cfg.limits(c.policy), c.task, key, op, patch, w.repository);
    PatchAccepted.StoredIntentReplays(w, key, direct.effects);
    DirectEnds(cfg.limits(c.policy), c.task, w1, key, op, patch);
    assert w1 == w.(patches := w.patches[key := patch]);
  }

  lemma IntentIs(w: World, key: Key)
    requires key in w.operations && key in w.results
    ensures var w1 := WithIntent(w, key);
      && w1 == w.(patches := w.patches[key := w1.patches[key]])
      && if key in w.patches then w1.patches[key] == w.patches[key]
         else FreshIntent(w1.patches[key], w.operations[key], w.results[key], w.repository)
  {
    if key in w.patches {
      assert w.patches == w.patches[key := w.patches[key]];
    }
  }

  lemma GoesDirectly(cfg: Config, w: World, c: Command)
    requires MayApply(cfg, w, c) && StartsOver(w, c.key) && w.repository.Clean()
    requires c.key in w.patches ==> Announces(w.patches[c.key], w.operations[c.key], w.results[c.key], w.repository)
    ensures var w1 := WithIntent(w, c.key);
      var direct := DirectScript(cfg.limits(c.policy), c.task, c.key, w.operations[c.key], w1.patches[c.key], w.repository);
      && ScriptOf(cfg, w, c).outcome == direct.outcome
      && ScriptOf(cfg, w, c).effects == (if c.key in w.patches then [] else [SavePatch(c.key, w1.patches[c.key])]) + direct.effects
  {
    hide DirectScript, RecoverScript, IntentMatches, Repository.Clean;
    if c.key in w.patches {
      AnnouncesIs(w.patches[c.key], w.operations[c.key], w.results[c.key], w.repository);
    }
  }
}
