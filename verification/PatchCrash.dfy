/** Crash consistency of patching: what the next `apply_and_accept` does when the previous one died
    between any two of its atomic effects. */
module PatchCrash {
  import opened Wrappers
  import opened Paths
  import opened ProviderModel
  import opened Patching
  import opened PatchScripts
  import opened PatchExact

  predicate IsChange(e: Effect) {
    e.ReplaceFile? || e.RemoveFile?
  }

  /** How many files were replaced or removed. */
  function Changes(effects: seq<Effect>): nat {
    if effects == [] then 0 else (if IsChange(effects[0]) then 1 else 0) + Changes(effects[1..])
  }

  lemma {:induction false} ChangesConcat(a: seq<Effect>, b: seq<Effect>)
    ensures Changes(a + b) == Changes(a) + Changes(b)
  {
    if a == [] {
      assert a + b == b;
    } else {
      assert (a + b)[1..] == a[1..] + b;
      ChangesConcat(a[1..], b);
    }
  }

  lemma {:induction false} StagingChangesNothing(effects: seq<Effect>)
    requires forall i :: 0 <= i < |effects| ==> !IsChange(effects[i])
    ensures Changes(effects) == 0
  {
    if effects != [] {
      StagingChangesNothing(effects[1..]);
    }
  }

  /** The interrupted record after `k` changes: its checkpoints are exact or lag by one. */
  ghost predicate InterruptedPatch(patch: PatchEffect, staging: PatchEffect, k: nat, manifest: Manifest) {
    var paths := PathList(staging.operations);
    && k <= |paths|
    && patch == staging.(state := patch.state, completed := patch.completed, manifest := patch.manifest)
    && patch.state != PatchPrepared
    && (patch.completed == staging.completed + paths[..k] || (k > 0 && patch.completed == staging.completed + paths[..k - 1]))
    && (patch.manifest == staging.manifest || (k == |paths| && patch.manifest == Some(manifest)))
  }

  /** The world differs only in the workspace, which is `k` changes into the list, and in the record. */
  ghost predicate Interrupted(w: World, w': World, key: Key, staging: PatchEffect, k: nat, manifest: Manifest) {
    var ops := staging.operations;
    && k <= |ops| && ApplyAll(w.repository.files, ops[..k]).Some?
    && key in w'.patches
    && w' == w.(patches := w.patches[key := w'.patches[key]],
                repository := w.repository.(files := ApplyAll(w.repository.files, ops[..k]).value,
                                            stages := w'.repository.stages))
    && (k == |ops| ==> w'.repository.stages == map[])
    && InterruptedPatch(w'.patches[key], staging, k, manifest)
  }

  function Finished(key: Key, op: Operation, staging: PatchEffect, r: Repository): Script
    requires ApplyAll(r.files, staging.operations).Some?
  {
    assert staging.operations[..|staging.operations|] == staging.operations;
    FinishScript(key, op, PatchAt(staging, |staging.operations|), Midway(key, staging.operations, r, |staging.operations|))
  }

  lemma TwoThenRest(w: World, a: Effect, b: Effect, rest: seq<Effect>, cut: nat)
    requires 2 <= cut <= 2 + |rest| && IsChange(a) && !IsChange(b)
    ensures Replay(w, ([a, b] + rest)[..cut]) == Replay(After(After(w, a), b), rest[..cut - 2])
    ensures Changes(([a, b] + rest)[..cut]) == 1 + Changes(rest[..cut - 2])
  {
    var effects := ([a, b] + rest)[..cut];
    assert effects[1..][1..] == rest[..cut - 2];
  }

  ghost function StartAt(w: World, key: Key, staging: PatchEffect, k: nat): World
    requires k <= |staging.operations| && ApplyAll(w.repository.files, staging.operations[..k]).Some?
  {
    w.(repository := Midway(key, staging.operations, w.repository, k), patches := w.patches[key := PatchAt(staging, k)])
  }

  /** One change and its checkpoint lead from one point of the loop to the next. */
  lemma OneRound(w: World, key: Key, op: Operation, staging: PatchEffect, k: nat)
    requires k < |staging.operations| && ContentGiven(staging.operations)
    requires ApplyAll(w.repository.files, staging.operations[..k]).Some?
    requires ApplyAll(w.repository.files, staging.operations[..k + 1]).Some?
    ensures var change := FileEffect(key, k, staging.operations[k]);
      var save := SavePatch(key, PatchAt(staging, k + 1));
      var rest := ReplaceScript(key, op, PatchAt(staging, k + 1), Midway(key, staging.operations, w.repository, k + 1), k + 1);
      && IsChange(change)
      && After(StartAt(w, key, staging, k), change).repository == Midway(key, staging.operations, w.repository, k + 1)
      && After(StartAt(w, key, staging, k), change) == StartAt(w, key, staging, k).(repository := Midway(key, staging.operations, w.repository, k + 1))
      && After(After(StartAt(w, key, staging, k), change), save) == StartAt(w, key, staging, k + 1)
      && ReplaceScript(key, op, PatchAt(staging, k), Midway(key, staging.operations, w.repository, k), k).effects == [change, save] + rest.effects
  {
    hide ApplyAll, Destination, PatchAt, StagesFrom, FinishScript;
    MidwayStep(key, staging.operations, w.repository, k);
    CheckpointStep(staging, k);
    assert w.patches[key := PatchAt(staging, k)][key := PatchAt(staging, k + 1)] == w.patches[key := PatchAt(staging, k + 1)];
  }

  /** Dying between a change and its checkpoint. */
  lemma ChangeInterrupted(w: World, key: Key, staging: PatchEffect, k: nat, manifest: Manifest)
    requires k < |staging.operations| && staging.state == Staging
    requires ApplyAll(w.repository.files, staging.operations[..k]).Some?
    requires ApplyAll(w.repository.files, staging.operations[..k + 1]).Some?
    ensures Interrupted(w, StartAt(w, key, staging, k).(repository := Midway(key, staging.operations, w.repository, k + 1)),
                        key, staging, k + 1, manifest)
  {
    assert PathList(staging.operations)[..0] == [];
  }

  lemma AtStartInterrupted(w: World, key: Key, staging: PatchEffect, k: nat, manifest: Manifest)
    requires k <= |staging.operations| && staging.state == Staging
    requires ApplyAll(w.repository.files, staging.operations[..k]).Some?
    ensures Interrupted(w, StartAt(w, key, staging, k), key, staging, k, manifest)
  {
    assert PathList(staging.operations)[..0] == [];
  }

  lemma ChangeDone(w: World, key: Key, op: Operation, staging: PatchEffect, k: nat, manifest: Manifest)
    requires k < |staging.operations| && staging.state == Staging && ContentGiven(staging.operations)
    requires ApplyAll(w.repository.files, staging.operations[..k]).Some?
    requires ApplyAll(w.repository.files, staging.operations[..k + 1]).Some?
    ensures var effects := ReplaceScript(key, op, PatchAt(staging, k), Midway(key, staging.operations, w.repository, k), k).effects;
      && effects != [] && Changes(effects[..1]) == 1
      && Interrupted(w, Replay(StartAt(w, key, staging, k), effects[..1]), key, staging, k + 1, manifest)
  {
    hide Interrupted, FileEffect, PatchAt, FinishScript, ReplaceScript, Midway, StartAt, ApplyAll, ContentGiven;
    OneRound(w, key, op, staging, k);
    ChangeInterrupted(w, key, staging, k, manifest);
    var effects := ReplaceScript(key, op, PatchAt(staging, k), Midway(key, staging.operations, w.repository, k), k).effects;
    assert effects[..1] == [effects[0]];
    assert [effects[0]][1..] == [];
    ReplayOne(StartAt(w, key, staging, k), effects[0]);
  }

  /** Dying inside the replacement loop. */
  lemma {:induction false} LoopInterrupted(w: World, key: Key, op: Operation, staging: PatchEffect, k: nat, cut: nat)
    returns (now: nat)
    requires k <= |staging.operations| && staging.state == Staging && ContentGiven(staging.operations)
    requires ApplyAll(w.repository.files, staging.operations).Some?
    requires ApplyAll(w.repository.files, staging.operations[..k]).Some?
    requires Finished(key, op, staging, w.repository).outcome.Patched?
    requires cut < |ReplaceScript(key, op, PatchAt(staging, k), Midway(key, staging.operations, w.repository, k), k).effects|
    ensures var effects := ReplaceScript(key, op, PatchAt(staging, k), Midway(key, staging.operations, w.repository, k), k).effects;
      && now == k + Changes(effects[..cut])
      && Interrupted(w, Replay(StartAt(w, key, staging, k), effects[..cut]), key, staging, now,
                     Finished(key, op, staging, w.repository).outcome.manifest)
    decreases |staging.operations| - k
  {
    hide *;
    var ops := staging.operations;
    var manifest := Finished(key, op, staging, w.repository).outcome.manifest;
    var effects := ReplaceScript(key, op, PatchAt(staging, k), Midway(key, ops, w.repository, k), k).effects;
    var start := StartAt(w, key, staging, k);
    now := k;
    if k == |ops| {
      assert ops[..k] == ops;
      LoopEnds(w, key, op, staging);
      FinishInterrupted(w, key, op, staging, cut);
    } else if cut == 0 {
      assert effects[..0] == [];
      NothingDone(start);
      AtStartInterrupted(w, key, staging, k, manifest);
    } else {
      ApplyAllPrefix(w.repository.files, ops, k + 1);
      if cut == 1 {
        now := k + 1;
        ChangeDone(w, key, op, staging, k, manifest);
      } else {
        OneRound(w, key, op, staging, k);
        var rest := ReplaceScript(key, op, PatchAt(staging, k + 1), Midway(key, ops, w.repository, k + 1), k + 1).effects;
        SaveIsNoChange(key, PatchAt(staging, k + 1));
        TwoThenRest(start, effects[0], effects[1], rest, cut);
        now := LoopInterrupted(w, key, op, staging, k + 1, cut - 2);
      }
    }
  }

  lemma LoopEnds(w: World, key: Key, op: Operation, staging: PatchEffect)
    requires ApplyAll(w.repository.files, staging.operations).Some?
    requires staging.operations[..|staging.operations|] == staging.operations
    ensures var n := |staging.operations|;
      && ReplaceScript(key, op, PatchAt(staging, n), Midway(key, staging.operations, w.repository, n), n) == Finished(key, op, staging, w.repository)
      && StartAt(w, key, staging, n) ==
         w.(repository := Midway(key, staging.operations, w.repository, n), patches := w.patches[key := PatchAt(staging, n)])
  {
    hide FinishScript, Midway, ApplyAll;
  }

  lemma NothingDone(w: World)
    ensures Changes([]) == 0 && Replay(w, []) == w
  {
  }

  lemma SaveIsNoChange(key: Key, patch: PatchEffect)
    ensures !IsChange(SavePatch(key, patch))
  {
  }

  /** The record at the end of the loop, checked against Git's listing, and accepted. */
  function FinishSaves(key: Key, staging: PatchEffect, manifest: Manifest): seq<Effect> {
    var applied := PatchAt(staging, |staging.operations|).(state := Applied);
    var verified := applied.(state := Verified, manifest := Some(manifest));
    [SavePatch(key, applied), SavePatch(key, verified), SavePatch(key, verified.(state := Accepted))]
  }

  lemma FinishIs(key: Key, op: Operation, staging: PatchEffect, r: Repository)
    requires ApplyAll(r.files, staging.operations).Some?
    requires Finished(key, op, staging, r).outcome.Patched?
    ensures var finish := Finished(key, op, staging, r);
      && finish.outcome.accepted == op.(state := ResultAccepted)
      && finish.effects == FinishSaves(key, staging, finish.outcome.manifest) + [SaveOperation(finish.outcome.accepted)]
  {
    hide ApplyAll, ManifestOf, Repository.StatusIs, PathSet, PatchAt, Midway;
  }

  /** Each of these saves leaves the whole list done and the record at its end. */
  lemma FinishSavesInterrupted(w: World, key: Key, staging: PatchEffect, manifest: Manifest, i: nat)
    requires staging.state == Staging && ApplyAll(w.repository.files, staging.operations).Some? && i < 3
    requires staging.operations[..|staging.operations|] == staging.operations
    ensures var e := FinishSaves(key, staging, manifest)[i];
      var start := StartAt(w, key, staging, |staging.operations|);
      && e.SavePatch? && e.key == key
      && Interrupted(w, start.(patches := start.patches[key := e.patch]), key, staging, |staging.operations|, manifest)
  {
    hide ApplyAll;
    var paths := PathList(staging.operations);
    assert paths[..|paths|] == paths;
    var start := StartAt(w, key, staging, |staging.operations|);
    var patch := FinishSaves(key, staging, manifest)[i].patch;
    assert w.patches[key := PatchAt(staging, |staging.operations|)][key := patch] == w.patches[key := patch];
  }

  lemma FinishSavesChangeNothing(key: Key, staging: PatchEffect, manifest: Manifest, cut: nat)
    requires cut <= 3
    ensures Changes(FinishSaves(key, staging, manifest)[..cut]) == 0
  {
    hide PatchAt;
    StagingChangesNothing(FinishSaves(key, staging, manifest)[..cut]);
  }

  /** Dying after the last change, before the operation itself is saved. */
  lemma FinishInterrupted(w: World, key: Key, op: Operation, staging: PatchEffect, cut: nat)
    requires staging.state == Staging && ApplyAll(w.repository.files, staging.operations).Some?
    requires Finished(key, op, staging, w.repository).outcome.Patched?
    requires cut < |Finished(key, op, staging, w.repository).effects|
    ensures var finish := Finished(key, op, staging, w.repository);
      var n := |staging.operations|;
      var start := w.(repository := (assert staging.operations[..n] == staging.operations; Midway(key, staging.operations, w.repository, n)),
                      patches := w.patches[key := PatchAt(staging, n)]);
      && Changes(finish.effects[..cut]) == 0
      && Interrupted(w, Replay(start, finish.effects[..cut]), key, staging, n, finish.outcome.manifest)
  {
    hide *;
    var n := |staging.operations|;
    assert staging.operations[..n] == staging.operations;
    var finish := Finished(key, op, staging, w.repository);
    var manifest := finish.outcome.manifest;
    FinishIs(key, op, staging, w.repository);
    LoopEnds(w, key, op, staging);
    var start := StartAt(w, key, staging, n);
    var saves := FinishSaves(key, staging, manifest);
    ThreeSaves(key, staging, manifest);
    assert finish.effects[..cut] == saves[..cut];
    FinishSavesChangeNothing(key, staging, manifest, cut);
    SavedTwice(start, key, saves, cut);
    if cut == 0 {
      AtStartInterrupted(w, key, staging, n, manifest);
    } else {
      FinishSavesInterrupted(w, key, staging, manifest, cut - 1);
    }
  }

  lemma ThreeSaves(key: Key, staging: PatchEffect, manifest: Manifest)
    ensures var saves := FinishSaves(key, staging, manifest);
      |saves| == 3 && forall i :: 0 <= i < 3 ==> saves[i].SavePatch? && saves[i].key == key
  {
    hide PatchAt;
  }

  /** Of several saves of one record only the last is seen. */
  lemma {:induction false} SavedTwice(w: World, key: Key, saves: seq<Effect>, cut: nat)
    requires cut <= |saves| && forall i :: 0 <= i < |saves| ==> saves[i].SavePatch? && saves[i].key == key
    ensures Replay(w, saves[..cut]) == if cut == 0 then w else w.(patches := w.patches[key := saves[cut - 1].patch])
  {
    if cut > 0 {
      SavedTwice(w, key, saves, cut - 1);
      assert saves[..cut] == saves[..cut - 1] + [saves[cut - 1]];
      ReplayConcat(w, saves[..cut - 1], [saves[cut - 1]]);
      ReplayOne(Replay(w, saves[..cut - 1]), saves[cut - 1]);
    }
  }

  lemma {:induction false} OnlyStages(w: World, effects: seq<Effect>)
    requires forall i :: 0 <= i < |effects| ==> effects[i].WriteStage?
    ensures Replay(w, effects) == w.(repository := w.repository.(stages := Replay(w, effects).repository.stages))
    decreases |effects|
  {
    if effects != [] {
      OnlyStages(After(w, effects[0]), effects[1..]);
    }
  }

  lemma {:induction false} StageEffectsStage(w: World, key: Key, ops: seq<FileOperation>)
    ensures forall i :: 0 <= i < |StageEffects(key, ops)| ==> StageEffects(key, ops)[i].WriteStage?
    ensures Replay(w, StageEffects(key, ops)) == w.(repository := StagedRepository(key, ops, w.repository))
  {
    if ops != [] {
      var n := |ops| - 1;
      var before := StageEffects(key, ops[..n]);
      StageEffectsStage(w, key, ops[..n]);
      if Writes(ops[n]) && ops[n].content.Some? {
        var e := WriteStage(Stage(key, n), ops[n].content.value);
        ReplayConcat(w, before, [e]);
        ReplayOne(Replay(w, before), e);
      } else {
        assert StageEffects(key, ops) == before;
      }
    }
  }

  /** The direct path, when it is accepted: intent, stage files, replacement loop. */
  lemma DirectShape(limits: Limits, task: TaskPolicy, key: Key, op: Operation, patch: PatchEffect, r: Repository)
    requires r.Clean() && DirectScript(limits, task, key, op, patch, r).outcome.Patched?
    ensures var ops := patch.operations;
      var staging := patch.(state := Staging);
      && ContentGiven(ops) && ApplyAll(r.files, ops).Some? && ops[..0] == []
      && StagedRepository(key, ops, r) == Midway(key, ops, r, 0)
      && DirectScript(limits, task, key, op, patch, r).effects ==
         [SavePatch(key, staging)] + StageEffects(key, ops) + ReplaceScript(key, op, staging, Midway(key, ops, r, 0), 0).effects
      && DirectScript(limits, task, key, op, patch, r).outcome == Finished(key, op, staging, r).outcome
  {
    hide Acceptable, ApplyAll, StageEffects, ReplaceScript, FinishScript, Repository.Clean, StagesFrom, PatchAt, StagedRepository;
    var ops := patch.operations;
    var staging := patch.(state := Staging);
    CleanMeansBase(r);
    AcceptableGivesContent(limits, r.files, task, ops);
    StagedIs(key, ops, r);
    assert ops[..0] == [] && ops[..|ops|] == ops;
    ApplyNothing(r.files);
    StagedIsMidway(key, ops, r);
    AtStart(staging);
    ReplaceOutcome(key, op, staging, r, 0);
  }

  lemma StagedIsMidway(key: Key, ops: seq<FileOperation>, r: Repository)
    requires r.stages == map[] && ops[..0] == []
    requires ApplyAll(r.files, []) == Some(r.files)
    ensures StagedRepository(key, ops, r) == Midway(key, ops, r, 0)
  {
    hide StagedRepository, StagesFrom, ApplyAll;
    StagedIs(key, ops, r);
  }

  lemma AtStart(staging: PatchEffect)
    ensures PatchAt(staging, 0) == staging
  {
  }

  lemma ApplyNothing(files: map<Path, string>)
    ensures ApplyAll(files, []) == Some(files)
  {
  }

  /** A cut of three parts in a row, past the first. */
  lemma CutOfThree(w: World, a: Effect, b: seq<Effect>, c: seq<Effect>, cut: nat)
    requires 0 < cut <= 1 + |b| + |c| && !IsChange(a)
    requires forall i :: 0 <= i < |b| ==> !IsChange(b[i])
    ensures cut <= 1 + |b| ==>
              && Replay(w, ([a] + b + c)[..cut]) == Replay(After(w, a), b[..cut - 1])
              && Changes(([a] + b + c)[..cut]) == 0
    ensures cut > 1 + |b| ==>
              && Replay(w, ([a] + b + c)[..cut]) == Replay(Replay(After(w, a), b), c[..cut - 1 - |b|])
              && Changes(([a] + b + c)[..cut]) == Changes(c[..cut - 1 - |b|])
  {
    hide IsChange, Replay;
    assert Changes([a]) == 0 by {
      StagingChangesNothing([a]);
    }
    ReplayOne(w, a);
    if cut <= 1 + |b| {
      assert ([a] + b + c)[..cut] == [a] + b[..cut - 1];
      ReplayConcat(w, [a], b[..cut - 1]);
      ChangesConcat([a], b[..cut - 1]);
      StagingChangesNothing(b[..cut - 1]);
    } else {
      var part := c[..cut - 1 - |b|];
      assert ([a] + b + c)[..cut] == [a] + (b + part);
      ReplayConcat(w, [a], b + part);
      ReplayConcat(After(w, a), b, part);
      ChangesConcat([a], b + part);
      ChangesConcat(b, part);
      StagingChangesNothing(b);
    }
  }

  /** The loop starts in the staged workspace, with the staging intent stored. */
  lemma LoopStarts(w: World, key: Key, staging: PatchEffect)
    requires staging.operations[..0] == [] && ApplyAll(w.repository.files, []).Some?
    ensures After(w, SavePatch(key, staging)).repository == w.repository
    ensures PatchAt(staging, 0) == staging
    ensures StartAt(w, key, staging, 0) ==
            After(w, SavePatch(key, staging)).(repository := Midway(key, staging.operations, w.repository, 0))
  {
  }

  lemma NoChanges(save: Effect, stages: seq<Effect>)
    requires save.SavePatch? && forall i :: 0 <= i < |stages| ==> stages[i].WriteStage?
    ensures !IsChange(save) && forall i :: 0 <= i < |stages| ==> !IsChange(stages[i])
  {
  }

  /** Dying anywhere in the direct path once the staging intent is durable. */
  lemma DirectInterrupted(limits: Limits, task: TaskPolicy, w: World, key: Key, op: Operation, patch: PatchEffect, cut: nat)
    returns (k: nat)
    requires w.repository.Clean()
    requires var script := DirectScript(limits, task, key, op, patch, w.repository);
      script.outcome.Patched? && 0 < cut < |script.effects|
    ensures var script := DirectScript(limits, task, key, op, patch, w.repository);
      && k == Changes(script.effects[..cut])
      && Interrupted(w, Replay(w, script.effects[..cut]), key, patch.(state := Staging), k, script.outcome.manifest)
  {
    hide *;
    var staging := patch.(state := Staging);
    var ops := patch.operations;
    var script := DirectScript(limits, task, key, op, patch, w.repository);
    DirectShape(limits, task, key, op, patch, w.repository);
    CleanMeansBase(w.repository);
    ApplyNothing(w.repository.files);
    var stages := StageEffects(key, ops);
    var replace := ReplaceScript(key, op, staging, Midway(key, ops, w.repository, 0), 0).effects;
    assert script.effects == [SavePatch(key, staging)] + stages + replace;
    var saved := After(w, SavePatch(key, staging));
    LoopStarts(w, key, staging);
    StageEffectsStage(saved, key, ops);
    NoChanges(SavePatch(key, staging), stages);
    CutOfThree(w, SavePatch(key, staging), stages, replace, cut);
    if cut <= 1 + |stages| {
      k := 0;
      AtStageInterrupted(w, key, staging, stages[..cut - 1], Finished(key, op, staging, w.repository).outcome.manifest);
    } else {
      assert Replay(saved, stages) == StartAt(w, key, staging, 0);
      k := LoopInterrupted(w, key, op, staging, 0, cut - 1 - |stages|);
    }
  }

  lemma AtStageInterrupted(w: World, key: Key, staging: PatchEffect, part: seq<Effect>, manifest: Manifest)
    requires w.repository.stages == map[] && staging.state == Staging
    requires forall i :: 0 <= i < |part| ==> part[i].WriteStage?
    requires |part| <= |StageEffects(key, staging.operations)|
    ensures Interrupted(w, Replay(After(w, SavePatch(key, staging)), part), key, staging, 0, manifest)
  {
    var ops := staging.operations;
    OnlyStages(After(w, SavePatch(key, staging)), part);
    assert ops[..0] == [];
    assert PathList(ops)[..0] == [];
    if ops == [] {
      assert part == [];
    }
  }

  /** Whether recovery finds an operation's content in its file: for a write once it has happened, for a
      deletion that names a content as long as it has not and the file holds just that content. */
  predicate Matched(base: map<Path, string>, op: FileOperation, done: bool) {
    if Writes(op) then done
    else !done && op.content.Some? && Lookup(base, Destination(op)) == op.content
  }

  /** Recovery finds something `k` operations into the list. */
  predicate AnyMatched(base: map<Path, string>, ops: seq<FileOperation>, k: nat) {
    exists i :: 0 <= i < |ops| && Matched(base, ops[i], i < k)
  }

  /** Recovery finds everything it looks for `k` operations into the list. */
  predicate AllMatched(base: map<Path, string>, ops: seq<FileOperation>, k: nat) {
    forall i :: 0 <= i < |ops| && ops[i].content.Some? ==> Matched(base, ops[i], i < k)
  }

  lemma {:induction false} ExpectedKeys(ops: seq<FileOperation>, path: string)
    requires path in Expected(ops)
    ensures exists i :: 0 <= i < |ops| && ops[i].path == path && ops[i].content.Some?
  {
    var n := |ops| - 1;
    if !(ops[n].content.Some? && ops[n].path == path) {
      ExpectedKeys(ops[..n], path);
      var i :| 0 <= i < n && ops[..n][i].path == path && ops[..n][i].content.Some?;
      assert ops[i].path == path;
    }
  }

  lemma {:induction false} LastForNone(ops: seq<FileOperation>, p: Path)
    requires forall i :: 0 <= i < |ops| ==> Destination(ops[i]) != p
    ensures LastFor(ops, p).None?
  {
    if ops != [] {
      LastForNone(ops[..|ops| - 1], p);
    }
  }

  /** The lists a direct application accepts. */
  ghost predicate WouldAccept(limits: Limits, task: TaskPolicy, base: map<Path, string>, ops: seq<FileOperation>) {
    && Acceptable(limits, base, task, ops)
    && ApplyAll(base, ops).Some?
    && forall i :: 0 <= i < |ops| ==> Effective(base, ops[i])
  }

  /** After `k` changes, operation `i` has happened to its file exactly when `i < k`. */
  lemma FileMidway(limits: Limits, task: TaskPolicy, base: map<Path, string>, ops: seq<FileOperation>, k: nat, i: nat)
    requires WouldAccept(limits, task, base, ops) && i < |ops| && k <= |ops|
    requires ApplyAll(base, ops[..k]).Some?
    ensures Lookup(ApplyAll(base, ops[..k]).value, Destination(ops[i])) ==
            if i < k then Intended(ops[i]) else Lookup(base, Destination(ops[i]))
    ensures Lookup(base, Destination(ops[i])) != Intended(ops[i])
  {
    forall j | 0 <= j < |ops| ensures Canonical(ops[j].path) {
      assert Effective(base, ops[j]);
    }
    CanonicalAreDistinct(limits, base, task, ops);
    assert Effective(base, ops[i]);
    DestinationOfCanonical(ops[i]);
    ApplyAllIsExact(base, ops[..k]);
    var p := Destination(ops[i]);
    assert Lookup(ApplyAll(base, ops[..k]).value, p) == IntendedAt(base, ops[..k], p);
    if i < k {
      LastForUnique(ops[..k], i);
    } else {
      LastForNone(ops[..k], p);
    }
  }

  /** Recovery matches an operation's path exactly when it is `Matched`. */
  lemma MatchedMidway(limits: Limits, task: TaskPolicy, base: map<Path, string>, ops: seq<FileOperation>, k: nat, i: nat)
    requires WouldAccept(limits, task, base, ops) && i < |ops| && k <= |ops| && ops[i].content.Some?
    requires ApplyAll(base, ops[..k]).Some?
    ensures ops[i].path in Expected(ops)
    ensures ops[i].path in Matching(ApplyAll(base, ops[..k]).value, Expected(ops)) <==> Matched(base, ops[i], i < k)
  {
    hide ApplyAll, Acceptable, Expected, Canonical, Normalize;
    AllCanonical(base, ops);
    CanonicalAreDistinct(limits, base, task, ops);
    FileMidway(limits, task, base, ops, k, i);
    LastForUnique(ops, i);
    ExpectedOfLast(ops, Destination(ops[i]));
    DestinationOfCanonical(ops[i]);
    CanonicalIsWellFormed(ops[i].path);
    JoinIsNotRooted(Destination(ops[i]));
    CanonicalIsJoined(ops[i].path);
  }

  lemma AllCanonical(base: map<Path, string>, ops: seq<FileOperation>)
    requires forall i :: 0 <= i < |ops| ==> Effective(base, ops[i])
    ensures forall i :: 0 <= i < |ops| ==> Canonical(ops[i].path)
  {
    forall i | 0 <= i < |ops| ensures Canonical(ops[i].path) {
      assert Effective(base, ops[i]);
    }
  }

  lemma CanonicalIsJoined(s: string)
    requires Canonical(s)
    ensures s == Join(Components(s))
  {
  }

  /** Recovery matches the contents of exactly the operations that are `Matched`. */
  ghost predicate MatchesEach(base: map<Path, string>, files: map<Path, string>, ops: seq<FileOperation>, k: nat) {
    forall i :: 0 <= i < |ops| && ops[i].content.Some? ==>
      && ops[i].path in Expected(ops)
      && (ops[i].path in Matching(files, Expected(ops)) <==> Matched(base, ops[i], i < k))
  }

  lemma EachMatchedMidway(limits: Limits, task: TaskPolicy, base: map<Path, string>, ops: seq<FileOperation>, k: nat)
    requires WouldAccept(limits, task, base, ops) && k <= |ops|
    requires ApplyAll(base, ops[..k]).Some?
    ensures MatchesEach(base, ApplyAll(base, ops[..k]).value, ops, k)
  {
    hide ApplyAll, WouldAccept, Expected, Matching, Matched;
    forall i | 0 <= i < |ops| && ops[i].content.Some?
      ensures ops[i].path in Expected(ops)
      ensures ops[i].path in Matching(ApplyAll(base, ops[..k]).value, Expected(ops)) <==> Matched(base, ops[i], i < k)
    {
      MatchedMidway(limits, task, base, ops, k, i);
    }
  }

  lemma SomethingMatches(base: map<Path, string>, files: map<Path, string>, ops: seq<FileOperation>, k: nat)
    requires MatchesEach(base, files, ops, k)
    requires forall i :: 0 <= i < |ops| && Matched(base, ops[i], i < k) ==> ops[i].content.Some?
    ensures Matching(files, Expected(ops)) != {} <==> AnyMatched(base, ops, k)
  {
    hide Expected, FileAt, Matched;
    if path :| path in Matching(files, Expected(ops)) {
      ExpectedKeys(ops, path);
    }
    if AnyMatched(base, ops, k) {
      var i :| 0 <= i < |ops| && Matched(base, ops[i], i < k);
      assert ops[i].path in Matching(files, Expected(ops));
    }
  }

  lemma EverythingMatches(base: map<Path, string>, files: map<Path, string>, ops: seq<FileOperation>, k: nat)
    requires MatchesEach(base, files, ops, k)
    ensures Matching(files, Expected(ops)) == Expected(ops).Keys <==> AllMatched(base, ops, k)
  {
    hide Expected, FileAt, Matched;
    if AllMatched(base, ops, k) {
      forall path | path in Expected(ops) ensures path in Matching(files, Expected(ops)) {
        ExpectedKeys(ops, path);
      }
    }
  }

  lemma MatchingMidway(limits: Limits, task: TaskPolicy, base: map<Path, string>, ops: seq<FileOperation>, k: nat)
    requires WouldAccept(limits, task, base, ops) && k <= |ops|
    requires ApplyAll(base, ops[..k]).Some?
    ensures var matching := Matching(ApplyAll(base, ops[..k]).value, Expected(ops));
      && (matching != {} <==> AnyMatched(base, ops, k))
      && (matching == Expected(ops).Keys <==> AllMatched(base, ops, k))
  {
    hide *;
    EachMatchedMidway(limits, task, base, ops, k);
    MatchedHasContent(limits, task, base, ops, k);
    SomethingMatches(base, ApplyAll(base, ops[..k]).value, ops, k);
    EverythingMatches(base, ApplyAll(base, ops[..k]).value, ops, k);
  }

  lemma MatchedHasContent(limits: Limits, task: TaskPolicy, base: map<Path, string>, ops: seq<FileOperation>, k: nat)
    requires WouldAccept(limits, task, base, ops)
    ensures forall i :: 0 <= i < |ops| && Matched(base, ops[i], i < k) ==> ops[i].content.Some?
  {
    AcceptableGivesContent(limits, base, task, ops);
  }

  /** What the recovery decides `k` changes into the list. */
  function Decision(key: Key, op: Operation, patch: PatchEffect, base: map<Path, string>, k: nat, manifest: Manifest): Script
    requires k <= |patch.operations|
  {
    var ops := patch.operations;
    if !AnyMatched(base, ops, k) && patch.completed == [] then
      Script([SavePatch(key, patch.(state := PatchPrepared, completed := []))], Raised(ReconciliationError))
    else if k == |ops| && AnyMatched(base, ops, k) && AllMatched(base, ops, k) then
      var done := op.(state := ResultAccepted);
      Script([SavePatch(key, patch.(state := Accepted, manifest := Some(manifest), completed := patch.expected)),
              SaveOperation(done)],
             Patched(done, manifest))
    else
      PatchReconciliation(key, patch)
  }

  /** Git lists exactly the announced paths once every change has happened, and not before. */
  lemma StatusMidway(limits: Limits, task: TaskPolicy, r: Repository, after: Repository, ops: seq<FileOperation>, k: nat)
    requires r.Ok() && r.files == r.base && k <= |ops|
    requires WouldAccept(limits, task, r.base, ops) && ApplyAll(r.base, ops[..k]).Some?
    requires after == r.(files := ApplyAll(r.base, ops[..k]).value, stages := after.stages)
    requires k == |ops| ==> after.stages == map[]
    ensures after.StatusIs(PathSet(ops)) <==> k == |ops|
  {
    forall i | 0 <= i < |ops| ensures SafeRelative(ops[i].path) {
      assert AcceptableOne(limits, r.base, task, ops[i]);
    }
    ApplyAllKeepsNames(r.base, ops[..k]);
    if k == |ops| {
      assert ops[..k] == ops;
      ListedIffEffective(limits, task, r, ops, after.files);
      assert after.Changed() == r.(files := after.files).Changed();
    } else {
      FileMidway(limits, task, r.base, ops, k, k);
      assert Effective(r.base, ops[k]);
      if after.Changed() == PathSet(ops) {
        ListedAreCanonical(after, ops, k);
        DestinationOfCanonical(ops[k]);
        assert false;
      }
    }
  }

  lemma RecoveryDecides(limits: Limits, task: TaskPolicy, w: World, w': World, key: Key, op: Operation, staging: PatchEffect, result: Result, k: nat)
    requires w.repository.Ok() && w.repository.files == w.repository.base
    requires staging.operations == result.operations && staging.expected == PathList(staging.operations)
    requires staging.completed == [] && staging.manifest.None?
    requires WouldAccept(limits, task, w.repository.base, staging.operations)
    requires Finished(key, op, staging, w.repository).outcome.Patched?
    requires Interrupted(w, w', key, staging, k, Finished(key, op, staging, w.repository).outcome.manifest)
    ensures RecoverScript(key, op, w'.patches[key], result, w'.repository) ==
            Decision(key, op, w'.patches[key], w.repository.base, k, Finished(key, op, staging, w.repository).outcome.manifest)
  {
    hide Matching, Expected, Acceptable, Effective, Repository.Changed, Repository.StatusIs, ApplyAll;
    var ops := staging.operations;
    var base := w.repository.base;
    MatchingMidway(limits, task, base, ops, k);
    StatusMidway(limits, task, w.repository, w'.repository, ops, k);
    ListedPaths(ops);
    if k == |ops| {
      assert ops[..k] == ops;
      assert w'.repository == Midway(key, ops, w.repository, k);
    }
  }

  /** No earlier application of this operation is under way. */
  ghost predicate FreshCall(w: World, key: Key) {
    key in w.patches ==>
      && w.patches[key].state == PatchPrepared
      && w.patches[key].completed == []
      && w.patches[key].manifest.None?
  }

  /** The world in which the direct path of a fresh call starts, with its intent stored. */
  function WithIntent(w: World, key: Key): (w1: World)
    requires key in w.operations && key in w.results
    ensures key in w1.patches && w1 == w.(patches := w1.patches)
  {
    if key in w.patches then w
    else w.(patches := w.patches[key := IntentFor(w.operations[key], w.results[key], w.repository)])
  }

  /** No application of this operation is under way: the call takes the direct path. */
  ghost predicate StartsOver(w: World, key: Key) {
    key in w.patches ==> w.patches[key].state == PatchPrepared
  }

  lemma StartsDirectly(limits: Limits, task: TaskPolicy, w: World, key: Key)
    requires StartsOver(w, key) && ApplyScript(limits, task, true, w, key).outcome.Patched?
    ensures key in w.operations && key in w.results
    ensures var w1 := WithIntent(w, key);
      var script := ApplyScript(limits, task, true, w, key);
      var direct := DirectScript(limits, task, key, w.operations[key], w1.patches[key], w.repository);
      && w.repository.Clean()
      && IntentMatches(w1.patches[key], w.operations[key], w.results[key], w.repository)
      && script.outcome == direct.outcome
      && script.effects == (if key in w.patches then [] else [SavePatch(key, w1.patches[key])]) + direct.effects
  {
    hide DirectScript, Repository.Clean, AcceptedElsewhere, ReceiptMatches;
  }

  lemma FreshCallIsDirect(limits: Limits, task: TaskPolicy, w: World, key: Key)
    requires FreshCall(w, key) && ApplyScript(limits, task, true, w, key).outcome.Patched?
    ensures key in w.operations && key in w.results
    ensures var w1 := WithIntent(w, key);
      var script := ApplyScript(limits, task, true, w, key);
      var direct := DirectScript(limits, task, key, w.operations[key], w1.patches[key], w.repository);
      && w.repository.Clean()
      && IntentMatches(w1.patches[key], w.operations[key], w.results[key], w.repository)
      && w1.patches[key].completed == [] && w1.patches[key].manifest.None?
      && script.outcome == direct.outcome
      && script.effects == (if key in w.patches then [] else [SavePatch(key, w1.patches[key])]) + direct.effects
  {
    hide DirectScript, ApplyScript, Repository.Clean, IntentMatches;
    StartsDirectly(limits, task, w, key);
  }

  /** Everything the early checks of a call look at. */
  ghost predicate SameView(w: World, w': World, key: Key) {
    && w'.operations == w.operations && w'.results == w.results && w'.receipts == w.receipts
    && w'.repository.branch == w.repository.branch && w'.repository.commit == w.repository.commit
    && w'.patches - {key} == w.patches - {key}
  }

  lemma InterruptedView(w: World, w': World, key: Key, staging: PatchEffect, k: nat, manifest: Manifest)
    requires key in w.operations && key in w.results
    requires Interrupted(WithIntent(w, key), w', key, staging, k, manifest)
    ensures SameView(w, w', key)
    ensures key in w'.patches && w'.patches[key].state != PatchPrepared
    ensures IntentMatches(staging, w.operations[key], w.results[key], w.repository) ==>
            IntentMatches(w'.patches[key], w.operations[key], w.results[key], w'.repository)
  {
  }

  lemma AcceptedElsewhereSame(w: World, w': World, key: Key, result: Result)
    requires w'.patches - {key} == w.patches - {key}
    ensures AcceptedElsewhere(w', key, result) <==> AcceptedElsewhere(w, key, result)
  {
    forall k | k != key ensures k in w.patches <==> k in w'.patches
      ensures k in w.patches ==> w.patches[k] == w'.patches[k]
    {
      assert k in w.patches <==> k in w.patches - {key};
      assert k in w'.patches <==> k in w'.patches - {key};
    }
  }

  /** The early checks of the next call see what those of the interrupted call saw. */
  lemma NextCallRecovers(limits: Limits, task: TaskPolicy, limits': Limits, task': TaskPolicy, w: World, w': World, key: Key)
    requires ApplyScript(limits, task, true, w, key).outcome.Patched?
    requires SameView(w, w', key) && key in w'.patches && w'.patches[key].state != PatchPrepared
    requires IntentMatches(w'.patches[key], w.operations[key], w.results[key], w'.repository)
    ensures ApplyScript(limits', task', true, w', key) ==
            RecoverScript(key, w.operations[key], w'.patches[key], w.results[key], w'.repository)
  {
    hide DirectScript, RecoverScript, IntentMatches, AcceptedElsewhere, Repository.Clean;
    AcceptedElsewhereSame(w, w', key, w.results[key]);
  }

  /** A fresh call that would have been accepted, dead after `cut` effects, past its staging intent. */
  ghost predicate DiesMidway(limits: Limits, task: TaskPolicy, w: World, key: Key, cut: nat) {
    var script := ApplyScript(limits, task, true, w, key);
    && w.repository.Ok() && FreshCall(w, key)
    && script.outcome.Patched? && cut < |script.effects|
    && key in Reached(w, script, cut).patches && Reached(w, script, cut).patches[key].state != PatchPrepared
  }

  lemma CrashedCall(limits: Limits, task: TaskPolicy, w: World, key: Key, cut: nat) returns (k: nat)
    requires DiesMidway(limits, task, w, key, cut)
    requires key in w.operations && key in w.results
    ensures var script := ApplyScript(limits, task, true, w, key);
      var w1 := WithIntent(w, key);
      && k == Changes(script.effects[..cut])
      && Interrupted(w1, Reached(w, script, cut), key, w1.patches[key].(state := Staging), k, script.outcome.manifest)
  {
    hide DirectScript, ApplyScript, Interrupted, IntentMatches, Repository.Clean, WithIntent;
    FreshCallIsDirect(limits, task, w, key);
    var script := ApplyScript(limits, task, true, w, key);
    var w1 := WithIntent(w, key);
    var direct := DirectScript(limits, task, key, w.operations[key], w1.patches[key], w.repository);
    var pre: seq<Effect> := if key in w.patches then [] else [SavePatch(key, w1.patches[key])];
    StartsWithIntent(w, key, pre, direct.effects, cut);
    k := DirectInterrupted(limits, task, w1, key, w.operations[key], w1.patches[key], cut - |pre|);
  }

  /** What the interrupted call would have accepted. */
  lemma WouldHaveAccepted(limits: Limits, task: TaskPolicy, w: World, key: Key, cut: nat)
    requires DiesMidway(limits, task, w, key, cut)
    requires key in w.operations && key in w.results
    ensures var outcome := ApplyScript(limits, task, true, w, key).outcome;
      var patch := WithIntent(w, key).patches[key];
      && outcome.Patched?
      && w.repository.Ok() && w.repository.files == w.repository.base && WithIntent(w, key).repository == w.repository
      && patch.state == PatchPrepared && patch.completed == [] && patch.manifest.None?
      && IntentMatches(patch, w.operations[key], w.results[key], w.repository)
      && WouldAccept(limits, task, w.repository.base, patch.operations)
      && ApplyAll(w.repository.files, patch.operations).Some?
      && Finished(key, w.operations[key], patch.(state := Staging), w.repository).outcome == outcome
  {
    hide ApplyScript, DirectScript, Acceptable, ApplyAll, Effective, Finished, Repository.Clean, Repository.Ok, IntentMatches,
      Midway, StagedRepository, ReplaceScript, StageEffects, ContentGiven;
    FreshCallIsDirect(limits, task, w, key);
    var patch := WithIntent(w, key).patches[key];
    DirectShape(limits, task, key, w.operations[key], patch, w.repository);
    DirectAcceptsIff(limits, task, key, w.operations[key], patch, w.repository);
    CleanMeansBase(w.repository);
  }

  /** Crash consistency. Take any fresh call that would have been accepted, let the process die after
      any number of its effects once the staging intent is stored, and count the replacements made.
      The next call then resets to the prepared state if recovery finds nothing and nothing was recorded,
      accepts with the very manifest of the uninterrupted run if every change happened and everything
      looked for is found, and otherwise hands the patch to an operator. */
  lemma CrashConsistency(limits: Limits, task: TaskPolicy, limits': Limits, task': TaskPolicy, w: World, key: Key, cut: nat)
    returns (k: nat)
    requires DiesMidway(limits, task, w, key, cut)
    requires key in w.operations && key in w.results
    ensures var script := ApplyScript(limits, task, true, w, key);
      var w' := Reached(w, script, cut);
      && w'.operations == w.operations
      && w'.patches[key].operations == w.results[key].operations
      && k == Changes(script.effects[..cut]) <= |w.results[key].operations|
      && ApplyScript(limits', task', true, w', key) ==
         Decision(key, w.operations[key], w'.patches[key], w.repository.base, k, script.outcome.manifest)
      && (w'.patches[key].completed == PathList(w.results[key].operations)[..k]
          || (k > 0 && w'.patches[key].completed == PathList(w.results[key].operations)[..k - 1]))
  {
    hide *;
    WouldHaveAccepted(limits, task, w, key, cut);
    k := CrashedCall(limits, task, w, key, cut);
    var script := ApplyScript(limits, task, true, w, key);
    var w' := Reached(w, script, cut);
    var w1 := WithIntent(w, key);
    var op := w.operations[key];
    var staging := w1.patches[key].(state := Staging);
    assert staging.(state := PatchPrepared) == w1.patches[key];
    AnnouncedPaths(staging, op, w.results[key], w.repository, w1, w', key, k, script.outcome.manifest);
    RecoveryDecides(limits, task, w1, w', key, op, staging, w.results[key], k);
    InterruptedView(w, w', key, staging, k, script.outcome.manifest);
    NextCallRecovers(limits, task, limits', task', w, w', key);
    PathListLength(w.results[key].operations);
  }

  lemma PathListLength(ops: seq<FileOperation>)
    ensures |PathList(ops)| == |ops|
  {
  }

  lemma AnnouncedPaths(staging: PatchEffect, op: Operation, result: Result, r: Repository, w: World, w': World, key: Key, k: nat, manifest: Manifest)
    requires IntentMatches(staging.(state := PatchPrepared), op, result, r)
    requires staging.completed == [] && Interrupted(w, w', key, staging, k, manifest)
    ensures staging.operations == result.operations && staging.expected == PathList(result.operations)
    ensures IntentMatches(staging, op, result, r)
    ensures var paths := PathList(result.operations);
      && k <= |paths| && w'.patches[key].operations == result.operations && w'.operations == w.operations
      && (w'.patches[key].completed == paths[..k] || (k > 0 && w'.patches[key].completed == paths[..k - 1]))
  {
    var paths := PathList(result.operations);
    assert [] + paths[..k] == paths[..k];
    if k > 0 {
      assert [] + paths[..k - 1] == paths[..k - 1];
    }
  }

  lemma StartsWithIntent(w: World, key: Key, pre: seq<Effect>, rest: seq<Effect>, cut: nat)
    requires key in w.operations && key in w.results
    requires pre == if key in w.patches then [] else [SavePatch(key, WithIntent(w, key).patches[key])]
    requires key in w.patches ==> w.patches[key].state == PatchPrepared
    requires cut < |pre + rest|
    requires var w' := Replay(w, (pre + rest)[..cut]); key in w'.patches && w'.patches[key].state != PatchPrepared
    ensures |pre| < cut
    ensures Replay(w, (pre + rest)[..cut]) == Replay(WithIntent(w, key), rest[..cut - |pre|])
    ensures Changes((pre + rest)[..cut]) == Changes(rest[..cut - |pre|])
  {
    if pre == [] {
      assert pre + rest == rest;
    } else {
      assert [pre[0]][1..] == [];
      ReplayOne(w, pre[0]);
      if cut > 1 {
        assert (pre + rest)[..cut] == pre + rest[..cut - 1];
        ReplayConcat(w, pre, rest[..cut - 1]);
        ChangesConcat(pre, rest[..cut - 1]);
      }
    }
  }

  /** With `k` of `n` replacements made, the next call resets, asks an operator, or accepts. */
  ghost predicate NoneSomeAll(w: World, key: Key, k: nat, n: nat, manifest: Manifest, next: Script) {
    var after := Replay(w, next.effects);
    && key in after.patches && key in after.operations
    && (after.patches[key].state == PatchPrepared <==> k == 0)
    && (after.patches[key].state == PatchNeedsReconciliation <==> 0 < k < n)
    && (after.patches[key].state == Accepted <==> k == n)
    && (next.outcome.Patched? <==> k == n)
    && (next.outcome.Patched? ==>
          && next.outcome.manifest == manifest
          && after.patches[key].manifest == Some(manifest)
          && after.operations[key].state == ResultAccepted)
    && (!next.outcome.Patched? ==> next.outcome == Raised(ReconciliationError) && after.operations == w.operations)
    && after.repository == w.repository
  }

  /** The same for a list of writes only, in terms of the replacements made: none, some, all. */
  lemma CrashConsistencyOfWrites(limits: Limits, task: TaskPolicy, limits': Limits, task': TaskPolicy, w: World, key: Key, cut: nat)
    requires DiesMidway(limits, task, w, key, cut)
    requires key in w.operations && key in w.results
    requires KeyOf(w.operations[key].identity) == key
    requires w.results[key].operations != []
    requires forall i :: 0 <= i < |w.results[key].operations| ==> Writes(w.results[key].operations[i])
    ensures var script := ApplyScript(limits, task, true, w, key);
      var w' := Reached(w, script, cut);
      NoneSomeAll(w', key, Changes(script.effects[..cut]), |w.results[key].operations|, script.outcome.manifest,
                  ApplyScript(limits', task', true, w', key))
  {
    hide ApplyScript, Decision, Changes, NoneSomeAll;
    var k := CrashConsistency(limits, task, limits', task', w, key, cut);
    var script := ApplyScript(limits, task, true, w, key);
    var w' := Reached(w, script, cut);
    DecisionOnWrites(w', key, w.operations[key], w'.patches[key], w.repository.base, k, script.outcome.manifest);
  }

  lemma MatchedWrites(base: map<Path, string>, ops: seq<FileOperation>, k: nat)
    requires ops != [] && k <= |ops| && forall i :: 0 <= i < |ops| ==> Writes(ops[i])
    ensures AnyMatched(base, ops, k) <==> k > 0
    ensures AllMatched(base, ops, |ops|)
  {
    if k > 0 {
      assert Matched(base, ops[0], 0 < k);
    }
  }

  lemma OneSaved(w: World, key: Key, patch: PatchEffect)
    ensures Replay(w, [SavePatch(key, patch)]) == w.(patches := w.patches[key := patch])
  {
    ReplayOne(w, SavePatch(key, patch));
  }

  lemma TwoSaved(w: World, key: Key, patch: PatchEffect, op: Operation)
    ensures Replay(w, [SavePatch(key, patch), SaveOperation(op)]) ==
            w.(patches := w.patches[key := patch], operations := w.operations[KeyOf(op.identity) := op])
  {
    assert [SavePatch(key, patch), SaveOperation(op)] == [SavePatch(key, patch)] + [SaveOperation(op)];
    ReplayConcat(w, [SavePatch(key, patch)], [SaveOperation(op)]);
    OneSaved(w, key, patch);
    ReplayOne(w.(patches := w.patches[key := patch]), SaveOperation(op));
  }

  lemma DecisionOnWrites(w: World, key: Key, op: Operation, patch: PatchEffect, base: map<Path, string>, k: nat, manifest: Manifest)
    requires k <= |patch.operations| && patch.operations != []
    requires forall i :: 0 <= i < |patch.operations| ==> Writes(patch.operations[i])
    requires key in w.operations && w.operations[key] == op && KeyOf(op.identity) == key
    requires patch.completed == PathList(patch.operations)[..k] || (k > 0 && patch.completed == PathList(patch.operations)[..k - 1])
    ensures NoneSomeAll(w, key, k, |patch.operations|, manifest, Decision(key, op, patch, base, k, manifest))
  {
    hide Replay, AnyMatched, AllMatched, PathList, KeyOf;
    var ops := patch.operations;
    MatchedWrites(base, ops, k);
    PathListLength(ops);
    var done := op.(state := ResultAccepted);
    OneSaved(w, key, patch.(state := PatchPrepared, completed := []));
    OneSaved(w, key, patch.(state := PatchNeedsReconciliation));
    TwoSaved(w, key, patch.(state := Accepted, manifest := Some(manifest), completed := patch.expected), done);
  }
}
