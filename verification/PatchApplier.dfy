/** `ControlledPatchApplier`: stage every content, then replace the files one at a time. */
module PatchApplier {
  import opened Wrappers
  import opened ProviderModel
  import opened Patching
  import opened PatchScripts
  import opened ProviderStore

  lemma EmitNothing(script: Script)
    ensures Emit([], script) == script
  {
    assert [] + script.effects == script.effects;
  }

  lemma EmitTwice(a: seq<Effect>, b: seq<Effect>, rest: Script)
    ensures Emit(a + b, rest) == Emit(a, Emit(b, rest))
  {
    assert (a + b) + rest.effects == a + (b + rest.effects);
  }

  /** The stage writes of the operations from `i` on. */
  function StagesAfter(key: Key, ops: seq<FileOperation>, i: nat): seq<Effect>
    requires i <= |ops|
    decreases |ops| - i
  {
    if i == |ops| then []
    else
      (if Writes(ops[i]) && ops[i].content.Some? then [WriteStage(Stage(key, i), ops[i].content.value)] else [])
      + StagesAfter(key, ops, i + 1)
  }

  lemma {:induction false} StagesSplit(key: Key, ops: seq<FileOperation>, i: nat)
    requires i <= |ops|
    ensures StageEffects(key, ops) == StageEffects(key, ops[..i]) + StagesAfter(key, ops, i)
    decreases |ops| - i
  {
    if i == |ops| {
      assert ops[..i] == ops;
    } else {
      StagesSplit(key, ops, i + 1);
      assert ops[..i + 1][..i] == ops[..i];
    }
  }

  lemma AllStages(key: Key, ops: seq<FileOperation>)
    ensures StagesAfter(key, ops, 0) == StageEffects(key, ops)
  {
    StagesSplit(key, ops, 0);
    assert ops[..0] == [];
    assert StageEffects(key, ops[..0]) == [];
  }

  lemma StagingGoal(w: World, fuel: nat, key: Key, ops: seq<FileOperation>, i: nat, rest: Script)
    requires i < |ops|
    ensures GoalOf(w, fuel, Emit(StagesAfter(key, ops, i), rest)) ==
      if !(Writes(ops[i]) && ops[i].content.Some?) then GoalOf(w, fuel, Emit(StagesAfter(key, ops, i + 1), rest))
      else if fuel == 0 then Goal(w, Crashed, 0)
      else GoalOf(After(w, WriteStage(Stage(key, i), ops[i].content.value)), fuel - 1, Emit(StagesAfter(key, ops, i + 1), rest))
  {
    hide GoalOf, After;
    if Writes(ops[i]) && ops[i].content.Some? {
      var e := WriteStage(Stage(key, i), ops[i].content.value);
      GoalStep(w, fuel, e, Emit(StagesAfter(key, ops, i + 1), rest));
      EmitTwice([e], StagesAfter(key, ops, i + 1), rest);
    } else {
      assert [] + StagesAfter(key, ops, i + 1) == StagesAfter(key, ops, i + 1);
    }
  }

  lemma {:induction false} StagedStep(key: Key, ops: seq<FileOperation>, r: Repository, i: nat)
    requires i < |ops|
    ensures StagedRepository(key, ops[..i + 1], r) ==
      if Writes(ops[i]) && ops[i].content.Some? then
        AfterRepository(StagedRepository(key, ops[..i], r), WriteStage(Stage(key, i), ops[i].content.value))
      else StagedRepository(key, ops[..i], r)
  {
    assert ops[..i + 1][..i] == ops[..i];
  }

  /** What `DirectScript` does once the staging intent is stored. */
  function AppliedScript(limits: Limits, task: TaskPolicy, key: Key, op: Operation, staging: PatchEffect, repository: Repository): Script {
    if !Acceptable(limits, repository.files, task, staging.operations) then
      Script([SavePatch(key, staging.(state := PatchUncertain))], Raised(PolicyError))
    else
      Emit(StageEffects(key, staging.operations),
           ReplaceScript(key, op, staging, StagedRepository(key, staging.operations, repository), 0))
  }

  /** What is left to do after the applier returned or raised. */
  function AfterApplier(key: Key, op: Operation, patch: PatchEffect, repository: Repository, failure: Option<Error>): Script {
    match failure
    case None => FinishScript(key, op, patch, repository)
    case Some(error) => Script([SavePatch(key, patch.(state := PatchUncertain))], Raised(error))
  }

  lemma ReplacingGoal(w: World, fuel: nat, key: Key, op: Operation, patch: PatchEffect, i: nat)
    requires i < |patch.operations| && ApplyOne(w.repository.files, patch.operations[i]).Some?
    ensures var change := FileEffect(key, i, patch.operations[i]);
      var next := Checkpoint(patch, patch.operations[i].path);
      var w1 := After(w, change);
      GoalOf(w, fuel, ReplaceScript(key, op, patch, w.repository, i)) ==
      if fuel == 0 then Goal(w, Crashed, 0)
      else if fuel == 1 then Goal(w1, Crashed, 0)
      else GoalOf(After(w1, SavePatch(key, next)), fuel - 2, ReplaceScript(key, op, next, w1.repository, i + 1))
  {
    hide GoalOf, ApplyOne, AfterRepository, Checkpoint, FinishScript;
    var change := FileEffect(key, i, patch.operations[i]);
    var next := Checkpoint(patch, patch.operations[i].path);
    CheckpointKeeps(patch, patch.operations[i].path);
    var rest := ReplaceScript(key, op, next, AfterRepository(w.repository, change), i + 1);
    GoalStep(w, fuel, change, Emit([SavePatch(key, next)], rest));
    EmitTwice([change], [SavePatch(key, next)], rest);
    assert [change] + [SavePatch(key, next)] == [change, SavePatch(key, next)];
    assert After(w, change).repository == AfterRepository(w.repository, change);
    if fuel > 0 {
      GoalStep(After(w, change), fuel - 1, SavePatch(key, next), rest);
    }
  }

  lemma CheckpointKeeps(patch: PatchEffect, path: string)
    ensures Checkpoint(patch, path).operations == patch.operations
  {
  }

  lemma NothingStaged(key: Key, ops: seq<FileOperation>, r: Repository)
    requires ops == []
    ensures StagedRepository(key, ops, r) == r
  {
  }

  lemma NothingLeft(key: Key, ops: seq<FileOperation>, rest: Script)
    ensures Emit(StagesAfter(key, ops, |ops|), rest) == rest
  {
    EmitNothing(rest);
  }

  class ControlledPatchApplier {
    const limits: Limits
    const store: DurableState

    constructor (limits: Limits, store: DurableState)
      ensures this.limits == limits && this.store == store
    {
      this.limits, this.store := limits, store;
    }

    /** Writes the stage files. What remains to do is what the script says comes after them. */
    method Stage(key: Key, ops: seq<FileOperation>, ghost rest: Script) returns (alive: bool)
      modifies store
      ensures var goal := GoalOf(old(store.Now()), old(store.remaining), Emit(StageEffects(key, ops), rest));
        if alive then goal == GoalOf(store.Now(), store.remaining, rest)
        else goal == Goal(store.Now(), Crashed, store.remaining)
      ensures alive ==> store.repository == StagedRepository(key, ops, old(store.repository))
      ensures store.patches == old(store.patches)
    {
      hide GoalOf, StagedRepository, StagesAfter;
      ghost var goal := GoalOf(store.Now(), store.remaining, Emit(StageEffects(key, ops), rest));
      AllStages(key, ops);
      assert ops[..0] == [];
      NothingStaged(key, ops[..0], store.repository);
      for index := 0 to |ops|
        invariant goal == GoalOf(store.Now(), store.remaining, Emit(StagesAfter(key, ops, index), rest))
        invariant store.repository == StagedRepository(key, ops[..index], old(store.repository))
        invariant store.patches == old(store.patches)
      {
        StagingGoal(store.Now(), store.remaining, key, ops, index, rest);
        StagedStep(key, ops, old(store.repository), index);
        if Writes(ops[index]) && ops[index].content.Some? {
          alive := store.WriteStage(ProviderModel.Stage(key, index), ops[index].content.value);
          if !alive {
            return;
          }
        }
      }
      assert ops[..|ops|] == ops;
      NothingLeft(key, ops, rest);
      alive := true;
    }

    /** `completed_callback`: one more replaced path is recorded. */
    method Completed(key: Key, path: string) returns (alive: bool)
      requires key in store.patches
      modifies store
      ensures store.Performed(old(store.Now()), old(store.remaining), SavePatch(key, Checkpoint(old(store.patches[key]), path)), alive)
    {
      var current := store.patches[key];
      alive := store.SavePatch(key, current.(state := Applying, completed := current.completed + [path]));
    }

    /** One file is replaced by its stage file, or removed. */
    method Change(key: Key, i: nat, item: FileOperation) returns (alive: bool)
      modifies store
      ensures store.Performed(old(store.Now()), old(store.remaining), FileEffect(key, i, item), alive)
      ensures store.patches == old(store.patches)
    {
      hide Destination;
      if Writes(item) && item.content.Some? {
        alive := store.ReplaceFile(ProviderModel.Stage(key, i), Destination(item), item.content.value);
      } else {
        alive := store.RemoveFile(Destination(item));
      }
    }

    /** Replaces the files one at a time, recording each. */
    method Replace(key: Key, ghost op: Operation) returns (alive: bool, failure: Option<Error>)
      requires key in store.patches
      modifies store
      ensures key in store.patches
      ensures var goal := GoalOf(old(store.Now()), old(store.remaining), ReplaceScript(key, op, old(store.patches[key]), old(store.repository), 0));
        if alive then goal == GoalOf(store.Now(), store.remaining, AfterApplier(key, op, store.patches[key], store.repository, failure))
        else goal == Goal(store.Now(), Crashed, store.remaining)
    {
      hide GoalOf, ApplyOne, FinishScript, FileEffect;
      ghost var goal := GoalOf(store.Now(), store.remaining, ReplaceScript(key, op, store.patches[key], store.repository, 0));
      var ops := store.patches[key].operations;
      failure := None;
      for i := 0 to |ops|
        invariant key in store.patches && store.patches[key].operations == ops
        invariant goal == GoalOf(store.Now(), store.remaining, ReplaceScript(key, op, store.patches[key], store.repository, i))
      {
        var item := ops[i];
        if ApplyOne(store.repository.files, item).None? {
          return true, Some(FileFailure);
        }
        ReplacingGoal(store.Now(), store.remaining, key, op, store.patches[key], i);
        alive := Change(key, i, item);
        if !alive {
          return;
        }
        alive := Completed(key, item.path);
        if !alive {
          return;
        }
      }
      alive := true;
    }

    /** `apply_staged`: nothing is written unless the whole list is acceptable. */
    method ApplyStaged(key: Key, task: TaskPolicy, ghost op: Operation) returns (alive: bool, failure: Option<Error>)
      requires key in store.patches
      modifies store
      ensures key in store.patches
      ensures var goal := GoalOf(old(store.Now()), old(store.remaining),
                                 AppliedScript(limits, task, key, op, old(store.patches[key]), old(store.repository)));
        if alive then goal == GoalOf(store.Now(), store.remaining, AfterApplier(key, op, store.patches[key], store.repository, failure))
        else goal == Goal(store.Now(), Crashed, store.remaining)
      ensures !Acceptable(limits, old(store.repository.files), task, old(store.patches[key].operations)) ==>
        alive && failure == Some(PolicyError) && store.Now() == old(store.Now()) && store.remaining == old(store.remaining)
    {
      hide GoalOf, Acceptable, StageEffects, ReplaceScript, StagedRepository, FinishScript;
      var ops := store.patches[key].operations;
      var ok := Validate(limits, store.repository.files, task, ops);
      if !ok {
        return true, Some(PolicyError);
      }
      ghost var rest := ReplaceScript(key, op, store.patches[key], StagedRepository(key, ops, store.repository), 0);
      alive := Stage(key, ops, rest);
      failure := None;
      if !alive {
        return;
      }
      alive, failure := Replace(key, op);
    }
  }
}
