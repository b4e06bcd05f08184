/** The explicit retry after a recovery found nothing applied. */
module PatchRetry {
  import opened Wrappers
  import opened Paths
  import opened ProviderModel
  import opened Patching
  import opened PatchScripts
  import opened PatchExact
  import opened PatchCrash
  import PatchAccepted
  import Utf8

  /** The world after the call died with nothing replaced and the next call reset the record. */
  function ResetWorld(limits: Limits, task: TaskPolicy, limits': Limits, task': TaskPolicy, w: World, key: Key, cut: nat): World {
    var w' := Reached(w, ApplyScript(limits, task, true, w, key), cut);
    Replay(w', ApplyScript(limits', task', true, w', key).effects)
  }

  /** Before anything is replaced recovery finds nothing, unless a deletion names the content of its file. */
  predicate FindsNothing(w: World, key: Key)
    requires key in w.results
  {
    !AnyMatched(w.repository.base, w.results[key].operations, 0)
  }

  /** The world with the intent stored, and the manifest that an application recorded, if any. */
  function WithManifest(w: World, key: Key, manifest: Option<Manifest>): World
    requires key in w.operations && key in w.results
  {
    var w1 := WithIntent(w, key);
    w1.(patches := w1.patches[key := w1.patches[key].(manifest := manifest)])
  }

  /** After the next call only leftover stage files tell the world from one where nobody applied anything,
      or, if there is nothing to apply, the manifest recorded at the end; where a deletion names its file's
      content, the next call takes that content for a change and hands the patch to an operator instead. */
  lemma ResetLeavesOnlyStages(limits: Limits, task: TaskPolicy, limits': Limits, task': TaskPolicy, w: World, key: Key, cut: nat)
    requires DiesMidway(limits, task, w, key, cut)
    requires key in w.operations && key in w.results
    requires Changes(ApplyScript(limits, task, true, w, key).effects[..cut]) == 0
    ensures var after := ResetWorld(limits, task, limits', task', w, key, cut);
      var w' := Reached(w, ApplyScript(limits, task, true, w, key), cut);
      && key in after.patches
      && if FindsNothing(w, key) then
           && after == WithManifest(w, key, after.patches[key].manifest).(repository := w.repository.(stages := after.repository.stages))
           && (w.results[key].operations != [] ==> after.patches[key].manifest.None?)
         else
           after == w'.(patches := w'.patches[key := w'.patches[key].(state := PatchNeedsReconciliation)])
  {
    hide DirectScript, RecoverScript, FinishScript, ApplyScript, WithIntent, IntentMatches, DiesMidway, Changes, AnyMatched, Reached,
      Repository.Changed;
    var k := CrashConsistency(limits, task, limits', task', w, key, cut);
    NothingReplaced(limits, task, w, key, cut);
    StoredIntentIsFresh(limits, task, w, key, cut);
    var script := ApplyScript(limits, task, true, w, key);
    var w' := Reached(w, script, cut);
    var w1 := WithIntent(w, key);
    NothingChanged(w1, w', key, w1.patches[key], script.outcome.manifest);
    FindsNothingIs(w, key, w'.patches[key].operations);
    var next := Decision(key, w.operations[key], w'.patches[key], w.repository.base, 0, script.outcome.manifest);
    assert next.effects == [next.effects[0]];
    ReplayOne(w', next.effects[0]);
  }

  lemma FindsNothingIs(w: World, key: Key, ops: seq<FileOperation>)
    requires key in w.results && w.results[key].operations == ops
    ensures FindsNothing(w, key) <==> !AnyMatched(w.repository.base, ops, 0)
    ensures ops == [] ==> FindsNothing(w, key)
  {
  }

  lemma NothingReplaced(limits: Limits, task: TaskPolicy, w: World, key: Key, cut: nat)
    requires DiesMidway(limits, task, w, key, cut)
    requires key in w.operations && key in w.results
    requires Changes(ApplyScript(limits, task, true, w, key).effects[..cut]) == 0
    ensures var script := ApplyScript(limits, task, true, w, key);
      var w1 := WithIntent(w, key);
      script.outcome.Patched? && Interrupted(w1, Reached(w, script, cut), key, w1.patches[key].(state := Staging), 0, script.outcome.manifest)
  {
    hide ApplyScript, WithIntent, Interrupted, Changes;
    var k := CrashedCall(limits, task, w, key, cut);
  }

  lemma StoredIntentIsFresh(limits: Limits, task: TaskPolicy, w: World, key: Key, cut: nat)
    requires DiesMidway(limits, task, w, key, cut)
    requires key in w.operations && key in w.results
    ensures var patch := WithIntent(w, key).patches[key];
      && patch.state == PatchPrepared && patch.completed == [] && patch.manifest.None?
      && patch.operations == w.results[key].operations
  {
    hide DirectScript;
    FreshCallIsDirect(limits, task, w, key);
  }

  lemma NothingChanged(w: World, w': World, key: Key, patch: PatchEffect, manifest: Manifest)
    requires key in w.patches && w.patches[key] == patch
    requires patch.state == PatchPrepared && patch.completed == [] && patch.manifest.None?
    requires Interrupted(w, w', key, patch.(state := Staging), 0, manifest)
    ensures var reset := w'.patches[key].(state := PatchPrepared, completed := []);
      && reset == patch.(manifest := reset.manifest)
      && w'.(patches := w'.patches[key := reset]) ==
         w.(patches := w.patches[key := reset], repository := w.repository.(stages := w'.repository.stages))
    ensures patch.operations != [] ==> w'.patches[key].manifest.None?
    ensures w'.patches[key].completed == [] && w'.patches[key].operations == patch.operations
  {
    assert |PathList(patch.operations)| == |patch.operations|;
    assert PathList(patch.operations)[..0] == [];
    assert patch.operations[..0] == [];
    var reset := w'.patches[key].(state := PatchPrepared, completed := []);
    assert w'.patches[key := reset] == w.patches[key := reset];
  }

  /** After the reset, leftover stage files make the retry refuse and change nothing; once they are removed
      it does exactly what the interrupted call was going to do. */
  lemma RetryAfterReset(limits: Limits, task: TaskPolicy, limits': Limits, task': TaskPolicy, w: World, key: Key, cut: nat)
    requires DiesMidway(limits, task, w, key, cut)
    requires key in w.operations && key in w.results
    requires Changes(ApplyScript(limits, task, true, w, key).effects[..cut]) == 0
    ensures var after := ResetWorld(limits, task, limits', task', w, key, cut);
      var swept := after.(repository := after.repository.(stages := map[]));
      && key in after.patches && (after.patches[key].state == PatchPrepared <==> FindsNothing(w, key))
      && (after.patches[key].state == PatchPrepared ==>
            && (after.repository.stages != map[] ==> ApplyScript(limits, task, true, after, key) == Raise(PolicyError))
            && ApplyScript(limits, task, true, swept, key).outcome == ApplyScript(limits, task, true, w, key).outcome
            && Replay(swept, ApplyScript(limits, task, true, swept, key).effects) == Replay(w, ApplyScript(limits, task, true, w, key).effects))
  {
    hide ApplyScript, WithIntent, ResetWorld, DiesMidway, Changes, Replay, FindsNothing, Repository.Ok, Reached;
    ResetLeavesOnlyStages(limits, task, limits', task', w, key, cut);
    StoredIntentIsFresh(limits, task, w, key, cut);
    var after := ResetWorld(limits, task, limits', task', w, key, cut);
    if FindsNothing(w, key) {
      var manifest := after.patches[key].manifest;
      WasFresh(limits, task, w, key, cut);
      assert after.(repository := after.repository.(stages := map[])) == WithManifest(w, key, manifest);
      RetryIsSame(limits, task, w, key, manifest);
      if after.repository.stages != map[] {
        RetryIsRefused(limits, task, w, key, manifest, after.repository.stages);
      }
    }
  }

  lemma WasFresh(limits: Limits, task: TaskPolicy, w: World, key: Key, cut: nat)
    requires DiesMidway(limits, task, w, key, cut) && key in w.operations && key in w.results
    ensures FreshCall(w, key) && ApplyScript(limits, task, true, w, key).outcome.Patched?
    ensures w.repository.stages == map[] && WithIntent(w, key).repository == w.repository && w.repository.Ok()
  {
    hide DirectScript;
    FreshCallIsDirect(limits, task, w, key);
  }

  /** What a finished application records does not depend on a manifest recorded before. */
  lemma ManifestIsReplaced(limits: Limits, task: TaskPolicy, w: World, key: Key, op: Operation, patch: PatchEffect, manifest: Option<Manifest>)
    requires w.repository.Ok() && w.repository.Clean() && key in w.patches && w.patches[key] == patch
    requires DirectScript(limits, task, key, op, patch, w.repository).outcome.Patched?
    ensures var again := patch.(manifest := manifest);
      var w' := w.(patches := w.patches[key := again]);
      && DirectScript(limits, task, key, op, again, w.repository).outcome == DirectScript(limits, task, key, op, patch, w.repository).outcome
      && Replay(w', DirectScript(limits, task, key, op, again, w.repository).effects) ==
         Replay(w, DirectScript(limits, task, key, op, patch, w.repository).effects)
  {
    hide *;
    var again := patch.(manifest := manifest);
    DirectAcceptsIff(limits, task, key, op, patch, w.repository);
    DirectAcceptsIff(limits, task, key, op, again, w.repository);
    DirectOutcome(limits, task, w.repository, key, op, patch);
    DirectOutcome(limits, task, w.repository, key, op, again);
    PatchAccepted.DirectCompletes(limits, task, w, key, op, patch);
    PatchAccepted.DirectCompletes(limits, task, w.(patches := w.patches[key := again]), key, op, again);
    CompletedSame(w, key, op, patch, manifest);
  }

  lemma DirectOutcome(limits: Limits, task: TaskPolicy, r: Repository, key: Key, op: Operation, patch: PatchEffect)
    requires r.Clean() && DirectScript(limits, task, key, op, patch, r).outcome.Patched?
    ensures ApplyAll(r.files, patch.operations).Some? && patch.operations[..|patch.operations|] == patch.operations
    ensures DirectScript(limits, task, key, op, patch, r).outcome ==
            Patched(op.(state := ResultAccepted), ManifestOf(op, Midway(key, patch.operations, r, |patch.operations|)))
  {
    hide *;
    DirectShape(limits, task, key, op, patch, r);
    assert patch.operations[..|patch.operations|] == patch.operations;
    FinishIs(key, op, patch.(state := Staging), r);
    PatchAccepted.FinishManifest(key, op, patch.(state := Staging), r);
  }

  lemma CompletedSame(w: World, key: Key, op: Operation, patch: PatchEffect, manifest: Option<Manifest>)
    requires ApplyAll(w.repository.files, patch.operations).Some?
    ensures var again := patch.(manifest := manifest);
      PatchAccepted.Completed(w.(patches := w.patches[key := again]), key, op, again.(state := Staging)) ==
      PatchAccepted.Completed(w, key, op, patch.(state := Staging))
  {
    hide ApplyAll, ManifestOf, Midway;
  }

  /** Finding its own intent stored changes nothing for a fresh call. */
  lemma RetryIsSame(limits: Limits, task: TaskPolicy, w: World, key: Key, manifest: Option<Manifest>)
    requires w.repository.Ok() && FreshCall(w, key) && ApplyScript(limits, task, true, w, key).outcome.Patched?
    requires key in w.operations && key in w.results
    ensures var again := WithManifest(w, key, manifest);
      && ApplyScript(limits, task, true, again, key).outcome == ApplyScript(limits, task, true, w, key).outcome
      && Replay(again, ApplyScript(limits, task, true, again, key).effects) == Replay(w, ApplyScript(limits, task, true, w, key).effects)
  {
    hide DirectScript, ApplyScript, WithIntent, Replay, Repository.Clean, Repository.Ok, FreshCall, IntentMatches;
    RetryTakesDirectPath(limits, task, w, key, manifest);
    FreshCallIsDirect(limits, task, w, key);
    var w1 := WithIntent(w, key);
    var direct := DirectScript(limits, task, key, w.operations[key], w1.patches[key], w.repository);
    PatchAccepted.StoredIntentReplays(w, key, direct.effects);
    ManifestIsReplaced(limits, task, w1, key, w.operations[key], w1.patches[key], manifest);
  }

  lemma RetryTakesDirectPath(limits: Limits, task: TaskPolicy, w: World, key: Key, manifest: Option<Manifest>)
    requires FreshCall(w, key) && ApplyScript(limits, task, true, w, key).outcome.Patched?
    requires key in w.operations && key in w.results
    ensures var again := WithManifest(w, key, manifest);
      && key in again.patches && again.patches[key] == WithIntent(w, key).patches[key].(manifest := manifest)
      && ApplyScript(limits, task, true, again, key) == DirectScript(limits, task, key, w.operations[key], again.patches[key], w.repository)
  {
    hide DirectScript, RecoverScript, AcceptedElsewhere, IntentMatches, ReceiptMatches, Repository.Clean;
    var again := WithManifest(w, key, manifest);
    FreshCallIsDirect(limits, task, w, key);
    AcceptedElsewhereSame(w, again, key, w.results[key]);
    StillAnnounced(WithIntent(w, key).patches[key], w.operations[key], w.results[key], w.repository, manifest, w.repository.stages);
  }

  lemma StillAnnounced(patch: PatchEffect, op: Operation, result: Result, r: Repository, manifest: Option<Manifest>, stages: map<Stage, string>)
    requires IntentMatches(patch, op, result, r)
    ensures IntentMatches(patch.(manifest := manifest), op, result, r.(stages := stages))
  {
  }

  lemma RetryIsRefused(limits: Limits, task: TaskPolicy, w: World, key: Key, manifest: Option<Manifest>, stages: map<Stage, string>)
    requires FreshCall(w, key) && ApplyScript(limits, task, true, w, key).outcome.Patched?
    requires key in w.operations && key in w.results && stages != map[]
    ensures ApplyScript(limits, task, true, WithManifest(w, key, manifest).(repository := w.repository.(stages := stages)), key) == Raise(PolicyError)
  {
    hide DirectScript, RecoverScript, AcceptedElsewhere, IntentMatches, ReceiptMatches, Repository.Changed;
    var dirty := WithManifest(w, key, manifest).(repository := w.repository.(stages := stages));
    FreshCallIsDirect(limits, task, w, key);
    AcceptedElsewhereSame(w, dirty, key, w.results[key]);
    StillAnnounced(WithIntent(w, key).patches[key], w.operations[key], w.results[key], w.repository, manifest, stages);
    assert !dirty.repository.Clean();
  }

  function SampleOperation(): Operation {
    var payload := Payload("task", "project", "plan", 1, "managed", "workspace", "branch", "context", 1);
    Operation(Identity("op", "project", "plan", 1, "managed", "task", "workspace", "branch", payload, "context",
                       IdempotencyKey("project", "plan", 1, "managed", 1, payload)),
              "deterministic", 1000, ResultAvailable, Some("t"), 0, Some("op"))
  }

  /** A clean workspace, one creation to apply to it, and limits that allow everything but `.git`. */
  function SampleStart(): World {
    var op := SampleOperation();
    var result := Result("t", "task", "workspace", "branch", Succeeded, "", [FileOperation(Create, "a", Some("x"))], 0, None);
    World(map[KeyOf(op.identity) := op], map[KeyOf(op.identity) := result],
          map[KeyOf(op.identity) := Receipt(op.identity, "deterministic", "t", result)],
          map[], map[], map[], Repository("commit", "branch", map[], map[], map[]), [])
  }

  function SampleLimits(): Limits {
    Limits(false, 1000, 1000, _ => true)
  }

  lemma SampleIsAcceptable()
    ensures var ops := [FileOperation(Create, "a", Some("x"))];
      && Acceptable(SampleLimits(), map[], TaskPolicy([], []), ops)
      && ApplyAll(map[], ops).Some? && Effective(map[], ops[0])
  {
    var a := ["a"];
    var op := FileOperation(Create, "a", Some("x"));
    assert WellFormedPart("a") by { assert |"a"| == 1 && |".."| == 2 && "a"[0] == 'a' && "."[0] == '.'; }
    assert Join(a) == "a";
    ComponentsOfJoin(a);
    NormalizeCanonical("a");
    assert "a"[0] == 'a' && |"a"| == 1 && ".git"[0] == '.' && |".git/"| == 5;
    assert Utf8.Length("x") <= 4 by { assert "x"[1..] == [] && Utf8.Encode("x") == Utf8.EncodeChar('x') + Utf8.Encode([]); }
    assert [op][..0] == [];
    assert TotalSize([op]) == ContentSize(op);
  }

  lemma SampleCallIsAccepted()
    ensures var w := SampleStart();
      var key := KeyOf(SampleOperation().identity);
      && key in w.operations && key in w.results && key !in w.patches
      && w.repository.Ok() && w.repository.Clean() && FreshCall(w, key)
      && ApplyScript(SampleLimits(), TaskPolicy([], []), true, w, key) ==
         Emit([SavePatch(key, IntentFor(w.operations[key], w.results[key], w.repository))],
              DirectScript(SampleLimits(), TaskPolicy([], []), key, w.operations[key],
                           IntentFor(w.operations[key], w.results[key], w.repository), w.repository))
      && DirectScript(SampleLimits(), TaskPolicy([], []), key, w.operations[key],
                      IntentFor(w.operations[key], w.results[key], w.repository), w.repository).outcome.Patched?
  {
    hide DirectScript, Acceptable, Effective, SampleLimits;
    var w := SampleStart();
    var op := SampleOperation();
    var key := KeyOf(op.identity);
    assert w.repository.Changed() == {};
    SampleIsAcceptable();
    DirectAcceptsIff(SampleLimits(), TaskPolicy([], []), key, op, IntentFor(op, w.results[key], w.repository), w.repository);
  }

  lemma ReplacingIsNotEmpty(key: Key, op: Operation, patch: PatchEffect, repository: Repository)
    ensures ReplaceScript(key, op, patch, repository, 0).effects != []
  {
    hide ApplyOne, AfterRepository, ManifestOf, Repository.StatusIs;
  }

  /** The first two effects of an accepted fresh call without a stored intent, and that more follow. */
  lemma FirstTwoEffects(limits: Limits, task: TaskPolicy, w: World, key: Key, intent: PatchEffect)
    requires key in w.operations && w.repository.Clean()
    requires intent.state == PatchPrepared
    requires DirectScript(limits, task, key, w.operations[key], intent, w.repository).outcome.Patched?
    requires ApplyScript(limits, task, true, w, key) ==
             Emit([SavePatch(key, intent)], DirectScript(limits, task, key, w.operations[key], intent, w.repository))
    ensures 2 < |ApplyScript(limits, task, true, w, key).effects|
    ensures Reached(w, ApplyScript(limits, task, true, w, key), 2) == w.(patches := w.patches[key := intent.(state := Staging)])
  {
    hide ApplyScript, DirectScript, ReplaceScript, StageEffects, Repository.Clean, Midway;
    DirectShape(limits, task, key, w.operations[key], intent, w.repository);
    ReplacingIsNotEmpty(key, w.operations[key], intent.(state := Staging), Midway(key, intent.operations, w.repository, 0));
    var effects := ApplyScript(limits, task, true, w, key).effects;
    var a, b := SavePatch(key, intent), SavePatch(key, intent.(state := Staging));
    assert effects[..2] == [a] + [b];
    ReplayConcat(w, [a], [b]);
    ReplayOne(w, a);
    ReplayOne(After(w, a), b);
  }

  /** The crash theorems speak of calls that exist: here is one that dies right after its staging intent. */
  lemma SomeCallDiesMidway()
    ensures DiesMidway(SampleLimits(), TaskPolicy([], []), SampleStart(), KeyOf(SampleOperation().identity), 2)
  {
    hide ApplyScript, DirectScript, SampleStart, SampleOperation, SampleLimits, Reached, Repository.Clean, Repository.Ok;
    var w := SampleStart();
    var key := KeyOf(SampleOperation().identity);
    SampleCallIsAccepted();
    FirstTwoEffects(SampleLimits(), TaskPolicy([], []), w, key, IntentFor(w.operations[key], w.results[key], w.repository));
  }
}
