/** How far a stored patch is applied, followed through every atomic effect of every call. */
module PatchTracking {
  import opened Wrappers
  import opened Paths
  import opened ProviderModel
  import opened Patching
  import opened PatchScripts
  import opened PatchExact
  import opened PatchCrash
  import opened ProtocolScripts

  predicate SavesAccepted(e: Effect) {
    e.SavePatch? && e.patch.state == Accepted
  }

  /** What `apply_and_accept` does besides accepting. */
  predicate Plain(e: Effect, key: Key) {
    && (e.SavePatch? ==> e.key == key && e.patch.state != Accepted)
    && (e.ReplaceFile? ==> WellFormed(e.path))
    && (e.SaveOperation? ==> e.operation.state == NeedsReconciliation || e.operation.state == ResultAccepted)
    && !e.SaveResult? && !e.SaveReceipt? && !e.SaveProgress? && !e.SaveCancellation? && !e.CallSubmit? && !e.CallCancel?
  }

  /** An effect that accepts is the last but one: only the operation itself is saved after it. */
  predicate PlainOrLast(script: Script, key: Key, j: nat)
    requires j < |script.effects|
  {
    || Plain(script.effects[j], key)
    || (&& SavesAccepted(script.effects[j]) && script.effects[j].key == key
        && script.outcome.Patched? && j == |script.effects| - 2 && script.effects[j + 1].SaveOperation?)
  }

  /** The call saves its own patch only, replaces ordinary files only, and accepts at its end only. */
  ghost predicate EndsWell(script: Script, key: Key) {
    forall j :: 0 <= j < |script.effects| ==> PlainOrLast(script, key, j)
  }

  lemma EmitEndsWell(effects: seq<Effect>, rest: Script, key: Key)
    requires forall j :: 0 <= j < |effects| ==> Plain(effects[j], key)
    requires EndsWell(rest, key)
    ensures EndsWell(Emit(effects, rest), key)
  {
    hide Plain, SavesAccepted;
    var script := Emit(effects, rest);
    var n := |effects|;
    forall j | 0 <= j < |script.effects| ensures PlainOrLast(script, key, j) {
      if j >= n {
        assert script.effects[j] == rest.effects[j - n];
        assert PlainOrLast(rest, key, j - n);
      }
    }
  }

  lemma AcceptEndsWell(key: Key, patch: PatchEffect, op: Operation, outcome: Outcome)
    requires outcome.Patched? && patch.state == Accepted && op.state == ResultAccepted
    ensures EndsWell(Script([SavePatch(key, patch), SaveOperation(op)], outcome), key)
  {
    var script := Script([SavePatch(key, patch), SaveOperation(op)], outcome);
    assert PlainOrLast(script, key, 0) && PlainOrLast(script, key, 1);
  }

  lemma FinishEndsWell(key: Key, op: Operation, patch: PatchEffect, r: Repository)
    ensures EndsWell(FinishScript(key, op, patch, r), key)
  {
    hide EndsWell, ManifestOf, Repository.StatusIs, PathSet;
    var applied := patch.(state := Applied);
    var verified := applied.(state := Verified, manifest := Some(ManifestOf(op, r)));
    var done := op.(state := ResultAccepted);
    var end := Script([SavePatch(key, verified.(state := Accepted)), SaveOperation(done)], Patched(done, ManifestOf(op, r)));
    AcceptEndsWell(key, verified.(state := Accepted), done, end.outcome);
    EmitEndsWell([SavePatch(key, verified)], end, key);
    OneEndsWell(SavePatch(key, applied.(state := PatchNeedsReconciliation)), key, Raised(ReconciliationError));
    EmitEndsWell([SavePatch(key, applied)], PatchReconciliation(key, applied), key);
    EmitEndsWell([SavePatch(key, applied)], Emit([SavePatch(key, verified)], end), key);
    assert [SavePatch(key, verified)] + end.effects == [SavePatch(key, verified), end.effects[0], end.effects[1]];
  }

  lemma {:induction false} ReplaceEndsWell(key: Key, op: Operation, patch: PatchEffect, r: Repository, i: nat)
    requires i <= |patch.operations|
    requires forall j :: 0 <= j < |patch.operations| ==> SafeRelative(patch.operations[j].path)
    ensures EndsWell(ReplaceScript(key, op, patch, r, i), key)
    decreases |patch.operations| - i
  {
    hide FinishScript, EndsWell, SafeRelative, ApplyOne, AfterRepository, FileEffect;
    if i == |patch.operations| {
      FinishEndsWell(key, op, patch, r);
    } else if ApplyOne(r.files, patch.operations[i]).None? {
      OneEndsWell(SavePatch(key, patch.(state := PatchUncertain)), key, Raised(FileFailure));
    } else {
      var change := FileEffect(key, i, patch.operations[i]);
      var next := Checkpoint(patch, patch.operations[i].path);
      ReplaceEndsWell(key, op, next, AfterRepository(r, change), i + 1);
      ChangeIsPlain(key, i, patch.operations[i], r.files);
      EmitEndsWell([change, SavePatch(key, next)], ReplaceScript(key, op, next, AfterRepository(r, change), i + 1), key);
    }
  }

  lemma OneEndsWell(e: Effect, key: Key, outcome: Outcome)
    requires Plain(e, key)
    ensures EndsWell(Script([e], outcome), key)
  {
  }

  lemma ChangeIsPlain(key: Key, i: nat, item: FileOperation, files: map<Path, string>)
    requires SafeRelative(item.path) && ApplyOne(files, item).Some?
    ensures Plain(FileEffect(key, i, item), key)
  {
    hide SafeRelative, WellFormed;
    if Writes(item) {
      SafeComponents(item.path);
    }
  }

  lemma DirectEndsWell(limits: Limits, task: TaskPolicy, key: Key, op: Operation, patch: PatchEffect, r: Repository)
    ensures EndsWell(DirectScript(limits, task, key, op, patch, r), key)
  {
    hide EndsWell, Acceptable, ReplaceScript, StagedRepository, StageEffects;
    var ops := patch.operations;
    var staging := patch.(state := Staging);
    if Acceptable(limits, r.files, task, ops) {
      AcceptableAreSafe(limits, r.files, task, ops);
      var replace := ReplaceScript(key, op, staging, StagedRepository(key, ops, r), 0);
      ReplaceEndsWell(key, op, staging, StagedRepository(key, ops, r), 0);
      StageEffectsStage(AnyWorld(r), key, ops);
      EmitEndsWell(StageEffects(key, ops), replace, key);
      EmitEndsWell([SavePatch(key, staging)], Emit(StageEffects(key, ops), replace), key);
    } else {
      var refused := Script([SavePatch(key, staging.(state := PatchUncertain))], Raised(PolicyError));
      OneEndsWell(refused.effects[0], key, refused.outcome);
      EmitEndsWell([SavePatch(key, staging)], refused, key);
    }
  }

  function AnyWorld(r: Repository): World {
    World(map[], map[], map[], map[], map[], map[], r, [])
  }

  lemma RecoverEndsWell(key: Key, op: Operation, patch: PatchEffect, result: Result, r: Repository)
    ensures EndsWell(RecoverScript(key, op, patch, result, r), key)
  {
    hide EndsWell, ManifestOf, Repository.StatusIs, Matching, Expected;
    var script := RecoverScript(key, op, patch, result, r);
    if script.outcome.Patched? {
      AcceptEndsWell(key, script.effects[0].patch, script.effects[1].operation, script.outcome);
    } else {
      OneEndsWell(script.effects[0], key, script.outcome);
    }
  }

  lemma ResumeEndsWell(limits: Limits, task: TaskPolicy, key: Key, op: Operation, patch: PatchEffect, result: Result, r: Repository)
    ensures EndsWell(ResumeScript(limits, task, key, op, patch, result, r), key)
  {
    hide DirectScript, RecoverScript, Repository.Clean;
    RecoverEndsWell(key, op, patch, result, r);
    DirectEndsWell(limits, task, key, op, patch, r);
  }

  lemma ApplyEndsWell(limits: Limits, task: TaskPolicy, known: bool, w: World, key: Key)
    ensures EndsWell(ApplyScript(limits, task, known, w, key), key)
  {
    hide EndsWell, ResumeScript, AcceptedElsewhere, ReceiptMatches, IntentMatches, Repository.Clean;
    NothingEndsWell(key, ApplyScript(limits, task, known, w, key));
    if key in w.operations && key in w.results {
      var op, result := w.operations[key], w.results[key];
      OneEndsWell(SaveOperation(op.(state := NeedsReconciliation)), key, Raised(ReconciliationError));
      if key in w.patches {
        ResumeEndsWell(limits, task, key, op, w.patches[key], result, w.repository);
        OneEndsWell(SavePatch(key, w.patches[key].(state := PatchNeedsReconciliation)), key, Raised(ReconciliationError));
      } else {
        var intent := IntentFor(op, result, w.repository);
        ResumeEndsWell(limits, task, key, op, intent, result, w.repository);
        EmitEndsWell([SavePatch(key, intent)], ResumeScript(limits, task, key, op, intent, result, w.repository), key);
      }
    }
  }

  lemma NothingEndsWell(key: Key, script: Script)
    ensures script.effects == [] ==> EndsWell(script, key)
  {
  }

  /** Effects on patches and on the workspace. */
  predicate InWorkspace(e: Effect) {
    e.SavePatch? || e.WriteStage? || e.ReplaceFile? || e.RemoveFile?
  }

  ghost predicate StaysOut(effects: seq<Effect>) {
    forall j :: 0 <= j < |effects| ==> !InWorkspace(effects[j])
  }

  lemma {:induction false} PollStaysOut(cfg: Config, key: Key, op: Operation, log: seq<ProgressEvent>, events: seq<ProgressEvent>, status: Option<Status>)
    ensures StaysOut(PollEvents(cfg, key, op, log, events, status).effects)
    decreases |events|
  {
    hide Appended, Sanitize;
    if events != [] {
      var event := Sanitize(cfg, events[0], op.maximumOutput);
      if Appended(log, event).Some? {
        PollStaysOut(cfg, key, op, Appended(log, event).value, events[1..], status);
        PollStaysOut(cfg, key, op, log, events[1..], status);
      }
    }
  }

  lemma SubmitStaysOut(cfg: Config, w: World, key: Key, request: Identity, allowLive: bool, confirmUsage: bool,
                       reply: SubmitReply, lookup: LookupReply)
    ensures StaysOut(SubmitScript(cfg, w, key, request, allowLive, confirmUsage, reply, lookup).effects)
  {
    hide ReceiptMatches, ResultOf, ReceiptOf, ReconcileScript;
    ReconcileStaysOut(cfg, w, key, lookup);
  }

  lemma ReconcileStaysOut(cfg: Config, w: World, key: Key, lookup: LookupReply)
    ensures StaysOut(ReconcileScript(cfg, w, key, lookup).effects)
  {
    hide ReceiptMatches;
  }

  lemma CancelStaysOut(cfg: Config, w: World, key: Key, actor: string, reason: string, raises: bool, status: Option<Status>)
    ensures StaysOut(CancelScript(cfg, w, key, actor, reason, raises, status).effects)
    ensures StaysOut(ReconcileCancellationScript(cfg, w, key, status).effects)
  {
  }

  lemma FetchStaysOut(cfg: Config, w: World, key: Key, tokens: Option<nat>, cost: Option<real>, reply: Option<Result>)
    ensures StaysOut(ResultScript(cfg, w, key, tokens, cost, reply).effects)
  {
    hide ReceiptMatches, TotalContent;
  }

  /** Only `apply_and_accept` touches patches and the workspace. */
  lemma OthersStayOut(cfg: Config, w: World, c: Command)
    requires !c.ApplyAndAccept?
    ensures StaysOut(ScriptOf(cfg, w, c).effects)
  {
    hide PollEvents, ApplyScript, SubmitScript, ReconcileScript, CancelScript, ReconcileCancellationScript, ResultScript;
    match c
    case Prepare(request) =>
    case Submit(key, identity, allowLive, confirmUsage, reply, lookup) =>
      SubmitStaysOut(cfg, w, key, identity, allowLive, confirmUsage, reply, lookup);
    case Poll(key, events, status) =>
      if key in w.operations && events.Some? {
        PollStaysOut(cfg, key, w.operations[key], LogAt(w, key), events.value, status);
      }
    case FetchResult(key, tokens, cost, reply) => FetchStaysOut(cfg, w, key, tokens, cost, reply);
    case Cancel(key, actor, reason, raises, status) => CancelStaysOut(cfg, w, key, actor, reason, raises, status);
    case Reconcile(key, lookup) => ReconcileStaysOut(cfg, w, key, lookup);
    case ReconcileCancellation(key, status) => CancelStaysOut(cfg, w, key, "", "", false, status);
  }

  lemma {:induction false} OutsideWorkspace(w: World, effects: seq<Effect>)
    requires StaysOut(effects)
    ensures Replay(w, effects).repository == w.repository && Replay(w, effects).patches == w.patches
    decreases |effects|
  {
    hide InWorkspace, After;
    if effects != [] {
      OneOutside(w, effects[0]);
      OutsideWorkspace(After(w, effects[0]), effects[1..]);
    }
  }

  lemma OneOutside(w: World, e: Effect)
    requires !InWorkspace(e)
    ensures After(w, e).repository == w.repository && After(w, e).patches == w.patches
  {
  }

  /** Saving patches under one key leaves the others. */
  lemma {:induction false} OtherPatchesStay(w: World, effects: seq<Effect>, key: Key, other: Key)
    requires forall j :: 0 <= j < |effects| && effects[j].SavePatch? ==> effects[j].key == other
    requires key != other
    ensures Lookup(Replay(w, effects).patches, key) == Lookup(w.patches, key)
    decreases |effects|
  {
    hide After;
    if effects != [] {
      OtherPatchStays(w, effects[0], key);
      OtherPatchesStay(After(w, effects[0]), effects[1..], key, other);
    }
  }

  lemma OtherPatchStays(w: World, e: Effect, key: Key)
    requires e.SavePatch? ==> e.key != key
    ensures Lookup(After(w, e).patches, key) == Lookup(w.patches, key)
  {
  }

  /** Replacing ordinary files keeps every name one that Git lists as it is. */
  lemma {:induction false} NamesStayOk(w: World, effects: seq<Effect>)
    requires w.repository.Ok() && forall j :: 0 <= j < |effects| && effects[j].ReplaceFile? ==> WellFormed(effects[j].path)
    ensures Replay(w, effects).repository.Ok() && Replay(w, effects).repository.base == w.repository.base
    decreases |effects|
  {
    hide After, WellFormed, Repository.Ok;
    if effects != [] {
      NameStaysOk(w, effects[0]);
      NamesStayOk(After(w, effects[0]), effects[1..]);
    }
  }

  lemma NameStaysOk(w: World, e: Effect)
    requires w.repository.Ok() && (e.ReplaceFile? ==> WellFormed(e.path))
    ensures After(w, e).repository.Ok() && After(w, e).repository.base == w.repository.base
  {
    hide WellFormed;
  }

  /** The files are the base changed by the first `k` operations of a list whose texts differ. */
  ghost predicate PartlyApplied(r: Repository, ops: seq<FileOperation>, k: nat) {
    && k <= |ops| && ApplyAll(r.base, ops[..k]) == Some(r.files)
    && (k > 0 ==> forall i, j :: 0 <= i < j < |ops| ==> Normalize(ops[i].path) != Normalize(ops[j].path))
  }

  ghost predicate At(w: World, key: Key, ops: seq<FileOperation>, k: nat) {
    key in w.patches && w.patches[key].operations == ops && PartlyApplied(w.repository, ops, k)
  }

  /** The files are those of the base changed by the first operations of the stored patch. */
  ghost predicate Tracked(w: World, key: Key) {
    key in w.patches ==> exists k :: PartlyApplied(w.repository, w.patches[key].operations, k)
  }

  /** Effects that say how far a patch is and change no file. */
  predicate Records(e: Effect, key: Key, ops: seq<FileOperation>) {
    (e.SavePatch? && e.key == key && e.patch.operations == ops) || e.SaveOperation? || e.WriteStage?
  }

  lemma RecordKeepsAt(w: World, e: Effect, key: Key, ops: seq<FileOperation>, k: nat)
    requires At(w, key, ops, k) && Records(e, key, ops)
    ensures At(After(w, e), key, ops, k)
  {
    hide ApplyAll;
  }

  lemma {:induction false} RecordsKeepAt(w: World, effects: seq<Effect>, key: Key, ops: seq<FileOperation>, k: nat)
    requires At(w, key, ops, k) && forall j :: 0 <= j < |effects| ==> Records(effects[j], key, ops)
    ensures At(Replay(w, effects), key, ops, k)
    decreases |effects|
  {
    hide At, After, Records;
    if effects != [] {
      RecordKeepsAt(w, effects[0], key, ops, k);
      RecordsKeepAt(After(w, effects[0]), effects[1..], key, ops, k);
    }
  }

  lemma FinishRecords(key: Key, op: Operation, patch: PatchEffect, r: Repository)
    ensures forall j :: 0 <= j < |FinishScript(key, op, patch, r).effects| ==> Records(FinishScript(key, op, patch, r).effects[j], key, patch.operations)
  {
    hide ManifestOf, Repository.StatusIs, PathSet;
  }

  lemma RecoverRecords(key: Key, op: Operation, patch: PatchEffect, result: Result, r: Repository)
    ensures var effects := RecoverScript(key, op, patch, result, r).effects;
      forall j :: 0 <= j < |effects| ==> Records(effects[j], key, patch.operations)
  {
    hide ManifestOf, Repository.StatusIs, Matching, Expected;
  }

  /** One change of the loop is one more operation applied. */
  lemma ChangeAdvances(w: World, key: Key, ops: seq<FileOperation>, i: nat)
    requires At(w, key, ops, i) && i < |ops| && ApplyOne(w.repository.files, ops[i]).Some?
    requires Writes(ops[i]) ==> ops[i].content.Some?
    requires forall a, b :: 0 <= a < b < |ops| ==> Normalize(ops[a].path) != Normalize(ops[b].path)
    ensures At(After(w, FileEffect(key, i, ops[i])), key, ops, i + 1)
    ensures After(w, FileEffect(key, i, ops[i])).repository.files == ApplyOne(w.repository.files, ops[i]).value
  {
    hide ApplyAll, ParentIsFile, IsDirectory, Destination, Normalize;
    ApplyAllStep(w.repository.base, ops, i);
  }

  lemma SameFilesAfter(r: Repository, s: Repository, e: Effect)
    requires r.files == s.files
    ensures AfterRepository(r, e).files == AfterRepository(s, e).files
  {
  }

  lemma FileEffectIsChange(w: World, key: Key, i: nat, item: FileOperation)
    ensures var change := FileEffect(key, i, item);
      IsChange(change) && After(w, change).repository == AfterRepository(w.repository, change)
  {
    hide Destination;
  }

  /** Wherever the loop dies, the files are those of some number of its operations. */
  lemma {:induction false} LoopTracks(w: World, key: Key, op: Operation, patch: PatchEffect, r: Repository, i: nat, cut: nat)
    returns (k: nat)
    requires At(w, key, patch.operations, i) && r.files == w.repository.files && ContentGiven(patch.operations)
    requires forall a, b :: 0 <= a < b < |patch.operations| ==> Normalize(patch.operations[a].path) != Normalize(patch.operations[b].path)
    requires i <= |patch.operations| && cut <= |ReplaceScript(key, op, patch, r, i).effects|
    ensures At(Replay(w, ReplaceScript(key, op, patch, r, i).effects[..cut]), key, patch.operations, k)
    decreases |patch.operations| - i
  {
    hide At, Records, FinishScript, ApplyOne, AfterRepository, FileEffect, After, Replay, IsChange, Normalize;
    var ops := patch.operations;
    var effects := ReplaceScript(key, op, patch, r, i).effects;
    k := i;
    if i == |ops| {
      FinishRecords(key, op, patch, r);
      RecordsKeepAt(w, effects[..cut], key, ops, i);
    } else if ApplyOne(r.files, ops[i]).None? {
      SaveIsRecord(key, patch.(state := PatchUncertain));
      RecordsKeepAt(w, effects[..cut], key, ops, i);
    } else if cut == 0 {
      assert effects[..0] == [];
      NothingDone(w);
    } else {
      var change := FileEffect(key, i, ops[i]);
      var next := Checkpoint(patch, ops[i].path);
      var rest := ReplaceScript(key, op, next, AfterRepository(r, change), i + 1).effects;
      ChangeAdvances(w, key, ops, i);
      FileEffectIsChange(w, key, i, ops[i]);
      SameFilesAfter(r, w.repository, change);
      k := i + 1;
      if cut == 1 {
        assert effects[..1] == [change];
        ReplayOne(w, change);
      } else {
        SaveIsNoChange(key, next);
        SaveIsRecord(key, next);
        TwoThenRest(w, change, SavePatch(key, next), rest, cut);
        RecordKeepsAt(After(w, change), SavePatch(key, next), key, ops, i + 1);
        SaveKeepsRepository(After(w, change), key, next);
        k := LoopTracks(After(After(w, change), SavePatch(key, next)), key, op, next, AfterRepository(r, change), i + 1, cut - 2);
      }
    }
  }

  lemma SaveIsRecord(key: Key, patch: PatchEffect)
    ensures Records(SavePatch(key, patch), key, patch.operations)
  {
  }

  lemma SaveKeepsRepository(w: World, key: Key, patch: PatchEffect)
    ensures After(w, SavePatch(key, patch)).repository == w.repository
  {
  }

  lemma CleanIsAtStart(w: World, key: Key, patch: PatchEffect)
    requires w.repository.Clean()
    ensures At(After(w, SavePatch(key, patch)), key, patch.operations, 0)
    ensures key in w.patches && w.patches[key].operations == patch.operations ==> At(w, key, patch.operations, 0)
  {
    hide Repository.Clean;
    CleanMeansBase(w.repository);
    assert patch.operations[..0] == [];
  }

  lemma AcceptableIsApart(limits: Limits, files: map<Path, string>, task: TaskPolicy, ops: seq<FileOperation>)
    requires Acceptable(limits, files, task, ops)
    ensures forall i, j :: 0 <= i < j < |ops| ==> Normalize(ops[i].path) != Normalize(ops[j].path)
  {
    hide AcceptableOne, Normalize;
  }

  lemma StagedFiles(w: World, key: Key, ops: seq<FileOperation>)
    ensures Replay(w, StageEffects(key, ops)).repository == StagedRepository(key, ops, w.repository)
    ensures forall j :: 0 <= j < |StageEffects(key, ops)| ==> Records(StageEffects(key, ops)[j], key, ops)
  {
    hide StageEffects, StagedRepository;
    StageEffectsStage(w, key, ops);
  }

  /** Wherever the direct path dies, from a clean workspace. */
  lemma DirectTracks(limits: Limits, task: TaskPolicy, w: World, key: Key, op: Operation, patch: PatchEffect, cut: nat)
    returns (k: nat)
    requires w.repository.Clean() && key in w.patches && w.patches[key].operations == patch.operations
    requires cut <= |DirectScript(limits, task, key, op, patch, w.repository).effects|
    ensures At(Replay(w, DirectScript(limits, task, key, op, patch, w.repository).effects[..cut]), key, patch.operations, k)
  {
    hide At, Records, Acceptable, ReplaceScript, StageEffects, StagedRepository, Replay, After, Repository.Clean, Normalize, ContentGiven;
    var ops := patch.operations;
    var staging := patch.(state := Staging);
    var effects := DirectScript(limits, task, key, op, patch, w.repository).effects;
    var save := SavePatch(key, staging);
    CleanIsAtStart(w, key, staging);
    SaveIsRecord(key, staging);
    SaveIsRecord(key, staging.(state := PatchUncertain));
    k := 0;
    if !Acceptable(limits, w.repository.files, task, ops) {
      assert effects == [save, SavePatch(key, staging.(state := PatchUncertain))];
      RecordsKeepAt(w, effects[..cut], key, ops, 0);
    } else {
      var stages := StageEffects(key, ops);
      var replace := ReplaceScript(key, op, staging, StagedRepository(key, ops, w.repository), 0).effects;
      var w1 := After(w, save);
      SaveKeepsRepository(w, key, staging);
      StagedFiles(w1, key, ops);
      assert effects == [save] + (stages + replace);
      if cut <= 1 + |stages| {
        assert effects[..cut] == ([save] + stages)[..cut];
        RecordsKeepAt(w, effects[..cut], key, ops, 0);
      } else {
        var part := replace[..cut - 1 - |stages|];
        assert effects[..cut] == [save] + (stages + part);
        ReplayConcat(w, [save], stages + part);
        ReplayOne(w, save);
        ReplayConcat(w1, stages, part);
        RecordsKeepAt(w1, stages, key, ops, 0);
        AcceptableIsApart(limits, w.repository.files, task, ops);
        AcceptableGivesContent(limits, w.repository.files, task, ops);
        k := LoopTracks(Replay(w1, stages), key, op, staging, StagedRepository(key, ops, w.repository), 0, cut - 1 - |stages|);
      }
    }
  }

  lemma AtIsTracked(w: World, key: Key, ops: seq<FileOperation>, k: nat)
    requires At(w, key, ops, k)
    ensures Tracked(w, key)
  {
  }

  lemma TrackedIsAt(w: World, key: Key) returns (k: nat)
    requires Tracked(w, key) && key in w.patches
    ensures At(w, key, w.patches[key].operations, k)
  {
    k :| PartlyApplied(w.repository, w.patches[key].operations, k);
  }

  lemma ResumeTracks(limits: Limits, task: TaskPolicy, w: World, key: Key, op: Operation, result: Result, cut: nat)
    requires Tracked(w, key) && key in w.patches
    requires cut <= |ResumeScript(limits, task, key, op, w.patches[key], result, w.repository).effects|
    ensures Tracked(Replay(w, ResumeScript(limits, task, key, op, w.patches[key], result, w.repository).effects[..cut]), key)
  {
    hide At, Tracked, DirectScript, RecoverScript, Repository.Clean, Replay, Records;
    var patch := w.patches[key];
    var effects := ResumeScript(limits, task, key, op, patch, result, w.repository).effects;
    if patch.state != PatchPrepared {
      var k := TrackedIsAt(w, key);
      RecoverRecords(key, op, patch, result, w.repository);
      RecordsKeepAt(w, effects[..cut], key, patch.operations, k);
      AtIsTracked(Replay(w, effects[..cut]), key, patch.operations, k);
    } else if w.repository.Clean() {
      var k := DirectTracks(limits, task, w, key, op, patch, cut);
      AtIsTracked(Replay(w, effects[..cut]), key, patch.operations, k);
    } else {
      assert effects[..cut] == [];
      NothingDone(w);
    }
  }

  /** The effect leaves files alone and the stored patch's operations as they are. */
  predicate Resaves(w: World, e: Effect, key: Key) {
    e.SaveOperation? || (e.SavePatch? && e.key == key && key in w.patches && e.patch.operations == w.patches[key].operations)
  }

  lemma ResaveTracks(w: World, key: Key, e: Effect)
    requires Tracked(w, key) && Resaves(w, e, key)
    ensures Tracked(After(w, e), key)
  {
    hide PartlyApplied;
    if key in w.patches {
      var k :| PartlyApplied(w.repository, w.patches[key].operations, k);
      assert PartlyApplied(After(w, e).repository, After(w, e).patches[key].operations, k);
    }
  }

  lemma OneTracks(w: World, key: Key, e: Effect, cut: nat)
    requires Tracked(w, key) && Resaves(w, e, key) && cut <= 1
    ensures Tracked(Replay(w, [e][..cut]), key)
  {
    hide Tracked, Replay, Resaves;
    if cut == 0 {
      assert [e][..0] == [];
      NothingDone(w);
    } else {
      assert [e][..1] == [e];
      ReplayOne(w, e);
      ResaveTracks(w, key, e);
    }
  }

  lemma FreshTracks(limits: Limits, task: TaskPolicy, w: World, key: Key, op: Operation, result: Result, cut: nat)
    requires key !in w.patches && w.repository.Clean()
    requires var intent := IntentFor(op, result, w.repository);
      cut <= 1 + |ResumeScript(limits, task, key, op, intent, result, w.repository).effects|
    ensures var intent := IntentFor(op, result, w.repository);
      Tracked(Replay(w, ([SavePatch(key, intent)] + ResumeScript(limits, task, key, op, intent, result, w.repository).effects)[..cut]), key)
  {
    hide At, Tracked, ResumeScript, Repository.Clean, Replay;
    var intent := IntentFor(op, result, w.repository);
    var save := SavePatch(key, intent);
    var rest := ResumeScript(limits, task, key, op, intent, result, w.repository).effects;
    if cut == 0 {
      assert ([save] + rest)[..0] == [];
      NothingDone(w);
      UnknownIsTracked(w, key);
    } else {
      var w1 := After(w, save);
      CleanIsAtStart(w, key, intent);
      AtIsTracked(w1, key, intent.operations, 0);
      SaveKeepsRepository(w, key, intent);
      SavedIsStored(w, key, intent);
      ResumeTracks(limits, task, w1, key, op, result, cut - 1);
      assert ([save] + rest)[..cut] == [save] + rest[..cut - 1];
      ReplayConcat(w, [save], rest[..cut - 1]);
      ReplayOne(w, save);
    }
  }

  lemma UnknownIsTracked(w: World, key: Key)
    requires key !in w.patches
    ensures Tracked(w, key)
  {
  }

  lemma SavedIsStored(w: World, key: Key, patch: PatchEffect)
    ensures key in After(w, SavePatch(key, patch)).patches && After(w, SavePatch(key, patch)).patches[key] == patch
  {
  }

  /** Wherever `apply_and_accept` dies, on whichever path, its own patch stays tracked. */
  lemma ApplyTracks(limits: Limits, task: TaskPolicy, known: bool, w: World, key: Key, cut: nat)
    requires Tracked(w, key) && cut <= |ApplyScript(limits, task, known, w, key).effects|
    ensures Tracked(Replay(w, ApplyScript(limits, task, known, w, key).effects[..cut]), key)
  {
    hide Tracked, ResumeScript, Replay, Repository.Clean, AcceptedElsewhere, ReceiptMatches, IntentMatches;
    var effects := ApplyScript(limits, task, known, w, key).effects;
    if effects == [] {
      assert effects[..cut] == [];
      NothingDone(w);
    } else {
      var op, result := w.operations[key], w.results[key];
      if effects == [SaveOperation(op.(state := NeedsReconciliation))] {
        OneTracks(w, key, effects[0], cut);
      } else if key in w.patches {
        if IntentMatches(w.patches[key], op, result, w.repository) {
          ResumeTracks(limits, task, w, key, op, result, cut);
        } else {
          OneTracks(w, key, effects[0], cut);
        }
      } else {
        FreshTracks(limits, task, w, key, op, result, cut);
      }
    }
  }

  /** A tracked patch that recovery accepts is exactly applied: a path to be left absent is listed, so its
      deletion is among the operations that happened. */
  lemma TrackedRecoveryIsExact(key: Key, op: Operation, patch: PatchEffect, result: Result, r: Repository, k: nat)
    requires r.Ok() && patch.expected == PathList(result.operations)
    requires RecoverScript(key, op, patch, result, r).outcome.Patched?
    requires PartlyApplied(r, result.operations, k)
    ensures ExactlyApplied(r.base, r.files, result.operations)
  {
    hide RecoverScript, Canonical, Normalize, ApplyAll, Repository.Changed, PathSet, PathList, LastFor;
    var ops := result.operations;
    RecoveredIsExactIff(key, op, patch, result, r);
    forall i | 0 <= i < |ops| ensures Canonical(ops[i].path) {
      ListedAreCanonical(r, ops, i);
    }
    forall p: Path | LastFor(ops, p).Some? && Intended(LastFor(ops, p).value).None? ensures p !in r.files {
      var i := LastForIsOne(ops, p);
      ListedAreCanonical(r, ops, i);
      DestinationOfCanonical(ops[i]);
      ListedWasApplied(r, ops, k, i);
    }
  }

  /** Of a partly applied list, an operation whose file differs from the base is done. */
  lemma ListedWasApplied(r: Repository, ops: seq<FileOperation>, k: nat, i: nat)
    requires PartlyApplied(r, ops, k) && i < |ops| && forall j :: 0 <= j < |ops| ==> Canonical(ops[j].path)
    requires Lookup(r.base, Destination(ops[i])) != Lookup(r.files, Destination(ops[i]))
    ensures Lookup(r.files, Destination(ops[i])) == Intended(ops[i])
  {
    hide Canonical, Normalize, ApplyAll, Destination;
    var p := Destination(ops[i]);
    if k == 0 {
      assert ops[..0] == [];
      ApplyNothing(r.base);
    } else {
      ApartAreDistinct(ops);
      ApplyAllIsExact(r.base, ops[..k]);
      assert Lookup(r.files, p) == IntendedAt(r.base, ops[..k], p);
      if i < k {
        LastForUnique(ops[..k], i);
      } else {
        LastForNone(ops[..k], p);
      }
    }
  }
}
