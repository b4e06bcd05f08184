/** `apply_and_accept` keeps the protocol's invariant at every crash point. */
module PatchSafety {
  import opened Wrappers
  import opened ProviderModel
  import opened Patching
  import opened PatchScripts
  import opened ProtocolScripts
  import opened ProtocolSafety

  /** The operation holds a result that nobody else was accepted for. */
  ghost predicate MayAccept(w: World, key: Key, op: Operation, result: Result) {
    && Inv(w)
    && key in w.operations && w.operations[key] == op && op.state == ResultAvailable
    && !AcceptedElsewhere(w, key, result)
  }

  lemma PatchSaveIsSafe(w: World, key: Key, op: Operation, p: PatchEffect)
    requires MayAccept(w, key, op, p.result) && PatchOk(p)
    ensures Safe(w, SavePatch(key, p)) && AllSafe(w, [SavePatch(key, p)])
    ensures MayAccept(After(w, SavePatch(key, p)), key, op, p.result)
  {
    hide PatchOk;
    OneSafe(w, SavePatch(key, p));
    SafeKeepsInv(w, SavePatch(key, p));
  }

  lemma WorkspaceIsSafe(w: World, key: Key, op: Operation, result: Result, e: Effect)
    requires MayAccept(w, key, op, result) && Harmless(e)
    ensures Safe(w, e) && MayAccept(After(w, e), key, op, result)
  {
    HarmlessIsSafe(w, e);
    hide Inv;
  }

  lemma {:induction false} StagingIsSafe(w: World, key: Key, op: Operation, result: Result, effects: seq<Effect>)
    requires MayAccept(w, key, op, result)
    requires forall i :: 0 <= i < |effects| ==> Harmless(effects[i])
    ensures AllSafe(w, effects) && MayAccept(Replay(w, effects), key, op, result)
    decreases |effects|
  {
    hide Inv, MayAccept;
    if effects != [] {
      WorkspaceIsSafe(w, key, op, result, effects[0]);
      StagingIsSafe(After(w, effects[0]), key, op, result, effects[1..]);
    }
  }

  /** The accepted operation may only be saved over its accepted patch. */
  lemma AcceptIsSafe(w: World, key: Key, op: Operation, p: PatchEffect)
    requires MayAccept(w, key, op, p.result) && PatchOk(p) && p.state == Accepted
    ensures AllSafe(w, [SavePatch(key, p), SaveOperation(op.(state := ResultAccepted))])
  {
    PatchSaveIsSafe(w, key, op, p);
    StoredUnderOwnKey(w, key);
    TwoSafe(w, SavePatch(key, p), SaveOperation(op.(state := ResultAccepted)));
  }

  /** The verified patch is accepted, and then the operation. */
  lemma VerifiedIsSafe(w: World, key: Key, op: Operation, p: PatchEffect)
    requires MayAccept(w, key, op, p.result) && PatchOk(p) && PatchOk(p.(state := Accepted))
    ensures AllSafe(w, [SavePatch(key, p)] + [SavePatch(key, p.(state := Accepted)), SaveOperation(op.(state := ResultAccepted))])
  {
    hide MayAccept, PatchOk, Safe, AllSafe;
    PatchSaveIsSafe(w, key, op, p);
    AcceptIsSafe(After(w, SavePatch(key, p)), key, op, p.(state := Accepted));
    OneSafe(w, SavePatch(key, p));
    AllSafeConcat(w, [SavePatch(key, p)], [SavePatch(key, p.(state := Accepted)), SaveOperation(op.(state := ResultAccepted))]);
  }

  lemma FinishIsSafe(w: World, key: Key, op: Operation, p: PatchEffect, r: Repository)
    requires MayAccept(w, key, op, p.result) && PatchOk(p) && p.completed == p.expected && p.state != PatchPrepared
    ensures AllSafe(w, FinishScript(key, op, p, r).effects)
  {
    hide Inv, MayAccept, ManifestOf, Repository.StatusIs, Safe, AllSafe, After;
    var script := FinishScript(key, op, p, r);
    var applied := p.(state := Applied);
    var verified := applied.(state := Verified, manifest := Some(ManifestOf(op, r)));
    var rest := script.effects[1..];
    assert script.effects == [SavePatch(key, applied)] + rest;
    PatchSaveIsSafe(w, key, op, applied);
    var w1 := After(w, SavePatch(key, applied));
    OneSafe(w, SavePatch(key, applied));
    AllSafeConcat(w, [SavePatch(key, applied)], rest);
    if |rest| == 1 {
      PatchSaveIsSafe(w1, key, op, applied.(state := PatchNeedsReconciliation));
    } else {
      VerifiedIsSafe(w1, key, op, verified);
      assert rest == [SavePatch(key, verified)] + [SavePatch(key, verified.(state := Accepted)), SaveOperation(op.(state := ResultAccepted))];
    }
  }

  lemma CheckpointIsOk(p: PatchEffect, i: nat)
    requires PatchOk(p) && i < |p.operations| && p.state != PatchPrepared && p.completed == PathList(p.operations)[..i]
    requires p.manifest.None?
    ensures var next := Checkpoint(p, p.operations[i].path);
      PatchOk(next) && PatchOk(p.(state := PatchUncertain)) && next.completed == PathList(next.operations)[..i + 1]
  {
    assert PathList(p.operations)[..i + 1] == PathList(p.operations)[..i] + [p.operations[i].path];
  }

  lemma ChangeIsHarmless(key: Key, i: nat, item: FileOperation)
    ensures Harmless(FileEffect(key, i, item))
  {
    hide Destination;
  }

  lemma AtEnd(p: PatchEffect)
    ensures PathList(p.operations)[..|p.operations|] == PathList(p.operations)
  {
  }

  lemma {:induction false} ReplaceIsSafe(w: World, key: Key, op: Operation, p: PatchEffect, r: Repository, i: nat)
    requires MayAccept(w, key, op, p.result) && PatchOk(p) && i <= |p.operations|
    requires p.state != PatchPrepared && p.completed == PathList(p.operations)[..i]
    requires p.manifest.None? || p.operations == []
    ensures AllSafe(w, ReplaceScript(key, op, p, r, i).effects)
    decreases |p.operations| - i
  {
    hide Inv, MayAccept, FinishScript, ApplyOne, Safe, AllSafe, After, Replay, PatchOk, FileEffect, Harmless;
    if i == |p.operations| {
      AtEnd(p);
      ExpectedIsListed(p);
      FinishIsSafe(w, key, op, p, r);
    } else {
      CheckpointIsOk(p, i);
      if ApplyOne(r.files, p.operations[i]).None? {
        PatchSaveIsSafe(w, key, op, p.(state := PatchUncertain));
      } else {
        var change := FileEffect(key, i, p.operations[i]);
        var next := Checkpoint(p, p.operations[i].path);
        ChangeIsHarmless(key, i, p.operations[i]);
        WorkspaceIsSafe(w, key, op, p.result, change);
        PatchSaveIsSafe(After(w, change), key, op, next);
        TwoSafe(w, change, SavePatch(key, next));
        var rest := ReplaceScript(key, op, next, AfterRepository(r, change), i + 1).effects;
        ReplaceIsSafe(After(After(w, change), SavePatch(key, next)), key, op, next, AfterRepository(r, change), i + 1);
        AllSafeConcat(w, [change, SavePatch(key, next)], rest);
      }
    }
  }

  lemma ExpectedIsListed(p: PatchEffect)
    requires PatchOk(p)
    ensures p.expected == PathList(p.operations)
  {
  }

  lemma {:induction false} StageEffectsAreHarmless(key: Key, ops: seq<FileOperation>)
    ensures forall i :: 0 <= i < |StageEffects(key, ops)| ==> Harmless(StageEffects(key, ops)[i])
  {
    if ops != [] {
      StageEffectsAreHarmless(key, ops[..|ops| - 1]);
    }
  }

  lemma DirectIsSafe(limits: Limits, task: TaskPolicy, w: World, key: Key, op: Operation, p: PatchEffect, r: Repository)
    requires MayAccept(w, key, op, p.result) && PatchOk(p) && p.state == PatchPrepared
    ensures AllSafe(w, DirectScript(limits, task, key, op, p, r).effects)
  {
    hide Inv, MayAccept, Acceptable, ReplaceScript, StageEffects, StagedRepository;
    var staging := p.(state := Staging);
    var first := SavePatch(key, staging);
    PatchSaveIsSafe(w, key, op, staging);
    OneSafe(w, first);
    var w1 := After(w, first);
    PatchSaveIsSafe(w1, key, op, staging.(state := PatchUncertain));
    var stages := StageEffects(key, p.operations);
    StageEffectsAreHarmless(key, p.operations);
    StagingIsSafe(w1, key, op, p.result, stages);
    var replace := ReplaceScript(key, op, staging, StagedRepository(key, p.operations, r), 0).effects;
    PreparedHasNoManifest(p);
    ReplaceIsSafe(Replay(w1, stages), key, op, staging, StagedRepository(key, p.operations, r), 0);
    AllSafeConcat(w1, stages, replace);
    AllSafeConcat(w, [first], stages + replace);
    AllSafeConcat(w, [first], [SavePatch(key, staging.(state := PatchUncertain))]);
  }

  lemma PreparedHasNoManifest(p: PatchEffect)
    requires PatchOk(p) && p.state == PatchPrepared
    ensures p.completed == PathList(p.operations)[..0]
    ensures p.manifest.None? || p.operations == []
  {
    if p.manifest.Some? {
      assert |PathList(p.operations)| == |p.operations|;
    }
  }

  lemma RecoverIsSafe(w: World, key: Key, op: Operation, p: PatchEffect, result: Result, r: Repository)
    requires MayAccept(w, key, op, p.result) && PatchOk(p)
    ensures AllSafe(w, RecoverScript(key, op, p, result, r).effects)
  {
    hide Inv, MayAccept, ManifestOf, Matching, Expected, Repository.StatusIs;
    var script := RecoverScript(key, op, p, result, r);
    PatchSaveIsSafe(w, key, op, p.(state := PatchNeedsReconciliation));
    if script.outcome.Patched? {
      AcceptIsSafe(w, key, op, script.effects[0].patch);
    } else if p.completed == [] {
      PatchSaveIsSafe(w, key, op, p.(state := PatchPrepared, completed := []));
    }
  }

  lemma ResumeIsSafe(limits: Limits, task: TaskPolicy, w: World, key: Key, op: Operation, p: PatchEffect, result: Result, r: Repository)
    requires MayAccept(w, key, op, p.result) && PatchOk(p)
    ensures AllSafe(w, ResumeScript(limits, task, key, op, p, result, r).effects)
  {
    if p.state != PatchPrepared {
      RecoverIsSafe(w, key, op, p, result, r);
    } else if r.Clean() {
      DirectIsSafe(limits, task, w, key, op, p, r);
    }
  }

  lemma StoredApplyIsSafe(limits: Limits, task: TaskPolicy, w: World, key: Key, op: Operation, result: Result)
    requires MayAccept(w, key, op, result) && key in w.patches
    ensures var p := w.patches[key];
      AllSafe(w, if IntentMatches(p, op, result, w.repository) then ResumeScript(limits, task, key, op, p, result, w.repository).effects
                 else PatchReconciliation(key, p).effects)
  {
    hide ResumeScript, IntentMatches, PatchOk, Safe, AllSafe, AcceptedElsewhere;
    StoredPatchIsOk(w, key);
    if IntentMatches(w.patches[key], op, result, w.repository) {
      MatchedIsSame(w.patches[key], op, result, w.repository);
      ResumeIsSafe(limits, task, w, key, op, w.patches[key], result, w.repository);
    } else {
      MismatchIsSafe(w, key);
    }
  }

  lemma FreshApplyIsSafe(limits: Limits, task: TaskPolicy, w: World, key: Key, op: Operation, result: Result)
    requires MayAccept(w, key, op, result)
    ensures var intent := IntentFor(op, result, w.repository);
      AllSafe(w, [SavePatch(key, intent)] + ResumeScript(limits, task, key, op, intent, result, w.repository).effects)
  {
    hide ResumeScript, PatchOk, Safe, AllSafe, MayAccept;
    var intent := IntentFor(op, result, w.repository);
    IntentIsOk(op, result, w.repository);
    PatchSaveIsSafe(w, key, op, intent);
    OneSafe(w, SavePatch(key, intent));
    ResumeIsSafe(limits, task, After(w, SavePatch(key, intent)), key, op, intent, result, w.repository);
    AllSafeConcat(w, [SavePatch(key, intent)], ResumeScript(limits, task, key, op, intent, result, w.repository).effects);
  }

  lemma ApplyIsSafe(limits: Limits, task: TaskPolicy, known: bool, w: World, key: Key)
    requires Inv(w)
    ensures AllSafe(w, ApplyScript(limits, task, known, w, key).effects)
  {
    hide Inv, ResumeScript, ReceiptMatches, AcceptedElsewhere, Repository.Clean, Safe, AllSafe, IntentMatches, IntentFor, PatchReconciliation;
    NothingIsSafe(w);
    if key in w.operations && key in w.results && w.operations[key].state == ResultAvailable {
      var op, result := w.operations[key], w.results[key];
      ResaveIsSafe(w, key, op.(state := NeedsReconciliation));
      if !AcceptedElsewhere(w, key, result) {
        if key in w.patches {
          StoredApplyIsSafe(limits, task, w, key, op, result);
        } else {
          FreshApplyIsSafe(limits, task, w, key, op, result);
        }
      }
    }
  }

  lemma MatchedIsSame(p: PatchEffect, op: Operation, result: Result, r: Repository)
    requires IntentMatches(p, op, result, r)
    ensures p.result == result
  {
  }

  lemma IntentIsOk(op: Operation, result: Result, r: Repository)
    ensures PatchOk(IntentFor(op, result, r))
  {
  }

  lemma StoredPatchIsOk(w: World, key: Key)
    requires Inv(w) && key in w.patches
    ensures PatchOk(w.patches[key])
  {
  }

  /** A stored intent that announces something else is handed over without being accepted. */
  lemma MismatchIsSafe(w: World, key: Key)
    requires Inv(w) && key in w.patches && key in w.operations && w.operations[key].state == ResultAvailable
    ensures AllSafe(w, PatchReconciliation(key, w.patches[key]).effects)
  {
    OneSafe(w, SavePatch(key, w.patches[key].(state := PatchNeedsReconciliation)));
  }

  lemma ScriptIsSafe(cfg: Config, w: World, c: Command)
    requires Inv(w)
    ensures AllSafe(w, ScriptOf(cfg, w, c).effects)
  {
    hide Inv, AllSafe, PrepareScript, SubmitScript, PollScript, ResultScript, ApplyScript, CancelScript,
      ReconcileScript, ReconcileCancellationScript;
    match c
    case Prepare(request) => PrepareIsSafe(cfg, w, request);
    case Submit(key, identity, allowLive, confirmUsage, reply, lookup) =>
      SubmitIsSafe(cfg, w, key, identity, allowLive, confirmUsage, reply, lookup);
    case Poll(key, events, status) => PollCallIsSafe(cfg, w, key, events, status);
    case FetchResult(key, tokens, cost, reply) => ResultIsSafe(cfg, w, key, tokens, cost, reply);
    case ApplyAndAccept(key, task, policy) => ApplyIsSafe(cfg.limits(policy), task, policy in cfg.changePolicies, w, key);
    case Cancel(key, actor, reason, raises, status) => CancelIsSafe(cfg, w, key, actor, reason, raises, status);
    case Reconcile(key, lookup) => ReconcileIsSafe(cfg, w, key, lookup);
    case ReconcileCancellation(key, status) => ReconcileCancellationIsSafe(cfg, w, key, status);
  }

  lemma PollCallIsSafe(cfg: Config, w: World, key: Key, events: Option<seq<ProgressEvent>>, status: Option<Status>)
    requires Inv(w)
    ensures AllSafe(w, PollScript(cfg, w, key, events, status).effects)
  {
    hide PollEvents;
    if key in w.operations && events.Some? {
      PollIsSafe(cfg, w, key, w.operations[key], LogAt(w, key), events.value, status);
    }
  }

  lemma ReconcileCancellationIsSafe(cfg: Config, w: World, key: Key, status: Option<Status>)
    requires Inv(w)
    ensures AllSafe(w, ReconcileCancellationScript(cfg, w, key, status).effects)
  {
    if key in w.operations && key in w.cancellations {
      CancellationIsSafe(w, key, w.operations[key], w.cancellations[key], status);
    }
  }
}
