/** What the workspace holds whenever a run of the service saves a patch as accepted: the listed paths and
    nothing else differ, and the files are exactly what the operations ask for if and only if every path
    to be left absent is absent. Where nobody else changes the files after the intent, they always are. */
module AcceptanceRuns {
  import opened Wrappers
  import opened Paths
  import opened ProviderModel
  import opened Patching
  import opened PatchScripts
  import opened PatchCrash
  import opened PatchTracking
  import opened ProtocolScripts
  import opened ProtocolRuns
  import opened ProtocolSafety
  import opened ProviderAnswers
  import opened ApplyAnswers
  import DirectEndings
  import PatchAccepted

  ghost predicate LeavesAbsent(files: map<Path, string>, ops: seq<FileOperation>) {
    forall p: Path :: LastFor(ops, p).Some? && Intended(LastFor(ops, p).value).None? ==> p !in files
  }

  lemma ExactLeavesAbsent(base: map<Path, string>, files: map<Path, string>, ops: seq<FileOperation>)
    requires ExactlyApplied(base, files, ops)
    ensures LeavesAbsent(files, ops)
  {
    hide LastFor, Intended;
    forall p: Path | LastFor(ops, p).Some? && Intended(LastFor(ops, p).value).None? ensures p !in files {
      assert Lookup(files, p) == IntendedAt(base, ops, p);
    }
  }

  /** Whoever changes the workspace from outside leaves only file names that Git lists as they are. */
  predicate Tidy(e: Event) {
    e.Outside? ==> e.repository.Ok()
  }

  lemma PrefixEndsWell(script: Script, key: Key, cut: nat)
    requires EndsWell(script, key) && cut <= |script.effects|
    ensures forall j :: 0 <= j < cut && script.effects[..cut][j].ReplaceFile? ==> WellFormed(script.effects[..cut][j].path)
    ensures forall j :: 0 <= j < cut && script.effects[..cut][j].SavePatch? ==> script.effects[..cut][j].key == key
  {
    hide WellFormed;
    forall j | 0 <= j < cut
      ensures script.effects[..cut][j].ReplaceFile? ==> WellFormed(script.effects[..cut][j].path)
      ensures script.effects[..cut][j].SavePatch? ==> script.effects[..cut][j].key == key
    {
      assert PlainOrLast(script, key, j);
    }
  }

  lemma StepKeepsNames(w: World, e: Event)
    requires w.repository.Ok() && Tidy(e)
    ensures Step(w, e).repository.Ok()
  {
    hide Repository.Ok, EndsWell, ApplyScript, ScriptOf, Replay, StaysOut;
    if e.Invoke? {
      var script := ScriptOf(e.config, w, e.command);
      var cut := if e.fuel < |script.effects| then e.fuel else |script.effects|;
      if e.command.ApplyAndAccept? {
        CallEndsWell(e.config, w, e.command);
        PrefixEndsWell(script, e.command.key, cut);
        NamesStayOk(w, script.effects[..cut]);
      } else {
        OtherCallLeaves(e.config, w, e.command, cut);
      }
    }
  }

  lemma CallEndsWell(cfg: Config, w: World, c: Command)
    requires c.ApplyAndAccept?
    ensures EndsWell(ScriptOf(cfg, w, c), c.key)
    ensures ScriptOf(cfg, w, c) == ApplyScript(cfg.limits(c.policy), c.task, c.policy in cfg.changePolicies, w, c.key)
  {
    hide ApplyScript, EndsWell;
    ApplyEndsWell(cfg.limits(c.policy), c.task, c.policy in cfg.changePolicies, w, c.key);
  }

  lemma OtherCallLeaves(cfg: Config, w: World, c: Command, cut: nat)
    requires !c.ApplyAndAccept? && cut <= |ScriptOf(cfg, w, c).effects|
    ensures var w' := Replay(w, ScriptOf(cfg, w, c).effects[..cut]);
      w'.repository == w.repository && w'.patches == w.patches
  {
    hide ScriptOf, InWorkspace;
    OthersStayOut(cfg, w, c);
    OutsideWorkspace(w, ScriptOf(cfg, w, c).effects[..cut]);
  }

  lemma {:induction false} RunKeepsNames(repository: ProviderModel.Repository, events: seq<Event>)
    requires repository.Ok() && forall i :: 0 <= i < |events| ==> Tidy(events[i])
    ensures Run(Initially(repository), events).repository.Ok()
  {
    hide Repository.Ok, Step, Tidy;
    if events != [] {
      RunKeepsNames(repository, events[..|events| - 1]);
      StepKeepsNames(Run(Initially(repository), events[..|events| - 1]), events[|events| - 1]);
    }
  }

  /** The call whose effect accepts a patch is an `apply_and_accept` of that operation which is about to
      return it, and all its changes of the workspace and of patches are done. */
  lemma AcceptingCall(cfg: Config, w: World, c: Command, i: nat)
    requires i < |ScriptOf(cfg, w, c).effects| && SavesAccepted(ScriptOf(cfg, w, c).effects[i])
    ensures var script := ScriptOf(cfg, w, c);
      && c.ApplyAndAccept? && script.effects[i].key == c.key && MayApply(cfg, w, c)
      && script == ApplyScript(cfg.limits(c.policy), c.task, true, w, c.key) && script.outcome.Patched?
      && c.key in w.operations && c.key in w.results
      && Replay(w, script.effects[..i + 1]).repository == Replay(w, script.effects).repository
      && Replay(w, script.effects[..i + 1]).patches == Replay(w, script.effects).patches
      && c.key in Replay(w, script.effects).patches && Replay(w, script.effects).patches[c.key] == script.effects[i].patch
  {
    hide ApplyScript, ScriptOf, Replay, MayApply;
    var script := ScriptOf(cfg, w, c);
    if c.ApplyAndAccept? {
      CallEndsWell(cfg, w, c);
      assert PlainOrLast(script, c.key, i);
      TouchesIf(cfg, w, c);
      assert InWorkspace(script.effects[i]);
      AppliesKnown(cfg, w, c);
      ReplayLast(w, script.effects[..i + 1]);
      assert script.effects[..i + 1][..i] == script.effects[..i];
      assert script.effects == script.effects[..i + 1] + [script.effects[i + 1]];
      ReplayConcat(w, script.effects[..i + 1], [script.effects[i + 1]]);
      ReplayOne(Replay(w, script.effects[..i + 1]), script.effects[i + 1]);
    } else {
      OthersStayOut(cfg, w, c);
    }
  }

  lemma AnnouncedCommit(p: PatchEffect, op: Operation, result: Result, r: ProviderModel.Repository)
    ensures Announces(p, op, result, r) ==> p.preCommit == r.commit
  {
  }

  lemma AppliesKnown(cfg: Config, w: World, c: Command)
    requires MayApply(cfg, w, c)
    ensures c.policy in cfg.changePolicies && c.key in w.operations && c.key in w.results
    ensures w.repository.branch == w.operations[c.key].identity.branch
  {
  }

  /** The workspace at the moment a call saves its patch as accepted. */
  ghost predicate AcceptedWorkspace(w: World, r: ProviderModel.Repository, ops: seq<FileOperation>) {
    && r == w.repository.(files := r.files, stages := map[])
    && r.Changed() == PathSet(ops)
    && (ExactlyApplied(r.base, r.files, ops) <==> LeavesAbsent(r.files, ops))
  }

  lemma AcceptedIsExactIff(cfg: Config, w: World, c: Command, i: nat)
    requires w.repository.Ok()
    requires i < |ScriptOf(cfg, w, c).effects| && SavesAccepted(ScriptOf(cfg, w, c).effects[i])
    ensures c.ApplyAndAccept? && c.key in w.results && ScriptOf(cfg, w, c).effects[i].key == c.key
    ensures var r := Replay(w, ScriptOf(cfg, w, c).effects[..i + 1]).repository;
      var ops := w.results[c.key].operations;
      && AcceptedWorkspace(w, r, ops)
      && (StartsOver(w, c.key) ==> ExactlyApplied(r.base, r.files, ops))
  {
    hide ScriptOf, ApplyScript, ExactlyApplied, LeavesAbsent, Repository.Changed, Repository.Ok, Replay;
    AcceptingCall(cfg, w, c, i);
    if StartsOver(w, c.key) {
      PatchAccepted.DirectlyAcceptedIsExact(cfg.limits(c.policy), c.task, w, c.key);
      var r := Replay(w, ScriptOf(cfg, w, c).effects).repository;
      ExactLeavesAbsent(r.base, r.files, w.results[c.key].operations);
    } else {
      RecoveredLeavesAbsent(cfg.limits(c.policy), c.task, w, c.key);
    }
  }

  lemma RecoveredLeavesAbsent(limits: Limits, task: TaskPolicy, w: World, key: Key)
    requires w.repository.Ok() && ApplyScript(limits, task, true, w, key).outcome.Patched? && !StartsOver(w, key)
    requires key in w.results
    ensures AcceptedWorkspace(w, Replay(w, ApplyScript(limits, task, true, w, key).effects).repository, w.results[key].operations)
    ensures Replay(w, ApplyScript(limits, task, true, w, key).effects).repository == w.repository
  {
    hide ApplyScript, ExactlyApplied, Repository.Changed, Repository.Ok, Replay, LastFor, Intended;
    PatchAccepted.RecoveredAcceptance(limits, task, w, key);
  }

  /** The moment of an acceptance: a result of its own, a known policy, the operation's branch checked out,
      and an intent that announced this result on this very commit. */
  ghost predicate AcceptedWhereAnnounced(cfg: Config, w: World, c: Command, patch: PatchEffect) {
    && MayApply(cfg, w, c) && c.policy in cfg.changePolicies
    && w.repository.branch == w.operations[c.key].identity.branch
    && w.repository.commit == patch.preCommit
    && Announces(patch, w.operations[c.key], w.results[c.key], w.repository)
  }

  lemma AcceptedIsAnnounced(cfg: Config, w: World, c: Command, i: nat)
    requires Inv(w)
    requires i < |ScriptOf(cfg, w, c).effects| && SavesAccepted(ScriptOf(cfg, w, c).effects[i])
    ensures AcceptedWhereAnnounced(cfg, w, c, ScriptOf(cfg, w, c).effects[i].patch)
  {
    hide ScriptOf, Inv, MayApply, Announces, Replay, DirectEndings.DirectlyEnds, ApplyScript;
    AcceptingCall(cfg, w, c, i);
    AppliesKnown(cfg, w, c);
    AnnouncedCommit(ScriptOf(cfg, w, c).effects[i].patch, w.operations[c.key], w.results[c.key], w.repository);
    AcceptingAnnounces(cfg, w, c);
    var patch := ScriptOf(cfg, w, c).effects[i].patch;
    if StartsOver(w, c.key) {
      var before := DirectEndings.DirectApplicationAnswers(cfg, w, c);
      DirectKeepsIntent(cfg.limits(c.policy), c.task, w.(patches := w.patches[c.key := before]), Finally(cfg, w, c), Reply(cfg, w, c), c.key,
                        w.operations[c.key], before, patch);
      IntentIsAnnounced(before, w.operations[c.key], w.results[c.key], w.repository);
      StillAnnounces(before, patch, w.operations[c.key], w.results[c.key], w.repository);
    } else {
      RecoveryKeepsIntent(cfg, w, c, patch);
      StillAnnounces(w.patches[c.key], patch, w.operations[c.key], w.results[c.key], w.repository);
    }
  }

  /** A call that accepts found its intent announced, or a clean workspace to make one on. */
  lemma AcceptingAnnounces(cfg: Config, w: World, c: Command)
    requires MayApply(cfg, w, c) && Reply(cfg, w, c).Patched?
    ensures StartsOver(w, c.key) ==> w.repository.Clean()
    ensures c.key in w.patches ==> Announces(w.patches[c.key], w.operations[c.key], w.results[c.key], w.repository)
  {
    hide DirectScript, RecoverScript, IntentMatches, Announces, Repository.Clean;
    if c.key in w.patches {
      AnnouncesIs(w.patches[c.key], w.operations[c.key], w.results[c.key], w.repository);
    }
  }

  lemma IntentIsAnnounced(p: PatchEffect, op: Operation, result: Result, r: ProviderModel.Repository)
    ensures DirectEndings.FreshIntent(p, op, result, r) ==> Announces(p, op, result, r)
  {
  }

  /** The record with another state, other checkpoints and another manifest announces the same. */
  lemma StillAnnounces(p: PatchEffect, p': PatchEffect, op: Operation, result: Result, r: ProviderModel.Repository)
    requires Announces(p, op, result, r) && p' == p.(state := p'.state, completed := p'.completed, manifest := p'.manifest)
    ensures Announces(p', op, result, r)
  {
  }

  lemma DirectKeepsIntent(limits: Limits, task: TaskPolicy, w: World, after: World, reply: Outcome, key: Key, op: Operation, patch: PatchEffect, saved: PatchEffect)
    requires DirectEndings.DirectlyEnds(limits, task, w, after, reply, key, op, patch) && reply.Patched?
    requires key in after.patches && after.patches[key] == saved
    ensures saved == patch.(state := saved.state, completed := saved.completed, manifest := saved.manifest)
  {
    hide Acceptable, ApplyAll, DirectEndings.StoppedAt, Observed, PathList, PathSet;
  }

  lemma RecoveryKeepsIntent(cfg: Config, w: World, c: Command, saved: PatchEffect)
    requires Inv(w) && MayApply(cfg, w, c) && !StartsOver(w, c.key) && Reply(cfg, w, c).Patched?
    requires Announces(w.patches[c.key], w.operations[c.key], w.results[c.key], w.repository)
    requires c.key in Finally(cfg, w, c).patches && Finally(cfg, w, c).patches[c.key] == saved
    ensures saved == w.patches[c.key].(state := saved.state, completed := saved.completed, manifest := saved.manifest)
  {
    hide Inv, Announces, FoundAt, Sought, Observed, Finally, Reply, Repository.StatusIs;
    RecoveryAnswers(cfg, w, c);
  }

  /** In every run, with anyone changing the workspace at any time: whenever a patch is saved as accepted,
      the operation's branch and the commit of its intent are checked out and the policy is known, exactly its
      paths differ from the base, and the files are exactly what its operations ask for if and only if every
      path they leave absent is absent; on the direct path they always are. */
  lemma EveryAcceptance(repository: ProviderModel.Repository, events: seq<Event>, cfg: Config, c: Command, i: nat)
    requires repository.Ok() && forall j :: 0 <= j < |events| ==> Tidy(events[j])
    requires var w := Run(Initially(repository), events);
      i < |ScriptOf(cfg, w, c).effects| && SavesAccepted(ScriptOf(cfg, w, c).effects[i])
    ensures var w := Run(Initially(repository), events);
      && c.ApplyAndAccept? && c.key in w.results
      && AcceptedWhereAnnounced(cfg, w, c, ScriptOf(cfg, w, c).effects[i].patch)
      && var r := Replay(w, ScriptOf(cfg, w, c).effects[..i + 1]).repository;
         var ops := w.results[c.key].operations;
         && AcceptedWorkspace(w, r, ops)
         && (StartsOver(w, c.key) ==> ExactlyApplied(r.base, r.files, ops))
  {
    hide *;
    RunKeepsNames(repository, events);
    ReachableKeepsInv(repository, events);
    AcceptedIsExactIff(cfg, Run(Initially(repository), events), c, i);
    AcceptedIsAnnounced(cfg, Run(Initially(repository), events), c, i);
  }

  /** The event is this operation's own `apply_and_accept`. */
  predicate Applies(e: Event, key: Key) {
    e.Invoke? && e.command.ApplyAndAccept? && e.command.key == key
  }

  /** From the moment the operation's intent is stored, only its own `apply_and_accept` changes files or
      the commit; neither another operation's nor anyone outside does. */
  ghost predicate Undisturbed(start: World, events: seq<Event>, key: Key)
    decreases |events|
  {
    events == [] ||
    var before := Run(start, events[..|events| - 1]);
    && Undisturbed(start, events[..|events| - 1], key)
    && (key in before.patches && !Applies(events[|events| - 1], key) ==>
          && Run(start, events).repository.files == before.repository.files
          && Run(start, events).repository.base == before.repository.base)
  }

  /** The stored patch of an operation changes only by the operation's own calls. */
  lemma PatchStays(w: World, e: Event, key: Key)
    requires !Applies(e, key)
    ensures Lookup(Step(w, e).patches, key) == Lookup(w.patches, key)
  {
    hide ScriptOf, ApplyScript, Replay, EndsWell;
    if e.Invoke? {
      var script := ScriptOf(e.config, w, e.command);
      var cut := if e.fuel < |script.effects| then e.fuel else |script.effects|;
      if e.command.ApplyAndAccept? {
        CallEndsWell(e.config, w, e.command);
        PrefixEndsWell(script, e.command.key, cut);
        OtherPatchesStay(w, script.effects[..cut], key, e.command.key);
      } else {
        OtherCallLeaves(e.config, w, e.command, cut);
      }
    }
  }

  lemma StepTracks(w: World, e: Event, key: Key)
    requires Tracked(w, key)
    requires key in w.patches && !Applies(e, key) ==>
               Step(w, e).repository.files == w.repository.files && Step(w, e).repository.base == w.repository.base
    ensures Tracked(Step(w, e), key)
  {
    hide ScriptOf, ApplyScript, Tracked, Replay;
    if Applies(e, key) {
      CallEndsWell(e.config, w, e.command);
      var script := ScriptOf(e.config, w, e.command);
      ApplyTracks(e.config.limits(e.command.policy), e.command.task, e.command.policy in e.config.changePolicies, w, key,
                  if e.fuel < |script.effects| then e.fuel else |script.effects|);
    } else {
      PatchStays(w, e, key);
      SameIsTracked(w, Step(w, e), key);
    }
  }

  lemma SameIsTracked(w: World, w': World, key: Key)
    requires Tracked(w, key) && Lookup(w'.patches, key) == Lookup(w.patches, key)
    requires key in w.patches ==> w'.repository.files == w.repository.files && w'.repository.base == w.repository.base
    ensures Tracked(w', key)
  {
    hide ApplyAll;
    if key in w.patches {
      assert key in w'.patches && w'.patches[key] == w.patches[key];
      var k :| PartlyApplied(w.repository, w.patches[key].operations, k);
      assert PartlyApplied(w'.repository, w'.patches[key].operations, k);
    } else {
      assert key !in w'.patches;
    }
  }

  /** As long as nobody else changes the files, they are the base changed by the first operations of the
      stored patch, however often its application died, raised, recovered or was reset in between. */
  lemma {:induction false} UndisturbedIsTracked(repository: ProviderModel.Repository, events: seq<Event>, key: Key)
    requires Undisturbed(Initially(repository), events, key)
    ensures Tracked(Run(Initially(repository), events), key)
  {
    hide Tracked, Step, Applies;
    if events == [] {
      UnknownIsTracked(Initially(repository), key);
    } else {
      var before := events[..|events| - 1];
      UndisturbedIsTracked(repository, before, key);
      StepTracks(Run(Initially(repository), before), events[|events| - 1], key);
    }
  }

  lemma TrackedAcceptanceIsExact(limits: Limits, task: TaskPolicy, w: World, key: Key)
    requires w.repository.Ok() && ApplyScript(limits, task, true, w, key).outcome.Patched? && !StartsOver(w, key)
    requires key in w.results && Tracked(w, key)
    ensures ExactlyApplied(w.repository.base, w.repository.files, w.results[key].operations)
  {
    hide RecoverScript, DirectScript, AcceptedElsewhere, Repository.Clean, Repository.Ok, ReceiptMatches, PartlyApplied, ExactlyApplied;
    var k :| PartlyApplied(w.repository, w.patches[key].operations, k);
    TrackedRecoveryIsExact(key, w.operations[key], w.patches[key], w.results[key], w.repository, k);
  }

  /** In every run in which nobody else changed the files since the intent, an accepted patch is exactly
      applied, whatever happened to its earlier applications. */
  lemma UndisturbedAcceptance(repository: ProviderModel.Repository, events: seq<Event>, cfg: Config, c: Command, i: nat)
    requires repository.Ok() && forall j :: 0 <= j < |events| ==> Tidy(events[j])
    requires var w := Run(Initially(repository), events);
      i < |ScriptOf(cfg, w, c).effects| && SavesAccepted(ScriptOf(cfg, w, c).effects[i])
    requires c.ApplyAndAccept? ==> Undisturbed(Initially(repository), events, c.key)
    ensures var w := Run(Initially(repository), events);
      && c.ApplyAndAccept? && c.key in w.results
      && var r := Replay(w, ScriptOf(cfg, w, c).effects[..i + 1]).repository;
         r.base == w.repository.base && ExactlyApplied(r.base, r.files, w.results[c.key].operations)
  {
    hide ScriptOf, ApplyScript, ExactlyApplied, Repository.Ok, Replay, Run, Undisturbed, Tidy, Tracked, LeavesAbsent, StartsOver, Repository.Changed;
    var w := Run(Initially(repository), events);
    EveryAcceptance(repository, events, cfg, c, i);
    RunKeepsNames(repository, events);
    AcceptingCall(cfg, w, c, i);
    if !StartsOver(w, c.key) {
      UndisturbedIsTracked(repository, events, c.key);
      TrackedAcceptanceIsExact(cfg.limits(c.policy), c.task, w, c.key);
      RecoveredLeavesAbsent(cfg.limits(c.policy), c.task, w, c.key);
    }
  }

  /** The service alone, applying one operation only. */
  predicate OnlyApplies(e: Event, key: Key) {
    e.Invoke? && (e.command.ApplyAndAccept? ==> e.command.key == key)
  }

  /** Calls other than `apply_and_accept` disturb nobody, so with one operation applied at a time in a
      workspace of its own acceptance is always exact. */
  lemma {:induction false} AloneIsUndisturbed(start: World, events: seq<Event>, key: Key)
    requires forall j :: 0 <= j < |events| ==> OnlyApplies(events[j], key)
    ensures Undisturbed(start, events, key)
  {
    hide ScriptOf;
    if events != [] {
      var e := events[|events| - 1];
      var before := Run(start, events[..|events| - 1]);
      AloneIsUndisturbed(start, events[..|events| - 1], key);
      assert OnlyApplies(e, key);
      if !Applies(e, key) {
        var effects := ScriptOf(e.config, before, e.command).effects;
        OtherCallLeaves(e.config, before, e.command, if e.fuel < |effects| then e.fuel else |effects|);
      }
    }
  }
}
