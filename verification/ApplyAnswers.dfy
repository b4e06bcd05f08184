/** What `apply_and_accept` answers and leaves behind when the process survives it: whom it refuses, how a
    direct application ends, and what a recovery concludes from the workspace. */
module ApplyAnswers {
  import opened Wrappers
  import opened Paths
  import opened ProviderModel
  import opened Patching
  import opened PatchScripts
  import opened PatchExact
  import opened PatchCrash
  import opened PatchTracking
  import opened ProtocolScripts
  import opened ProtocolSafety
  import opened ProviderAnswers

  /** The stored intent was made for this operation, result and commit, on a clean workspace. */
  predicate Announces(p: PatchEffect, op: Operation, result: Result, r: ProviderModel.Repository) {
    && p.operation == op.identity.operation && p.plan == op.identity.plan && p.version == op.identity.version
    && p.workspace == op.identity.workspace && p.branch == op.identity.branch
    && p.request == op.identity.request && p.context == op.identity.context
    && p.result == result && p.operations == result.operations
    && |p.expected| == |result.operations| && (forall i :: 0 <= i < |p.expected| ==> p.expected[i] == result.operations[i].path)
    && p.preCommit == r.commit && p.preClean
  }

  lemma AnnouncesIs(p: PatchEffect, op: Operation, result: Result, r: ProviderModel.Repository)
    ensures Announces(p, op, result, r) <==> IntentMatches(p, op, result, r)
  {
    if Announces(p, op, result, r) {
      assert p.expected == PathList(result.operations);
    }
  }

  /** The operation holds its own certified result, and no other operation of the project accepted it. */
  ghost predicate HasItsResult(w: World, key: Key) {
    && key in w.operations && key in w.results && key in w.receipts
    && w.operations[key].state == ResultAvailable
    && w.operations[key].resultReference == Some(key.operation)
    && Certifies(w.receipts[key], w.operations[key], w.results[key])
    && !(exists k :: k in w.patches && k.project == key.project && k != key
                     && w.patches[k].state == Accepted && w.patches[k].result == w.results[key])
  }

  /** The call may touch the workspace: a result of its own, a known policy, and the operation's branch
      checked out. */
  ghost predicate MayApply(cfg: Config, w: World, c: Command) {
    c.ApplyAndAccept? && HasItsResult(w, c.key) && c.policy in cfg.changePolicies
    && w.repository.branch == w.operations[c.key].identity.branch
  }

  /** Every refusal. Without a certified result of its own the operation goes to an operator; otherwise an
      unknown operation, a state without a result, a missing record, a result accepted elsewhere, an unknown
      policy, a foreign branch and a workspace that is not clean raise, and none of them touches anything; an
      intent made for something else goes to an operator. */
  lemma ApplyRefuses(cfg: Config, w: World, c: Command)
    requires Inv(w) && c.ApplyAndAccept?
    ensures var key := c.key;
      if key !in w.operations then Refuses(cfg, w, c, NotFound)
      else if w.operations[key].state != ResultAvailable then Refuses(cfg, w, c, StateError)
      else if key !in w.results || key !in w.receipts then Refuses(cfg, w, c, NotFound)
      else
        var op, result := w.operations[key], w.results[key];
        if op.resultReference != Some(key.operation) || !Certifies(w.receipts[key], op, result) then HandsOver(cfg, w, c, key, op)
        else if !MayApply(cfg, w, c) then Refuses(cfg, w, c, PolicyError)
        else if key in w.patches && !Announces(w.patches[key], op, result, w.repository) then
          && Reply(cfg, w, c) == Raised(ReconciliationError)
          && Finally(cfg, w, c) == w.(patches := w.patches[key := w.patches[key].(state := PatchNeedsReconciliation)])
        else if StartsOver(w, key) && !w.repository.Clean() then Refuses(cfg, w, c, PolicyError)
        else true
  {
    hide Inv, KeyOf, Replay, DirectScript, RecoverScript, IntentMatches, Announces, Repository.Clean;
    var key := c.key;
    if key in w.operations && key in w.results {
      var op, result := w.operations[key], w.results[key];
      StoredUnderOwnKey(w, key);
      OneSave(w, key, op.(state := NeedsReconciliation));
      if key in w.patches {
        AnnouncesIs(w.patches[key], op, result, w.repository);
        ReplayOne(w, SavePatch(key, w.patches[key].(state := PatchNeedsReconciliation)));
      }
    }
  }

  /** What else happens happens only where the call may apply: no intent is stored or marked, no stage
      written, no file changed and nothing accepted on a foreign branch or under an unknown policy; and all but
      the handing over of a foreign intent only with an intent made for this result on this commit. */
  lemma ApplyTouchesOnlyIf(cfg: Config, w: World, c: Command, i: nat)
    requires Inv(w) && i < |ScriptOf(cfg, w, c).effects| && InWorkspace(ScriptOf(cfg, w, c).effects[i])
    ensures MayApply(cfg, w, c)
    ensures c.key in w.patches ==>
      Announces(w.patches[c.key], w.operations[c.key], w.results[c.key], w.repository)
      || ScriptOf(cfg, w, c).effects == [SavePatch(c.key, w.patches[c.key].(state := PatchNeedsReconciliation))]
    ensures c.key !in w.patches ==> w.repository.Clean()
  {
    hide KeyOf, DirectScript, RecoverScript, IntentMatches, Announces, Repository.Clean, Inv, MayApply, Refuses, HandsOver;
    if c.ApplyAndAccept? {
      TouchesIf(cfg, w, c);
    } else {
      OthersStayOut(cfg, w, c);
    }
  }

  lemma TouchesIf(cfg: Config, w: World, c: Command)
    requires c.ApplyAndAccept?
    ensures var effects := ScriptOf(cfg, w, c).effects;
      || (forall i :: 0 <= i < |effects| ==> !InWorkspace(effects[i]))
      || (&& MayApply(cfg, w, c)
          && (c.key !in w.patches ==> w.repository.Clean())
          && (c.key in w.patches ==>
                Announces(w.patches[c.key], w.operations[c.key], w.results[c.key], w.repository)
                || effects == [SavePatch(c.key, w.patches[c.key].(state := PatchNeedsReconciliation))]))
  {
    hide DirectScript, RecoverScript, IntentMatches, Announces, Repository.Clean;
    if c.key in w.operations && c.key in w.results && c.key in w.patches {
      AnnouncesIs(w.patches[c.key], w.operations[c.key], w.results[c.key], w.repository);
    }
  }

  // Recovery.

  /** Recovery looks for the content of the last operation that names one for its path. */
  predicate Sought(ops: seq<FileOperation>, i: nat)
    requires i < |ops|
  {
    ops[i].content.Some? && forall j :: i < j < |ops| && ops[j].content.Some? ==> ops[j].path != ops[i].path
  }

  /** The content of the file a path text denotes below the workspace; a text that starts at the root denotes
      none. */
  function ContentAt(files: map<Path, string>, path: string): Option<string> {
    if path != "" && path[0] == '/' then None else Lookup(files, Components(path))
  }

  lemma ContentAtIs(files: map<Path, string>, path: string)
    ensures ContentAt(files, path) == FileAt(files, path)
  {
  }

  predicate FoundAt(files: map<Path, string>, ops: seq<FileOperation>, i: nat)
    requires i < |ops|
  {
    Sought(ops, i) && ContentAt(files, ops[i].path) == ops[i].content
  }

  lemma {:induction false} ExpectedIsSought(ops: seq<FileOperation>, path: string) returns (i: nat)
    requires path in Expected(ops)
    ensures i < |ops| && Sought(ops, i) && ops[i].path == path && ops[i].content == Some(Expected(ops)[path])
  {
    var n := |ops| - 1;
    if ops[n].content.Some? && ops[n].path == path {
      i := n;
    } else {
      i := ExpectedIsSought(ops[..n], path);
      assert ops[..n][i] == ops[i];
      forall j | i < j < |ops| && ops[j].content.Some? ensures ops[j].path != ops[i].path {
        if j < n {
          assert ops[..n][j] == ops[j];
        }
      }
    }
  }

  lemma {:induction false} SoughtIsExpected(ops: seq<FileOperation>, i: nat)
    requires i < |ops| && Sought(ops, i)
    ensures ops[i].path in Expected(ops) && Some(Expected(ops)[ops[i].path]) == ops[i].content
  {
    var n := |ops| - 1;
    if i < n {
      assert ops[..n][i] == ops[i];
      assert Sought(ops[..n], i);
      SoughtIsExpected(ops[..n], i);
    }
  }

  lemma MatchingIsFound(files: map<Path, string>, ops: seq<FileOperation>)
    ensures Matching(files, Expected(ops)) != {} <==> exists i :: 0 <= i < |ops| && FoundAt(files, ops, i)
    ensures Matching(files, Expected(ops)) == Expected(ops).Keys <==> forall i :: 0 <= i < |ops| && Sought(ops, i) ==> FoundAt(files, ops, i)
  {
    hide Expected, FileAt, ContentAt, Sought;
    var matching := Matching(files, Expected(ops));
    forall path: string ensures ContentAt(files, path) == FileAt(files, path) {
      ContentAtIs(files, path);
    }
    forall i | 0 <= i < |ops| && Sought(ops, i) ensures ops[i].path in matching <==> FoundAt(files, ops, i) {
      SoughtIsExpected(ops, i);
    }
    forall i | 0 <= i < |ops| && Sought(ops, i) ensures ops[i].path in Expected(ops) {
      SoughtIsExpected(ops, i);
    }
    forall path | path in Expected(ops)
      ensures exists i :: 0 <= i < |ops| && Sought(ops, i) && ops[i].path == path && (path in matching <==> FoundAt(files, ops, i))
    {
      var i := ExpectedIsSought(ops, path);
    }
    if path :| path in matching {
      assert path in Expected(ops);
    }
    if i :| 0 <= i < |ops| && FoundAt(files, ops, i) {
      assert Sought(ops, i) by { FoundIsSought(files, ops, i); }
      assert ops[i].path in matching;
    }
  }

  lemma FoundIsSought(files: map<Path, string>, ops: seq<FileOperation>, i: nat)
    requires i < |ops| && FoundAt(files, ops, i)
    ensures Sought(ops, i)
  {
  }

  /** The names of the files that differ from the commit. */
  function Differing(r: ProviderModel.Repository): set<string> {
    set p | p in r.base.Keys + r.files.Keys && Lookup(r.files, p) != Lookup(r.base, p) :: Join(p)
  }

  /** What Git and the files show of the workspace: the differing files, the contents of those that exist, and
      what became of the committed ones. */
  function Observed(op: Operation, r: ProviderModel.Repository): Manifest {
    var names := Differing(r);
    Manifest(operation := op.identity.operation, changed := names,
             files := map p | p in names && ContentAt(r.files, p).Some? :: ContentAt(r.files, p).value,
             diff := map p | p in r.base && Lookup(r.files, p) != Lookup(r.base, p) :: Lookup(r.files, p))
  }

  lemma ObservedIs(op: Operation, r: ProviderModel.Repository)
    ensures Differing(r) == r.Changed()
    ensures Observed(op, r) == ManifestOf(op, r)
  {
    hide FileAt, ContentAt;
    forall path: string ensures ContentAt(r.files, path) == FileAt(r.files, path) {
      ContentAtIs(r.files, path);
    }
    assert Differing(r) == r.Changed();
  }

  /** The recovery of an application under way: reset if none of the sought contents is found and none was
      recorded; accepted if all of them are found, Git lists exactly the operations' paths and nothing leftover,
      and a manifest recorded before is the one observed now; and else handed to an operator. */
  lemma RecoveryAnswers(cfg: Config, w: World, c: Command)
    requires Inv(w) && MayApply(cfg, w, c) && !StartsOver(w, c.key)
    requires Announces(w.patches[c.key], w.operations[c.key], w.results[c.key], w.repository)
    ensures var key, r := c.key, w.repository;
      var op, patch := w.operations[key], w.patches[key];
      var ops := w.results[key].operations;
      var observed := Observed(op, r);
      if !exists i :: 0 <= i < |ops| && FoundAt(r.files, ops, i) then
        && Reply(cfg, w, c) == Raised(ReconciliationError)
        && Finally(cfg, w, c) == w.(patches := w.patches[key :=
             if patch.completed == [] then patch.(state := PatchPrepared) else patch.(state := PatchNeedsReconciliation)])
      else if && (forall i :: 0 <= i < |ops| && Sought(ops, i) ==> FoundAt(r.files, ops, i))
              && r.stages == map[] && Differing(r) == (set i | 0 <= i < |ops| :: ops[i].path)
              && (patch.manifest.None? || patch.manifest == Some(observed)) then
        && Reply(cfg, w, c) == Patched(op.(state := ResultAccepted), observed)
        && Finally(cfg, w, c) == w.(
             patches := w.patches[key := patch.(state := Accepted, manifest := Some(observed), completed := patch.expected)],
             operations := w.operations[key := op.(state := ResultAccepted)])
      else
        && Reply(cfg, w, c) == Raised(ReconciliationError)
        && Finally(cfg, w, c) == w.(patches := w.patches[key := patch.(state := PatchNeedsReconciliation)])
  {
    hide Inv, KeyOf, Replay, DirectScript, Matching, Expected, FoundAt, Sought, Announces, IntentMatches, Repository.Changed,
      Repository.Diff, FileAt, PathSet, PathList, Observed, ManifestOf, Differing;
    var key, r := c.key, w.repository;
    var op, patch, result := w.operations[key], w.patches[key], w.results[key];
    StoredUnderOwnKey(w, key);
    AnnouncesIs(patch, op, result, r);
    AnnouncedPathSet(patch, op, result, r);
    MatchingIsFound(r.files, result.operations);
    GoesToRecovery(cfg, w, c);
    ObservedIs(op, r);
    SavedPatches(w, key, patch, op, Observed(op, r));
  }

  lemma AnnouncedPathSet(p: PatchEffect, op: Operation, result: Result, r: ProviderModel.Repository)
    requires IntentMatches(p, op, result, r)
    ensures (set i | 0 <= i < |p.expected| :: p.expected[i]) == PathSet(result.operations)
    ensures (set i | 0 <= i < |result.operations| :: result.operations[i].path) == PathSet(result.operations)
  {
    ListedPaths(result.operations);
  }

  lemma GoesToRecovery(cfg: Config, w: World, c: Command)
    requires MayApply(cfg, w, c) && !StartsOver(w, c.key)
    requires IntentMatches(w.patches[c.key], w.operations[c.key], w.results[c.key], w.repository)
    ensures ScriptOf(cfg, w, c) == RecoverScript(c.key, w.operations[c.key], w.patches[c.key], w.results[c.key], w.repository)
  {
    hide DirectScript, RecoverScript, IntentMatches, Repository.Clean;
  }

  lemma SavedPatches(w: World, key: Key, patch: PatchEffect, op: Operation, m: Manifest)
    requires KeyOf(op.identity) == key
    ensures Replay(w, [SavePatch(key, patch.(state := PatchNeedsReconciliation))]) ==
            w.(patches := w.patches[key := patch.(state := PatchNeedsReconciliation)])
    ensures Replay(w, [SavePatch(key, patch.(state := PatchPrepared, completed := []))]) ==
            w.(patches := w.patches[key := patch.(state := PatchPrepared, completed := [])])
    ensures var accepted := patch.(state := Accepted, manifest := Some(m), completed := patch.expected);
      Replay(w, [SavePatch(key, accepted), SaveOperation(op.(state := ResultAccepted))]) ==
      w.(patches := w.patches[key := accepted], operations := w.operations[key := op.(state := ResultAccepted)])
  {
    hide Replay, KeyOf;
    OneSaved(w, key, patch.(state := PatchNeedsReconciliation));
    OneSaved(w, key, patch.(state := PatchPrepared, completed := []));
    TwoSaved(w, key, patch.(state := Accepted, manifest := Some(m), completed := patch.expected), op.(state := ResultAccepted));
  }
}
