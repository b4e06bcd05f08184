/** Accepting a patch means exactly applied: what the workspace holds whenever `apply_and_accept`
    returns an accepted operation, and when it does. */
module PatchExact {
  import opened Wrappers
  import opened Paths
  import opened ProviderModel
  import opened Patching
  import opened PatchScripts

  function StagesFrom(key: Key, ops: seq<FileOperation>, k: nat): map<Stage, string> {
    map j | k <= j < |ops| && Writes(ops[j]) && ops[j].content.Some? :: Stage(key, j) := ops[j].content.value
  }

  /** The workspace after staging everything and making the first `k` changes. */
  function Midway(key: Key, ops: seq<FileOperation>, r: Repository, k: nat): Repository
    requires k <= |ops| && ApplyAll(r.files, ops[..k]).Some?
  {
    r.(files := ApplyAll(r.files, ops[..k]).value, stages := StagesFrom(key, ops, k))
  }

  predicate ContentGiven(ops: seq<FileOperation>) {
    forall i :: 0 <= i < |ops| && Writes(ops[i]) ==> ops[i].content.Some?
  }

  lemma {:induction false} StagedIs(key: Key, ops: seq<FileOperation>, r: Repository)
    requires r.stages == map[]
    ensures StagedRepository(key, ops, r) == r.(stages := StagesFrom(key, ops, 0))
  {
    if ops == [] {
      assert StagesFrom(key, ops, 0) == map[];
    } else {
      hide StagesFrom;
      StagedIs(key, ops[..|ops| - 1], r);
      OneMoreStage(key, ops);
    }
  }

  lemma OneMoreStage(key: Key, ops: seq<FileOperation>)
    requires ops != []
    ensures var n := |ops| - 1;
      StagesFrom(key, ops, 0) ==
      if Writes(ops[n]) && ops[n].content.Some? then StagesFrom(key, ops[..n], 0)[Stage(key, n) := ops[n].content.value]
      else StagesFrom(key, ops[..n], 0)
  {
    var n := |ops| - 1;
    assert forall j :: 0 <= j < n ==> ops[..n][j] == ops[j];
  }

  lemma {:induction false} ApplyAllPrefix(files: map<Path, string>, ops: seq<FileOperation>, k: nat)
    requires k <= |ops| && ApplyAll(files, ops).Some?
    ensures ApplyAll(files, ops[..k]).Some?
  {
    if k == |ops| {
      assert ops[..k] == ops;
    } else {
      ApplyAllPrefix(files, ops[..|ops| - 1], k);
      assert ops[..|ops| - 1][..k] == ops[..k];
    }
  }

  lemma ApplyAllStep(files: map<Path, string>, ops: seq<FileOperation>, k: nat)
    requires k < |ops| && ApplyAll(files, ops[..k]).Some?
    ensures ApplyAll(files, ops[..k + 1]) == ApplyOne(ApplyAll(files, ops[..k]).value, ops[k])
  {
    assert ops[..k + 1][..k] == ops[..k];
  }

  lemma MidwayStep(key: Key, ops: seq<FileOperation>, r: Repository, k: nat)
    requires k < |ops| && ApplyAll(r.files, ops[..k + 1]).Some? && ApplyAll(r.files, ops[..k]).Some?
    requires ContentGiven(ops)
    ensures ApplyOne(Midway(key, ops, r, k).files, ops[k]).Some?
    ensures AfterRepository(Midway(key, ops, r, k), FileEffect(key, k, ops[k])) == Midway(key, ops, r, k + 1)
  {
    hide ApplyAll, ParentIsFile, IsDirectory, Destination;
    ApplyAllStep(r.files, ops, k);
    assert StagesFrom(key, ops, k) - {Stage(key, k)} == StagesFrom(key, ops, k + 1);
  }

  /** The patch record after `k` checkpointed changes. */
  function PatchAt(staging: PatchEffect, k: nat): (patch: PatchEffect)
    requires k <= |staging.operations|
    ensures patch.operations == staging.operations
  {
    if k == 0 then staging
    else staging.(state := Applying, completed := staging.completed + PathList(staging.operations)[..k])
  }

  lemma CheckpointStep(staging: PatchEffect, k: nat)
    requires k < |staging.operations|
    ensures Checkpoint(PatchAt(staging, k), staging.operations[k].path) == PatchAt(staging, k + 1)
  {
    var paths := PathList(staging.operations);
    assert paths[..k + 1] == paths[..k] + [paths[k]];
    assert staging.completed + paths[..k + 1] == staging.completed + paths[..k] + [paths[k]];
  }

  /** The loop succeeds exactly when every change does, and then finishes on the changed files. */
  lemma {:induction false} ReplaceOutcome(key: Key, op: Operation, staging: PatchEffect, r: Repository, k: nat)
    requires k <= |staging.operations| && ContentGiven(staging.operations)
    requires ApplyAll(r.files, staging.operations[..k]).Some?
    ensures var ops := staging.operations;
      ReplaceScript(key, op, PatchAt(staging, k), Midway(key, ops, r, k), k).outcome ==
      if ApplyAll(r.files, ops).Some?
      then FinishScript(key, op, PatchAt(staging, |ops|), (assert ops[..|ops|] == ops; Midway(key, ops, r, |ops|))).outcome
      else Raised(FileFailure)
    decreases |staging.operations| - k
  {
    var ops := staging.operations;
    assert ops[..|ops|] == ops;
    if k < |ops| {
      ApplyAllStep(r.files, ops, k);
      if ApplyAll(r.files, ops[..k + 1]).Some? {
        MidwayStep(key, ops, r, k);
        CheckpointStep(staging, k);
        ReplaceOutcome(key, op, staging, r, k + 1);
      } else if ApplyAll(r.files, ops).Some? {
        ApplyAllPrefix(r.files, ops, k + 1);
      }
    }
  }

  lemma DestinationOfCanonical(op: FileOperation)
    requires Canonical(op.path)
    ensures Destination(op) == Components(op.path)
  {
    NormalizeCanonical(op.path);
  }

  /** When Git lists exactly the operations' paths, each of them is spelled as Git spells it. */
  lemma ListedAreCanonical(r: Repository, ops: seq<FileOperation>, i: nat)
    requires r.Ok() && r.Changed() == PathSet(ops) && i < |ops|
    ensures Canonical(ops[i].path)
    ensures Lookup(r.base, Components(ops[i].path)) != Lookup(r.files, Components(ops[i].path))
  {
    assert ops[i].path in r.Changed();
    var p :| p in r.base.Keys + r.files.Keys && Lookup(r.base, p) != Lookup(r.files, p) && Join(p) == ops[i].path;
    ComponentsOfJoin(p);
  }

  /** A path no operation is meant for is unchanged. */
  lemma UnlistedIsUnchanged(r: Repository, ops: seq<FileOperation>, p: Path)
    requires r.Ok() && r.Changed() == PathSet(ops) && LastFor(ops, p).None?
    ensures Lookup(r.files, p) == Lookup(r.base, p)
  {
    if Lookup(r.files, p) != Lookup(r.base, p) {
      assert p in r.base.Keys + r.files.Keys;
      assert Join(p) in r.Changed();
      var i :| 0 <= i < |ops| && ops[i].path == Join(p);
      ListedAreCanonical(r, ops, i);
      DestinationOfCanonical(ops[i]);
      ComponentsOfJoin(p);
      LastForExists(ops, i);
    }
  }

  lemma {:induction false} LastForExists(ops: seq<FileOperation>, i: nat)
    requires i < |ops|
    ensures LastFor(ops, Destination(ops[i])).Some?
  {
    if Destination(ops[|ops| - 1]) != Destination(ops[i]) {
      LastForExists(ops[..|ops| - 1], i);
    }
  }

  lemma {:induction false} LastForIsOne(ops: seq<FileOperation>, p: Path) returns (i: nat)
    requires LastFor(ops, p).Some?
    ensures i < |ops| && LastFor(ops, p) == Some(ops[i]) && Destination(ops[i]) == p
  {
    if Destination(ops[|ops| - 1]) == p {
      i := |ops| - 1;
    } else {
      i := LastForIsOne(ops[..|ops| - 1], p);
    }
  }

  lemma {:induction false} ExpectedOfLast(ops: seq<FileOperation>, p: Path)
    requires forall i :: 0 <= i < |ops| ==> Canonical(ops[i].path)
    requires LastFor(ops, p).Some? && LastFor(ops, p).value.content.Some?
    ensures var last := LastFor(ops, p).value;
      last.path == Join(p) && last.path in Expected(ops) && Expected(ops)[last.path] == last.content.value
  {
    var n := |ops| - 1;
    DestinationOfCanonical(ops[n]);
    if Destination(ops[n]) != p {
      ExpectedOfLast(ops[..n], p);
      var i := LastForIsOne(ops[..n], p);
      DestinationOfCanonical(ops[i]);
      assert ops[n].path != Join(p);
    }
  }

  lemma ListedPaths(ops: seq<FileOperation>)
    ensures (set i | 0 <= i < |PathList(ops)| :: PathList(ops)[i]) == PathSet(ops)
  {
    var listed := set i | 0 <= i < |PathList(ops)| :: PathList(ops)[i];
    forall s ensures s in listed <==> s in PathSet(ops) {
      if s in listed {
        var i :| 0 <= i < |PathList(ops)| && PathList(ops)[i] == s;
        assert ops[i].path == s;
      }
      if s in PathSet(ops) {
        var i :| 0 <= i < |ops| && ops[i].path == s;
        assert PathList(ops)[i] == s;
      }
    }
  }

  lemma JoinIsNotRooted(p: Path)
    requires WellFormed(p)
    ensures !Rooted(Join(p))
  {
    assert WellFormedPart(p[0]);
  }

  lemma RecoveredMeans(key: Key, op: Operation, patch: PatchEffect, result: Result, r: Repository)
    requires patch.expected == PathList(result.operations)
    requires RecoverScript(key, op, patch, result, r).outcome.Patched?
    ensures Matching(r.files, Expected(result.operations)) == Expected(result.operations).Keys
    ensures r.StatusIs(PathSet(result.operations))
  {
    hide Matching, Expected, ManifestOf, Repository.StatusIs, PathList, PathSet;
    ListedPaths(result.operations);
  }

  /** A path written last by an accepted list holds what that operation wrote. */
  lemma WrittenIsThere(r: Repository, ops: seq<FileOperation>, p: Path)
    requires forall i :: 0 <= i < |ops| ==> Canonical(ops[i].path)
    requires Matching(r.files, Expected(ops)) == Expected(ops).Keys
    requires LastFor(ops, p).Some? && Intended(LastFor(ops, p).value).Some?
    ensures Lookup(r.files, p) == IntendedAt(r.base, ops, p)
  {
    hide Expected, Canonical, LastFor;
    ExpectedOfLast(ops, p);
    var i := LastForIsOne(ops, p);
    DestinationOfCanonical(ops[i]);
    CanonicalIsWellFormed(ops[i].path);
    JoinIsNotRooted(p);
    ComponentsOfJoin(p);
    assert ops[i].path in Matching(r.files, Expected(ops));
  }

  lemma CanonicalIsWellFormed(s: string)
    requires Canonical(s)
    ensures WellFormed(Components(s))
  {
  }

  /** Recovery accepts on the files' contents and on Git's listing. What it accepts is exactly what
      the operations ask for if and only if every path they leave absent is absent: nothing in the
      recovery looks at that. A result without deletions is therefore always accepted exactly. */
  lemma RecoveredIsExactIff(key: Key, op: Operation, patch: PatchEffect, result: Result, r: Repository)
    requires r.Ok() && patch.expected == PathList(result.operations)
    requires RecoverScript(key, op, patch, result, r).outcome.Patched?
    ensures r.Changed() == PathSet(result.operations) && r.stages == map[]
    ensures ExactlyApplied(r.base, r.files, result.operations) <==>
            forall p: Path :: LastFor(result.operations, p).Some? && Intended(LastFor(result.operations, p).value).None?
                              ==> p !in r.files
  {
    hide RecoverScript, Matching, Expected, Canonical, LastFor, Intended, PathList, PathSet, Repository.Changed;
    var ops := result.operations;
    RecoveredMeans(key, op, patch, result, r);
    forall i | 0 <= i < |ops| ensures Canonical(ops[i].path) {
      ListedAreCanonical(r, ops, i);
    }
    forall p: Path | LastFor(ops, p).Some? && Intended(LastFor(ops, p).value).Some?
      ensures Lookup(r.files, p) == IntendedAt(r.base, ops, p)
    {
      WrittenIsThere(r, ops, p);
    }
    forall p: Path | LastFor(ops, p).None? ensures Lookup(r.files, p) == IntendedAt(r.base, ops, p) {
      UnlistedIsUnchanged(r, ops, p);
    }
    if ExactlyApplied(r.base, r.files, ops) {
      forall p: Path | LastFor(ops, p).Some? && Intended(LastFor(ops, p).value).None? ensures p !in r.files {
        assert Lookup(r.files, p) == IntendedAt(r.base, ops, p);
      }
    }
  }

  lemma RecoveredWithoutDeletionsIsExact(key: Key, op: Operation, patch: PatchEffect, result: Result, r: Repository)
    requires r.Ok() && patch.expected == PathList(result.operations)
    requires RecoverScript(key, op, patch, result, r).outcome.Patched?
    requires forall i :: 0 <= i < |result.operations| ==> Intended(result.operations[i]).Some?
    ensures ExactlyApplied(r.base, r.files, result.operations)
  {
    RecoveredIsExactIff(key, op, patch, result, r);
    forall p: Path | LastFor(result.operations, p).Some?
      ensures Intended(LastFor(result.operations, p).value).Some?
    {
      var i := LastForIsOne(result.operations, p);
    }
  }

  lemma {:induction false} ApplyAllKeepsNames(files: map<Path, string>, ops: seq<FileOperation>)
    requires ApplyAll(files, ops).Some?
    requires forall p :: p in files ==> WellFormed(p)
    requires forall i :: 0 <= i < |ops| ==> SafeRelative(ops[i].path)
    ensures forall p :: p in ApplyAll(files, ops).value ==> WellFormed(p)
  {
    if ops != [] {
      var last := ops[|ops| - 1];
      ApplyAllKeepsNames(files, ops[..|ops| - 1]);
      if Destination(last) != [] {
        SafeComponents(last.path);
      }
    }
  }

  /** With the destinations distinct, the last operation for a path is the only one. */
  lemma {:induction false} LastForUnique(ops: seq<FileOperation>, i: nat)
    requires i < |ops|
    requires forall a, b :: 0 <= a < b < |ops| ==> Destination(ops[a]) != Destination(ops[b])
    ensures LastFor(ops, Destination(ops[i])) == Some(ops[i])
  {
    if i < |ops| - 1 {
      LastForUnique(ops[..|ops| - 1], i);
    }
  }

  /** Texts spelled as Git spells them that differ once normalised denote distinct files. */
  lemma ApartAreDistinct(ops: seq<FileOperation>)
    requires forall i, j :: 0 <= i < j < |ops| ==> Normalize(ops[i].path) != Normalize(ops[j].path)
    requires forall i :: 0 <= i < |ops| ==> Canonical(ops[i].path)
    ensures forall a, b :: 0 <= a < b < |ops| ==> Destination(ops[a]) != Destination(ops[b])
  {
    forall a, b | 0 <= a < b < |ops| ensures Destination(ops[a]) != Destination(ops[b]) {
      DestinationOfCanonical(ops[a]);
      DestinationOfCanonical(ops[b]);
      NormalizeCanonical(ops[a].path);
      NormalizeCanonical(ops[b].path);
    }
  }

  /** Validation compares normalised texts; texts spelled as Git spells them then denote distinct files. */
  lemma CanonicalAreDistinct(limits: Limits, files: map<Path, string>, task: TaskPolicy, ops: seq<FileOperation>)
    requires Acceptable(limits, files, task, ops)
    requires forall i :: 0 <= i < |ops| ==> Canonical(ops[i].path)
    ensures forall a, b :: 0 <= a < b < |ops| ==> Destination(ops[a]) != Destination(ops[b])
  {
    hide AcceptableOne, Destination, Normalize;
    ApartAreDistinct(ops);
  }

  lemma AcceptableAreSafe(limits: Limits, files: map<Path, string>, task: TaskPolicy, ops: seq<FileOperation>)
    requires Acceptable(limits, files, task, ops)
    ensures forall i :: 0 <= i < |ops| ==> SafeRelative(ops[i].path)
  {
    hide SafeRelative, AllowedPath, Normalize;
    forall i | 0 <= i < |ops| ensures SafeRelative(ops[i].path) {
      assert AcceptableOne(limits, files, task, ops[i]);
    }
  }

  /** On the files the loop leaves, Git lists exactly the operations' paths if and only if every
      operation is spelled as Git spells it and changes its file. */
  lemma ListedIffEffective(limits: Limits, task: TaskPolicy, r: Repository, ops: seq<FileOperation>, files: map<Path, string>)
    requires r.Ok() && r.files == r.base
    requires Acceptable(limits, r.base, task, ops) && ApplyAll(r.base, ops) == Some(files)
    ensures r.(files := files).Ok()
    ensures r.(files := files).Changed() == PathSet(ops) <==> forall i :: 0 <= i < |ops| ==> Effective(r.base, ops[i])
  {
    hide Acceptable, ApplyAll, AcceptableOne, SafeRelative, AllowedPath, Normalize, LastFor;
    var after := r.(files := files);
    AcceptableAreSafe(limits, r.base, task, ops);
    ApplyAllKeepsNames(r.base, ops);
    ApplyAllIsExact(r.base, ops);
    if after.Changed() == PathSet(ops) {
      forall i | 0 <= i < |ops| ensures Canonical(ops[i].path) {
        ListedAreCanonical(after, ops, i);
      }
      CanonicalAreDistinct(limits, r.base, task, ops);
      forall i | 0 <= i < |ops| ensures Effective(r.base, ops[i]) {
        ListedAreCanonical(after, ops, i);
        LastForUnique(ops, i);
        DestinationOfCanonical(ops[i]);
        assert Lookup(files, Destination(ops[i])) == IntendedAt(r.base, ops, Destination(ops[i]));
      }
    }
    if forall i :: 0 <= i < |ops| ==> Effective(r.base, ops[i]) {
      forall i | 0 <= i < |ops| ensures Canonical(ops[i].path) {
        assert Effective(r.base, ops[i]);
      }
      CanonicalAreDistinct(limits, r.base, task, ops);
      forall i | 0 <= i < |ops| ensures ops[i].path in after.Changed() {
        assert Effective(r.base, ops[i]);
        LastForUnique(ops, i);
        DestinationOfCanonical(ops[i]);
        var p := Destination(ops[i]);
        assert Lookup(files, p) == IntendedAt(r.base, ops, p);
        assert p in r.base.Keys + files.Keys;
      }
      forall s | s in after.Changed() ensures s in PathSet(ops) {
        var p :| p in r.base.Keys + files.Keys && Lookup(r.base, p) != Lookup(files, p) && Join(p) == s;
        assert Lookup(files, p) == IntendedAt(r.base, ops, p);
        var i := LastForIsOne(ops, p);
        DestinationOfCanonical(ops[i]);
      }
    }
  }

  lemma CleanMeansBase(r: Repository)
    requires r.Clean()
    ensures r.files == r.base && r.stages == map[]
  {
    forall p: Path ensures Lookup(r.files, p) == Lookup(r.base, p) {
      assert Lookup(r.files, p) == Lookup(r.base, p) || Join(p) in r.Changed();
    }
    assert forall p :: p in r.files ==> Lookup(r.files, p) == Some(r.files[p]);
    assert forall p :: p in r.base ==> Lookup(r.base, p) == Some(r.base[p]);
  }

  lemma AcceptableGivesContent(limits: Limits, files: map<Path, string>, task: TaskPolicy, ops: seq<FileOperation>)
    requires Acceptable(limits, files, task, ops)
    ensures ContentGiven(ops)
  {
    forall i | 0 <= i < |ops| && Writes(ops[i]) ensures ops[i].content.Some? {
      assert AcceptableOne(limits, files, task, ops[i]);
    }
  }

  /** A direct application is accepted exactly when validation lets the list through, the file system
      refuses no change, and every operation is spelled as Git lists its file and changes that file:
      an update with the content the file already has sends the patch to an operator. */
  lemma DirectAcceptsIff(limits: Limits, task: TaskPolicy, key: Key, op: Operation, patch: PatchEffect, r: Repository)
    requires r.Ok() && r.Clean()
    ensures var ops := patch.operations;
      DirectScript(limits, task, key, op, patch, r).outcome.Patched? <==>
      && Acceptable(limits, r.base, task, ops)
      && ApplyAll(r.base, ops).Some?
      && forall i :: 0 <= i < |ops| ==> Effective(r.base, ops[i])
  {
    var ops := patch.operations;
    var staging := patch.(state := Staging);
    CleanMeansBase(r);
    if Acceptable(limits, r.base, task, ops) {
      AcceptableGivesContent(limits, r.base, task, ops);
      StagedIs(key, ops, r);
      assert ops[..0] == [];
      assert StagedRepository(key, ops, r) == Midway(key, ops, r, 0);
      ReplaceOutcome(key, op, staging, r, 0);
      if ApplyAll(r.base, ops).Some? {
        assert ops[..|ops|] == ops;
        var after := Midway(key, ops, r, |ops|);
        assert after.stages == map[];
        ListedIffEffective(limits, task, r, ops, after.files);
        assert after == r.(files := after.files);
      }
    }
  }

  /** Two spellings of one file pass the comparison of texts; the application is then not accepted. */
  lemma TwoSpellingsOneFile(limits: Limits, task: TaskPolicy, key: Key, op: Operation, patch: PatchEffect, r: Repository)
    requires r.Ok() && r.Clean()
    requires patch.operations == [FileOperation(Create, "a", Some("x")), FileOperation(Create, "a/", Some("y"))]
    ensures Normalize(patch.operations[0].path) != Normalize(patch.operations[1].path)
    ensures Destination(patch.operations[0]) == Destination(patch.operations[1])
    ensures !DirectScript(limits, task, key, op, patch, r).outcome.Patched?
  {
    hide DirectScript, Repository.Clean;
    var ops := patch.operations;
    DirectAcceptsIff(limits, task, key, op, patch, r);
    assert Normalize("a") == "a" && Normalize("a/") == "a/";
    assert Split("a") == ["a"] by { SplitOnePart("a"); }
    assert Split("a/") == ["a", ""] by {
      SplitFirstPart("a", "");
      assert "a" + "/" + "" == "a/";
    }
    assert Components("a") == ["a"] && Components("a/") == ["a"] by {
      assert ["a"][1..] == [] && ["a", ""][1..] == [""] && [""][1..] == [];
      assert |"a"| == 1 && |"."| == 1 && "a"[0] != "."[0];
    }
    assert Join(["a"]) == "a";
    assert |"a/"| == 2 && |"a"| == 1;
    assert !Effective(r.base, ops[1]);
  }
}
