/** Validation of a provider's file operations, and what applying them does to the files. */
module Patching {
  import opened Wrappers
  import opened Paths
  import opened ProviderModel
  import Utf8

  datatype TaskPolicy = TaskPolicy(allowed: seq<string>, forbidden: seq<string>)

  /** The applier's limits and a change policy; the policy's per-path rule is any predicate. */
  datatype Limits = Limits(
    allowDeletions: bool, maximumFileBytes: nat, maximumPatchBytes: nat, changeAllowed: string -> bool)

  function Destination(op: FileOperation): Path {
    Components(Normalize(op.path))
  }

  predicate Writes(op: FileOperation) {
    !op.kind.Delete?
  }

  /** Some proper prefix of the path is a file, so its parent cannot be a directory. */
  predicate ParentIsFile(files: map<Path, string>, p: Path) {
    exists i :: 0 < i < |p| && p[..i] in files
  }

  /** The path is a directory: some file lies below it. */
  predicate IsDirectory(files: map<Path, string>, p: Path) {
    p == [] || exists f :: f in files && p < f
  }

  function ContentSize(op: FileOperation): nat {
    if Writes(op) && op.content.Some? then Utf8.Length(op.content.value) else 0
  }

  function TotalSize(ops: seq<FileOperation>): nat {
    if ops == [] then 0 else TotalSize(ops[..|ops| - 1]) + ContentSize(ops[|ops| - 1])
  }

  /** What one operation must satisfy whatever the others are. */
  predicate AcceptableOne(limits: Limits, files: map<Path, string>, task: TaskPolicy, op: FileOperation) {
    var path := Normalize(op.path);
    && SafeRelative(op.path)
    && path != ".git" && !(".git/" <= path)
    && AllowedPath(path, task.allowed, task.forbidden)
    && limits.changeAllowed(path)
    && !Rooted(path)
    && !ParentIsFile(files, Components(path))
    && if Writes(op) then
         op.content.Some? && '\0' !in op.content.value && ContentSize(op) <= limits.maximumFileBytes
       else limits.allowDeletions
  }

  /** The operation lists that validation lets through. */
  predicate Acceptable(limits: Limits, files: map<Path, string>, task: TaskPolicy, ops: seq<FileOperation>) {
    && (forall i :: 0 <= i < |ops| ==> AcceptableOne(limits, files, task, ops[i]))
    && (forall i, j :: 0 <= i < j < |ops| ==> Normalize(ops[i].path) != Normalize(ops[j].path))
    && TotalSize(ops) <= limits.maximumPatchBytes
  }

  lemma {:induction false} TotalSizeGrows(ops: seq<FileOperation>, n: nat)
    requires n <= |ops|
    ensures TotalSize(ops[..n]) <= TotalSize(ops)
  {
    if n == |ops| {
      assert ops[..n] == ops;
    } else {
      TotalSizeGrows(ops[..|ops| - 1], n);
      assert ops[..|ops| - 1][..n] == ops[..n];
    }
  }

  function NormalizedPaths(ops: seq<FileOperation>): set<string> {
    set i | 0 <= i < |ops| :: Normalize(ops[i].path)
  }

  /** What one more operation must satisfy to keep the list before it acceptable. */
  lemma AcceptableStep(limits: Limits, files: map<Path, string>, task: TaskPolicy, ops: seq<FileOperation>, i: nat)
    requires i < |ops|
    ensures Acceptable(limits, files, task, ops[..i + 1])
      <==> Acceptable(limits, files, task, ops[..i]) && AcceptableOne(limits, files, task, ops[i])
           && Normalize(ops[i].path) !in NormalizedPaths(ops[..i]) && TotalSize(ops[..i + 1]) <= limits.maximumPatchBytes
    ensures TotalSize(ops[..i + 1]) == TotalSize(ops[..i]) + ContentSize(ops[i])
    ensures Acceptable(limits, files, task, ops[..i]) ==> TotalSize(ops[..i]) <= limits.maximumPatchBytes
    ensures NormalizedPaths(ops[..i + 1]) == NormalizedPaths(ops[..i]) + {Normalize(ops[i].path)}
  {
    hide AcceptableOne, Normalize, ContentSize;
    var longer := ops[..i + 1];
    assert longer[..i] == ops[..i];
    TotalSizeGrows(longer, i);
    assert forall j :: 0 <= j < i ==> longer[j] == ops[..i][j];
  }

  lemma AcceptablePrefix(limits: Limits, files: map<Path, string>, task: TaskPolicy, ops: seq<FileOperation>, i: nat)
    requires i <= |ops| && Acceptable(limits, files, task, ops)
    ensures Acceptable(limits, files, task, ops[..i])
  {
    hide AcceptableOne, Normalize;
    TotalSizeGrows(ops, i);
  }

  /** `ControlledPatchApplier.validate`: it only reads, and accepts exactly the acceptable lists.
      A size check that the declaration `Acceptable` makes once is made after every operation. */
  method Validate(limits: Limits, files: map<Path, string>, task: TaskPolicy, ops: seq<FileOperation>)
    returns (ok: bool)
    ensures ok <==> Acceptable(limits, files, task, ops)
  {
    hide Acceptable, TotalSize, NormalizedPaths, SafeRelative, AllowedPath, Rooted, ParentIsFile, Utf8.Length,
      Normalize, Components;
    var seen: set<string> := {};
    var total := 0;
    var index := 0;
    EmptyIsAcceptable(limits, files, task, ops[..0]);
    while index < |ops|
      invariant 0 <= index <= |ops|
      invariant Acceptable(limits, files, task, ops[..index])
      invariant seen == NormalizedPaths(ops[..index]) && total == TotalSize(ops[..index])
    {
      var op := ops[index];
      AcceptableStep(limits, files, task, ops, index);
      if Acceptable(limits, files, task, ops) {
        AcceptablePrefix(limits, files, task, ops, index + 1);
      }
      if !SafeRelative(op.path) {
        return false;
      }
      var path := Normalize(op.path);
      if path in seen || path == ".git" || ".git/" <= path {
        return false;
      }
      seen := seen + {path};
      if !AllowedPath(path, task.allowed, task.forbidden) || !limits.changeAllowed(path) {
        return false;
      }
      if Rooted(path) || ParentIsFile(files, Components(path)) {
        return false;
      }
      if op.kind.Delete? {
        if !limits.allowDeletions {
          return false;
        }
      } else {
        if op.content.None? || '\0' in op.content.value {
          return false;
        }
        var size := Utf8.Length(op.content.value);
        total := total + size;
        if size > limits.maximumFileBytes || total > limits.maximumPatchBytes {
          return false;
        }
      }
      index := index + 1;
    }
    assert ops[..index] == ops;
    ok := true;
  }

  lemma EmptyIsAcceptable(limits: Limits, files: map<Path, string>, task: TaskPolicy, ops: seq<FileOperation>)
    requires ops == []
    ensures Acceptable(limits, files, task, ops) && NormalizedPaths(ops) == {} && TotalSize(ops) == 0
  {
  }

  /** One operation applied to the files; None when the file system refuses it. */
  function ApplyOne(files: map<Path, string>, op: FileOperation): Option<map<Path, string>> {
    var p := Destination(op);
    if op.kind.Delete? then
      if p in files then Some(files - {p}) else None
    else if op.content.None? || ParentIsFile(files, p) || IsDirectory(files, p) then None
    else Some(files[p := op.content.value])
  }

  /** The operations applied in order. */
  function ApplyAll(files: map<Path, string>, ops: seq<FileOperation>): Option<map<Path, string>> {
    if ops == [] then Some(files)
    else
      match ApplyAll(files, ops[..|ops| - 1])
      case None => None
      case Some(before) => ApplyOne(before, ops[|ops| - 1])
  }

  /** The last operation whose destination is the path. */
  function LastFor(ops: seq<FileOperation>, p: Path): Option<FileOperation> {
    if ops == [] then None
    else if Destination(ops[|ops| - 1]) == p then Some(ops[|ops| - 1])
    else LastFor(ops[..|ops| - 1], p)
  }

  function Intended(op: FileOperation): Option<string> {
    if op.kind.Delete? then None else op.content
  }

  function IntendedAt(base: map<Path, string>, ops: seq<FileOperation>, p: Path): Option<string> {
    match LastFor(ops, p)
    case None => Lookup(base, p)
    case Some(op) => Intended(op)
  }

  /** The files are the base overridden by exactly the operations, and nothing else differs. */
  ghost predicate ExactlyApplied(base: map<Path, string>, files: map<Path, string>, ops: seq<FileOperation>) {
    forall p: Path :: Lookup(files, p) == IntendedAt(base, ops, p)
  }

  lemma {:induction false} ApplyAllIsExact(base: map<Path, string>, ops: seq<FileOperation>)
    requires ApplyAll(base, ops).Some?
    ensures ExactlyApplied(base, ApplyAll(base, ops).value, ops)
  {
    if ops != [] {
      var before := ApplyAll(base, ops[..|ops| - 1]).value;
      ApplyAllIsExact(base, ops[..|ops| - 1]);
      forall p: Path ensures Lookup(ApplyAll(base, ops).value, p) == IntendedAt(base, ops, p) {
        assert Lookup(before, p) == IntendedAt(base, ops[..|ops| - 1], p);
      }
    }
  }

  /** The operation is spelled as Git lists its file and really changes that file. */
  predicate Effective(base: map<Path, string>, op: FileOperation) {
    Canonical(op.path) && Lookup(base, Components(op.path)) != Intended(op)
  }

  function PathSet(ops: seq<FileOperation>): set<string> {
    set i | 0 <= i < |ops| :: ops[i].path
  }

  function PathList(ops: seq<FileOperation>): seq<string> {
    seq(|ops|, i requires 0 <= i < |ops| => ops[i].path)
  }
}
