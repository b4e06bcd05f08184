/** Values of the durable coding-provider protocol, the durable world they live in, and the atomic
    effects that change it. A digest is modelled by the value digested, so digests are injective. */
module ProviderModel {
  import opened Wrappers
  import opened Paths

  datatype Key = Key(project: string, operation: string)

  datatype OperationState =
    | Prepared | SubmissionInProgress | Submitted | Running | ResultAvailable | ResultAccepted
    | CancellationRequested | Cancelled | FailedRetryable | FailedPermanent | TimedOut | Uncertain
    | NeedsReconciliation

  datatype PatchState =
    | PatchPrepared | Staging | Applying | Applied | Verified | Accepted | Failed | PatchUncertain
    | PatchNeedsReconciliation

  datatype CancellationState =
    | CancellationPrepared | CancellationInProgress | CancellationConfirmed | CancellationUncertain
    | CancellationNeedsReconciliation

  datatype Status = Succeeded | RetryableFailure | PermanentFailure | TimeOut | WasCancelled

  /** The request payload; its digest is the request digest. */
  datatype Payload = Payload(
    external: string, project: string, plan: string, version: int, task: string, workspace: string,
    branch: string, context: string, attempt: int)

  datatype IdempotencyKey = IdempotencyKey(
    project: string, plan: string, version: int, task: string, attempt: int, request: Payload)

  /** Every field that `_verify_receipt` and `_verify_provider_request` both compare. */
  datatype Identity = Identity(
    operation: string, project: string, plan: string, version: int, task: string, external: string,
    workspace: string, branch: string, request: Payload, context: string, idempotencyKey: IdempotencyKey)

  function KeyOf(identity: Identity): Key {
    Key(identity.project, identity.operation)
  }

  datatype FileKind = Create | Update | Delete

  datatype FileOperation = FileOperation(kind: FileKind, path: string, content: Option<string>)

  datatype Result = Result(
    taskId: string, external: string, workspace: string, branch: string, status: Status,
    summary: string, operations: seq<FileOperation>, units: nat, cost: Option<real>)

  datatype Receipt = Receipt(identity: Identity, provider: string, taskId: string, digest: Result)

  datatype Operation = Operation(
    identity: Identity, provider: string, maximumOutput: nat, state: OperationState,
    taskId: Option<string>, cursor: nat, resultReference: Option<string>)

  datatype ProgressEvent = ProgressEvent(operation: string, sequence: int, kind: string, message: string)

  datatype Cancellation = Cancellation(
    provider: string, taskId: Option<string>, actor: string, reason: string, state: CancellationState)

  /** What the finished patch looked like; sorted duplicate-free tuples are sets and maps here. */
  datatype Manifest = Manifest(
    operation: string, changed: set<string>, files: map<string, string>,
    diff: map<Path, Option<string>>)

  datatype PatchEffect = PatchEffect(
    operation: string, plan: string, version: int, workspace: string, branch: string,
    request: Payload, context: string, result: Result, operations: seq<FileOperation>,
    expected: seq<string>, preCommit: string, preClean: bool, state: PatchState,
    completed: seq<string>, manifest: Option<Manifest>)

  datatype Stage = Stage(key: Key, index: nat)

  /** One Git workspace: the checked-out commit's tree, the working files, and leftover stage files. */
  datatype Repository = Repository(
    commit: string, branch: string, base: map<Path, string>, files: map<Path, string>,
    stages: map<Stage, string>)
  {
    /** The listings of the files that differ from the commit. */
    function Changed(): set<string> {
      set p | p in base.Keys + files.Keys && Lookup(base, p) != Lookup(files, p) :: Join(p)
    }

    /** `git status` lists exactly these paths; a leftover stage file is listed too. */
    predicate StatusIs(paths: set<string>) {
      stages == map[] && Changed() == paths
    }

    predicate Clean() {
      StatusIs({})
    }

    /** `git diff` covers tracked files only. */
    function Diff(): map<Path, Option<string>> {
      map p | p in base && Lookup(files, p) != Some(base[p]) :: Lookup(files, p)
    }

    /** Every file name is one Git can list without quoting. */
    predicate Ok() {
      (forall p :: p in base ==> WellFormed(p)) && (forall p :: p in files ==> WellFormed(p))
    }
  }

  /** The file a raw path text denotes below the workspace root. */
  function FileAt(files: map<Path, string>, path: string): Option<string> {
    if Rooted(path) then None else Lookup(files, Components(path))
  }

  /** Everything that survives a crash, and the ledger of submissions that left the process. */
  datatype World = World(
    operations: map<Key, Operation>, results: map<Key, Result>, receipts: map<Key, Receipt>,
    patches: map<Key, PatchEffect>, cancellations: map<Key, Cancellation>,
    progress: map<Key, seq<ProgressEvent>>, repository: Repository, submissions: seq<Key>)

  /** One atomic durable write, file replacement, or call that leaves the process. */
  datatype Effect =
    | SaveOperation(operation: Operation)
    | SaveResult(key: Key, result: Result)
    | SaveReceipt(receipt: Receipt)
    | SavePatch(key: Key, patch: PatchEffect)
    | SaveCancellation(key: Key, cancellation: Cancellation)
    | SaveProgress(key: Key, log: seq<ProgressEvent>)
    | CallSubmit(key: Key, request: Identity)
    | CallCancel(key: Key)
    | WriteStage(stage: Stage, content: string)
    | ReplaceFile(stage: Stage, path: Path, content: string)
    | RemoveFile(path: Path)

  function AfterRepository(r: Repository, e: Effect): Repository {
    match e
    case WriteStage(stage, content) => r.(stages := r.stages[stage := content])
    case ReplaceFile(stage, path, content) => r.(files := r.files[path := content], stages := r.stages - {stage})
    case RemoveFile(path) => r.(files := r.files - {path})
    case _ => r
  }

  function After(w: World, e: Effect): World {
    match e
    case SaveOperation(op) => w.(operations := w.operations[KeyOf(op.identity) := op])
    case SaveResult(key, result) => w.(results := w.results[key := result])
    case SaveReceipt(receipt) => w.(receipts := w.receipts[KeyOf(receipt.identity) := receipt])
    case SavePatch(key, patch) => w.(patches := w.patches[key := patch])
    case SaveCancellation(key, c) => w.(cancellations := w.cancellations[key := c])
    case SaveProgress(key, log) => w.(progress := w.progress[key := log])
    case CallSubmit(key, _) => w.(submissions := w.submissions + [key])
    case CallCancel(_) => w
    case _ => w.(repository := AfterRepository(w.repository, e))
  }

  function Replay(w: World, effects: seq<Effect>): World
    decreases |effects|
  {
    if effects == [] then w else Replay(After(w, effects[0]), effects[1..])
  }

  datatype Error = PolicyError | StateError | NotFound | ReconciliationError | RegistryError | ProviderFailure | FileFailure

  datatype Outcome =
    | Operated(operation: Operation)
    | Fetched(result: Result)
    | Patched(accepted: Operation, manifest: Manifest)
    | Raised(error: Error)
    | Crashed

  /** What one service call does: its atomic effects in order, then how it returns. */
  datatype Script = Script(effects: seq<Effect>, outcome: Outcome)

  function Raise(error: Error): Script {
    Script([], Raised(error))
  }

  function Emit(effects: seq<Effect>, rest: Script): Script {
    Script(effects + rest.effects, rest.outcome)
  }

  /** The durable world when the process dies after `fuel` effects of the script. */
  function Reached(w: World, script: Script, fuel: nat): World {
    Replay(w, script.effects[..if fuel < |script.effects| then fuel else |script.effects|])
  }

  function Returned(script: Script, fuel: nat): Outcome {
    if fuel < |script.effects| then Crashed else script.outcome
  }

  lemma {:induction false} ReplayConcat(w: World, a: seq<Effect>, b: seq<Effect>)
    ensures Replay(w, a + b) == Replay(Replay(w, a), b)
    decreases |a|
  {
    if a == [] {
      assert a + b == b;
    } else {
      assert (a + b)[1..] == a[1..] + b;
      ReplayConcat(After(w, a[0]), a[1..], b);
    }
  }

  lemma ReplayOne(w: World, e: Effect)
    ensures Replay(w, [e]) == After(w, e)
  {
    assert Replay(After(w, e), [e][1..]) == After(w, e);
  }
}
