/** The calls of the coding-provider service as scripts over the durable world. A provider is seen
    only through its replies, which are arbitrary. */
module ProtocolScripts {
  import opened Wrappers
  import opened ProviderModel
  import opened Patching
  import opened PatchScripts
  import Utf8

  /** What the operator configured; the functions are arbitrary. */
  datatype Config = Config(
    coding: set<string>,          // providers that modify code and accept idempotent submissions
    enabled: set<string>,         // providers the registry hands out
    cancellable: set<string>,
    operationName: (string, string, int) -> string,
    redact: (string, nat) -> string,
    eventSize: ProgressEvent -> nat,
    resultSize: Result -> nat,
    changePolicies: set<string>,
    limits: string -> Limits)

  datatype PrepareRequest = PrepareRequest(
    project: string, plan: string, version: int, task: string, external: string, workspace: string,
    branch: string, provider: string, attempt: int, maximumAttempts: int, maximumOutput: nat,
    context: Option<string>)

  /** A live provider's parsed answer. */
  datatype Answer = Answer(
    taskId: string, status: Status, summary: string, operations: seq<FileOperation>, units: nat, cost: Option<real>)

  datatype SubmitReply = SubmitRaises | SubmitAnswers(answer: Answer)

  /** Replies to `reconcile_task` and `get_task_identity`; None means the call raises. */
  datatype LookupReply = LookupReply(matches: Option<seq<string>>, identity: Option<Identity>)

  /** Providers whose answer is durable through the response sink before `submit_task` returns. */
  predicate Live(provider: string) {
    provider == "openai-codex" || provider == "openai-codex-sdk"
  }

  function ResultOf(request: Identity, answer: Answer): Result {
    Result(answer.taskId, request.external, request.workspace, request.branch, answer.status,
           answer.summary, answer.operations, answer.units, answer.cost)
  }

  function ReceiptOf(request: Identity, provider: string, answer: Answer): Receipt {
    Receipt(request, provider, answer.taskId, ResultOf(request, answer))
  }

  function IdentityFor(cfg: Config, a: PrepareRequest, context: string): Identity {
    var payload := Payload(a.external, a.project, a.plan, a.version, a.task, a.workspace, a.branch, context, a.attempt);
    Identity(cfg.operationName(a.plan, a.task, a.attempt), a.project, a.plan, a.version, a.task, a.external,
             a.workspace, a.branch, payload, context,
             IdempotencyKey(a.project, a.plan, a.version, a.task, a.attempt, payload))
  }

  function PrepareScript(cfg: Config, w: World, a: PrepareRequest): Script {
    if !(1 <= a.attempt <= a.maximumAttempts) then Raise(PolicyError)
    else if a.provider !in cfg.coding then Raise(RegistryError)
    else if a.context.None? then Raise(PolicyError)
    else
      var identity := IdentityFor(cfg, a, a.context.value);
      var key := KeyOf(identity);
      if key in w.operations then
        var existing := w.operations[key];
        if || existing.identity.request != identity.request
           || existing.identity.context != identity.context
           || existing.provider != a.provider
           || existing.identity.workspace != a.workspace
           || existing.identity.branch != a.branch
           || existing.identity.version != a.version
        then Raise(ReconciliationError)
        else Script([], Operated(existing))
      else
        var op := Operation(identity, a.provider, a.maximumOutput, Prepared, None, 0, None);
        Script([SaveOperation(op)], Operated(op))
  }

  /** The provider's own record of the one matching task decides. */
  function LookupScript(op: Operation, lookup: LookupReply, taskId: string): Script {
    if lookup.identity.None? then Raise(ProviderFailure)
    else if lookup.identity.value != op.identity then Reconciliation(op)
    else
      var submitted := op.(taskId := Some(taskId), state := Submitted);
      Script([SaveOperation(submitted)], Operated(submitted))
  }

  /** What `submit` does once a live provider's sink stored its answer. */
  function VerifyLiveScript(w: World, key: Key, op: Operation, taskId: string): Script {
    if key !in w.receipts || key !in w.results then Reconciliation(op)
    else if !ReceiptMatches(op, w.receipts[key], w.results[key]) then Reconciliation(op)
    else if w.receipts[key].taskId != taskId then Reconciliation(op)
    else
      var submitted := op.(taskId := Some(taskId), state := Submitted);
      Script([SaveOperation(submitted)], Operated(submitted))
  }

  function Stored(w: World, request: Identity, provider: string, answer: Answer): World {
    w.(results := w.results[KeyOf(request) := ResultOf(request, answer)],
       receipts := w.receipts[KeyOf(request) := ReceiptOf(request, provider, answer)])
  }

  function SubmitScript(cfg: Config, w: World, key: Key, request: Identity, allowLive: bool, confirmUsage: bool,
                        reply: SubmitReply, lookup: LookupReply): Script
  {
    if key !in w.operations then Raise(NotFound)
    else
      var op := w.operations[key];
      if op.state != Prepared && op.state != Uncertain && op.state != Submitted then Raise(StateError)
      else if op.provider !in cfg.enabled then Raise(RegistryError)
      else if op.provider != "deterministic" && (!allowLive || !confirmUsage) then Raise(PolicyError)
      else if op.state != Prepared then ReconcileScript(cfg, w, key, lookup)
      else
        var inProgress := op.(state := SubmissionInProgress);
        Emit([SaveOperation(inProgress), CallSubmit(key, request)],
          match reply
          case SubmitRaises =>
            Script([SaveOperation(inProgress.(state := Uncertain))], Raised(ProviderFailure))
          case SubmitAnswers(answer) =>
            if Live(op.provider) then
              Emit([SaveResult(KeyOf(request), ResultOf(request, answer)),
                    SaveReceipt(ReceiptOf(request, op.provider, answer))],
                   VerifyLiveScript(Stored(w, request, op.provider, answer), key, inProgress, answer.taskId))
            else if lookup.matches.None? then Raise(ProviderFailure)
            else if lookup.matches.value != [answer.taskId] then Reconciliation(inProgress)
            else LookupScript(inProgress, lookup, answer.taskId))
  }

  /** `reconcile` looks at no state and at no result status. */
  function ReconcileScript(cfg: Config, w: World, key: Key, lookup: LookupReply): Script {
    if key !in w.operations then Raise(NotFound)
    else
      var op := w.operations[key];
      if key in w.receipts && key in w.results then
        if !ReceiptMatches(op, w.receipts[key], w.results[key]) then Reconciliation(op)
        else
          var reconciled := op.(taskId := Some(w.receipts[key].taskId), resultReference := Some(key.operation), state := ResultAvailable);
          Script([SaveOperation(reconciled)], Operated(reconciled))
      else if op.provider == "openai-codex" then Reconciliation(op)
      else if op.provider !in cfg.enabled then Raise(RegistryError)
      else if Live(op.provider) then Reconciliation(op)
      else if lookup.matches.None? then Raise(ProviderFailure)
      else if |lookup.matches.value| != 1 then Reconciliation(op)
      else LookupScript(op, lookup, lookup.matches.value[0])
  }

  function StateAfterPoll(status: Status): OperationState {
    match status
    case Succeeded => ResultAvailable
    case RetryableFailure => FailedRetryable
    case PermanentFailure => FailedPermanent
    case TimeOut => TimedOut
    case WasCancelled => Cancelled
  }

  function Sanitize(cfg: Config, event: ProgressEvent, maximum: nat): ProgressEvent {
    event.(message := cfg.redact(event.message, if maximum < 2_000 then maximum else 2_000))
  }

  /** The stored event with this sequence number, if any. */
  function FindSequence(log: seq<ProgressEvent>, sequence: int): Option<ProgressEvent> {
    if log == [] then None
    else if log[0].sequence == sequence then Some(log[0])
    else FindSequence(log[1..], sequence)
  }

  /** `append_progress`: the log afterwards, or None when it raises. */
  function Appended(log: seq<ProgressEvent>, event: ProgressEvent): Option<seq<ProgressEvent>> {
    match FindSequence(log, event.sequence)
    case Some(existing) => if existing == event then Some(log) else None
    case None => if event.sequence == |log| + 1 then Some(log + [event]) else None
  }

  function PollEvents(cfg: Config, key: Key, op: Operation, log: seq<ProgressEvent>, events: seq<ProgressEvent>, status: Option<Status>): Script
    decreases |events|
  {
    if events == [] then
      match status
      case None => Raise(ProviderFailure)
      case Some(s) =>
        var updated := op.(state := StateAfterPoll(s), cursor := |log|);
        Script([SaveOperation(updated)], Operated(updated))
    else if events[0].operation != key.operation then Reconciliation(op)
    else
      var event := Sanitize(cfg, events[0], op.maximumOutput);
      if cfg.eventSize(event) > op.maximumOutput then Reconciliation(op)
      else
        match Appended(log, event)
        case None => Raise(StateError)
        case Some(longer) =>
          if longer == log then PollEvents(cfg, key, op, log, events[1..], status)
          else Emit([SaveProgress(key, longer)], PollEvents(cfg, key, op, longer, events[1..], status))
  }

  function LogAt(w: World, key: Key): seq<ProgressEvent> {
    if key in w.progress then w.progress[key] else []
  }

  function PollScript(cfg: Config, w: World, key: Key, events: Option<seq<ProgressEvent>>, status: Option<Status>): Script {
    if key !in w.operations then Raise(NotFound)
    else
      var op := w.operations[key];
      if op.state != Submitted && op.state != Running && op.state != ResultAvailable then Raise(StateError)
      else if op.provider !in cfg.enabled then Raise(RegistryError)
      else if op.taskId.None? || op.taskId.value == "" then Raise(ReconciliationError)
      else if events.None? then Raise(ProviderFailure)
      else PollEvents(cfg, key, op, LogAt(w, key), events.value, status)
  }

  function ResultScript(cfg: Config, w: World, key: Key, tokenBudget: Option<nat>, costBudget: Option<real>, reply: Option<Result>): Script {
    if key !in w.operations then Raise(NotFound)
    else
      var op := w.operations[key];
      if op.state != ResultAvailable then Raise(StateError)
      else if op.provider !in cfg.enabled then Raise(RegistryError)
      else if reply.None? then Raise(ProviderFailure)
      else
        var result := reply.value;
        if || Some(result.taskId) != op.taskId
           || result.external != op.identity.external
           || result.workspace != op.identity.workspace
           || result.branch != op.identity.branch
           || result.status != Succeeded
           || cfg.resultSize(result) > op.maximumOutput
           || TotalContent(result.operations) > op.maximumOutput
        then Reconciliation(op)
        else if tokenBudget.Some? && result.units > tokenBudget.value then Raise(PolicyError)
        else if costBudget.Some? && result.cost.Some? && result.cost.value > costBudget.value then Raise(PolicyError)
        else if Live(op.provider) && key !in w.receipts then Raise(NotFound)
        else if Live(op.provider) && !ReceiptMatches(op, w.receipts[key], result) then Reconciliation(op)
        else
          var receipt := if Live(op.provider) then w.receipts[key] else Receipt(op.identity, op.provider, result.taskId, result);
          Script([SaveResult(key, result), SaveReceipt(receipt),
                  SaveOperation(op.(resultReference := Some(key.operation)))],
                 Fetched(result))
  }

  /** The encoded size of everything a result would write. */
  function TotalContent(ops: seq<FileOperation>): nat {
    if ops == [] then 0
    else TotalContent(ops[..|ops| - 1]) + (if ops[|ops| - 1].content.Some? then Utf8.Length(ops[|ops| - 1].content.value) else 0)
  }

  function CancellationScript(key: Key, op: Operation, c: Cancellation, status: Option<Status>): Script {
    match status
    case None =>
      Script([SaveCancellation(key, c.(state := CancellationNeedsReconciliation))], Raised(ReconciliationError))
    case Some(WasCancelled) =>
      var cancelled := op.(state := Cancelled);
      Script([SaveCancellation(key, c.(state := CancellationConfirmed)), SaveOperation(cancelled)], Operated(cancelled))
    case Some(Succeeded) =>
      var actual := op.(state := ResultAvailable);
      Script([SaveOperation(actual)], Operated(actual))
    case Some(_) =>
      Script([SaveCancellation(key, c.(state := CancellationNeedsReconciliation))], Raised(ReconciliationError))
  }

  function ReconcileCancellationScript(cfg: Config, w: World, key: Key, status: Option<Status>): Script {
    if key !in w.operations || key !in w.cancellations then Raise(NotFound)
    else if w.operations[key].provider !in cfg.enabled then Raise(RegistryError)
    else CancellationScript(key, w.operations[key], w.cancellations[key], status)
  }

  function CancelScript(cfg: Config, w: World, key: Key, actor: string, reason: string, cancelRaises: bool, status: Option<Status>): Script {
    if actor == "" || reason == "" then Raise(PolicyError)
    else if key !in w.operations then Raise(NotFound)
    else
      var op := w.operations[key];
      if op.state != Submitted && op.state != Running then Raise(StateError)
      else if op.provider !in cfg.enabled then Raise(RegistryError)
      else if op.provider !in cfg.cancellable then Raise(PolicyError)
      else
        var c := Cancellation(op.provider, op.taskId, actor, reason, CancellationPrepared);
        var requested := op.(state := CancellationRequested);
        var inProgress := c.(state := CancellationInProgress);
        Emit([SaveCancellation(key, c), SaveOperation(requested), SaveCancellation(key, inProgress), CallCancel(key)],
          if cancelRaises then
            Script([SaveCancellation(key, inProgress.(state := CancellationUncertain))], Raised(ProviderFailure))
          else
            CancellationScript(key, requested, inProgress, status))
  }

  /** One call of the service with everything the environment answers during it. */
  datatype Command =
    | Prepare(request: PrepareRequest)
    | Submit(key: Key, identity: Identity, allowLive: bool, confirmUsage: bool, submitReply: SubmitReply, lookup: LookupReply)
    | Poll(key: Key, events: Option<seq<ProgressEvent>>, status: Option<Status>)
    | FetchResult(key: Key, tokenBudget: Option<nat>, costBudget: Option<real>, resultReply: Option<Result>)
    | ApplyAndAccept(key: Key, task: TaskPolicy, policy: string)
    | Cancel(key: Key, actor: string, reason: string, cancelRaises: bool, status: Option<Status>)
    | Reconcile(key: Key, lookup: LookupReply)
    | ReconcileCancellation(key: Key, status: Option<Status>)

  function ScriptOf(cfg: Config, w: World, c: Command): Script {
    match c
    case Prepare(request) => PrepareScript(cfg, w, request)
    case Submit(key, identity, allowLive, confirmUsage, reply, lookup) =>
      SubmitScript(cfg, w, key, identity, allowLive, confirmUsage, reply, lookup)
    case Poll(key, events, status) => PollScript(cfg, w, key, events, status)
    case FetchResult(key, tokens, cost, reply) => ResultScript(cfg, w, key, tokens, cost, reply)
    case ApplyAndAccept(key, task, policy) =>
      ApplyScript(cfg.limits(policy), task, policy in cfg.changePolicies, w, key)
    case Cancel(key, actor, reason, raises, status) => CancelScript(cfg, w, key, actor, reason, raises, status)
    case Reconcile(key, lookup) => ReconcileScript(cfg, w, key, lookup)
    case ReconcileCancellation(key, status) => ReconcileCancellationScript(cfg, w, key, status)
  }
}
