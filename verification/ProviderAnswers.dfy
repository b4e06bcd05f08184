/** What each call of the coding-provider service answers and leaves behind when the process survives it,
    as tables of conditions on the stored records, the request and the replies. */
module ProviderAnswers {
  import opened Wrappers
  import opened ProviderModel
  import opened PatchScripts
  import opened ProtocolScripts
  import opened ProtocolSafety
  import Utf8

  function Reply(cfg: Config, w: World, c: Command): Outcome {
    ScriptOf(cfg, w, c).outcome
  }

  function Finally(cfg: Config, w: World, c: Command): World {
    Replay(w, ScriptOf(cfg, w, c).effects)
  }

  /** The call raises this error and touches nothing. */
  predicate Refuses(cfg: Config, w: World, c: Command, error: Error) {
    Reply(cfg, w, c) == Raised(error) && ScriptOf(cfg, w, c).effects == []
  }

  function WithOperation(w: World, key: Key, op: Operation): World {
    w.(operations := w.operations[key := op])
  }

  /** The call returns this version of the operation and stores nothing else. */
  predicate Returns(cfg: Config, w: World, c: Command, key: Key, op: Operation) {
    Reply(cfg, w, c) == Operated(op) && Finally(cfg, w, c) == WithOperation(w, key, op)
  }

  /** The call raises and leaves the operation to an operator. */
  predicate HandsOver(cfg: Config, w: World, c: Command, key: Key, op: Operation) {
    && Reply(cfg, w, c) == Raised(ReconciliationError)
    && Finally(cfg, w, c) == WithOperation(w, key, op.(state := NeedsReconciliation))
  }

  lemma NoEffects(w: World)
    ensures Replay(w, []) == w
  {
  }

  lemma OneSave(w: World, key: Key, op: Operation)
    requires KeyOf(op.identity) == key
    ensures Replay(w, [SaveOperation(op)]) == WithOperation(w, key, op)
  {
    ReplayOne(w, SaveOperation(op));
  }

  lemma ThreeEffects(w: World, a: Effect, b: Effect, c: Effect)
    ensures Replay(w, [a, b, c]) == After(After(After(w, a), b), c)
  {
    hide After;
    assert [a, b, c] == [a, b] + [c];
    ReplayConcat(w, [a, b], [c]);
    TwoSafe(w, a, b);
    ReplayOne(After(After(w, a), b), c);
  }

  lemma PrefixOfTwo(w: World, a: Effect, b: Effect, rest: seq<Effect>)
    ensures Replay(w, [a, b] + rest) == Replay(After(After(w, a), b), rest)
  {
    hide After;
    ReplayConcat(w, [a, b], rest);
    TwoSafe(w, a, b);
  }

  /** The two providers whose answers are stored by the response sink. */
  predicate StoresItsAnswer(provider: string) {
    provider == "openai-codex" || provider == "openai-codex-sdk"
  }

  /** A receipt of this very operation that states this very result. */
  predicate Certifies(receipt: Receipt, op: Operation, result: Result) {
    && receipt.provider == op.provider && receipt.identity == op.identity
    && receipt.taskId == result.taskId && receipt.digest == result
  }

  // prepare

  /** The identity that `prepare` derives from the plan, the task, the request and the context. */
  function Derived(cfg: Config, a: PrepareRequest, context: string): Identity {
    var payload := Payload(a.external, a.project, a.plan, a.version, a.task, a.workspace, a.branch, context, a.attempt);
    Identity(cfg.operationName(a.plan, a.task, a.attempt), a.project, a.plan, a.version, a.task, a.external, a.workspace,
             a.branch, payload, context, IdempotencyKey(a.project, a.plan, a.version, a.task, a.attempt, payload))
  }

  /** `prepare` refuses attempts outside the limits, providers that cannot do the work, and contexts that
      cannot be built; otherwise it stores a new operation, or returns the stored one exactly when that was
      prepared for the same request, context, provider, workspace, branch and plan version. */
  lemma PrepareAnswers(cfg: Config, w: World, a: PrepareRequest)
    ensures var c := Prepare(a);
      var inLimits := 1 <= a.attempt <= a.maximumAttempts;
      var capable := a.provider in cfg.coding;
      && (!inLimits || (capable && a.context.None?) <==> Refuses(cfg, w, c, PolicyError))
      && (inLimits && !capable <==> Refuses(cfg, w, c, RegistryError))
      && (inLimits && capable && a.context.Some? ==>
            var identity := Derived(cfg, a, a.context.value);
            var key := Key(a.project, cfg.operationName(a.plan, a.task, a.attempt));
            if key !in w.operations then
              Returns(cfg, w, c, key, Operation(identity, a.provider, a.maximumOutput, Prepared, None, 0, None))
            else
              var stored := w.operations[key];
              if && stored.identity.request == identity.request && stored.identity.context == identity.context
                 && stored.provider == a.provider && stored.identity.workspace == a.workspace
                 && stored.identity.branch == a.branch && stored.identity.version == a.version
              then Reply(cfg, w, c) == Operated(stored) && ScriptOf(cfg, w, c).effects == []
              else Refuses(cfg, w, c, ReconciliationError))
  {
    hide Replay;
    if a.context.Some? {
      var identity := Derived(cfg, a, a.context.value);
      var op := Operation(identity, a.provider, a.maximumOutput, Prepared, None, 0, None);
      OneSave(w, KeyOf(identity), op);
    }
  }

  /** Preparing again what was just prepared returns it and stores nothing. */
  lemma PreparingTwice(cfg: Config, w: World, a: PrepareRequest, again: PrepareRequest)
    requires Reply(cfg, w, Prepare(a)).Operated?
    requires again == a.(maximumOutput := again.maximumOutput, maximumAttempts := again.maximumAttempts)
    requires a.attempt <= again.maximumAttempts
    ensures var w' := Finally(cfg, w, Prepare(a));
      Reply(cfg, w', Prepare(again)) == Reply(cfg, w, Prepare(a)) && Finally(cfg, w', Prepare(again)) == w'
  {
    hide Reply, Replay, ScriptOf;
    PrepareAnswers(cfg, w, a);
    var w' := Finally(cfg, w, Prepare(a));
    NoEffects(w);
    NoEffects(w');
    PrepareAnswers(cfg, w', again);
  }

  // submit and reconcile

  /** What the caller must bring for the call to reach the provider. */
  predicate MaySubmit(cfg: Config, op: Operation, allowLive: bool, confirmUsage: bool) {
    && op.provider in cfg.enabled
    && (op.provider == "deterministic" || (allowLive && confirmUsage))
  }

  /** `submit` refuses, touching nothing, operations it does not know, states it cannot continue from,
      disabled providers, and any provider but the deterministic one without both consents. */
  lemma SubmitRefuses(cfg: Config, w: World, c: Command)
    requires c.Submit?
    ensures c.key !in w.operations <==> Refuses(cfg, w, c, NotFound)
    ensures c.key in w.operations ==>
      var op := w.operations[c.key];
      var continues := op.state == Prepared || op.state == Uncertain || op.state == Submitted;
      && (!continues <==> Refuses(cfg, w, c, StateError))
      && (continues && op.provider !in cfg.enabled <==> Refuses(cfg, w, c, RegistryError))
      && (continues && op.provider in cfg.enabled && op.provider != "deterministic" && !(c.allowLive && c.confirmUsage)
          <==> Refuses(cfg, w, c, PolicyError))
  {
    hide ReceiptMatches, ResultOf, ReceiptOf, VerifyLiveScript;
  }

  /** Once submitted or uncertain, `submit` does what `reconcile` does. */
  lemma SubmitReconciles(cfg: Config, w: World, c: Command)
    requires c.Submit? && c.key in w.operations && MaySubmit(cfg, w.operations[c.key], c.allowLive, c.confirmUsage)
    requires w.operations[c.key].state == Uncertain || w.operations[c.key].state == Submitted
    ensures Reply(cfg, w, c) == Reply(cfg, w, Reconcile(c.key, c.lookup))
    ensures Finally(cfg, w, c) == Finally(cfg, w, Reconcile(c.key, c.lookup))
  {
    hide ReconcileScript, Replay;
  }

  /** The world in which the provider is called: the intent is stored, and the call is on the ledger. */
  function Sent(w: World, key: Key): World
    requires key in w.operations
  {
    w.(operations := w.operations[key := w.operations[key].(state := SubmissionInProgress)], submissions := w.submissions + [key])
  }

  /** A prepared operation is handed to the provider once, with the caller's request and only after the
      intent is stored; a provider that raises leaves it uncertain. */
  lemma SubmitSends(cfg: Config, w: World, c: Command)
    requires Inv(w) && c.Submit? && c.key in w.operations
    requires w.operations[c.key].state == Prepared && MaySubmit(cfg, w.operations[c.key], c.allowLive, c.confirmUsage)
    ensures var op := w.operations[c.key];
      var effects := ScriptOf(cfg, w, c).effects;
      && |effects| >= 2
      && effects[0] == SaveOperation(op.(state := SubmissionInProgress)) && effects[1] == CallSubmit(c.key, c.identity)
      && Replay(w, effects[..2]) == Sent(w, c.key)
      && (forall i :: 0 <= i < |effects| && effects[i].CallSubmit? ==> i == 1)
    ensures c.submitReply.SubmitRaises? ==>
      && Reply(cfg, w, c) == Raised(ProviderFailure)
      && Finally(cfg, w, c) == WithOperation(Sent(w, c.key), c.key, w.operations[c.key].(state := Uncertain))
  {
    hide Live, VerifyLiveScript, LookupScript, ResultOf, ReceiptOf, Replay, Inv, KeyOf;
    StoredUnderOwnKey(w, c.key);
    var op := w.operations[c.key];
    var effects := ScriptOf(cfg, w, c).effects;
    SentReplays(w, c.key, c.identity);
    assert effects[..2] == [SaveOperation(op.(state := SubmissionInProgress)), CallSubmit(c.key, c.identity)];
    VerifyNeverCalls(w, c);
    if c.submitReply.SubmitRaises? {
      var last := SaveOperation(op.(state := Uncertain));
      assert effects == effects[..2] + [last];
      ReplayConcat(w, effects[..2], [last]);
      OneSave(Sent(w, c.key), c.key, op.(state := Uncertain));
    }
  }

  lemma SentReplays(w: World, key: Key, request: Identity)
    requires key in w.operations && KeyOf(w.operations[key].identity) == key
    ensures Replay(w, [SaveOperation(w.operations[key].(state := SubmissionInProgress)), CallSubmit(key, request)]) == Sent(w, key)
  {
    hide KeyOf;
    TwoSafe(w, SaveOperation(w.operations[key].(state := SubmissionInProgress)), CallSubmit(key, request));
  }

  lemma VerifyNeverCalls(w: World, c: Command)
    requires c.Submit?
    ensures forall w', op, taskId, i :: 0 <= i < |VerifyLiveScript(w', c.key, op, taskId).effects| ==>
      !VerifyLiveScript(w', c.key, op, taskId).effects[i].CallSubmit?
    ensures forall op, lookup, taskId, i :: 0 <= i < |LookupScript(op, lookup, taskId).effects| ==>
      !LookupScript(op, lookup, taskId).effects[i].CallSubmit?
  {
    hide ReceiptMatches;
  }

  /** A provider that keeps its own record: the operation becomes `SUBMITTED` exactly when the lookup names
      this one task and the record of the task is this operation's; a failing lookup leaves it in progress. */
  lemma LookedUpAnswers(cfg: Config, w: World, c: Command)
    requires Inv(w) && c.Submit? && c.key in w.operations && c.submitReply.SubmitAnswers?
    requires w.operations[c.key].state == Prepared && MaySubmit(cfg, w.operations[c.key], c.allowLive, c.confirmUsage)
    requires !StoresItsAnswer(w.operations[c.key].provider)
    ensures var op := w.operations[c.key];
      var task := c.submitReply.answer.taskId;
      var sent := Sent(w, c.key);
      if c.lookup.matches.None? || (c.lookup.matches.value == [task] && c.lookup.identity.None?) then
        Reply(cfg, w, c) == Raised(ProviderFailure) && Finally(cfg, w, c) == sent
      else if c.lookup.matches.value == [task] && c.lookup.identity.value == op.identity then
        var submitted := op.(taskId := Some(task), state := Submitted);
        Reply(cfg, w, c) == Operated(submitted) && Finally(cfg, w, c) == WithOperation(sent, c.key, submitted)
      else
        && Reply(cfg, w, c) == Raised(ReconciliationError)
        && Finally(cfg, w, c) == WithOperation(sent, c.key, op.(state := NeedsReconciliation))
  {
    hide Replay, Inv, KeyOf, After;
    StoredUnderOwnKey(w, c.key);
    var op := w.operations[c.key];
    var effects := ScriptOf(cfg, w, c).effects;
    SentReplays(w, c.key, c.identity);
    var first := [SaveOperation(op.(state := SubmissionInProgress)), CallSubmit(c.key, c.identity)];
    assert effects == first + effects[2..];
    ReplayConcat(w, first, effects[2..]);
    NoEffects(Sent(w, c.key));
    OneSave(Sent(w, c.key), c.key, op.(taskId := Some(c.submitReply.answer.taskId), state := Submitted));
    OneSave(Sent(w, c.key), c.key, op.(state := NeedsReconciliation));
  }

  /** A provider whose sink stores its answer: result and receipt are stored under the request that was
      passed, and the operation becomes `SUBMITTED` exactly when its own stored receipt then certifies its own
      stored result under the task that was returned. */
  lemma SinkAnswers(cfg: Config, w: World, c: Command)
    requires Inv(w) && c.Submit? && c.key in w.operations && c.submitReply.SubmitAnswers?
    requires w.operations[c.key].state == Prepared && MaySubmit(cfg, w.operations[c.key], c.allowLive, c.confirmUsage)
    requires StoresItsAnswer(w.operations[c.key].provider)
    ensures var op, a := w.operations[c.key], c.submitReply.answer;
      var to := KeyOf(c.identity);
      var result := Result(a.taskId, c.identity.external, c.identity.workspace, c.identity.branch, a.status, a.summary,
                           a.operations, a.units, a.cost);
      var stored := Sent(w, c.key).(results := w.results[to := result],
                                    receipts := w.receipts[to := Receipt(c.identity, op.provider, a.taskId, result)]);
      if && c.key in stored.receipts && c.key in stored.results
         && Certifies(stored.receipts[c.key], op, stored.results[c.key]) && stored.receipts[c.key].taskId == a.taskId
      then
        var submitted := op.(taskId := Some(a.taskId), state := Submitted);
        Reply(cfg, w, c) == Operated(submitted) && Finally(cfg, w, c) == WithOperation(stored, c.key, submitted)
      else
        && Reply(cfg, w, c) == Raised(ReconciliationError)
        && Finally(cfg, w, c) == WithOperation(stored, c.key, op.(state := NeedsReconciliation))
  {
    hide Replay, Inv, KeyOf, After;
    StoredUnderOwnKey(w, c.key);
    var op, a := w.operations[c.key], c.submitReply.answer;
    var effects := ScriptOf(cfg, w, c).effects;
    var first := [SaveOperation(op.(state := SubmissionInProgress)), CallSubmit(c.key, c.identity)];
    var sink := [SaveResult(KeyOf(c.identity), ResultOf(c.identity, a)), SaveReceipt(ReceiptOf(c.identity, op.provider, a))];
    SentReplays(w, c.key, c.identity);
    assert effects == first + (sink + effects[4..]);
    ReplayConcat(w, first, sink + effects[4..]);
    ReplayConcat(Sent(w, c.key), sink, effects[4..]);
    SinkReplays(Sent(w, c.key), c.identity, op.provider, a);
    var stored := Stored(Sent(w, c.key), c.identity, op.provider, a);
    assert effects[4..] == [effects[4]];
    OneSave(stored, c.key, op.(taskId := Some(a.taskId), state := Submitted));
    OneSave(stored, c.key, op.(state := NeedsReconciliation));
  }

  lemma SinkReplays(w: World, request: Identity, provider: string, answer: Answer)
    ensures Replay(w, [SaveResult(KeyOf(request), ResultOf(request, answer)), SaveReceipt(ReceiptOf(request, provider, answer))]) ==
            Stored(w, request, provider, answer)
  {
    hide ResultOf, KeyOf;
    TwoSafe(w, SaveResult(KeyOf(request), ResultOf(request, answer)), SaveReceipt(ReceiptOf(request, provider, answer)));
  }

  /** `reconcile`: a stored answer decides alone, by its receipt; without one, a provider that stores its
      answers cannot be asked, and any other is asked for the one task of the operation. Two matching tasks,
      none, or one of another identity go to an operator. */
  lemma ReconcileAnswers(cfg: Config, w: World, c: Command)
    requires Inv(w) && c.Reconcile?
    ensures c.key !in w.operations <==> Refuses(cfg, w, c, NotFound)
    ensures c.key in w.operations ==>
      var op, lookup := w.operations[c.key], c.lookup;
      if c.key in w.receipts && c.key in w.results then
        if Certifies(w.receipts[c.key], op, w.results[c.key]) then
          Returns(cfg, w, c, c.key, op.(taskId := Some(w.receipts[c.key].taskId), resultReference := Some(c.key.operation), state := ResultAvailable))
        else HandsOver(cfg, w, c, c.key, op)
      else if op.provider == "openai-codex" then HandsOver(cfg, w, c, c.key, op)
      else if op.provider !in cfg.enabled then Refuses(cfg, w, c, RegistryError)
      else if op.provider == "openai-codex-sdk" then HandsOver(cfg, w, c, c.key, op)
      else if lookup.matches.None? || (|lookup.matches.value| == 1 && lookup.identity.None?) then Refuses(cfg, w, c, ProviderFailure)
      else if |lookup.matches.value| == 1 && lookup.identity.value == op.identity then
        Returns(cfg, w, c, c.key, op.(taskId := Some(lookup.matches.value[0]), state := Submitted))
      else HandsOver(cfg, w, c, c.key, op)
  {
    hide Replay, Inv, KeyOf;
    NoEffects(w);
    if c.key in w.operations {
      StoredUnderOwnKey(w, c.key);
      var op, lookup := w.operations[c.key], c.lookup;
      OneSave(w, c.key, op.(state := NeedsReconciliation));
      if c.key in w.receipts {
        OneSave(w, c.key, op.(taskId := Some(w.receipts[c.key].taskId), resultReference := Some(c.key.operation), state := ResultAvailable));
      }
      if lookup.matches.Some? && |lookup.matches.value| == 1 {
        OneSave(w, c.key, op.(taskId := Some(lookup.matches.value[0]), state := Submitted));
      }
    }
  }

  // poll

  predicate MayPoll(cfg: Config, w: World, key: Key) {
    && key in w.operations
    && (w.operations[key].state == Submitted || w.operations[key].state == Running || w.operations[key].state == ResultAvailable)
    && w.operations[key].provider in cfg.enabled
    && w.operations[key].taskId.Some? && w.operations[key].taskId.value != ""
  }

  /** `poll` refuses, touching nothing, what it does not know, cannot poll, or has no task for. */
  lemma PollRefuses(cfg: Config, w: World, c: Command)
    requires c.Poll? && (!MayPoll(cfg, w, c.key) || c.events.None?)
    ensures if c.key !in w.operations then Refuses(cfg, w, c, NotFound)
      else if w.operations[c.key].state !in {Submitted, Running, ResultAvailable} then Refuses(cfg, w, c, StateError)
      else if w.operations[c.key].provider !in cfg.enabled then Refuses(cfg, w, c, RegistryError)
      else if w.operations[c.key].taskId == None || w.operations[c.key].taskId == Some("") then Refuses(cfg, w, c, ReconciliationError)
      else Refuses(cfg, w, c, ProviderFailure)
  {
  }

  /** The state that a finished task's status stands for. */
  predicate Means(status: Status, state: OperationState) {
    && (status == Succeeded ==> state == ResultAvailable)
    && (status == RetryableFailure ==> state == FailedRetryable)
    && (status == PermanentFailure ==> state == FailedPermanent)
    && (status == TimeOut ==> state == TimedOut)
    && (status == WasCancelled ==> state == Cancelled)
  }

  /** With no event left to store, a failing status call changes nothing; otherwise the operation gets the
      state of its task and the length of the log as its cursor, and keeps everything else. */
  lemma PollEnds(cfg: Config, w: World, c: Command)
    requires Inv(w) && c.Poll? && MayPoll(cfg, w, c.key) && c.events == Some([])
    ensures c.status.None? ==> Refuses(cfg, w, c, ProviderFailure)
    ensures c.status.Some? ==>
      && Reply(cfg, w, c).Operated?
      && var updated := Reply(cfg, w, c).operation;
         && Means(c.status.value, updated.state)
         && updated.cursor == (if c.key in w.progress then |w.progress[c.key]| else 0)
         && updated == w.operations[c.key].(state := updated.state, cursor := updated.cursor)
         && Returns(cfg, w, c, c.key, updated)
  {
    hide Replay, Inv, KeyOf;
    StoredUnderOwnKey(w, c.key);
    if c.status.Some? {
      OneSave(w, c.key, Reply(cfg, w, c).operation);
    }
  }

  /** The event as it is stored: its message redacted to 2,000 characters or the approved output, if less. */
  function Cleaned(cfg: Config, op: Operation, event: ProgressEvent): ProgressEvent {
    event.(message := cfg.redact(event.message, if op.maximumOutput <= 2_000 then op.maximumOutput else 2_000))
  }

  /** In a log numbered from one, `append_progress` takes the next number, takes an event again that it holds
      under its number, and refuses every other. */
  lemma AppendedByNumber(log: seq<ProgressEvent>, event: ProgressEvent, operation: string)
    requires Numbered(log, operation)
    ensures Appended(log, event) ==
      if 1 <= event.sequence <= |log| then (if log[event.sequence - 1] == event then Some(log) else None)
      else if event.sequence == |log| + 1 then Some(log + [event])
      else None
  {
    FoundByNumber(log, 0, event.sequence);
  }

  lemma {:induction false} FoundByNumber(log: seq<ProgressEvent>, from: nat, sequence: int)
    requires forall i :: 0 <= i < |log| ==> log[i].sequence == from + i + 1
    ensures FindSequence(log, sequence) == if from + 1 <= sequence <= from + |log| then Some(log[sequence - from - 1]) else None
  {
    if log != [] && log[0].sequence != sequence {
      FoundByNumber(log[1..], from + 1, sequence);
    }
  }

  lemma LogIsNumbered(w: World, key: Key)
    requires Inv(w)
    ensures Numbered(LogAt(w, key), key.operation)
  {
  }

  /** The first reported event: one of another operation, or one too large, hands the operation over; one
      under another number or with other content than stored raises; one already stored is passed over; the
      next one is stored before the rest is looked at. */
  lemma PollStores(cfg: Config, w: World, c: Command)
    requires Inv(w) && c.Poll? && MayPoll(cfg, w, c.key) && c.events.Some? && c.events.value != []
    ensures var op, event := w.operations[c.key], c.events.value[0];
      var log := if c.key in w.progress then w.progress[c.key] else [];
      var clean := Cleaned(cfg, op, event);
      var rest := c.(events := Some(c.events.value[1..]));
      if event.operation != c.key.operation || cfg.eventSize(clean) > op.maximumOutput then HandsOver(cfg, w, c, c.key, op)
      else if 1 <= event.sequence <= |log| then
        if log[event.sequence - 1] == clean then Reply(cfg, w, c) == Reply(cfg, w, rest) && Finally(cfg, w, c) == Finally(cfg, w, rest)
        else Refuses(cfg, w, c, StateError)
      else if event.sequence == |log| + 1 then
        var longer := w.(progress := w.progress[c.key := log + [clean]]);
        Reply(cfg, w, c) == Reply(cfg, longer, rest) && Finally(cfg, w, c) == Finally(cfg, longer, rest)
      else Refuses(cfg, w, c, StateError)
  {
    hide Replay, Inv, KeyOf, Appended, Numbered;
    StoredUnderOwnKey(w, c.key);
    LogIsNumbered(w, c.key);
    var op, events := w.operations[c.key], c.events.value;
    var log := LogAt(w, c.key);
    var clean := Sanitize(cfg, events[0], op.maximumOutput);
    AppendedByNumber(log, clean, c.key.operation);
    OneSave(w, c.key, op.(state := NeedsReconciliation));
    if events[0].operation == c.key.operation && cfg.eventSize(clean) <= op.maximumOutput && Appended(log, clean) == Some(log + [clean]) {
      var save := SaveProgress(c.key, log + [clean]);
      var rest := PollEvents(cfg, c.key, op, log + [clean], events[1..], c.status).effects;
      assert log + [clean] != log;
      ReplayConcat(w, [save], rest);
      ReplayOne(w, save);
    }
  }

  // result

  /** The sum of the encoded contents. */
  lemma TotalContentIs(ops: seq<FileOperation>, op: FileOperation)
    ensures TotalContent([]) == 0
    ensures TotalContent(ops + [op]) == TotalContent(ops) + if op.content.Some? then |Utf8.Encode(op.content.value)| else 0
  {
    assert (ops + [op])[..|ops|] == ops;
  }

  /** The result is the operation's own, successful, and within the approved output. */
  predicate Fits(cfg: Config, op: Operation, r: Result) {
    && Some(r.taskId) == op.taskId && r.external == op.identity.external
    && r.workspace == op.identity.workspace && r.branch == op.identity.branch
    && r.status == Succeeded
    && cfg.resultSize(r) <= op.maximumOutput && TotalContent(r.operations) <= op.maximumOutput
  }

  predicate WithinBudgets(r: Result, tokens: Option<nat>, cost: Option<real>) {
    && (tokens.Some? ==> r.units <= tokens.value)
    && (cost.Some? && r.cost.Some? ==> r.cost.value <= cost.value)
  }

  /** `result` returns exactly a fitting result within the given budgets, and for a provider that stores its
      answers only one that the stored receipt certifies. */
  lemma FetchReturnsIff(cfg: Config, w: World, c: Command)
    requires c.FetchResult?
    ensures Reply(cfg, w, c).Fetched? <==>
      && c.key in w.operations && c.resultReply.Some? &&
      var op, r := w.operations[c.key], c.resultReply.value;
      && op.state == ResultAvailable && op.provider in cfg.enabled
      && Fits(cfg, op, r) && WithinBudgets(r, c.tokenBudget, c.costBudget)
      && (StoresItsAnswer(op.provider) ==> c.key in w.receipts && Certifies(w.receipts[c.key], op, r))
  {
    hide TotalContent;
  }

  /** What it then stores: the result, a receipt that certifies it, and the reference to it. */
  lemma FetchStores(cfg: Config, w: World, c: Command)
    requires Inv(w) && c.FetchResult? && Reply(cfg, w, c).Fetched?
    ensures var op, r := w.operations[c.key], Reply(cfg, w, c).result;
      var receipt := Receipt(op.identity, op.provider, r.taskId, r);
      && c.resultReply == Some(r)
      && Finally(cfg, w, c) == w.(results := w.results[c.key := r], receipts := w.receipts[c.key := receipt],
                                  operations := w.operations[c.key := op.(resultReference := Some(c.key.operation))])
  {
    hide TotalContent, Replay, Inv, KeyOf;
    StoredUnderOwnKey(w, c.key);
    var effects := ScriptOf(cfg, w, c).effects;
    ThreeEffects(w, effects[0], effects[1], effects[2]);
    assert effects == [effects[0], effects[1], effects[2]];
  }

  /** Every other answer: what does not fit, or is not certified, goes to an operator; an unknown or
      unavailable operation, a disabled provider, a provider that raises, a result above a budget and a
      missing receipt raise and touch nothing. */
  lemma FetchRefuses(cfg: Config, w: World, c: Command)
    requires Inv(w) && c.FetchResult? && !Reply(cfg, w, c).Fetched?
    ensures if c.key !in w.operations then Refuses(cfg, w, c, NotFound)
      else
        var op := w.operations[c.key];
        if op.state != ResultAvailable then Refuses(cfg, w, c, StateError)
        else if op.provider !in cfg.enabled then Refuses(cfg, w, c, RegistryError)
        else if c.resultReply.None? then Refuses(cfg, w, c, ProviderFailure)
        else if !Fits(cfg, op, c.resultReply.value) then HandsOver(cfg, w, c, c.key, op)
        else if !WithinBudgets(c.resultReply.value, c.tokenBudget, c.costBudget) then Refuses(cfg, w, c, PolicyError)
        else if c.key !in w.receipts then Refuses(cfg, w, c, NotFound)
        else HandsOver(cfg, w, c, c.key, op)
  {
    hide TotalContent, Replay, Inv, KeyOf;
    if c.key in w.operations {
      StoredUnderOwnKey(w, c.key);
      OneSave(w, c.key, w.operations[c.key].(state := NeedsReconciliation));
    }
  }

  // cancel and reconcile_cancellation

  /** How a cancellation is settled from a world with its record and its operation: confirmed iff the
      provider reports the task cancelled, void iff it reports success, and else left to an operator. */
  ghost predicate Settled(w: World, after: World, answer: Outcome, key: Key, op: Operation, c: Cancellation, status: Option<Status>) {
    if status == Some(WasCancelled) then
      var cancelled := op.(state := Cancelled);
      && answer == Operated(cancelled)
      && after == w.(cancellations := w.cancellations[key := c.(state := CancellationConfirmed)],
                     operations := w.operations[key := cancelled])
    else if status == Some(Succeeded) then
      var kept := op.(state := ResultAvailable);
      answer == Operated(kept) && after == w.(operations := w.operations[key := kept])
    else
      && answer == Raised(ReconciliationError)
      && after == w.(cancellations := w.cancellations[key := c.(state := CancellationNeedsReconciliation)])
  }

  lemma SettlingReplays(w: World, key: Key, op: Operation, c: Cancellation, status: Option<Status>)
    requires KeyOf(op.identity) == key
    ensures Settled(w, Replay(w, CancellationScript(key, op, c, status).effects), CancellationScript(key, op, c, status).outcome, key, op, c, status)
  {
    hide Replay, KeyOf;
    var effects := CancellationScript(key, op, c, status).effects;
    if |effects| == 2 {
      TwoSafe(w, effects[0], effects[1]);
      assert effects == [effects[0], effects[1]];
    } else {
      ReplayOne(w, effects[0]);
      assert effects == [effects[0]];
    }
  }

  lemma ReconcileCancellationAnswers(cfg: Config, w: World, c: Command)
    requires Inv(w) && c.ReconcileCancellation?
    ensures if c.key !in w.operations || c.key !in w.cancellations then Refuses(cfg, w, c, NotFound)
      else if w.operations[c.key].provider !in cfg.enabled then Refuses(cfg, w, c, RegistryError)
      else Settled(w, Finally(cfg, w, c), Reply(cfg, w, c), c.key, w.operations[c.key], w.cancellations[c.key], c.status)
  {
    hide CancellationScript, Settled, Inv, KeyOf;
    if c.key in w.operations && c.key in w.cancellations {
      StoredUnderOwnKey(w, c.key);
      SettlingReplays(w, c.key, w.operations[c.key], w.cancellations[c.key], c.status);
    }
  }

  /** The cancellation `cancel` records, and the world in which it asks the provider. */
  function Asked(w: World, c: Command): World
    requires c.Cancel? && c.key in w.operations
  {
    var op := w.operations[c.key];
    w.(cancellations := w.cancellations[c.key := Cancellation(op.provider, op.taskId, c.actor, c.reason, CancellationInProgress)],
       operations := w.operations[c.key := op.(state := CancellationRequested)])
  }

  predicate MayCancel(cfg: Config, w: World, c: Command)
    requires c.Cancel?
  {
    && c.actor != "" && c.reason != "" && c.key in w.operations
    && (w.operations[c.key].state == Submitted || w.operations[c.key].state == Running)
    && w.operations[c.key].provider in cfg.enabled && w.operations[c.key].provider in cfg.cancellable
  }

  /** `cancel` refuses, touching nothing, anonymous or unexplained requests, what it does not know or
      cannot cancel, and providers without cancellation. */
  lemma CancelRefuses(cfg: Config, w: World, c: Command)
    requires c.Cancel? && !MayCancel(cfg, w, c)
    ensures if c.actor == "" || c.reason == "" then Refuses(cfg, w, c, PolicyError)
      else if c.key !in w.operations then Refuses(cfg, w, c, NotFound)
      else if w.operations[c.key].state !in {Submitted, Running} then Refuses(cfg, w, c, StateError)
      else if w.operations[c.key].provider !in cfg.enabled then Refuses(cfg, w, c, RegistryError)
      else Refuses(cfg, w, c, PolicyError)
  {
    hide CancellationScript;
  }

  /** Otherwise it records the request before it asks; if that raises the cancellation is uncertain, and
      else it is settled by the task's status. */
  lemma CancelAnswers(cfg: Config, w: World, c: Command)
    requires Inv(w) && c.Cancel? && MayCancel(cfg, w, c)
    ensures var asked := Asked(w, c);
      var effects := ScriptOf(cfg, w, c).effects;
      && |effects| > 4 && effects[3] == CallCancel(c.key) && Replay(w, effects[..3]) == asked
      && if c.cancelRaises then
           && Reply(cfg, w, c) == Raised(ProviderFailure)
           && Finally(cfg, w, c) ==
              asked.(cancellations := asked.cancellations[c.key := asked.cancellations[c.key].(state := CancellationUncertain)])
         else
           Settled(asked, Finally(cfg, w, c), Reply(cfg, w, c), c.key, asked.operations[c.key], asked.cancellations[c.key], c.status)
  {
    hide Settled, Inv, KeyOf, Replay, CancelScript, CancellationScript;
    StoredUnderOwnKey(w, c.key);
    CancelShape(cfg, w, c);
    var effects := ScriptOf(cfg, w, c).effects;
    AskedReplays(w, c, effects);
    var asked := Asked(w, c);
    assert effects == effects[..3] + ([effects[3]] + effects[4..]);
    ReplayConcat(w, effects[..3], [effects[3]] + effects[4..]);
    ReplayConcat(asked, [effects[3]], effects[4..]);
    ReplayOne(asked, effects[3]);
    if c.cancelRaises {
      CancellationIsSaved(asked, c.key, effects[4].cancellation);
      assert effects[4..] == [effects[4]];
      ReplayOne(asked, effects[4]);
    } else {
      SettlingReplays(asked, c.key, asked.operations[c.key], asked.cancellations[c.key], c.status);
    }
  }

  lemma CancelShape(cfg: Config, w: World, c: Command)
    requires c.Cancel? && MayCancel(cfg, w, c)
    ensures var op := w.operations[c.key];
      var prepared := Cancellation(op.provider, op.taskId, c.actor, c.reason, CancellationPrepared);
      var script := ScriptOf(cfg, w, c);
      && |script.effects| > 4
      && script.effects[0] == SaveCancellation(c.key, prepared)
      && script.effects[1] == SaveOperation(op.(state := CancellationRequested))
      && script.effects[2] == SaveCancellation(c.key, prepared.(state := CancellationInProgress))
      && script.effects[3] == CallCancel(c.key)
      && if c.cancelRaises then
           && script.outcome == Raised(ProviderFailure)
           && script.effects[4..] == [SaveCancellation(c.key, prepared.(state := CancellationUncertain))]
         else
           var settle := CancellationScript(c.key, op.(state := CancellationRequested), prepared.(state := CancellationInProgress), c.status);
           script.outcome == settle.outcome && script.effects[4..] == settle.effects
  {
    hide CancellationScript;
    var op := w.operations[c.key];
    SettlingNotEmpty(c.key, op.(state := CancellationRequested),
                     Cancellation(op.provider, op.taskId, c.actor, c.reason, CancellationInProgress), c.status);
  }

  lemma SettlingNotEmpty(key: Key, op: Operation, c: Cancellation, status: Option<Status>)
    ensures CancellationScript(key, op, c, status).effects != []
  {
  }

  lemma AskedReplays(w: World, c: Command, effects: seq<Effect>)
    requires c.Cancel? && c.key in w.operations && KeyOf(w.operations[c.key].identity) == c.key && |effects| >= 3
    requires var op := w.operations[c.key];
      var prepared := Cancellation(op.provider, op.taskId, c.actor, c.reason, CancellationPrepared);
      && effects[0] == SaveCancellation(c.key, prepared)
      && effects[1] == SaveOperation(op.(state := CancellationRequested))
      && effects[2] == SaveCancellation(c.key, prepared.(state := CancellationInProgress))
    ensures Replay(w, effects[..3]) == Asked(w, c)
  {
    hide Replay, KeyOf, After;
    assert effects[..3] == [effects[0], effects[1], effects[2]];
    ThreeEffects(w, effects[0], effects[1], effects[2]);
    var w1 := After(w, effects[0]);
    CancellationIsSaved(w, c.key, effects[0].cancellation);
    AfterSave(w1, effects[1].operation);
    CancellationIsSaved(After(w1, effects[1]), c.key, effects[2].cancellation);
  }

  lemma CancellationIsSaved(w: World, key: Key, c: Cancellation)
    ensures After(w, SaveCancellation(key, c)) == w.(cancellations := w.cancellations[key := c])
  {
  }
}
