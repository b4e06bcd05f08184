/** Runs that go well: a provider that keeps its word takes an operation from nothing to a stored result. */
module CompleteRuns {
  import opened Wrappers
  import opened ProviderModel
  import opened Patching
  import opened PatchScripts
  import opened ProtocolScripts
  import opened ProtocolRuns

  lemma {:induction false} RunConcat(w: World, a: seq<Event>, b: seq<Event>)
    ensures Run(w, a + b) == Run(Run(w, a), b)
    decreases |b|
  {
    hide Step;
    if b == [] {
      assert a + b == a;
    } else {
      var n := |b| - 1;
      assert (a + b)[..|a + b| - 1] == a + b[..n];
      RunConcat(w, a, b[..n]);
    }
  }

  lemma RunOne(w: World, e: Event)
    ensures Run(w, [e]) == Step(w, e)
  {
    assert [e][..0] == [];
    assert Run(w, []) == w;
  }

  lemma RunFour(w: World, a: Event, b: Event, c: Event, d: Event)
    ensures Run(w, [a, b, c, d]) == Step(Step(Step(Step(w, a), b), c), d)
  {
    hide Step, Run;
    assert [a, b, c, d] == [a] + ([b] + ([c] + [d]));
    RunConcat(w, [a], [b] + ([c] + [d]));
    RunOne(w, a);
    var w1 := Step(w, a);
    RunConcat(w1, [b], [c] + [d]);
    RunOne(w1, b);
    var w2 := Step(w1, b);
    RunConcat(w2, [c], [d]);
    RunOne(w2, c);
    RunOne(Step(w2, c), d);
  }

  /** A request that `prepare` accepts. */
  predicate Preparable(cfg: Config, a: PrepareRequest) {
    1 <= a.attempt <= a.maximumAttempts && a.provider in cfg.coding && a.context.Some?
  }

  function RequestedIdentity(cfg: Config, a: PrepareRequest): Identity
    requires a.context.Some?
  {
    IdentityFor(cfg, a, a.context.value)
  }

  function PreparedOperation(cfg: Config, a: PrepareRequest): Operation
    requires a.context.Some?
  {
    Operation(RequestedIdentity(cfg, a), a.provider, a.maximumOutput, Prepared, None, 0, None)
  }

  lemma PreparedStep(cfg: Config, w: World, a: PrepareRequest)
    requires Preparable(cfg, a)
    requires KeyOf(RequestedIdentity(cfg, a)) !in w.operations
    ensures var op := PreparedOperation(cfg, a);
      Step(w, Invoke(cfg, Prepare(a), 1)) == w.(operations := w.operations[KeyOf(op.identity) := op])
  {
    hide IdentityFor, KeyOf;
    var op := PreparedOperation(cfg, a);
    assert PrepareScript(cfg, w, a).effects == [SaveOperation(op)];
    assert [SaveOperation(op)][..1] == [SaveOperation(op)];
    ReplayOne(w, SaveOperation(op));
  }

  /** The provider takes the task and, asked for it, names this task and this operation's identity. */
  function KeptWord(op: Operation, taskId: string): LookupReply {
    LookupReply(Some([taskId]), Some(op.identity))
  }

  function Submission(cfg: Config, op: Operation, answer: Answer): Event {
    Invoke(cfg, Submit(KeyOf(op.identity), op.identity, true, true, SubmitAnswers(answer), KeptWord(op, answer.taskId)), 3)
  }

  lemma SubmittedStep(cfg: Config, w: World, op: Operation, answer: Answer)
    requires KeyOf(op.identity) in w.operations && w.operations[KeyOf(op.identity)] == op
    requires op.state == Prepared && op.provider in cfg.enabled && !Live(op.provider)
    ensures Step(w, Submission(cfg, op, answer)) ==
            w.(operations := w.operations[KeyOf(op.identity) := op.(taskId := Some(answer.taskId), state := Submitted)],
               submissions := w.submissions + [KeyOf(op.identity)])
  {
    hide KeyOf, Live, Replay;
    var key := KeyOf(op.identity);
    var inProgress := op.(state := SubmissionInProgress);
    var a, b := SaveOperation(inProgress), CallSubmit(key, op.identity);
    var c := SaveOperation(inProgress.(taskId := Some(answer.taskId), state := Submitted));
    var script := SubmitScript(cfg, w, key, op.identity, true, true, SubmitAnswers(answer), KeptWord(op, answer.taskId));
    assert script.effects == [a, b] + [c];
    assert script.effects[..3] == [a] + ([b] + [c]);
    ReplayConcat(w, [a], [b] + [c]);
    ReplayConcat(After(w, a), [b], [c]);
    ReplayOne(w, a);
    ReplayOne(After(w, a), b);
    ReplayOne(After(After(w, a), b), c);
    assert w.operations[key := inProgress][key := c.operation] == w.operations[key := c.operation];
  }

  lemma PolledStep(cfg: Config, w: World, op: Operation)
    requires KeyOf(op.identity) in w.operations && w.operations[KeyOf(op.identity)] == op
    requires op.state == Submitted && op.provider in cfg.enabled && op.taskId.Some? && op.taskId.value != ""
    requires KeyOf(op.identity) !in w.progress
    ensures Step(w, Invoke(cfg, Poll(KeyOf(op.identity), Some([]), Some(Succeeded)), 1)) ==
            w.(operations := w.operations[KeyOf(op.identity) := op.(state := ResultAvailable, cursor := 0)])
  {
    hide KeyOf;
    var key := KeyOf(op.identity);
    var save := SaveOperation(op.(state := ResultAvailable, cursor := 0));
    var script := PollScript(cfg, w, key, Some([]), Some(Succeeded));
    assert script == PollEvents(cfg, key, op, [], [], Some(Succeeded));
    assert script.effects == [save];
    assert [save][..1] == [save];
    ReplayOne(w, save);
  }

  /** A successful result of the operation's own task, within its limits. */
  predicate Deliverable(cfg: Config, op: Operation, result: Result) {
    && op.taskId == Some(result.taskId) && result.taskId != ""
    && result.external == op.identity.external
    && result.workspace == op.identity.workspace
    && result.branch == op.identity.branch
    && result.status == Succeeded
    && cfg.resultSize(result) <= op.maximumOutput
    && TotalContent(result.operations) <= op.maximumOutput
  }

  function FetchedReceipt(op: Operation, result: Result): Receipt {
    Receipt(op.identity, op.provider, result.taskId, result)
  }

  lemma FetchEffects(cfg: Config, w: World, op: Operation, result: Result)
    requires KeyOf(op.identity) in w.operations && w.operations[KeyOf(op.identity)] == op
    requires op.state == ResultAvailable && op.provider in cfg.enabled && !Live(op.provider)
    requires Deliverable(cfg, op, result)
    ensures var key := KeyOf(op.identity);
      ResultScript(cfg, w, key, None, None, Some(result)) ==
      Script([SaveResult(key, result), SaveReceipt(FetchedReceipt(op, result)),
              SaveOperation(op.(resultReference := Some(key.operation)))], Fetched(result))
  {
    hide TotalContent, Live, KeyOf;
  }

  lemma FetchedStep(cfg: Config, w: World, op: Operation, result: Result)
    requires KeyOf(op.identity) in w.operations && w.operations[KeyOf(op.identity)] == op
    requires op.state == ResultAvailable && op.provider in cfg.enabled && !Live(op.provider)
    requires Deliverable(cfg, op, result)
    ensures var key := KeyOf(op.identity);
      Step(w, Invoke(cfg, FetchResult(key, None, None, Some(result)), 3)) ==
      w.(results := w.results[key := result], receipts := w.receipts[key := FetchedReceipt(op, result)],
         operations := w.operations[key := op.(resultReference := Some(key.operation))])
  {
    hide KeyOf, Live, Replay, Deliverable, ResultScript;
    FetchEffects(cfg, w, op, result);
    var key := KeyOf(op.identity);
    var effects := ResultScript(cfg, w, key, None, None, Some(result)).effects;
    var a, b, c := effects[0], effects[1], effects[2];
    assert effects[..3] == [a] + ([b] + [c]);
    ReplayConcat(w, [a], [b] + [c]);
    ReplayConcat(After(w, a), [b], [c]);
    ReplayOne(w, a);
    ReplayOne(After(w, a), b);
    ReplayOne(After(After(w, a), b), c);
  }

  /** The same call dying after its first effect. */
  lemma FetchDies(cfg: Config, w: World, op: Operation, result: Result)
    requires KeyOf(op.identity) in w.operations && w.operations[KeyOf(op.identity)] == op
    requires op.state == ResultAvailable && op.provider in cfg.enabled && !Live(op.provider)
    requires Deliverable(cfg, op, result)
    ensures var key := KeyOf(op.identity);
      Step(w, Invoke(cfg, FetchResult(key, None, None, Some(result)), 1)) == w.(results := w.results[key := result])
  {
    hide KeyOf, Live, Replay, Deliverable, ResultScript;
    FetchEffects(cfg, w, op, result);
    var key := KeyOf(op.identity);
    var effects := ResultScript(cfg, w, key, None, None, Some(result)).effects;
    assert effects[..1] == [SaveResult(key, result)];
    ReplayOne(w, SaveResult(key, result));
  }

  /** The operation once its result is stored. */
  function FetchedOperation(cfg: Config, a: PrepareRequest, taskId: string): Operation
    requires a.context.Some?
  {
    var op := PreparedOperation(cfg, a);
    op.(taskId := Some(taskId), state := ResultAvailable, resultReference := Some(op.identity.operation))
  }

  function AnswerWith(taskId: string): Answer {
    Answer(taskId, Succeeded, "", [], 0, None)
  }

  /** The four calls of a run that goes well. */
  function Delivery(cfg: Config, a: PrepareRequest, result: Result): seq<Event>
    requires a.context.Some?
  {
    var op := PreparedOperation(cfg, a);
    var key := KeyOf(op.identity);
    [Invoke(cfg, Prepare(a), 1),
     Submission(cfg, op, AnswerWith(result.taskId)),
     Invoke(cfg, Poll(key, Some([]), Some(Succeeded)), 1),
     Invoke(cfg, FetchResult(key, None, None, Some(result)), 3)]
  }

  function DeliveredWorld(cfg: Config, w: World, a: PrepareRequest, result: Result): World
    requires a.context.Some?
  {
    var op := FetchedOperation(cfg, a, result.taskId);
    var key := KeyOf(op.identity);
    w.(operations := w.operations[key := op], results := w.results[key := result],
       receipts := w.receipts[key := FetchedReceipt(op, result)], submissions := w.submissions + [key])
  }

  /** From any world that does not know the operation, a provider that keeps its word brings it to a stored
      result with a matching receipt, submits it once, and touches nothing else. */
  lemma ResultIsReached(cfg: Config, w: World, a: PrepareRequest, result: Result)
    requires Preparable(cfg, a) && a.provider in cfg.enabled && !Live(a.provider)
    requires KeyOf(RequestedIdentity(cfg, a)) !in w.operations && KeyOf(RequestedIdentity(cfg, a)) !in w.progress
    requires Deliverable(cfg, FetchedOperation(cfg, a, result.taskId), result)
    ensures Run(w, Delivery(cfg, a, result)) == DeliveredWorld(cfg, w, a, result)
    ensures ReceiptMatches(FetchedOperation(cfg, a, result.taskId), FetchedReceipt(FetchedOperation(cfg, a, result.taskId), result), result)
  {
    hide Step, Run, Live, Deliverable, IdentityFor;
    var prepared := PreparedOperation(cfg, a);
    var key := KeyOf(prepared.identity);
    var events := Delivery(cfg, a, result);
    RunFour(w, events[0], events[1], events[2], events[3]);
    PreparedStep(cfg, w, a);
    var w1 := Step(w, events[0]);
    SubmittedStep(cfg, w1, prepared, AnswerWith(result.taskId));
    var submitted := prepared.(taskId := Some(result.taskId), state := Submitted);
    var w2 := Step(w1, events[1]);
    TaskIsNamed(cfg, FetchedOperation(cfg, a, result.taskId), result);
    PolledStep(cfg, w2, submitted);
    var available := submitted.(state := ResultAvailable, cursor := 0);
    var w3 := Step(w2, events[2]);
    SameDeliverable(cfg, FetchedOperation(cfg, a, result.taskId), available, result);
    FetchedStep(cfg, w3, available, result);
    assert w.operations[key := prepared][key := submitted][key := available][key := available.(resultReference := Some(key.operation))]
        == w.operations[key := available.(resultReference := Some(key.operation))];
  }

  lemma TaskIsNamed(cfg: Config, op: Operation, result: Result)
    requires Deliverable(cfg, op, result)
    ensures result.taskId != ""
  {
  }

  lemma SameDeliverable(cfg: Config, op: Operation, op': Operation, result: Result)
    requires Deliverable(cfg, op, result)
    requires op'.identity == op.identity && op'.taskId == op.taskId && op'.maximumOutput == op.maximumOutput
    ensures Deliverable(cfg, op', result)
  {
    hide TotalContent;
  }

  function Allowing(): Limits {
    Limits(true, 1000, 1000, _ => true)
  }

  /** Operations are named by their task; nothing else is restricted. */
  function SampleConfig(): Config {
    Config({"deterministic", "openai-codex"}, {"deterministic", "openai-codex"}, {}, (plan, task, attempt) => task, (text, n) => text,
           _ => 0, _ => 0, {"policy"}, _ => Allowing())
  }

  function RequestFor(task: string, provider: string): PrepareRequest {
    PrepareRequest("project", "plan", 1, task, "task", "workspace", "branch", provider, 1, 1, 1000, Some("context"))
  }

  function ResultWith(summary: string, operations: seq<FileOperation>): Result {
    Result("t", "task", "workspace", "branch", Succeeded, summary, operations, 0, None)
  }

  function KeyFor(task: string): Key {
    Key("project", task)
  }

  function OperationFor(task: string, provider: string): Operation {
    FetchedOperation(SampleConfig(), RequestFor(task, provider), "t")
  }

  lemma OperationFacts(task: string, provider: string)
    ensures KeyOf(OperationFor(task, provider).identity) == KeyFor(task)
    ensures KeyOf(RequestedIdentity(SampleConfig(), RequestFor(task, provider))) == KeyFor(task)
    ensures OperationFor(task, provider).state == ResultAvailable
    ensures OperationFor(task, provider).resultReference == Some(KeyFor(task).operation)
    ensures OperationFor(task, provider).identity.branch == "branch"
  {
  }

  lemma SampleIsDeliverable(task: string, provider: string, result: Result)
    requires TotalContent(result.operations) <= 1000
    requires result == ResultWith(result.summary, result.operations)
    ensures Deliverable(SampleConfig(), OperationFor(task, provider), result)
  {
    hide TotalContent;
    assert |"t"| == 1;
  }

  lemma NotLive()
    ensures !Live("deterministic") && "t" != "" && Live("openai-codex")
  {
    assert "deterministic"[0] != "openai-codex"[0] && "deterministic"[0] != "openai-codex-sdk"[0];
  }
}
