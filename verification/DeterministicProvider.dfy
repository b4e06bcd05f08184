/** The offline provider: submission is idempotent by key, and its lookups agree with it. */
module DeterministicProvider {
  import opened Wrappers
  import opened ProviderModel
  import opened ProtocolScripts

  function Digit(d: nat): char
    requires d < 10
  {
    "0123456789"[d]
  }

  function Decimal(n: nat): (text: string)
    ensures text != ""
  {
    if n < 10 then [Digit(n)] else Decimal(n / 10) + [Digit(n % 10)]
  }

  lemma DigitsDiffer(a: nat, b: nat)
    requires a < 10 && b < 10 && Digit(a) == Digit(b)
    ensures a == b
  {
  }

  lemma {:induction false} DecimalsDiffer(a: nat, b: nat)
    requires Decimal(a) == Decimal(b)
    ensures a == b
  {
    var x, y := Decimal(a), Decimal(b);
    assert x[|x| - 1] == Digit(a % 10) && y[|y| - 1] == Digit(b % 10);
    DigitsDiffer(a % 10, b % 10);
    if a >= 10 && b >= 10 {
      assert x[..|x| - 1] == Decimal(a / 10) && y[..|y| - 1] == Decimal(b / 10);
      DecimalsDiffer(a / 10, b / 10);
    }
  }

  /** The identifier of the n-th task. */
  function Identifier(n: nat): string {
    "deterministic-" + Decimal(n)
  }

  lemma IdentifiersDiffer(a: nat, b: nat)
    requires Identifier(a) == Identifier(b)
    ensures a == b
  {
    assert Identifier(a)[|"deterministic-"|..] == Decimal(a);
    assert Identifier(b)[|"deterministic-"|..] == Decimal(b);
    DecimalsDiffer(a, b);
  }

  datatype Task = Task(request: Identity, events: seq<ProgressEvent>, status: Status, operations: seq<FileOperation>)

  function Events(operation: string): seq<ProgressEvent> {
    [ProgressEvent(operation, 1, "ACCEPTED", "Bounded task accepted"),
     ProgressEvent(operation, 2, "COMPLETED", "Structured result available")]
  }

  /** The configured operations, or the default one. */
  function Written(operations: seq<FileOperation>): seq<FileOperation> {
    if operations != [] then operations
    else [FileOperation(Create, "provider-result.txt", Some("deterministic provider result\n"))]
  }

  lemma NewTaskIs(operation: string, operations: seq<FileOperation>)
    ensures |Written(operations)| >= 1 && (operations != [] ==> Written(operations) == operations)
    ensures |Events(operation)| == 2
    ensures forall i :: 0 <= i < 2 ==> Events(operation)[i].operation == operation && Events(operation)[i].sequence == i + 1
  {
  }

  lemma IdentifierIs(n: nat)
    ensures Identifier(n) == "deterministic-" + Decimal(n)
  {
  }

  /** The first `n` identifiers. */
  function Identifiers(n: nat): set<string> {
    set i | 1 <= i <= n :: Identifier(i)
  }

  predicate Numbered(tasks: map<string, Task>) {
    tasks.Keys == Identifiers(|tasks|)
  }

  lemma OneMoreIdentifier(n: nat)
    ensures Identifiers(n + 1) == Identifiers(n) + {Identifier(n + 1)}
    ensures Identifier(n + 1) !in Identifiers(n)
  {
    hide Identifier;
    forall i | 1 <= i <= n ensures Identifier(i) != Identifier(n + 1) {
      NextDiffers(i, n);
    }
  }

  lemma NextDiffers(i: nat, n: nat)
    requires 1 <= i <= n
    ensures Identifier(i) != Identifier(n + 1)
  {
    hide Identifier;
    if Identifier(i) == Identifier(n + 1) {
      IdentifiersDiffer(i, n + 1);
    }
  }

  /** Each key finds the task of its own request, and each task is found under the key of its request. */
  ghost predicate Keyed(tasks: map<string, Task>, keys: map<IdempotencyKey, string>) {
    && (forall key :: key in keys ==> keys[key] in tasks && tasks[keys[key]].request.idempotencyKey == key)
    && (forall id :: id in tasks ==>
          tasks[id].request.idempotencyKey in keys && keys[tasks[id].request.idempotencyKey] == id)
  }

  lemma FreshIdentifier(tasks: map<string, Task>, task: Task)
    requires Numbered(tasks)
    ensures Identifier(|tasks| + 1) !in tasks
    ensures Numbered(tasks[Identifier(|tasks| + 1) := task])
  {
    hide Identifier, Identifiers;
    var longer := tasks[Identifier(|tasks| + 1) := task];
    OneMoreIdentifier(|tasks|);
    assert longer.Keys == tasks.Keys + {Identifier(|tasks| + 1)};
    assert |longer| == |longer.Keys| == |tasks| + 1;
  }

  lemma KeyedFinds(tasks: map<string, Task>, keys: map<IdempotencyKey, string>, key: IdempotencyKey)
    requires Keyed(tasks, keys) && key in keys
    ensures keys[key] in tasks
  {
  }

  lemma KeyedStays(tasks: map<string, Task>, keys: map<IdempotencyKey, string>, id: string, task: Task)
    requires Keyed(tasks, keys) && id !in tasks && task.request.idempotencyKey !in keys
    ensures Keyed(tasks[id := task], keys[task.request.idempotencyKey := id])
  {
  }

  /** The identifiers `reconcile_task` answers with. */
  function Matches(keys: map<IdempotencyKey, string>, key: IdempotencyKey, id: Option<string>): seq<string> {
    if key !in keys || (id.Some? && keys[key] != id.value) then [] else [keys[key]]
  }

  /** What the service's lookups are answered. */
  function LookUp(tasks: map<string, Task>, keys: map<IdempotencyKey, string>, key: IdempotencyKey, id: Option<string>): LookupReply {
    var matches := Matches(keys, key, id);
    LookupReply(Some(matches), if matches != [] && matches[0] in tasks then Some(tasks[matches[0]].request) else None)
  }

  /** Once the provider holds a task for its key, a prepared operation's submission ends `SUBMITTED` with
      that task if the task's request is this operation's, and otherwise goes to an operator. */
  lemma SubmissionSettles(cfg: Config, w: World, key: Key, tasks: map<string, Task>, keys: map<IdempotencyKey, string>, answer: Answer)
    requires key in w.operations && w.operations[key].state == Prepared
    requires w.operations[key].provider == "deterministic" && "deterministic" in cfg.enabled
    requires Keyed(tasks, keys) && w.operations[key].identity.idempotencyKey in keys
    requires answer.taskId == keys[w.operations[key].identity.idempotencyKey]
    ensures var op := w.operations[key];
      var lookup := LookUp(tasks, keys, op.identity.idempotencyKey, Some(answer.taskId));
      var script := SubmitScript(cfg, w, key, op.identity, false, false, SubmitAnswers(answer), lookup);
      script.outcome == if tasks[answer.taskId].request == op.identity
        then Operated(op.(state := Submitted, taskId := Some(answer.taskId))) else Raised(ReconciliationError)
  {
    hide Identifier;
    var op := w.operations[key];
    assert !Live("deterministic") by { assert |"deterministic"| == 13 && |"openai-codex"| == 12 && |"openai-codex-sdk"| == 16; }
  }

  class DeterministicCodingProvider {
    const operations: seq<FileOperation>
    var tasks: map<string, Task>
    var keys: map<IdempotencyKey, string>

    ghost predicate Valid()
      reads this
    {
      Numbered(tasks) && Keyed(tasks, keys)
    }

    constructor (operations: seq<FileOperation>)
      ensures Valid() && tasks == map[] && keys == map[]
    {
      this.operations := operations;
      tasks, keys := map[], map[];
    }

    /** `submit_task`: a known key returns its task and changes nothing; a new one gets a new task. */
    method SubmitTask(request: Identity) returns (id: string)
      requires Valid()
      modifies this
      ensures Valid()
      ensures request.idempotencyKey in keys && keys[request.idempotencyKey] == id && id in tasks
      ensures if request.idempotencyKey in old(keys) then tasks == old(tasks) && keys == old(keys)
        else id !in old(tasks) && tasks == old(tasks)[id := tasks[id]] && tasks[id].request == request && tasks[id].status == Succeeded
             && keys == old(keys)[request.idempotencyKey := id] && id == "deterministic-" + Decimal(|old(tasks)| + 1)
             && (operations != [] ==> tasks[id].operations == operations) && |tasks[id].operations| >= 1
             && |tasks[id].events| == 2
             && (forall i :: 0 <= i < 2 ==> tasks[id].events[i].operation == request.operation && tasks[id].events[i].sequence == i + 1)
    {
      hide Numbered, Keyed, Events, Identifier, Written;
      if request.idempotencyKey in keys {
        KeyedFinds(tasks, keys, request.idempotencyKey);
        return keys[request.idempotencyKey];
      }
      id := Identifier(|tasks| + 1);
      var task := Task(request, Events(request.operation), Succeeded, Written(operations));
      NewTaskIs(request.operation, operations);
      IdentifierIs(|tasks| + 1);
      FreshIdentifier(tasks, task);
      KeyedStays(tasks, keys, id, task);
      tasks, keys := tasks[id := task], keys[request.idempotencyKey := id];
    }

    /** `cancel_task` on a known task keeps its request and its progress; on an unknown one it raises. */
    method CancelTask(id: string) returns (ok: bool)
      requires Valid()
      modifies `tasks
      ensures Valid() && ok == (id in old(tasks))
      ensures tasks == if ok then old(tasks)[id := old(tasks[id]).(status := WasCancelled, operations := [])] else old(tasks)
    {
      ok := id in tasks;
      if ok {
        var cancelled := tasks[id := tasks[id].(status := WasCancelled, operations := [])];
        assert cancelled.Keys == tasks.Keys;
        assert |cancelled| == |cancelled.Keys| == |tasks|;
        tasks := cancelled;
      }
    }

    /** `reconcile_task`: no more than one task, held under that very key; none exactly when no held task
        has the key, or the one that has it bears another identifier than the one named. */
    method ReconcileTask(key: IdempotencyKey, id: Option<string>) returns (matches: seq<string>)
      requires Valid()
      ensures |matches| <= 1
      ensures forall m :: m in matches <==>
        m in tasks && tasks[m].request.idempotencyKey == key && (id.None? || id.value == m)
      ensures matches == Matches(keys, key, id)
    {
      hide Numbered;
      if key !in keys {
        return [];
      }
      matches := if id.Some? && keys[key] != id.value then [] else [keys[key]];
    }
  }
}
