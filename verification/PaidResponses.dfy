/** A live provider's answer is stored before `submit_task` returns. When is it still there after a
    crash, and when may a receipt and the result stored beside it disagree, for any provider? */
module PaidResponses {
  import opened Wrappers
  import opened ProviderModel
  import opened PatchScripts
  import opened ProtocolScripts
  import opened ProtocolSafety
  import opened ProtocolRuns
  import opened CompleteRuns
  import PatchSafety
  import PatchTracking
  import Patching

  /** A durable receipt has its durable result, with the digest it states. */
  predicate Backed(results: map<Key, Result>, receipts: map<Key, Receipt>, key: Key) {
    key in receipts ==> key in results && receipts[key].digest == results[key]
  }

  /** What runs keep whose callers submit each operation with a request of that operation and whose
      providers answer for each operation of `answers` with that result only: nothing is stored before
      submission, and every receipt of a live operation or of one in `answers` is backed. */
  ghost predicate PaidWorld(w: World, answers: map<Key, Result>) {
    forall key: Key :: PaidAt(w, answers, key)
  }

  predicate PaidAt(w: World, answers: map<Key, Result>, key: Key) {
    PaidEntry(key, Lookup(w.operations, key), Lookup(w.results, key), Lookup(w.receipts, key), Lookup(answers, key))
  }

  /** What is stored of one operation: nothing before submission; of a live one, or of one with a fixed
      answer, no receipt without the result it states; of one with a fixed answer, nothing but that answer. */
  predicate PaidEntry(key: Key, op: Option<Operation>, result: Option<Result>, receipt: Option<Receipt>, answer: Option<Result>) {
    && (op.Some? ==> KeyOf(op.value.identity) == key)
    && (result.Some? || receipt.Some? ==> op.Some? && op.value.state != Prepared)
    && (op.Some? && receipt.Some? && (Live(op.value.provider) || answer.Some?) ==> result == Some(receipt.value.digest))
    && (op.Some? && !Live(op.value.provider) && answer.Some? ==>
          && (result.Some? ==> result == answer)
          && (receipt.Some? ==> receipt.value.digest == answer.value))
  }

  /** The caller hands `submit` a request of the operation it names, and a provider asked for the result of
      an operation in `answers` answers with that one or raises. */
  predicate Honest(e: Event, answers: map<Key, Result>) {
    && (e.Invoke? && e.command.Submit? ==> KeyOf(e.command.identity) == e.command.key)
    && (e.Invoke? && e.command.FetchResult? && e.command.key in answers && e.command.resultReply.Some? ==>
          e.command.resultReply.value == answers[e.command.key])
  }

  /** The condition under which one effect keeps `Paid`. */
  ghost predicate KeepsPaid(w: World, e: Effect, answers: map<Key, Result>) {
    match e
    case SaveOperation(op) =>
      var key := KeyOf(op.identity);
      (key in w.operations ==> op.provider == w.operations[key].provider && op.state != Prepared)
    case SaveResult(key, result) =>
      && key in w.operations && w.operations[key].state != Prepared
      && (Live(w.operations[key].provider) && key in w.receipts ==> w.receipts[key].digest == result)
      && (!Live(w.operations[key].provider) && key in answers ==> result == answers[key])
    case SaveReceipt(receipt) =>
      var key := KeyOf(receipt.identity);
      && key in w.operations && w.operations[key].state != Prepared
      && (Live(w.operations[key].provider) || key in answers ==> key in w.results && w.results[key] == receipt.digest)
    case _ => true
  }

  /** The operation an effect is about, as far as operations, results and receipts go. */
  function Touched(e: Effect): Option<Key> {
    match e
    case SaveOperation(op) => Some(KeyOf(op.identity))
    case SaveResult(key, _) => Some(key)
    case SaveReceipt(receipt) => Some(KeyOf(receipt.identity))
    case _ => None
  }

  lemma OneKeepsPaid(w: World, e: Effect, answers: map<Key, Result>)
    requires PaidWorld(w, answers) && KeepsPaid(w, e, answers)
    ensures PaidWorld(After(w, e), answers)
  {
    hide After, KeepsPaid, PaidEntry, Touched;
    forall key: Key ensures PaidAt(After(w, e), answers, key) {
      assert PaidAt(w, answers, key);
      if Touched(e) == Some(key) {
        TouchedIsPaid(w, e, answers, key);
      } else {
        UntouchedIsSame(w, e, key);
      }
    }
  }

  lemma UntouchedIsSame(w: World, e: Effect, key: Key)
    requires Touched(e) != Some(key)
    ensures var w' := After(w, e);
      && Lookup(w'.operations, key) == Lookup(w.operations, key)
      && Lookup(w'.results, key) == Lookup(w.results, key)
      && Lookup(w'.receipts, key) == Lookup(w.receipts, key)
  {
    hide KeyOf;
  }

  lemma TouchedIsPaid(w: World, e: Effect, answers: map<Key, Result>, key: Key)
    requires PaidAt(w, answers, key) && KeepsPaid(w, e, answers) && Touched(e) == Some(key)
    ensures PaidAt(After(w, e), answers, key)
  {
    hide Live, KeyOf;
  }

  ghost predicate AllKeepPaid(w: World, effects: seq<Effect>, answers: map<Key, Result>)
    decreases |effects|
  {
    effects == [] || (KeepsPaid(w, effects[0], answers) && AllKeepPaid(After(w, effects[0]), effects[1..], answers))
  }

  lemma {:induction false} PrefixKeepsPaid(w: World, effects: seq<Effect>, cut: nat, answers: map<Key, Result>)
    requires PaidWorld(w, answers) && AllKeepPaid(w, effects, answers) && cut <= |effects|
    ensures PaidWorld(Replay(w, effects[..cut]), answers)
    decreases |effects|
  {
    hide PaidWorld, KeepsPaid;
    if cut == 0 {
      assert effects[..0] == [];
    } else {
      OneKeepsPaid(w, effects[0], answers);
      PrefixKeepsPaid(After(w, effects[0]), effects[1..], cut - 1, answers);
      assert effects[..cut][1..] == effects[1..][..cut - 1];
    }
  }

  /** Effects that leave results and receipts alone keep `Paid` wherever they are safe. */
  predicate Elsewhere(e: Effect) {
    !e.SaveResult? && !e.SaveReceipt?
  }

  lemma {:induction false} ElsewhereKeepsPaid(w: World, effects: seq<Effect>, answers: map<Key, Result>)
    requires AllSafe(w, effects) && forall i :: 0 <= i < |effects| ==> Elsewhere(effects[i])
    ensures AllKeepPaid(w, effects, answers)
    decreases |effects|
  {
    hide After;
    if effects != [] {
      ElsewhereKeepsPaid(After(w, effects[0]), effects[1..], answers);
    }
  }

  ghost predicate AllElsewhere(effects: seq<Effect>) {
    forall i :: 0 <= i < |effects| ==> Elsewhere(effects[i])
  }

  lemma {:induction false} PollIsElsewhere(cfg: Config, key: Key, op: Operation, log: seq<ProgressEvent>, events: seq<ProgressEvent>, status: Option<Status>)
    ensures AllElsewhere(PollEvents(cfg, key, op, log, events, status).effects)
    decreases |events|
  {
    hide Appended, Sanitize;
    if events != [] {
      var event := Sanitize(cfg, events[0], op.maximumOutput);
      if Appended(log, event).Some? {
        PollIsElsewhere(cfg, key, op, Appended(log, event).value, events[1..], status);
        PollIsElsewhere(cfg, key, op, log, events[1..], status);
      }
    }
  }

  lemma ApplyingIsElsewhere(limits: Patching.Limits, task: Patching.TaskPolicy, known: bool, w: World, key: Key)
    ensures AllElsewhere(ApplyScript(limits, task, known, w, key).effects)
  {
    hide ApplyScript;
    var script := ApplyScript(limits, task, known, w, key);
    PatchTracking.ApplyEndsWell(limits, task, known, w, key);
    forall i | 0 <= i < |script.effects| ensures Elsewhere(script.effects[i]) {
      assert PatchTracking.PlainOrLast(script, key, i);
    }
  }

  lemma OthersAreElsewhere(cfg: Config, w: World, c: Command)
    requires !c.Submit? && !c.FetchResult?
    ensures AllElsewhere(ScriptOf(cfg, w, c).effects)
  {
    hide ApplyScript, PollEvents;
    if c.ApplyAndAccept? {
      ApplyingIsElsewhere(cfg.limits(c.policy), c.task, c.policy in cfg.changePolicies, w, c.key);
    } else if c.Poll? && c.key in w.operations && c.events.Some? {
      PollIsElsewhere(cfg, c.key, w.operations[c.key], LogAt(w, c.key), c.events.value, c.status);
    }
  }

  lemma {:induction false} AllKeepPaidConcat(w: World, a: seq<Effect>, b: seq<Effect>, answers: map<Key, Result>)
    ensures AllKeepPaid(w, a + b, answers) <==> AllKeepPaid(w, a, answers) && AllKeepPaid(Replay(w, a), b, answers)
    decreases |a|
  {
    hide KeepsPaid, After;
    if a == [] {
      assert a + b == b;
    } else {
      assert (a + b)[1..] == a[1..] + b;
      AllKeepPaidConcat(After(w, a[0]), a[1..], b, answers);
    }
  }

  /** Storing the answer of an honest submission keeps receipts backed. */
  lemma SinkKeepsPaid(w: World, key: Key, request: Identity, answer: Answer, answers: map<Key, Result>)
    requires Inv(w) && PaidWorld(w, answers) && key in w.operations && w.operations[key].state == Prepared && KeyOf(request) == key
    requires Live(w.operations[key].provider)
    ensures var op := w.operations[key];
      AllKeepPaid(w, [SaveOperation(op.(state := SubmissionInProgress)), CallSubmit(key, request)]
        + [SaveResult(KeyOf(request), ResultOf(request, answer)), SaveReceipt(ReceiptOf(request, op.provider, answer))], answers)
  {
    hide Inv, ResultOf;
    assert PaidAt(w, answers, key);
    var op := w.operations[key];
    var a, b := SaveOperation(op.(state := SubmissionInProgress)), CallSubmit(key, request);
    var c, d := SaveResult(key, ResultOf(request, answer)), SaveReceipt(ReceiptOf(request, op.provider, answer));
    var w1 := After(w, a);
    var w2 := After(w1, b);
    var w3 := After(w2, c);
    assert KeepsPaid(w, a, answers) && KeepsPaid(w1, b, answers) && KeepsPaid(w2, c, answers);
    assert KeepsPaid(w3, d, answers);
    FourKeepPaid(w, a, b, c, d, answers);
  }

  lemma FourKeepPaid(w: World, a: Effect, b: Effect, c: Effect, d: Effect, answers: map<Key, Result>)
    requires KeepsPaid(w, a, answers) && KeepsPaid(After(w, a), b, answers) && KeepsPaid(After(After(w, a), b), c, answers)
    requires KeepsPaid(After(After(After(w, a), b), c), d, answers)
    ensures AllKeepPaid(w, [a, b] + [c, d], answers)
  {
    hide KeepsPaid, After;
    assert ([a, b] + [c, d])[1..] == [b, c, d] && [b, c, d][1..] == [c, d] && [c, d][1..] == [d] && [d][1..] == [];
    assert AllKeepPaid(After(After(After(w, a), b), c), [d], answers);
    assert AllKeepPaid(After(After(w, a), b), [c, d], answers);
    assert AllKeepPaid(After(w, a), [b, c, d], answers);
  }

  lemma ThreeKeepPaid(w: World, effects: seq<Effect>, answers: map<Key, Result>)
    requires |effects| == 3
    requires KeepsPaid(w, effects[0], answers) && KeepsPaid(After(w, effects[0]), effects[1], answers)
    requires KeepsPaid(After(After(w, effects[0]), effects[1]), effects[2], answers)
    ensures AllKeepPaid(w, effects, answers)
  {
    hide KeepsPaid, After;
    var a, b, c := effects[0], effects[1], effects[2];
    assert effects[1..] == [b, c] && [b, c][1..] == [c] && [c][1..] == [];
    assert AllKeepPaid(After(After(w, a), b), [c], answers);
    assert AllKeepPaid(After(w, a), [b, c], answers);
  }

  lemma SubmitKeepsPaid(cfg: Config, w: World, key: Key, request: Identity, allowLive: bool, confirmUsage: bool, reply: SubmitReply, lookup: LookupReply, answers: map<Key, Result>)
    requires Inv(w) && PaidWorld(w, answers) && KeyOf(request) == key
    ensures AllKeepPaid(w, SubmitScript(cfg, w, key, request, allowLive, confirmUsage, reply, lookup).effects, answers)
  {
    hide Inv, PaidWorld, AllKeepPaid, ReceiptMatches, ResultOf, ReceiptOf, AllSafe, Replay;
    var script := SubmitScript(cfg, w, key, request, allowLive, confirmUsage, reply, lookup);
    SubmitIsSafe(cfg, w, key, request, allowLive, confirmUsage, reply, lookup);
    if key in w.operations && w.operations[key].state == Prepared && reply.SubmitAnswers? && Live(w.operations[key].provider) && script.effects != [] {
      var op := w.operations[key];
      SinkKeepsPaid(w, key, request, reply.answer, answers);
      var first := script.effects[..4];
      assert first == [SaveOperation(op.(state := SubmissionInProgress)), CallSubmit(key, request)]
        + [SaveResult(KeyOf(request), ResultOf(request, reply.answer)), SaveReceipt(ReceiptOf(request, op.provider, reply.answer))];
      assert script.effects == first + script.effects[4..];
      AllSafeConcat(w, first, script.effects[4..]);
      ElsewhereKeepsPaid(Replay(w, first), script.effects[4..], answers);
      AllKeepPaidConcat(w, first, script.effects[4..], answers);
    } else {
      ElsewhereKeepsPaid(w, script.effects, answers);
    }
  }

  lemma FetchKeepsPaid(cfg: Config, w: World, key: Key, tokens: Option<nat>, cost: Option<real>, reply: Option<Result>, answers: map<Key, Result>)
    requires Inv(w) && PaidWorld(w, answers) && (key in answers && reply.Some? ==> reply.value == answers[key])
    ensures AllKeepPaid(w, ResultScript(cfg, w, key, tokens, cost, reply).effects, answers)
  {
    hide TotalContent, Inv, AllSafe, Replay, AllKeepPaid, PaidWorld, KeepsPaid;
    var script := ResultScript(cfg, w, key, tokens, cost, reply);
    if |script.effects| == 3 {
      FetchedKeepsPaid(w, key, script.effects[0].result, script.effects[1].receipt, script.effects[2].operation, answers);
      ThreeKeepPaid(w, script.effects, answers);
    } else {
      ResultIsSafe(cfg, w, key, tokens, cost, reply);
      ElsewhereKeepsPaid(w, script.effects, answers);
    }
  }

  lemma FetchedKeepsPaid(w: World, key: Key, result: Result, receipt: Receipt, op: Operation, answers: map<Key, Result>)
    requires Inv(w) && PaidWorld(w, answers) && key in w.operations && w.operations[key].state == ResultAvailable
    requires Live(w.operations[key].provider) ==> key in w.receipts && ReceiptMatches(w.operations[key], receipt, result) && receipt == w.receipts[key]
    requires key in answers ==> result == answers[key]
    requires receipt.identity == w.operations[key].identity && receipt.digest == result
    requires op == w.operations[key].(resultReference := Some(key.operation))
    ensures var a, b, c := SaveResult(key, result), SaveReceipt(receipt), SaveOperation(op);
      KeepsPaid(w, a, answers) && KeepsPaid(After(w, a), b, answers) && KeepsPaid(After(After(w, a), b), c, answers)
  {
    assert PaidAt(w, answers, key);
    hide SubmittedOnce, SingleAcceptance, PatchesOk, ProgressOk, AcceptedHavePatches, Live;
  }

  /** Every step of honest callers and of providers that repeat themselves keeps receipts backed. */
  lemma StepKeepsPaid(w: World, e: Event, answers: map<Key, Result>)
    requires Inv(w) && PaidWorld(w, answers) && Honest(e, answers)
    ensures PaidWorld(Step(w, e), answers)
  {
    hide Inv, PaidWorld, AllSafe, AllKeepPaid, SubmitScript, ResultScript, ApplyScript, PollScript, ReconcileScript,
      CancelScript, PrepareScript, ReconcileCancellationScript;
    match e
    case Invoke(cfg, c, fuel) =>
      var effects := ScriptOf(cfg, w, c).effects;
      if c.Submit? {
        SubmitKeepsPaid(cfg, w, c.key, c.identity, c.allowLive, c.confirmUsage, c.submitReply, c.lookup, answers);
      } else if c.FetchResult? {
        FetchKeepsPaid(cfg, w, c.key, c.tokenBudget, c.costBudget, c.resultReply, answers);
      } else {
        OthersAreElsewhere(cfg, w, c);
        PatchSafety.ScriptIsSafe(cfg, w, c);
        ElsewhereKeepsPaid(w, effects, answers);
      }
      PrefixKeepsPaid(w, effects, if fuel < |effects| then fuel else |effects|, answers);
    case Outside(repository) =>
      OutsideKeepsPaid(w, repository, answers);
  }

  lemma OutsideKeepsPaid(w: World, repository: Repository, answers: map<Key, Result>)
    requires PaidWorld(w, answers)
    ensures PaidWorld(w.(repository := repository), answers)
  {
    hide PaidEntry;
    forall key: Key ensures PaidAt(w.(repository := repository), answers, key) {
      assert PaidAt(w, answers, key);
    }
  }

  /** In every run of honest callers, a durable receipt has its durable result with the digest it states,
      for live operations and for all whose provider always answers with the same result. */
  lemma {:induction false} EveryHonestRun(repository: ProviderModel.Repository, events: seq<Event>, answers: map<Key, Result>)
    requires forall i :: 0 <= i < |events| ==> Honest(events[i], answers)
    ensures PaidWorld(Run(Initially(repository), events), answers)
  {
    hide Inv, Step, Honest;
    if events != [] {
      var before := events[..|events| - 1];
      EveryHonestRun(repository, before, answers);
      ReachableKeepsInv(repository, before);
      StepKeepsPaid(Run(Initially(repository), before), events[|events| - 1], answers);
    }
  }

  /** So in such a run no receipt of theirs is ever without its result. */
  lemma ReceiptsAreBacked(repository: ProviderModel.Repository, events: seq<Event>, answers: map<Key, Result>, key: Key)
    requires forall i :: 0 <= i < |events| ==> Honest(events[i], answers)
    ensures var w := Run(Initially(repository), events);
      key in w.operations && (Live(w.operations[key].provider) || key in answers) ==> Backed(w.results, w.receipts, key)
  {
    hide Run, Honest, Live, KeyOf;
    EveryHonestRun(repository, events, answers);
    assert PaidAt(Run(Initially(repository), events), answers, key);
  }

  /** A world that a live submission passes through after `done` effects: the saved intent, the call, the
      two answer writes, the saved submission. */
  ghost predicate Underway(w: World, w': World, key: Key, answer: Answer, done: nat) {
    key in w.operations && key in w'.operations &&
    var op := w.operations[key];
    && w'.operations[key].identity == op.identity && w'.operations[key].provider == op.provider
    && w'.submissions == (if done < 2 then w.submissions else w.submissions + [key])
    && w'.results == (if done < 3 then w.results else w.results[key := ResultOf(op.identity, answer)])
    && w'.receipts == (if done < 4 then w.receipts else w.receipts[key := ReceiptOf(op.identity, op.provider, answer)])
  }

  lemma LiveSubmission(cfg: Config, w: World, key: Key, answer: Answer, lookup: LookupReply, fuel: nat)
    requires Inv(w) && key in w.operations && w.operations[key].state == Prepared && Live(w.operations[key].provider)
    requires w.operations[key].provider in cfg.enabled
    ensures Underway(w, Reached(w, SubmitScript(cfg, w, key, w.operations[key].identity, true, true, SubmitAnswers(answer), lookup), fuel),
                     key, answer, fuel)
  {
    hide ResultOf, ReceiptOf, ReceiptMatches, SubmittedOnce, SingleAcceptance, PatchesOk, ProgressOk, AcceptedHavePatches, Replay;
    var op := w.operations[key];
    var script := SubmitScript(cfg, w, key, op.identity, true, true, SubmitAnswers(answer), lookup);
    var cut := if fuel < 5 then fuel else 5;
    SinkStores(w, script.effects, op.identity, op.provider, answer, cut);
    SubmissionLeaves(w, script.effects, key, cut);
  }

  /** Resaves the same operation, as far as its identity goes. */
  predicate Resaves(op: Operation, e: Effect) {
    e.SaveOperation? && e.operation.identity == op.identity && e.operation.provider == op.provider
  }

  lemma {:induction false} SubmissionLeaves(w: World, effects: seq<Effect>, key: Key, cut: nat)
    requires |effects| == 5 && cut <= 5
    requires key in w.operations && KeyOf(w.operations[key].identity) == key
    requires Resaves(w.operations[key], effects[0]) && Resaves(w.operations[key], effects[4])
    requires effects[1].CallSubmit? && effects[1].key == key && effects[2].SaveResult? && effects[3].SaveReceipt?
    requires !effects[0].CallSubmit? && !effects[4].CallSubmit?
    ensures var w' := Replay(w, effects[..cut]);
      && w'.submissions == (if cut < 2 then w.submissions else w.submissions + [key])
      && key in w'.operations && w'.operations[key].identity == w.operations[key].identity
      && w'.operations[key].provider == w.operations[key].provider
  {
    hide KeyOf, After, Resaves;
    if cut == 0 {
      assert effects[..0] == [];
    } else {
      assert effects[..cut][..cut - 1] == effects[..cut - 1];
      ReplayLast(w, effects[..cut]);
      SubmissionLeaves(w, effects, key, cut - 1);
      SubmissionStep(Replay(w, effects[..cut - 1]), effects[cut - 1], key, w.operations[key]);
    }
  }

  lemma SubmissionStep(w: World, e: Effect, key: Key, op: Operation)
    requires key in w.operations && KeyOf(op.identity) == key
    requires w.operations[key].identity == op.identity && w.operations[key].provider == op.provider
    requires Resaves(op, e) || (e.CallSubmit? && e.key == key) || e.SaveResult? || e.SaveReceipt?
    ensures var w' := After(w, e);
      && key in w'.operations && w'.operations[key].identity == op.identity && w'.operations[key].provider == op.provider
      && w'.submissions == if e.CallSubmit? then w.submissions + [key] else w.submissions
  {
  }

  lemma StoredMatches(request: Identity, provider: string, answer: Answer, op: Operation)
    requires op.identity == request && op.provider == provider
    ensures ReceiptMatches(op, ReceiptOf(request, provider, answer), ResultOf(request, answer))
    ensures KeyOf(ReceiptOf(request, provider, answer).identity) == KeyOf(request)
    ensures ReceiptOf(request, provider, answer).taskId == answer.taskId == ResultOf(request, answer).taskId
  {
  }

  /** After a crash at any point of a live submission, reconciliation finds the paid answer if and only
      if its receipt is durable, returns exactly that answer's result, and never submits again. */
  lemma PaidResponseNeverLost(cfg: Config, w: World, key: Key, answer: Answer, lookup: LookupReply, later: LookupReply, fuel: nat)
    requires Inv(w) && PaidWorld(w, map[])
    requires key in w.operations && w.operations[key].state == Prepared && Live(w.operations[key].provider)
    requires w.operations[key].provider in cfg.enabled
    ensures var op := w.operations[key];
      var w' := Reached(w, SubmitScript(cfg, w, key, op.identity, true, true, SubmitAnswers(answer), lookup), fuel);
      Recovered(w, w', ReconcileScript(cfg, w', key, later), key, answer, fuel)
  {
    hide SubmitScript, Reached, ResultOf, ReceiptOf, ReceiptMatches, SubmittedOnce, SingleAcceptance, PatchesOk,
      ProgressOk, AcceptedHavePatches;
    assert PaidAt(w, map[], key);
    var op := w.operations[key];
    var w' := Reached(w, SubmitScript(cfg, w, key, op.identity, true, true, SubmitAnswers(answer), lookup), fuel);
    LiveSubmission(cfg, w, key, answer, lookup, fuel);
    StoredMatches(op.identity, op.provider, answer, w'.operations[key]);
    var next := ReconcileScript(cfg, w', key, later);
    assert next.effects == [next.effects[0]];
    ReplayOne(w', next.effects[0]);
  }

  /** What reconciliation finds of a submission that died after `done` effects. */
  ghost predicate Recovered(w: World, crashed: World, next: Script, key: Key, answer: Answer, done: nat) {
    var after := Replay(crashed, next.effects);
    && key in w.operations && key in after.operations
    && crashed.submissions == after.submissions == (if done < 2 then w.submissions else w.submissions + [key])
    && (key in crashed.receipts <==> done >= 4)
    && if key in crashed.receipts then
         && after.operations[key].state == ResultAvailable
         && after.operations[key].taskId == Some(answer.taskId)
         && key in after.results && after.results[key] == ResultOf(w.operations[key].identity, answer)
         && next.outcome == Operated(after.operations[key])
       else
         after.operations[key].state == NeedsReconciliation && next.outcome == Raised(ReconciliationError)
  }

  /** The one way a live submission can leave a receipt without its result: the caller passed the
      request of an operation that already holds a receipt of another answer, and the process died
      between the sink's two writes. Otherwise every receipt that was backed stays so. */
  lemma SinkBacksReceiptsIff(cfg: Config, w: World, key: Key, request: Identity, answer: Answer, lookup: LookupReply, fuel: nat, other: Key)
    requires Inv(w) && key in w.operations && w.operations[key].state == Prepared && Live(w.operations[key].provider)
    requires w.operations[key].provider in cfg.enabled
    requires Backed(w.results, w.receipts, other)
    ensures var w' := Reached(w, SubmitScript(cfg, w, key, request, true, true, SubmitAnswers(answer), lookup), fuel);
      Backed(w'.results, w'.receipts, other) <==>
        !(fuel == 3 && other == KeyOf(request) && other in w.receipts && w.receipts[other].digest != ResultOf(request, answer))
  {
    hide Inv, ReceiptMatches, ResultOf;
    var op := w.operations[key];
    var script := SubmitScript(cfg, w, key, request, true, true, SubmitAnswers(answer), lookup);
    var cut := if fuel < |script.effects| then fuel else |script.effects|;
    SinkStores(w, script.effects, request, op.provider, answer, cut);
  }

  /** Only the third and fourth effect of a live submission touch results and receipts. */
  lemma SinkStores(w: World, effects: seq<Effect>, request: Identity, provider: string, answer: Answer, cut: nat)
    requires |effects| == 5 && cut <= 5
    requires Elsewhere(effects[0]) && Elsewhere(effects[1]) && Elsewhere(effects[4])
    requires effects[2] == SaveResult(KeyOf(request), ResultOf(request, answer))
    requires effects[3] == SaveReceipt(ReceiptOf(request, provider, answer))
    ensures var w' := Replay(w, effects[..cut]);
      && w'.results == (if cut < 3 then w.results else w.results[KeyOf(request) := ResultOf(request, answer)])
      && w'.receipts == (if cut < 4 then w.receipts else w.receipts[KeyOf(request) := ReceiptOf(request, provider, answer)])
  {
    hide ResultOf, ReceiptOf, After;
    if cut > 0 {
      assert effects[..cut][..cut - 1] == effects[..cut - 1];
      ReplayLast(w, effects[..cut]);
      SinkStores(w, effects, request, provider, answer, cut - 1);
      AfterOne(Replay(w, effects[..cut - 1]), effects[cut - 1]);
      assert ReceiptOf(request, provider, answer).identity == request by { StoredMatchesRequest(request, provider, answer); }
    } else {
      assert effects[..0] == [];
    }
  }

  lemma StoredMatchesRequest(request: Identity, provider: string, answer: Answer)
    ensures ReceiptOf(request, provider, answer).identity == request
  {
  }

  lemma AfterOne(w: World, e: Effect)
    ensures After(w, e).results == if e.SaveResult? then w.results[e.key := e.result] else w.results
    ensures After(w, e).receipts == if e.SaveReceipt? then w.receipts[KeyOf(e.receipt.identity) := e.receipt] else w.receipts
  {
  }

  /** Fetching a result again leaves a receipt without its result in one case only: the provider now answers
      otherwise than the stored receipt states, and the process dies before the new receipt is stored. A
      live provider's answer is compared with the receipt first, so it is never in that case. */
  lemma FetchBacksReceiptsIff(cfg: Config, w: World, key: Key, tokens: Option<nat>, cost: Option<real>, reply: Option<Result>, fuel: nat, other: Key)
    requires Inv(w) && Backed(w.results, w.receipts, other)
    ensures var script := ResultScript(cfg, w, key, tokens, cost, reply);
      var w' := Reached(w, script, fuel);
      Backed(w'.results, w'.receipts, other) <==>
        !(script.outcome.Fetched? && fuel == 1 && other == key && key in w.receipts
          && w.receipts[key].digest != script.outcome.result)
    ensures var script := ResultScript(cfg, w, key, tokens, cost, reply);
      script.outcome.Fetched? ==>
        && reply == Some(script.outcome.result)
        && (Live(w.operations[key].provider) ==> key in w.receipts && w.receipts[key].digest == script.outcome.result)
  {
    hide TotalContent, Inv, Backed, Replay, Live;
    var script := ResultScript(cfg, w, key, tokens, cost, reply);
    var cut := if fuel < |script.effects| then fuel else |script.effects|;
    if script.outcome.Fetched? {
      StoredUnderOwnKey(w, key);
      FetchStores(w, script.effects, key, script.outcome.result, cut);
      BackedAfter(w, script.effects[1].receipt, key, script.outcome.result, cut, other);
    } else {
      FetchedOtherwise(cfg, w, key, tokens, cost, reply);
      NothingStored(w, script.effects[..cut]);
    }
  }

  lemma FetchedOtherwise(cfg: Config, w: World, key: Key, tokens: Option<nat>, cost: Option<real>, reply: Option<Result>)
    requires !ResultScript(cfg, w, key, tokens, cost, reply).outcome.Fetched?
    ensures AllElsewhere(ResultScript(cfg, w, key, tokens, cost, reply).effects)
  {
    hide TotalContent, ReceiptMatches;
  }

  lemma {:induction false} NothingStored(w: World, effects: seq<Effect>)
    requires AllElsewhere(effects)
    ensures Replay(w, effects).results == w.results && Replay(w, effects).receipts == w.receipts
    decreases |effects|
  {
    hide After;
    if effects != [] {
      AfterOne(w, effects[0]);
      NothingStored(After(w, effects[0]), effects[1..]);
    }
  }

  lemma FetchStores(w: World, effects: seq<Effect>, key: Key, result: Result, cut: nat)
    requires |effects| == 3 && cut <= 3
    requires effects[0] == SaveResult(key, result) && effects[1].SaveReceipt? && effects[2].SaveOperation?
    requires KeyOf(effects[1].receipt.identity) == key
    ensures var w' := Replay(w, effects[..cut]);
      && w'.results == (if cut < 1 then w.results else w.results[key := result])
      && w'.receipts == (if cut < 2 then w.receipts else w.receipts[key := effects[1].receipt])
  {
    hide After, KeyOf;
    if cut > 0 {
      assert effects[..cut][..cut - 1] == effects[..cut - 1];
      ReplayLast(w, effects[..cut]);
      FetchStores(w, effects, key, result, cut - 1);
      AfterOne(Replay(w, effects[..cut - 1]), effects[cut - 1]);
    } else {
      assert effects[..0] == [];
    }
  }

  lemma BackedAfter(w: World, receipt: Receipt, key: Key, result: Result, cut: nat, other: Key)
    requires Backed(w.results, w.receipts, other) && receipt.digest == result
    ensures Backed(if cut < 1 then w.results else w.results[key := result], if cut < 2 then w.receipts else w.receipts[key := receipt], other)
      <==> !(cut == 1 && other == key && key in w.receipts && w.receipts[key].digest != result)
  {
  }

  /** Such a run: whatever non-live operation is brought to a stored result, its provider then answering with
      another result and the process dying after one effect leave the receipt with a result it does not state. */
  lemma ChangedAnswerBreaksReceipt(cfg: Config, w: World, a: PrepareRequest, result: Result, changed: Result)
    requires Preparable(cfg, a) && a.provider in cfg.enabled && !Live(a.provider)
    requires KeyOf(RequestedIdentity(cfg, a)) !in w.operations && KeyOf(RequestedIdentity(cfg, a)) !in w.progress
    requires Deliverable(cfg, FetchedOperation(cfg, a, result.taskId), result)
    requires Deliverable(cfg, FetchedOperation(cfg, a, result.taskId), changed) && changed != result
    ensures var key := KeyOf(RequestedIdentity(cfg, a));
      var w' := Run(w, Delivery(cfg, a, result));
      var broken := Step(w', Invoke(cfg, FetchResult(key, None, None, Some(changed)), 1));
      Backed(w'.results, w'.receipts, key) && !Backed(broken.results, broken.receipts, key)
  {
    hide Run, Delivery, Deliverable, RequestedIdentity, Live, Step, KeyOf;
    ResultIsReached(cfg, w, a, result);
    FetchDies(cfg, DeliveredWorld(cfg, w, a, result), FetchedOperation(cfg, a, result.taskId), changed);
  }

  /** There are such answers. */
  lemma SomeAnswersDiffer(repository: ProviderModel.Repository)
    ensures var cfg, a := SampleConfig(), RequestFor("a", "deterministic");
      var w := Run(Initially(repository), Delivery(cfg, a, ResultWith("first", [])));
      var broken := Step(w, Invoke(cfg, FetchResult(KeyFor("a"), None, None, Some(ResultWith("second", []))), 1));
      Backed(w.results, w.receipts, KeyFor("a")) && !Backed(broken.results, broken.receipts, KeyFor("a"))
  {
    hide Run, Delivery, Deliverable, RequestedIdentity, FetchedOperation, Live, Step, TotalContent, KeyOf;
    assert "first"[0] != "second"[0];
    assert TotalContent([]) == 0 by { NoContent(); }
    SampleIsDeliverable("a", "deterministic", ResultWith("first", []));
    SampleIsDeliverable("a", "deterministic", ResultWith("second", []));
    OperationFacts("a", "deterministic");
    NotLive();
    ChangedAnswerBreaksReceipt(SampleConfig(), Initially(repository), RequestFor("a", "deterministic"), ResultWith("first", []), ResultWith("second", []));
  }

  lemma NoContent()
    ensures TotalContent([]) == 0
  {
  }

  /** The identity that `prepare` gives the live operation. */
  function SampleIdentity(operation: string): Identity {
    RequestedIdentity(SampleConfig(), RequestFor(operation, "openai-codex"))
  }

  function SampleAnswer(summary: string): Answer {
    Answer("thread", Succeeded, summary, [], 1, None)
  }

  function LivePrepared(operation: string): Operation {
    PreparedOperation(SampleConfig(), RequestFor(operation, "openai-codex"))
  }

  function LiveSubmitted(operation: string): Operation {
    LivePrepared(operation).(taskId := Some("thread"), state := Submitted)
  }

  /** The live submission of an operation with the request of another. */
  function LiveSubmit(operation: string, request: string, summary: string, lookup: LookupReply, fuel: nat): Event {
    Invoke(SampleConfig(), Submit(KeyFor(operation), SampleIdentity(request), true, true, SubmitAnswers(SampleAnswer(summary)), lookup), fuel)
  }

  /** Operation "b" was answered "first"; operation "a" is still prepared. */
  function SampleWorld(repository: ProviderModel.Repository): World {
    var b := SampleIdentity("b");
    World(map[KeyFor("a") := LivePrepared("a"), KeyFor("b") := LiveSubmitted("b")],
          map[KeyFor("b") := ResultOf(b, SampleAnswer("first"))],
          map[KeyFor("b") := ReceiptOf(b, "openai-codex", SampleAnswer("first"))],
          map[], map[], map[], repository, [KeyFor("b")])
  }

  lemma SampleFacts()
    ensures KeyFor("a") != KeyFor("b") && Live("openai-codex")
    ensures forall o :: KeyOf(SampleIdentity(o)) == KeyFor(o) && SampleIdentity(o) == LivePrepared(o).identity
    ensures forall o :: LivePrepared(o).state == Prepared && LivePrepared(o).provider == "openai-codex" && LivePrepared(o).taskId == None
    ensures ResultOf(SampleIdentity("b"), SampleAnswer("first")) != ResultOf(SampleIdentity("b"), SampleAnswer("second"))
    ensures ReceiptOf(SampleIdentity("b"), "openai-codex", SampleAnswer("first")).digest == ResultOf(SampleIdentity("b"), SampleAnswer("first"))
    ensures Preparable(SampleConfig(), RequestFor("a", "openai-codex")) && Preparable(SampleConfig(), RequestFor("b", "openai-codex"))
    ensures "openai-codex" in SampleConfig().enabled
  {
    assert "a"[0] != "b"[0];
    assert SampleAnswer("first").summary[0] != SampleAnswer("second").summary[0];
  }

  /** The honest submission of "b" in a world with both operations prepared. */
  lemma LiveSubmitStep(w: World, lookup: LookupReply)
    requires w.operations == map[KeyFor("a") := LivePrepared("a"), KeyFor("b") := LivePrepared("b")]
    requires w.results == map[] && w.receipts == map[] && w.submissions == []
    requires w.patches == map[] && w.cancellations == map[] && w.progress == map[]
    ensures Step(w, LiveSubmit("b", "b", "first", lookup, 5)) == SampleWorld(w.repository)
  {
    hide ResultOf, ReceiptOf, SampleIdentity, LivePrepared, SampleConfig, SampleAnswer, KeyFor, KeyOf, Live, ReceiptMatches, Replay;
    SampleFacts();
    var key := KeyFor("b");
    var op := LivePrepared("b");
    var answer := SampleAnswer("first");
    var request := SampleIdentity("b");
    ThreadIs("first");
    StoredMatches(request, op.provider, answer, op.(state := SubmissionInProgress));
    var script := SubmitScript(SampleConfig(), w, key, request, true, true, SubmitAnswers(answer), lookup);
    assert script.effects == [SaveOperation(op.(state := SubmissionInProgress)), CallSubmit(key, request),
      SaveResult(key, ResultOf(request, answer)), SaveReceipt(ReceiptOf(request, op.provider, answer)), SaveOperation(LiveSubmitted("b"))];
    ReplayFive(w, script.effects);
    assert script.effects[..5] == script.effects;
  }

  lemma ThreadIs(summary: string)
    ensures SampleAnswer(summary).taskId == "thread"
  {
  }

  lemma ReplayFive(w: World, effects: seq<Effect>)
    requires |effects| == 5
    ensures Replay(w, effects) == After(After(After(After(After(w, effects[0]), effects[1]), effects[2]), effects[3]), effects[4])
  {
    hide After, Replay;
    assert effects == ([effects[0], effects[1]] + [effects[2], effects[3]]) + [effects[4]];
    ReplayConcat(w, [effects[0], effects[1]] + [effects[2], effects[3]], [effects[4]]);
    ReplayConcat(w, [effects[0], effects[1]], [effects[2], effects[3]]);
    TwoSafe(w, effects[0], effects[1]);
    TwoSafe(After(After(w, effects[0]), effects[1]), effects[2], effects[3]);
    ReplayOne(After(After(After(After(w, effects[0]), effects[1]), effects[2]), effects[3]), effects[4]);
  }

  /** Two live operations are prepared, and one of them is submitted with its own request. */
  function SampleRun(lookup: LookupReply): seq<Event> {
    [Invoke(SampleConfig(), Prepare(RequestFor("a", "openai-codex")), 1),
     Invoke(SampleConfig(), Prepare(RequestFor("b", "openai-codex")), 1),
     LiveSubmit("b", "b", "first", lookup, 5)]
  }

  lemma SampleIsReached(repository: ProviderModel.Repository, lookup: LookupReply)
    ensures Run(Initially(repository), SampleRun(lookup)) == SampleWorld(repository)
  {
    hide Run, Step, SampleConfig, RequestFor, LiveSubmit, SampleWorld, Preparable, KeyOf, KeyFor, SampleIdentity;
    SampleFacts();
    var w0 := Initially(repository);
    var events := SampleRun(lookup);
    PreparedIs("a");
    PreparedIs("b");
    PreparedStep(SampleConfig(), w0, RequestFor("a", "openai-codex"));
    var w1 := Step(w0, events[0]);
    PreparedStep(SampleConfig(), w1, RequestFor("b", "openai-codex"));
    var w2 := Step(w1, events[1]);
    assert events == [events[0]] + ([events[1]] + [events[2]]);
    RunConcat(w0, [events[0]], [events[1]] + [events[2]]);
    RunConcat(w1, [events[1]], [events[2]]);
    RunOne(w0, events[0]);
    RunOne(w1, events[1]);
    RunOne(w2, events[2]);
    assert w2.operations == map[KeyFor("a") := LivePrepared("a"), KeyFor("b") := LivePrepared("b")];
    LiveSubmitStep(w2, lookup);
  }

  lemma PreparedIs(operation: string)
    ensures PreparedOperation(SampleConfig(), RequestFor(operation, "openai-codex")) == LivePrepared(operation)
    ensures RequestedIdentity(SampleConfig(), RequestFor(operation, "openai-codex")) == SampleIdentity(operation)
    ensures RequestFor(operation, "openai-codex").context.Some?
  {
  }

  /** Such a run: after two honest operations were prepared and one of them answered, submitting the other
      with the request of the first and dying between the sink's writes leaves the first one's receipt with
      a result it does not state. */
  lemma ReceiptLosesItsResult(repository: ProviderModel.Repository, lookup: LookupReply)
    ensures var w := Run(Initially(repository), SampleRun(lookup));
      var w' := Step(w, LiveSubmit("a", "b", "second", lookup, 3));
      && KeyFor("a") in w.operations && w.operations[KeyFor("a")].state == Prepared
      && KeyFor("b") in w.receipts && Backed(w.results, w.receipts, KeyFor("b"))
      && !Backed(w'.results, w'.receipts, KeyFor("b"))
  {
    hide SubmitScript, Reached, Inv, Run, SampleRun, ResultOf, ReceiptOf, SampleIdentity, SampleConfig, LivePrepared,
      SampleAnswer, KeyFor, KeyOf, Live;
    var w := SampleWorld(repository);
    SampleIsReached(repository, lookup);
    ReachableKeepsInv(repository, SampleRun(lookup));
    SampleFacts();
    SinkBacksReceiptsIff(SampleConfig(), w, KeyFor("a"), SampleIdentity("b"), SampleAnswer("second"), lookup, 3, KeyFor("b"));
  }
}
