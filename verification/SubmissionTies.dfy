/** What an operation that is `SUBMITTED` is tied to: the provider's own record of the task under the very
    identity of the operation, or a durable receipt with its durable result. */
module SubmissionTies {
  import opened Wrappers
  import opened ProviderModel
  import opened PatchScripts
  import opened ProtocolScripts
  import opened ProtocolSafety
  import opened ProtocolRuns
  import PatchTracking

  predicate Tied(w: World, key: Key, lookup: LookupReply) {
    key in w.operations &&
    var op := w.operations[key];
    || lookup.identity == Some(op.identity)
    || (&& Live(op.provider) && key in w.receipts && key in w.results
        && ReceiptMatches(op, w.receipts[key], w.results[key])
        && op.taskId == Some(w.receipts[key].taskId))
  }

  predicate SavesSubmitted(e: Effect) {
    e.SaveOperation? && e.operation.state == Submitted
  }

  lemma SinkReplays(w: World, a: Effect, b: Effect, request: Identity, provider: string, answer: Answer)
    requires a.SaveOperation? && b.CallSubmit?
    ensures var w' := Replay(w, [a, b] + [SaveResult(KeyOf(request), ResultOf(request, answer)), SaveReceipt(ReceiptOf(request, provider, answer))]);
      w'.results == Stored(w, request, provider, answer).results && w'.receipts == Stored(w, request, provider, answer).receipts
  {
    var second := [SaveResult(KeyOf(request), ResultOf(request, answer)), SaveReceipt(ReceiptOf(request, provider, answer))];
    ReplayConcat(w, [a, b], second);
    TwoSafe(w, a, b);
    TwoSafe(After(After(w, a), b), second[0], second[1]);
  }

  lemma LookupTies(w: World, w1: World, key: Key, op: Operation, lookup: LookupReply, taskId: string, i: nat)
    requires key in w.operations && KeyOf(op.identity) == key
    requires i < |LookupScript(op, lookup, taskId).effects| && SavesSubmitted(LookupScript(op, lookup, taskId).effects[i])
    ensures var e := LookupScript(op, lookup, taskId).effects[i];
      KeyOf(e.operation.identity) == key && Tied(After(w1, e), key, lookup)
  {
  }

  /** `reconcile` saves `SUBMITTED` only over the provider's record, whatever state it found. */
  lemma ReconciledIsTied(cfg: Config, w: World, key: Key, lookup: LookupReply, i: nat)
    requires Inv(w) && i < |ReconcileScript(cfg, w, key, lookup).effects|
    requires SavesSubmitted(ReconcileScript(cfg, w, key, lookup).effects[i])
    ensures var effects := ReconcileScript(cfg, w, key, lookup).effects;
      KeyOf(effects[i].operation.identity) == key && Tied(Replay(w, effects[..i + 1]), key, lookup)
  {
    hide ReceiptMatches, Tied, Inv, Live, Replay;
    var effects := ReconcileScript(cfg, w, key, lookup).effects;
    assert effects[..i + 1] == [effects[i]];
    ReplayOne(w, effects[i]);
    StoredUnderOwnKey(w, key);
    LookupTies(w, w, key, w.operations[key], lookup, lookup.matches.value[0], i);
  }

  lemma LiveTies(w: World, before: World, key: Key, op: Operation, request: Identity, answer: Answer, lookup: LookupReply)
    requires KeyOf(op.identity) == key && Live(op.provider)
    requires before.results == Stored(w, request, op.provider, answer).results
    requires before.receipts == Stored(w, request, op.provider, answer).receipts
    requires var effects := VerifyLiveScript(Stored(w, request, op.provider, answer), key, op, answer.taskId).effects;
      effects != [] && SavesSubmitted(effects[0])
    ensures var e := VerifyLiveScript(Stored(w, request, op.provider, answer), key, op, answer.taskId).effects[0];
      KeyOf(e.operation.identity) == key && Tied(After(before, e), key, lookup)
  {
    hide ResultOf, ReceiptOf, Stored;
  }

  lemma PreparedIsTied(cfg: Config, w: World, key: Key, request: Identity, allowLive: bool, confirmUsage: bool,
                       reply: SubmitReply, lookup: LookupReply, i: nat)
    requires Inv(w) && key in w.operations && w.operations[key].state == Prepared
    requires var effects := SubmitScript(cfg, w, key, request, allowLive, confirmUsage, reply, lookup).effects;
      i < |effects| && SavesSubmitted(effects[i])
    ensures var effects := SubmitScript(cfg, w, key, request, allowLive, confirmUsage, reply, lookup).effects;
      KeyOf(effects[i].operation.identity) == key && Tied(Replay(w, effects[..i + 1]), key, lookup)
  {
    hide ReconcileScript, ResultOf, ReceiptOf, Inv, Tied, VerifyLiveScript, LookupScript, Live, Stored, After, Replay;
    var op := w.operations[key];
    var inProgress := op.(state := SubmissionInProgress);
    var effects := SubmitScript(cfg, w, key, request, allowLive, confirmUsage, reply, lookup).effects;
    StoredUnderOwnKey(w, key);
    assert effects[..i + 1] == effects[..i] + [effects[i]];
    ReplayConcat(w, effects[..i], [effects[i]]);
    ReplayOne(Replay(w, effects[..i]), effects[i]);
    var first := [SaveOperation(inProgress), CallSubmit(key, request)];
    if Live(op.provider) {
      var answer := reply.answer;
      var sink := [SaveResult(KeyOf(request), ResultOf(request, answer)), SaveReceipt(ReceiptOf(request, op.provider, answer))];
      var verify := VerifyLiveScript(Stored(w, request, op.provider, answer), key, inProgress, answer.taskId).effects;
      VerifiesOnce(Stored(w, request, op.provider, answer), key, inProgress, answer.taskId);
      assert effects == first + sink + verify;
      assert effects[..4] == first + sink;
      SinkReplays(w, first[0], first[1], request, op.provider, answer);
      LiveTies(w, Replay(w, effects[..4]), key, inProgress, request, answer, lookup);
    } else {
      var found := LookupScript(inProgress, lookup, reply.answer.taskId).effects;
      assert effects == first + found;
      LookupTies(w, Replay(w, effects[..i]), key, inProgress, lookup, reply.answer.taskId, i - 2);
    }
  }

  lemma VerifiesOnce(w: World, key: Key, op: Operation, taskId: string)
    ensures |VerifyLiveScript(w, key, op, taskId).effects| == 1
  {
    hide ReceiptMatches;
  }

  /** Whatever state the operation was in, whatever request the caller passed and whatever the provider
      answered: the moment `submit` saves an operation as `SUBMITTED`, it is tied to its own identity. */
  lemma SubmittedIsTied(cfg: Config, w: World, key: Key, request: Identity, allowLive: bool, confirmUsage: bool,
                        reply: SubmitReply, lookup: LookupReply, i: nat)
    requires Inv(w)
    requires var effects := SubmitScript(cfg, w, key, request, allowLive, confirmUsage, reply, lookup).effects;
      i < |effects| && SavesSubmitted(effects[i])
    ensures var effects := SubmitScript(cfg, w, key, request, allowLive, confirmUsage, reply, lookup).effects;
      KeyOf(effects[i].operation.identity) == key && Tied(Replay(w, effects[..i + 1]), key, lookup)
  {
    hide ReconcileScript, VerifyLiveScript, LookupScript, ResultOf, ReceiptOf, Inv, Tied, Stored;
    if w.operations[key].state == Prepared {
      PreparedIsTied(cfg, w, key, request, allowLive, confirmUsage, reply, lookup, i);
    } else {
      ReconciledIsTied(cfg, w, key, lookup, i);
    }
  }

  ghost predicate NeverSubmits(effects: seq<Effect>) {
    forall i :: 0 <= i < |effects| ==> !SavesSubmitted(effects[i])
  }

  lemma {:induction false} PollNeverSubmits(cfg: Config, key: Key, op: Operation, log: seq<ProgressEvent>, events: seq<ProgressEvent>, status: Option<Status>)
    ensures NeverSubmits(PollEvents(cfg, key, op, log, events, status).effects)
    decreases |events|
  {
    hide Appended, Sanitize;
    if events != [] {
      var event := Sanitize(cfg, events[0], op.maximumOutput);
      if Appended(log, event).Some? {
        PollNeverSubmits(cfg, key, op, Appended(log, event).value, events[1..], status);
        PollNeverSubmits(cfg, key, op, log, events[1..], status);
      }
    }
  }

  lemma FetchNeverSubmits(cfg: Config, w: World, key: Key, tokens: Option<nat>, cost: Option<real>, reply: Option<Result>)
    ensures NeverSubmits(ResultScript(cfg, w, key, tokens, cost, reply).effects)
  {
    hide ReceiptMatches, TotalContent;
  }

  lemma CancelNeverSubmits(cfg: Config, w: World, key: Key, actor: string, reason: string, raises: bool, status: Option<Status>)
    ensures NeverSubmits(CancelScript(cfg, w, key, actor, reason, raises, status).effects)
    ensures NeverSubmits(ReconcileCancellationScript(cfg, w, key, status).effects)
  {
  }

  lemma ApplyNeverSubmits(cfg: Config, w: World, c: Command)
    requires c.ApplyAndAccept?
    ensures NeverSubmits(ScriptOf(cfg, w, c).effects)
  {
    hide ApplyScript;
    var script := ApplyScript(cfg.limits(c.policy), c.task, c.policy in cfg.changePolicies, w, c.key);
    PatchTracking.ApplyEndsWell(cfg.limits(c.policy), c.task, c.policy in cfg.changePolicies, w, c.key);
    forall i | 0 <= i < |script.effects| ensures !SavesSubmitted(script.effects[i]) {
      assert PatchTracking.PlainOrLast(script, c.key, i);
    }
  }

  /** Only `submit` and `reconcile` save an operation as `SUBMITTED`. */
  lemma OthersNeverSubmit(cfg: Config, w: World, c: Command)
    requires !c.Submit? && !c.Reconcile?
    ensures NeverSubmits(ScriptOf(cfg, w, c).effects)
  {
    hide PollEvents, ApplyScript, CancelScript, ReconcileCancellationScript, ResultScript;
    match c
    case Prepare(request) =>
    case Poll(key, events, status) =>
      if key in w.operations && events.Some? {
        PollNeverSubmits(cfg, key, w.operations[key], LogAt(w, key), events.value, status);
      }
    case FetchResult(key, tokens, cost, reply) => FetchNeverSubmits(cfg, w, key, tokens, cost, reply);
    case ApplyAndAccept(key, task, policy) => ApplyNeverSubmits(cfg, w, c);
    case Cancel(key, actor, reason, raises, status) => CancelNeverSubmits(cfg, w, key, actor, reason, raises, status);
    case ReconcileCancellation(key, status) => CancelNeverSubmits(cfg, w, key, "", "", false, status);
  }

  /** A stored operation is the last save of it, or it was there before. */
  lemma {:induction false} LastSave(w: World, effects: seq<Effect>, key: Key) returns (i: nat)
    requires key in Replay(w, effects).operations
    ensures i <= |effects|
    ensures i == |effects| ==> key in w.operations && w.operations[key] == Replay(w, effects).operations[key]
    ensures i < |effects| ==> effects[i].SaveOperation? && KeyOf(effects[i].operation.identity) == key
                              && effects[i].operation == Replay(w, effects).operations[key]
    decreases |effects|
  {
    hide KeyOf, After;
    i := |effects|;
    if effects != [] {
      var n := |effects| - 1;
      ReplayLast(w, effects);
      OneSave(Replay(w, effects[..n]), effects[n], key);
      if effects[n].SaveOperation? && KeyOf(effects[n].operation.identity) == key {
        i := n;
      } else {
        var j := LastSave(w, effects[..n], key);
        i := if j == n then |effects| else j;
      }
    }
  }

  lemma OneSave(w: World, e: Effect, key: Key)
    ensures Lookup(After(w, e).operations, key) ==
            if e.SaveOperation? && KeyOf(e.operation.identity) == key then Some(e.operation) else Lookup(w.operations, key)
  {
    hide KeyOf;
  }

  /** Effect `i` of event `n` saved the operation as it is now, and it was tied then. */
  ghost predicate TiedBy(start: World, events: seq<Event>, key: Key, op: Operation, n: nat, i: nat) {
    n < |events| && events[n].Invoke? &&
    var before := Run(start, events[..n]);
    var c := events[n].command;
    var effects := ScriptOf(events[n].config, before, c).effects;
    && (c.Submit? || c.Reconcile?) && c.key == key
    && i < |effects| && i < events[n].fuel && effects[i] == SaveOperation(op)
    && Tied(Replay(before, effects[..i + 1]), key, c.lookup)
  }

  lemma CallTies(cfg: Config, w: World, c: Command, i: nat)
    requires Inv(w) && i < |ScriptOf(cfg, w, c).effects| && SavesSubmitted(ScriptOf(cfg, w, c).effects[i])
    ensures var effects := ScriptOf(cfg, w, c).effects;
      && (c.Submit? || c.Reconcile?) && KeyOf(effects[i].operation.identity) == c.key
      && Tied(Replay(w, effects[..i + 1]), c.key, c.lookup)
  {
    hide Inv, Tied, SubmitScript, ReconcileScript, Replay, KeyOf;
    if c.Submit? {
      SubmittedIsTied(cfg, w, c.key, c.identity, c.allowLive, c.confirmUsage, c.submitReply, c.lookup, i);
    } else if c.Reconcile? {
      ReconciledIsTied(cfg, w, c.key, c.lookup, i);
    } else {
      OthersNeverSubmit(cfg, w, c);
    }
  }

  /** In every run, an operation that is `SUBMITTED` was saved so, exactly as it is now, by an earlier
      `submit` or `reconcile` of it, at which moment it was tied to its own identity. */
  lemma {:induction false} SubmittedWasTied(repository: ProviderModel.Repository, events: seq<Event>, key: Key)
    returns (n: nat, i: nat)
    requires var w := Run(Initially(repository), events); key in w.operations && w.operations[key].state == Submitted
    ensures TiedBy(Initially(repository), events, key, Run(Initially(repository), events).operations[key], n, i)
  {
    hide ScriptOf, Tied, Inv, Extends, Replay, KeyOf;
    var start := Initially(repository);
    n := |events| - 1;
    var before := Run(start, events[..n]);
    if events[n].Invoke? {
      var effects := ScriptOf(events[n].config, before, events[n].command).effects;
      var cut := if events[n].fuel < |effects| then events[n].fuel else |effects|;
      i := LastSave(before, effects[..cut], key);
      if i < cut {
        assert effects[..cut][i] == effects[i];
        EveryRun(repository, events[..n], n);
        CallTies(events[n].config, before, events[n].command, i);
        return;
      }
    }
    var m, j := SubmittedWasTied(repository, events[..n], key);
    assert events[..n][..m] == events[..m] && events[..n][m] == events[m];
    n, i := m, j;
  }
}
