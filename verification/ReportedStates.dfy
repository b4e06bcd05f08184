/** Why a run's records are as they are: every stored state of an operation, every submission, every stored
    result and every settled cancellation goes back to a call that was entitled to it. */
module ReportedStates {
  import opened Wrappers
  import opened ProviderModel
  import opened PatchScripts
  import opened ProtocolScripts
  import opened ProtocolSafety
  import opened ProtocolRuns
  import opened ProviderAnswers
  import PaidResponses
  import PatchTracking
  import SubmissionTies

  /** The provider reported this status of the task while the call settled a cancellation. */
  predicate SettlesAs(c: Command, status: Status) {
    || (c.Cancel? && !c.cancelRaises && c.status == Some(status))
    || (c.ReconcileCancellation? && c.status == Some(status))
  }

  predicate PollsAs(c: Command, status: Status) {
    c.Poll? && c.status == Some(status)
  }

  /** Both consents were given, or the provider needs none. */
  predicate Consented(c: Command, provider: string) {
    c.Submit? && (provider == "deterministic" || (c.allowLive && c.confirmUsage))
  }

  /** What entitles a call to save an operation of this provider in this state. */
  predicate Entitled(c: Command, provider: string, state: OperationState) {
    match state
    case Prepared => c.Prepare?
    case SubmissionInProgress => Consented(c, provider)
    case Uncertain => Consented(c, provider) && c.submitReply.SubmitRaises?
    case Submitted => Consented(c, provider) || c.Reconcile?
    case Running => false
    case ResultAvailable =>
      PollsAs(c, Succeeded) || SettlesAs(c, Succeeded) || c.FetchResult? || c.Reconcile? || Consented(c, provider)
    case ResultAccepted => c.ApplyAndAccept?
    case CancellationRequested => c.Cancel? && c.actor != "" && c.reason != ""
    case Cancelled => PollsAs(c, WasCancelled) || SettlesAs(c, WasCancelled)
    case FailedRetryable => PollsAs(c, RetryableFailure)
    case FailedPermanent => PollsAs(c, PermanentFailure)
    case TimedOut => PollsAs(c, TimeOut)
    case NeedsReconciliation => c.Poll? || c.FetchResult? || c.ApplyAndAccept? || c.Reconcile? || Consented(c, provider)
  }

  predicate SavesEntitled(e: Effect, c: Command) {
    e.SaveOperation? ==> Entitled(c, e.operation.provider, e.operation.state)
  }

  ghost predicate AllEntitled(effects: seq<Effect>, c: Command) {
    forall i :: 0 <= i < |effects| ==> SavesEntitled(effects[i], c)
  }

  lemma {:induction false} PollIsEntitled(cfg: Config, key: Key, op: Operation, log: seq<ProgressEvent>, events: seq<ProgressEvent>, c: Command)
    requires c.Poll?
    ensures AllEntitled(PollEvents(cfg, key, op, log, events, c.status).effects, c)
    decreases |events|
  {
    hide Appended, Sanitize;
    if events != [] {
      var event := Sanitize(cfg, events[0], op.maximumOutput);
      if Appended(log, event).Some? {
        PollIsEntitled(cfg, key, op, Appended(log, event).value, events[1..], c);
        PollIsEntitled(cfg, key, op, log, events[1..], c);
      }
    }
  }

  lemma ReconcileIsEntitled(cfg: Config, w: World, key: Key, lookup: LookupReply, c: Command)
    requires c.Reconcile? || (c.Submit? && key in w.operations && Consented(c, w.operations[key].provider))
    ensures AllEntitled(ReconcileScript(cfg, w, key, lookup).effects, c)
  {
    hide ReceiptMatches, Live;
  }

  lemma SubmitIsEntitled(cfg: Config, w: World, c: Command)
    requires c.Submit?
    ensures AllEntitled(ScriptOf(cfg, w, c).effects, c)
  {
    hide ReceiptMatches, ReconcileScript, Live, ResultOf, ReceiptOf;
    if c.key in w.operations && Consented(c, w.operations[c.key].provider) {
      ReconcileIsEntitled(cfg, w, c.key, c.lookup, c);
    }
  }

  lemma CancelIsEntitled(cfg: Config, w: World, c: Command)
    requires c.Cancel? || c.ReconcileCancellation?
    ensures AllEntitled(ScriptOf(cfg, w, c).effects, c)
  {
  }

  lemma ApplyIsEntitled(cfg: Config, w: World, c: Command)
    requires c.ApplyAndAccept?
    ensures AllEntitled(ScriptOf(cfg, w, c).effects, c)
  {
    hide ApplyScript;
    var script := ApplyScript(cfg.limits(c.policy), c.task, c.policy in cfg.changePolicies, w, c.key);
    PatchTracking.ApplyEndsWell(cfg.limits(c.policy), c.task, c.policy in cfg.changePolicies, w, c.key);
    forall i | 0 <= i < |script.effects| ensures SavesEntitled(script.effects[i], c) {
      assert PatchTracking.PlainOrLast(script, c.key, i);
    }
  }

  lemma FetchIsEntitled(cfg: Config, w: World, c: Command)
    requires c.FetchResult?
    ensures AllEntitled(ScriptOf(cfg, w, c).effects, c)
  {
    hide ReceiptMatches, TotalContent, Live;
  }

  /** Every call saves operations only in states it is entitled to. */
  lemma CallsAreEntitled(cfg: Config, w: World, c: Command)
    ensures AllEntitled(ScriptOf(cfg, w, c).effects, c)
  {
    match c
    case Prepare(request) =>
    case Submit(_, _, _, _, _, _) => SubmitIsEntitled(cfg, w, c);
    case Poll(key, events, status) =>
      hide PollEvents;
      if key in w.operations && events.Some? {
        PollIsEntitled(cfg, key, w.operations[key], LogAt(w, key), events.value, c);
      }
    case FetchResult(_, _, _, _) => FetchIsEntitled(cfg, w, c);
    case ApplyAndAccept(_, _, _) => ApplyIsEntitled(cfg, w, c);
    case Cancel(_, _, _, _, _) => CancelIsEntitled(cfg, w, c);
    case Reconcile(key, lookup) => ReconcileIsEntitled(cfg, w, key, lookup, c);
    case ReconcileCancellation(_, _) => CancelIsEntitled(cfg, w, c);
  }

  /** Effect `i` of event `n`, which happened. */
  ghost predicate Happened(start: World, events: seq<Event>, n: nat, i: nat, e: Effect) {
    && n < |events| && events[n].Invoke? && i < events[n].fuel
    && var effects := ScriptOf(events[n].config, Run(start, events[..n]), events[n].command).effects;
       i < |effects| && effects[i] == e
  }

  lemma HappenedBefore(start: World, events: seq<Event>, m: nat, n: nat, i: nat, e: Effect)
    requires m <= |events| && Happened(start, events[..m], n, i, e)
    ensures Happened(start, events, n, i, e) && events[..m][n] == events[n]
  {
    hide ScriptOf, Run;
    assert events[..m][..n] == events[..n];
  }

  /** In every run each stored operation was saved, exactly as it is now, by a call that was entitled to
      its state: no failure, cancellation, time-out or result that the provider did not report, no submission
      without consent, and no operation ever runs. */
  lemma {:induction false} EveryStateWasReported(repository: ProviderModel.Repository, events: seq<Event>, key: Key) returns (n: nat, i: nat)
    requires key in Run(Initially(repository), events).operations
    ensures var op := Run(Initially(repository), events).operations[key];
      && Happened(Initially(repository), events, n, i, SaveOperation(op))
      && Entitled(events[n].command, op.provider, op.state)
  {
    hide ScriptOf, Replay, KeyOf, Entitled;
    var start := Initially(repository);
    n := |events| - 1;
    var before := Run(start, events[..n]);
    if events[n].Invoke? {
      var effects := ScriptOf(events[n].config, before, events[n].command).effects;
      var cut := if events[n].fuel < |effects| then events[n].fuel else |effects|;
      i := SubmissionTies.LastSave(before, effects[..cut], key);
      if i < cut {
        assert effects[..cut][i] == effects[i];
        CallsAreEntitled(events[n].config, before, events[n].command);
        assert SavesEntitled(effects[i], events[n].command);
        return;
      }
    }
    var m, j := EveryStateWasReported(repository, events[..n], key);
    HappenedBefore(start, events, n, m, j, SaveOperation(Run(start, events).operations[key]));
    n, i := m, j;
  }

  // Submissions.

  lemma SubmitCalls(cfg: Config, w: World, c: Command, i: nat)
    requires Inv(w) && i < |ScriptOf(cfg, w, c).effects| && ScriptOf(cfg, w, c).effects[i].CallSubmit?
    ensures c.Submit? && c.key in w.operations && ScriptOf(cfg, w, c).effects[i] == CallSubmit(c.key, c.identity)
    ensures w.operations[c.key].state == Prepared && MaySubmit(cfg, w.operations[c.key], c.allowLive, c.confirmUsage)
  {
    hide ScriptOf, Inv, Refuses, Replay;
    if c.Submit? {
      OnlyPreparedCalls(cfg, w, c, i);
      SubmitSends(cfg, w, c);
    } else {
      OthersNeverCall(cfg, w, c);
    }
  }

  lemma OnlyPreparedCalls(cfg: Config, w: World, c: Command, i: nat)
    requires c.Submit? && i < |ScriptOf(cfg, w, c).effects| && ScriptOf(cfg, w, c).effects[i].CallSubmit?
    ensures c.key in w.operations && w.operations[c.key].state == Prepared && MaySubmit(cfg, w.operations[c.key], c.allowLive, c.confirmUsage)
  {
    hide ReconcileScript, Live, ResultOf, ReceiptOf, VerifyLiveScript;
    ReconcileNeverCalls(cfg, w, c.key, c.lookup);
  }

  lemma ReconcileNeverCalls(cfg: Config, w: World, key: Key, lookup: LookupReply)
    ensures forall i :: 0 <= i < |ReconcileScript(cfg, w, key, lookup).effects| ==> !ReconcileScript(cfg, w, key, lookup).effects[i].CallSubmit?
  {
    hide ReceiptMatches, Live;
  }

  lemma {:induction false} PollNeverCalls(cfg: Config, key: Key, op: Operation, log: seq<ProgressEvent>, events: seq<ProgressEvent>, status: Option<Status>)
    ensures forall i :: 0 <= i < |PollEvents(cfg, key, op, log, events, status).effects| ==>
      !PollEvents(cfg, key, op, log, events, status).effects[i].CallSubmit?
    decreases |events|
  {
    hide Appended, Sanitize;
    if events != [] {
      var event := Sanitize(cfg, events[0], op.maximumOutput);
      if Appended(log, event).Some? {
        PollNeverCalls(cfg, key, op, Appended(log, event).value, events[1..], status);
        PollNeverCalls(cfg, key, op, log, events[1..], status);
      }
    }
  }

  lemma ApplyNeverCalls(cfg: Config, w: World, c: Command)
    requires c.ApplyAndAccept?
    ensures forall i :: 0 <= i < |ScriptOf(cfg, w, c).effects| ==> !ScriptOf(cfg, w, c).effects[i].CallSubmit?
  {
    hide ApplyScript;
    var script := ApplyScript(cfg.limits(c.policy), c.task, c.policy in cfg.changePolicies, w, c.key);
    PatchTracking.ApplyEndsWell(cfg.limits(c.policy), c.task, c.policy in cfg.changePolicies, w, c.key);
    forall i | 0 <= i < |script.effects| ensures !script.effects[i].CallSubmit? {
      assert PatchTracking.PlainOrLast(script, c.key, i);
    }
  }

  lemma OthersNeverCall(cfg: Config, w: World, c: Command)
    requires !c.Submit?
    ensures forall i :: 0 <= i < |ScriptOf(cfg, w, c).effects| ==> !ScriptOf(cfg, w, c).effects[i].CallSubmit?
  {
    hide PollEvents, ApplyScript, ReconcileScript, ReceiptMatches, TotalContent;
    match c
    case Prepare(request) =>
    case Poll(key, events, status) =>
      if key in w.operations && events.Some? {
        PollNeverCalls(cfg, key, w.operations[key], LogAt(w, key), events.value, status);
      }
    case FetchResult(_, _, _, _) =>
    case ApplyAndAccept(_, _, _) => ApplyNeverCalls(cfg, w, c);
    case Cancel(_, _, _, _, _) =>
    case Reconcile(key, lookup) => ReconcileNeverCalls(cfg, w, key, lookup);
    case ReconcileCancellation(_, _) =>
  }

  /** The entry `j` of the ledger that the effects add. */
  lemma {:induction false} EntryOf(w: World, effects: seq<Effect>, j: nat) returns (i: nat)
    requires |w.submissions| <= j < |Replay(w, effects).submissions|
    ensures i < |effects| && effects[i].CallSubmit? && effects[i].key == Replay(w, effects).submissions[j]
    decreases |effects|
  {
    hide After;
    var n := |effects| - 1;
    ReplayLast(w, effects);
    OneCall(Replay(w, effects[..n]), effects[n]);
    if j < |Replay(w, effects[..n]).submissions| {
      i := EntryOf(w, effects[..n], j);
    } else {
      i := n;
    }
  }

  lemma OneCall(w: World, e: Effect)
    ensures After(w, e).submissions == if e.CallSubmit? then w.submissions + [e.key] else w.submissions
  {
  }

  lemma {:induction false} LedgerGrows(w: World, effects: seq<Effect>)
    ensures w.submissions <= Replay(w, effects).submissions
    decreases |effects|
  {
    hide After;
    if effects != [] {
      OneCall(w, effects[0]);
      LedgerGrows(After(w, effects[0]), effects[1..]);
    }
  }

  /** Event `n` submitted the operation: it was prepared, its provider enabled, and unless that was the
      deterministic one, the caller gave both consents. */
  ghost predicate SubmittedBy(start: World, events: seq<Event>, key: Key, n: nat) {
    && n < |events| && events[n].Invoke? && events[n].command.Submit? && events[n].command.key == key
    && var before, c := Run(start, events[..n]), events[n].command;
       && key in before.operations && before.operations[key].state == Prepared
       && before.operations[key].provider in events[n].config.enabled
       && (before.operations[key].provider == "deterministic" || (c.allowLive && c.confirmUsage))
  }

  /** In every run each entry of the submission ledger was made by such an event. */
  lemma {:induction false} EverySubmissionWasConsented(repository: ProviderModel.Repository, events: seq<Event>, j: nat) returns (n: nat)
    requires j < |Run(Initially(repository), events).submissions|
    ensures SubmittedBy(Initially(repository), events, Run(Initially(repository), events).submissions[j], n)
  {
    hide ScriptOf, Replay, Inv, Extends;
    var start := Initially(repository);
    n := |events| - 1;
    var before := Run(start, events[..n]);
    if events[n].Invoke? {
      var c := events[n].command;
      var effects := ScriptOf(events[n].config, before, c).effects;
      var cut := if events[n].fuel < |effects| then events[n].fuel else |effects|;
      LedgerGrows(before, effects[..cut]);
      if j >= |before.submissions| {
        var i := EntryOf(before, effects[..cut], j);
        ReachableKeepsInv(repository, events[..n]);
        SubmitCalls(events[n].config, before, c, i);
        return;
      }
    }
    var m := EverySubmissionWasConsented(repository, events[..n], j);
    assert events[..n][..m] == events[..m] && events[..n][m] == events[m];
    n := m;
  }

  // Results.

  /** What entitles a call to store this result for this operation: fetched, it fits the operation and the
      budgets of the call; or it is what a provider that stores its answers answered to a request for it. */
  predicate Checked(cfg: Config, w: World, c: Command, key: Key, r: Result) {
    || (&& c.FetchResult? && c.key == key && c.resultReply == Some(r)
        && key in w.operations && w.operations[key].state == ResultAvailable && w.operations[key].provider in cfg.enabled
        && Fits(cfg, w.operations[key], r) && WithinBudgets(r, c.tokenBudget, c.costBudget)
        && (StoresItsAnswer(w.operations[key].provider) ==> key in w.receipts && Certifies(w.receipts[key], w.operations[key], r)))
    || (&& c.Submit? && c.submitReply.SubmitAnswers? && KeyOf(c.identity) == key
        && c.key in w.operations && StoresItsAnswer(w.operations[c.key].provider) && Consented(c, w.operations[c.key].provider)
        && var a := c.submitReply.answer;
           r == Result(a.taskId, c.identity.external, c.identity.workspace, c.identity.branch, a.status, a.summary, a.operations, a.units, a.cost))
  }

  lemma FetchChecks(cfg: Config, w: World, c: Command, i: nat)
    requires c.FetchResult? && i < |ScriptOf(cfg, w, c).effects| && ScriptOf(cfg, w, c).effects[i].SaveResult?
    ensures ScriptOf(cfg, w, c).effects[i].key == c.key && Checked(cfg, w, c, c.key, ScriptOf(cfg, w, c).effects[i].result)
  {
    hide TotalContent, KeyOf;
  }

  lemma SubmitChecks(cfg: Config, w: World, c: Command, i: nat)
    requires c.Submit? && i < |ScriptOf(cfg, w, c).effects| && ScriptOf(cfg, w, c).effects[i].SaveResult?
    ensures Checked(cfg, w, c, ScriptOf(cfg, w, c).effects[i].key, ScriptOf(cfg, w, c).effects[i].result)
  {
    hide ReconcileScript, ReceiptMatches, KeyOf, Fits;
    ReconcileStoresNoResult(cfg, w, c.key, c.lookup);
  }

  lemma ReconcileStoresNoResult(cfg: Config, w: World, key: Key, lookup: LookupReply)
    ensures forall i :: 0 <= i < |ReconcileScript(cfg, w, key, lookup).effects| ==> !ReconcileScript(cfg, w, key, lookup).effects[i].SaveResult?
  {
    hide ReceiptMatches, Live;
  }

  lemma SavedResultIsChecked(cfg: Config, w: World, c: Command, i: nat)
    requires i < |ScriptOf(cfg, w, c).effects| && ScriptOf(cfg, w, c).effects[i].SaveResult?
    ensures Checked(cfg, w, c, ScriptOf(cfg, w, c).effects[i].key, ScriptOf(cfg, w, c).effects[i].result)
  {
    hide ScriptOf, Checked;
    if c.FetchResult? {
      FetchChecks(cfg, w, c, i);
    } else if c.Submit? {
      SubmitChecks(cfg, w, c, i);
    } else {
      PaidResponses.OthersAreElsewhere(cfg, w, c);
    }
  }

  /** A stored result is the last one saved under its key, or it was there before. */
  lemma {:induction false} LastResult(w: World, effects: seq<Effect>, key: Key) returns (i: nat)
    requires key in Replay(w, effects).results
    ensures i <= |effects|
    ensures i == |effects| ==> key in w.results && w.results[key] == Replay(w, effects).results[key]
    ensures i < |effects| ==> effects[i] == SaveResult(key, Replay(w, effects).results[key])
    decreases |effects|
  {
    hide After;
    i := |effects|;
    if effects != [] {
      var n := |effects| - 1;
      ReplayLast(w, effects);
      OneResult(Replay(w, effects[..n]), effects[n], key);
      if effects[n].SaveResult? && effects[n].key == key {
        i := n;
      } else {
        var j := LastResult(w, effects[..n], key);
        i := if j == n then |effects| else j;
      }
    }
  }

  lemma OneResult(w: World, e: Effect, key: Key)
    ensures Lookup(After(w, e).results, key) == if e.SaveResult? && e.key == key then Some(e.result) else Lookup(w.results, key)
  {
  }

  /** In every run each stored result was stored by a call that was entitled to it. */
  lemma {:induction false} EveryResultWasChecked(repository: ProviderModel.Repository, events: seq<Event>, key: Key) returns (n: nat, i: nat)
    requires key in Run(Initially(repository), events).results
    ensures var r := Run(Initially(repository), events).results[key];
      && Happened(Initially(repository), events, n, i, SaveResult(key, r))
      && Checked(events[n].config, Run(Initially(repository), events[..n]), events[n].command, key, r)
  {
    hide ScriptOf, Replay, Checked;
    var start := Initially(repository);
    n := |events| - 1;
    var before := Run(start, events[..n]);
    if events[n].Invoke? {
      var effects := ScriptOf(events[n].config, before, events[n].command).effects;
      var cut := if events[n].fuel < |effects| then events[n].fuel else |effects|;
      i := LastResult(before, effects[..cut], key);
      if i < cut {
        assert effects[..cut][i] == effects[i];
        SavedResultIsChecked(events[n].config, before, events[n].command, i);
        return;
      }
    }
    var m, j := EveryResultWasChecked(repository, events[..n], key);
    HappenedBefore(start, events, n, m, j, SaveResult(key, Run(start, events).results[key]));
    assert events[..n][..m] == events[..m];
    n, i := m, j;
  }

  /** Hence, where callers submit operations with their own requests, the stored result of an operation whose
      provider does not store its answers is a successful one of this very task, workspace and branch, with
      no more content than was approved. */
  lemma StoredResultsFit(repository: ProviderModel.Repository, events: seq<Event>, key: Key)
    requires forall i :: 0 <= i < |events| && events[i].Invoke? && events[i].command.Submit? ==>
      KeyOf(events[i].command.identity) == events[i].command.key
    requires var w := Run(Initially(repository), events);
      key in w.results && key in w.operations && !StoresItsAnswer(w.operations[key].provider)
    ensures var w := Run(Initially(repository), events);
      var op, r := w.operations[key], w.results[key];
      && r.external == op.identity.external && r.workspace == op.identity.workspace && r.branch == op.identity.branch
      && r.status == Succeeded && TotalContent(r.operations) <= op.maximumOutput
  {
    hide Run, ScriptOf, TotalContent, Inv, StoresItsAnswer, Certifies, WithinBudgets;
    var n, i := EveryResultWasChecked(repository, events, key);
    EveryRun(repository, events, n);
  }

  // Cancellations.

  /** What entitles a call to save a cancellation in this state. */
  predicate EntitledCancellation(c: Command, state: CancellationState) {
    match state
    case CancellationPrepared => c.Cancel?
    case CancellationInProgress => c.Cancel?
    case CancellationConfirmed => SettlesAs(c, WasCancelled)
    case CancellationUncertain => c.Cancel? && c.cancelRaises
    case CancellationNeedsReconciliation =>
      ((c.Cancel? && !c.cancelRaises) || c.ReconcileCancellation?) && c.status != Some(WasCancelled) && c.status != Some(Succeeded)
  }

  lemma CancellationIsEntitled(cfg: Config, w: World, c: Command, i: nat)
    requires i < |ScriptOf(cfg, w, c).effects| && ScriptOf(cfg, w, c).effects[i].SaveCancellation?
    ensures EntitledCancellation(c, ScriptOf(cfg, w, c).effects[i].cancellation.state)
  {
    if !c.Cancel? && !c.ReconcileCancellation? {
      hide ScriptOf;
      OthersCancelNothing(cfg, w, c);
    }
  }

  lemma {:induction false} PollCancelsNothing(cfg: Config, key: Key, op: Operation, log: seq<ProgressEvent>, events: seq<ProgressEvent>, status: Option<Status>)
    ensures forall i :: 0 <= i < |PollEvents(cfg, key, op, log, events, status).effects| ==>
      !PollEvents(cfg, key, op, log, events, status).effects[i].SaveCancellation?
    decreases |events|
  {
    hide Appended, Sanitize;
    if events != [] {
      var event := Sanitize(cfg, events[0], op.maximumOutput);
      if Appended(log, event).Some? {
        PollCancelsNothing(cfg, key, op, Appended(log, event).value, events[1..], status);
        PollCancelsNothing(cfg, key, op, log, events[1..], status);
      }
    }
  }

  lemma ApplyCancelsNothing(cfg: Config, w: World, c: Command)
    requires c.ApplyAndAccept?
    ensures forall i :: 0 <= i < |ScriptOf(cfg, w, c).effects| ==> !ScriptOf(cfg, w, c).effects[i].SaveCancellation?
  {
    hide ApplyScript;
    var script := ApplyScript(cfg.limits(c.policy), c.task, c.policy in cfg.changePolicies, w, c.key);
    PatchTracking.ApplyEndsWell(cfg.limits(c.policy), c.task, c.policy in cfg.changePolicies, w, c.key);
    forall i | 0 <= i < |script.effects| ensures !script.effects[i].SaveCancellation? {
      assert PatchTracking.PlainOrLast(script, c.key, i);
    }
  }

  lemma OthersCancelNothing(cfg: Config, w: World, c: Command)
    requires !c.Cancel? && !c.ReconcileCancellation?
    ensures forall i :: 0 <= i < |ScriptOf(cfg, w, c).effects| ==> !ScriptOf(cfg, w, c).effects[i].SaveCancellation?
  {
    hide PollEvents, ApplyScript, ReceiptMatches, TotalContent, Live, ResultOf, ReceiptOf;
    match c
    case Prepare(request) =>
    case Submit(_, _, _, _, _, _) =>
    case Poll(key, events, status) =>
      if key in w.operations && events.Some? {
        PollCancelsNothing(cfg, key, w.operations[key], LogAt(w, key), events.value, status);
      }
    case FetchResult(_, _, _, _) =>
    case ApplyAndAccept(_, _, _) => ApplyCancelsNothing(cfg, w, c);
    case Reconcile(key, lookup) =>
  }

  lemma {:induction false} LastCancellation(w: World, effects: seq<Effect>, key: Key) returns (i: nat)
    requires key in Replay(w, effects).cancellations
    ensures i <= |effects|
    ensures i == |effects| ==> key in w.cancellations && w.cancellations[key] == Replay(w, effects).cancellations[key]
    ensures i < |effects| ==> effects[i] == SaveCancellation(key, Replay(w, effects).cancellations[key])
    decreases |effects|
  {
    hide After;
    i := |effects|;
    if effects != [] {
      var n := |effects| - 1;
      ReplayLast(w, effects);
      OneCancellation(Replay(w, effects[..n]), effects[n], key);
      if effects[n].SaveCancellation? && effects[n].key == key {
        i := n;
      } else {
        var j := LastCancellation(w, effects[..n], key);
        i := if j == n then |effects| else j;
      }
    }
  }

  lemma OneCancellation(w: World, e: Effect, key: Key)
    ensures Lookup(After(w, e).cancellations, key) ==
            if e.SaveCancellation? && e.key == key then Some(e.cancellation) else Lookup(w.cancellations, key)
  {
  }

  /** In every run each cancellation was saved by a call entitled to its state: it is confirmed only if the
      provider reported the task cancelled, and uncertain only if asking it raised. */
  lemma {:induction false} EveryCancellationWasReported(repository: ProviderModel.Repository, events: seq<Event>, key: Key) returns (n: nat, i: nat)
    requires key in Run(Initially(repository), events).cancellations
    ensures var c := Run(Initially(repository), events).cancellations[key];
      && Happened(Initially(repository), events, n, i, SaveCancellation(key, c))
      && EntitledCancellation(events[n].command, c.state)
  {
    hide ScriptOf, Replay, EntitledCancellation;
    var start := Initially(repository);
    n := |events| - 1;
    var before := Run(start, events[..n]);
    if events[n].Invoke? {
      var effects := ScriptOf(events[n].config, before, events[n].command).effects;
      var cut := if events[n].fuel < |effects| then events[n].fuel else |effects|;
      i := LastCancellation(before, effects[..cut], key);
      if i < cut {
        assert effects[..cut][i] == effects[i];
        CancellationIsEntitled(events[n].config, before, events[n].command, i);
        return;
      }
    }
    var m, j := EveryCancellationWasReported(repository, events[..n], key);
    HappenedBefore(start, events, n, m, j, SaveCancellation(key, Run(start, events).cancellations[key]));
    n, i := m, j;
  }
}
