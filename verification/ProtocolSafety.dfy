/** Safety of the coding-provider protocol over every run: any calls with any replies, in any order,
    with the process dying between any two atomic effects and anyone changing the workspace. */
module ProtocolSafety {
  import opened Wrappers
  import opened ProviderModel
  import opened Patching
  import opened PatchScripts
  import opened ProtocolScripts

  /** Sequence numbers are exactly 1..n, all for this operation. */
  predicate Numbered(log: seq<ProgressEvent>, operation: string) {
    forall i :: 0 <= i < |log| ==> log[i].sequence == i + 1 && log[i].operation == operation
  }

  ghost predicate PatchOk(p: PatchEffect) {
    && p.expected == PathList(p.operations)
    && p.operations == p.result.operations
    && (p.state == PatchPrepared ==> p.completed == [])
    && (p.manifest.Some? ==> p.completed == p.expected)
  }

  /** A record is stored under its own identity. */
  ghost predicate KeysOk(operations: map<Key, Operation>) {
    forall key :: key in operations ==> KeyOf(operations[key].identity) == key
  }

  /** At most one submission per operation, and none while it is only prepared. */
  ghost predicate SubmittedOnce(operations: map<Key, Operation>, submissions: seq<Key>) {
    && (forall i, j :: 0 <= i < j < |submissions| ==> submissions[i] != submissions[j])
    && (forall key :: key in submissions ==> key in operations && operations[key].state != Prepared)
  }

  ghost predicate ProgressOk(progress: map<Key, seq<ProgressEvent>>) {
    forall key :: key in progress ==> Numbered(progress[key], key.operation)
  }

  ghost predicate PatchesOk(patches: map<Key, PatchEffect>) {
    forall key :: key in patches ==> PatchOk(patches[key])
  }

  /** In one project no two operations hold an accepted patch for the same result. */
  ghost predicate SingleAcceptance(patches: map<Key, PatchEffect>) {
    forall key, other :: key in patches && other in patches && key != other && key.project == other.project
      && patches[key].state == Accepted && patches[other].state == Accepted
      ==> patches[key].result != patches[other].result
  }

  ghost predicate AcceptedHavePatches(operations: map<Key, Operation>, patches: map<Key, PatchEffect>) {
    forall key :: key in operations && operations[key].state == ResultAccepted
      ==> key in patches && patches[key].state == Accepted
  }

  /** What every reachable world satisfies. */
  ghost predicate Inv(w: World) {
    && KeysOk(w.operations) && SubmittedOnce(w.operations, w.submissions) && ProgressOk(w.progress)
    && PatchesOk(w.patches) && SingleAcceptance(w.patches) && AcceptedHavePatches(w.operations, w.patches)
  }

  /** What no step ever undoes. */
  ghost predicate Extends(w: World, w': World) {
    && (forall key :: key in w.operations ==>
          && key in w'.operations
          && w'.operations[key].identity == w.operations[key].identity
          && w'.operations[key].provider == w.operations[key].provider
          && w'.operations[key].maximumOutput == w.operations[key].maximumOutput)
    && (forall key :: key in w.progress ==> key in w'.progress && w.progress[key] <= w'.progress[key])
    && w.submissions <= w'.submissions
  }

  /** The condition under which an effect keeps the invariant. */
  ghost predicate Safe(w: World, e: Effect) {
    match e
    case SaveOperation(op) =>
      var key := KeyOf(op.identity);
      && (key in w.operations ==>
            && op.identity == w.operations[key].identity && op.provider == w.operations[key].provider
            && op.maximumOutput == w.operations[key].maximumOutput && op.state != Prepared)
      && (key !in w.operations ==> op.state == Prepared)
      && (op.state == ResultAccepted ==> key in w.patches && w.patches[key].state == Accepted)
    case CallSubmit(key, _) =>
      key in w.operations && w.operations[key].state == SubmissionInProgress && key !in w.submissions
    case SavePatch(key, p) =>
      && PatchOk(p)
      && key in w.operations && w.operations[key].state != ResultAccepted
      && (p.state == Accepted ==> !AcceptedElsewhere(w, key, p.result))
    case SaveProgress(key, log) =>
      Numbered(log, key.operation) && LogAt(w, key) <= log
    case _ => true
  }

  lemma SafeKeepsInv(w: World, e: Effect)
    requires Inv(w) && Safe(w, e)
    ensures Inv(After(w, e)) && Extends(w, After(w, e))
  {
    if e.SavePatch? {
      SafePatch(w, e);
    } else if e.SaveOperation? {
      SafeOperation(w, e);
    } else {
      SafeOther(w, e);
    }
  }

  lemma SafeOperation(w: World, e: Effect)
    requires Inv(w) && e.SaveOperation? && Safe(w, e)
    ensures Inv(After(w, e)) && Extends(w, After(w, e))
  {
    hide SingleAcceptance, PatchesOk, ProgressOk;
  }

  lemma SafeOther(w: World, e: Effect)
    requires Inv(w) && !e.SaveOperation? && !e.SavePatch? && Safe(w, e)
    ensures Inv(After(w, e)) && Extends(w, After(w, e))
  {
    hide SingleAcceptance, PatchesOk, AcceptedHavePatches, KeysOk, Numbered;
  }

  lemma SafePatch(w: World, e: Effect)
    requires Inv(w) && e.SavePatch? && Safe(w, e)
    ensures Inv(After(w, e)) && Extends(w, After(w, e))
  {
    hide PatchOk, ProgressOk, KeysOk, SubmittedOnce;
    var patches := w.patches[e.key := e.patch];
    forall key, other | key in patches && other in patches && key != other && key.project == other.project
      && patches[key].state == Accepted && patches[other].state == Accepted
      ensures patches[key].result != patches[other].result
    {
      assert key == e.key || key in w.patches;
      assert other == e.key || other in w.patches;
    }
  }

  lemma ExtendsTransitive(a: World, b: World, c: World)
    requires Extends(a, b) && Extends(b, c)
    ensures Extends(a, c)
  {
  }

  ghost predicate AllSafe(w: World, effects: seq<Effect>)
    decreases |effects|
  {
    effects == [] || (Safe(w, effects[0]) && AllSafe(After(w, effects[0]), effects[1..]))
  }

  /** However far a safe sequence gets, the invariant holds and nothing was undone. */
  lemma {:induction false} PrefixKeepsInv(w: World, effects: seq<Effect>, cut: nat)
    requires Inv(w) && AllSafe(w, effects) && cut <= |effects|
    ensures Inv(Replay(w, effects[..cut])) && Extends(w, Replay(w, effects[..cut]))
    decreases |effects|
  {
    if cut == 0 {
      assert effects[..0] == [];
    } else {
      SafeKeepsInv(w, effects[0]);
      var next := After(w, effects[0]);
      PrefixKeepsInv(next, effects[1..], cut - 1);
      assert effects[..cut][1..] == effects[1..][..cut - 1];
      ExtendsTransitive(w, next, Replay(next, effects[1..][..cut - 1]));
    }
  }

  lemma {:induction false} AllSafeConcat(w: World, a: seq<Effect>, b: seq<Effect>)
    ensures AllSafe(w, a + b) <==> AllSafe(w, a) && AllSafe(Replay(w, a), b)
    decreases |a|
  {
    if a == [] {
      assert a + b == b;
    } else {
      assert (a + b)[1..] == a[1..] + b;
      AllSafeConcat(After(w, a[0]), a[1..], b);
    }
  }

  lemma OneSafe(w: World, e: Effect)
    ensures AllSafe(w, [e]) <==> Safe(w, e)
    ensures Replay(w, [e]) == After(w, e)
  {
    assert [e][1..] == [];
  }

  lemma TwoSafe(w: World, a: Effect, b: Effect)
    ensures AllSafe(w, [a, b]) <==> Safe(w, a) && Safe(After(w, a), b)
    ensures Replay(w, [a, b]) == After(After(w, a), b)
  {
    OneSafe(After(w, a), b);
    assert [a, b][1..] == [b];
  }

  lemma AppendedIsNumbered(log: seq<ProgressEvent>, event: ProgressEvent, operation: string)
    requires Numbered(log, operation) && event.operation == operation && Appended(log, event).Some?
    ensures Numbered(Appended(log, event).value, operation) && log <= Appended(log, event).value
  {
    hide FindSequence;
  }

  lemma SavedLog(w: World, key: Key, log: seq<ProgressEvent>, longer: seq<ProgressEvent>)
    requires LogAt(w, key) == log && Numbered(longer, key.operation) && log <= longer
    ensures Safe(w, SaveProgress(key, longer))
    ensures LogAt(After(w, SaveProgress(key, longer)), key) == longer
    ensures After(w, SaveProgress(key, longer)).operations == w.operations
  {
  }

  lemma {:induction false} PollIsSafe(cfg: Config, w: World, key: Key, op: Operation, log: seq<ProgressEvent>, events: seq<ProgressEvent>, status: Option<Status>)
    requires key in w.operations && w.operations[key] == op && KeyOf(op.identity) == key
    requires LogAt(w, key) == log && Numbered(log, key.operation)
    ensures AllSafe(w, PollEvents(cfg, key, op, log, events, status).effects)
    decreases |events|
  {
    hide Appended, Numbered, LogAt, Safe, Sanitize;
    var script := PollEvents(cfg, key, op, log, events, status);
    if events == [] {
      if status.Some? {
        ResavedPoll(w, key, op, op.(state := StateAfterPoll(status.value), cursor := |log|));
      }
    } else if events[0].operation != key.operation {
      ResavedPoll(w, key, op, op.(state := NeedsReconciliation));
    } else {
      var event := Sanitize(cfg, events[0], op.maximumOutput);
      if cfg.eventSize(event) > op.maximumOutput {
        ResavedPoll(w, key, op, op.(state := NeedsReconciliation));
      } else if Appended(log, event).Some? {
        var longer := Appended(log, event).value;
        assert event.operation == key.operation by { SanitizedKeeps(cfg, events[0], op.maximumOutput); }
        AppendedIsNumbered(log, event, key.operation);
        if longer == log {
          PollIsSafe(cfg, w, key, op, log, events[1..], status);
        } else {
          var save := SaveProgress(key, longer);
          var rest := PollEvents(cfg, key, op, longer, events[1..], status).effects;
          SavedLog(w, key, log, longer);
          PollIsSafe(cfg, After(w, save), key, op, longer, events[1..], status);
          assert ([save] + rest)[1..] == rest;
        }
      }
    }
  }

  lemma SanitizedKeeps(cfg: Config, event: ProgressEvent, maximum: nat)
    ensures Sanitize(cfg, event, maximum).operation == event.operation
    ensures Sanitize(cfg, event, maximum).sequence == event.sequence
  {
  }

  lemma ResavedPoll(w: World, key: Key, op: Operation, updated: Operation)
    requires key in w.operations && w.operations[key] == op && KeyOf(op.identity) == key
    requires updated.identity == op.identity && updated.provider == op.provider && updated.maximumOutput == op.maximumOutput
    requires updated.state != Prepared && updated.state != ResultAccepted
    ensures AllSafe(w, [SaveOperation(updated)])
  {
    OneSafe(w, SaveOperation(updated));
  }

  /** Saving a changed state of a stored operation that no patch depends on. */
  lemma ResaveIsSafe(w: World, key: Key, op: Operation)
    requires Inv(w) && key in w.operations
    requires op.identity == w.operations[key].identity && op.provider == w.operations[key].provider
    requires op.maximumOutput == w.operations[key].maximumOutput
    requires op.state != Prepared && op.state != ResultAccepted
    ensures Safe(w, SaveOperation(op)) && AllSafe(w, [SaveOperation(op)])
  {
    OneSafe(w, SaveOperation(op));
  }

  lemma LookupIsSafe(w: World, key: Key, op: Operation, lookup: LookupReply, taskId: string)
    requires Inv(w) && key in w.operations
    requires op.identity == w.operations[key].identity && op.provider == w.operations[key].provider
    requires op.maximumOutput == w.operations[key].maximumOutput
    ensures AllSafe(w, LookupScript(op, lookup, taskId).effects)
  {
    hide Inv, Safe;
    ResaveIsSafe(w, key, op.(state := NeedsReconciliation));
    ResaveIsSafe(w, key, op.(taskId := Some(taskId), state := Submitted));
  }

  lemma PrepareIsSafe(cfg: Config, w: World, a: PrepareRequest)
    requires Inv(w)
    ensures AllSafe(w, PrepareScript(cfg, w, a).effects)
  {
    var script := PrepareScript(cfg, w, a);
    if script.effects != [] {
      OneSafe(w, script.effects[0]);
    }
  }

  lemma ReconcileIsSafe(cfg: Config, w: World, key: Key, lookup: LookupReply)
    requires Inv(w)
    ensures AllSafe(w, ReconcileScript(cfg, w, key, lookup).effects)
  {
    hide Inv, Safe, ReceiptMatches, LookupScript, Live;
    if key in w.operations {
      var op := w.operations[key];
      ResaveIsSafe(w, key, op.(state := NeedsReconciliation));
      if key in w.receipts {
        ResaveIsSafe(w, key, op.(taskId := Some(w.receipts[key].taskId), resultReference := Some(key.operation), state := ResultAvailable));
      }
      if lookup.matches.Some? && |lookup.matches.value| == 1 {
        LookupIsSafe(w, key, op, lookup, lookup.matches.value[0]);
      }
    }
  }

  lemma StoredKeepsInv(w: World, request: Identity, provider: string, answer: Answer)
    requires Inv(w)
    ensures Inv(Stored(w, request, provider, answer))
    ensures var effects := [SaveResult(KeyOf(request), ResultOf(request, answer)), SaveReceipt(ReceiptOf(request, provider, answer))];
      AllSafe(w, effects) && Replay(w, effects) == Stored(w, request, provider, answer)
  {
    TwoSafe(w, SaveResult(KeyOf(request), ResultOf(request, answer)), SaveReceipt(ReceiptOf(request, provider, answer)));
  }

  lemma VerifyLiveIsSafe(w: World, w': World, key: Key, op: Operation, taskId: string)
    requires Inv(w) && key in w.operations
    requires op.identity == w.operations[key].identity && op.provider == w.operations[key].provider
    requires op.maximumOutput == w.operations[key].maximumOutput
    ensures AllSafe(w, VerifyLiveScript(w', key, op, taskId).effects)
  {
    ResaveIsSafe(w, key, op.(state := NeedsReconciliation));
    ResaveIsSafe(w, key, op.(taskId := Some(taskId), state := Submitted));
  }

  /** The world right after the submission left the process. */
  function Left(w: World, key: Key): World
    requires key in w.operations
  {
    w.(operations := w.operations[KeyOf(w.operations[key].identity) := w.operations[key].(state := SubmissionInProgress)],
       submissions := w.submissions + [key])
  }

  lemma LeavingIsSafe(w: World, key: Key, request: Identity)
    requires Inv(w) && key in w.operations && w.operations[key].state == Prepared
    ensures var effects := [SaveOperation(w.operations[key].(state := SubmissionInProgress)), CallSubmit(key, request)];
      AllSafe(w, effects) && Replay(w, effects) == Left(w, key) && Inv(Left(w, key))
      && key in Left(w, key).operations
      && Left(w, key).operations[key] == w.operations[key].(state := SubmissionInProgress)
  {
    var save := SaveOperation(w.operations[key].(state := SubmissionInProgress));
    TwoSafe(w, save, CallSubmit(key, request));
    SafeKeepsInv(w, save);
    SafeKeepsInv(After(w, save), CallSubmit(key, request));
  }

  lemma SubmitIsSafe(cfg: Config, w: World, key: Key, request: Identity, allowLive: bool, confirmUsage: bool, reply: SubmitReply, lookup: LookupReply)
    requires Inv(w)
    ensures AllSafe(w, SubmitScript(cfg, w, key, request, allowLive, confirmUsage, reply, lookup).effects)
  {
    hide Inv, Safe, ReconcileScript;
    if key in w.operations {
      var op := w.operations[key];
      if op.state != Prepared {
        ReconcileIsSafe(cfg, w, key, lookup);
      } else {
        SubmitPreparedIsSafe(cfg, w, key, request, allowLive, confirmUsage, reply, lookup);
      }
    }
  }

  /** A live answer is stored and verified. */
  lemma SinkIsSafe(w: World, w1: World, key: Key, op: Operation, request: Identity, answer: Answer)
    requires Inv(w1) && key in w1.operations
    requires op.identity == w1.operations[key].identity && op.provider == w1.operations[key].provider
    requires op.maximumOutput == w1.operations[key].maximumOutput
    ensures var second := [SaveResult(KeyOf(request), ResultOf(request, answer)), SaveReceipt(ReceiptOf(request, op.provider, answer))];
      AllSafe(w1, second + VerifyLiveScript(Stored(w, request, op.provider, answer), key, op, answer.taskId).effects)
  {
    hide Inv, Safe, VerifyLiveScript, ResultOf, ReceiptOf, KeyOf, AllSafe;
    var second := [SaveResult(KeyOf(request), ResultOf(request, answer)), SaveReceipt(ReceiptOf(request, op.provider, answer))];
    var third := VerifyLiveScript(Stored(w, request, op.provider, answer), key, op, answer.taskId).effects;
    StoredKeepsInv(w1, request, op.provider, answer);
    VerifyLiveIsSafe(Stored(w1, request, op.provider, answer), Stored(w, request, op.provider, answer), key, op, answer.taskId);
    AllSafeConcat(w1, second, third);
  }

  lemma SubmitPreparedIsSafe(cfg: Config, w: World, key: Key, request: Identity, allowLive: bool, confirmUsage: bool, reply: SubmitReply, lookup: LookupReply)
    requires Inv(w) && key in w.operations && w.operations[key].state == Prepared
    ensures AllSafe(w, SubmitScript(cfg, w, key, request, allowLive, confirmUsage, reply, lookup).effects)
  {
    hide Inv, Safe, VerifyLiveScript, LookupScript, ResultOf, ReceiptOf, ReconcileScript, AllSafe, KeyOf, Stored;
    var op := w.operations[key];
    var script := SubmitScript(cfg, w, key, request, allowLive, confirmUsage, reply, lookup);
    var inProgress := op.(state := SubmissionInProgress);
    var first := [SaveOperation(inProgress), CallSubmit(key, request)];
    NothingIsSafe(w);
    if script.effects != [] {
      LeavingIsSafe(w, key, request);
      var w1 := Left(w, key);
      NothingIsSafe(w1);
      var rest := script.effects[2..];
      assert script.effects == first + rest;
      AllSafeConcat(w, first, rest);
      ResaveIsSafe(w1, key, inProgress.(state := Uncertain));
      ResaveIsSafe(w1, key, inProgress.(state := NeedsReconciliation));
      if reply.SubmitAnswers? {
        LookupIsSafe(w1, key, inProgress, lookup, reply.answer.taskId);
        SinkIsSafe(w, w1, key, inProgress, request, reply.answer);
      }
    }
  }

  /** Effects the invariant does not look at. */
  predicate Harmless(e: Effect) {
    e.SaveResult? || e.SaveReceipt? || e.SaveCancellation? || e.CallCancel? || e.WriteStage? || e.ReplaceFile? || e.RemoveFile?
  }

  lemma HarmlessIsSafe(w: World, e: Effect)
    requires Inv(w) && Harmless(e)
    ensures Safe(w, e) && Inv(After(w, e)) && After(w, e).operations == w.operations && After(w, e).patches == w.patches
  {
    SafeKeepsInv(w, e);
  }

  lemma ResultIsSafe(cfg: Config, w: World, key: Key, tokens: Option<nat>, cost: Option<real>, reply: Option<Result>)
    requires Inv(w)
    ensures AllSafe(w, ResultScript(cfg, w, key, tokens, cost, reply).effects)
  {
    hide TotalContent, Inv, Safe, After;
    var script := ResultScript(cfg, w, key, tokens, cost, reply);
    if key in w.operations {
      ResaveIsSafe(w, key, w.operations[key].(state := NeedsReconciliation));
      if |script.effects| == 3 {
        var a, b, c := script.effects[0], script.effects[1], script.effects[2];
        HarmlessIsSafe(w, a);
        HarmlessIsSafe(After(w, a), b);
        TwoSafe(w, a, b);
        ResaveIsSafe(After(After(w, a), b), key, w.operations[key].(resultReference := Some(key.operation)));
        assert script.effects == [a, b] + [c];
        AllSafeConcat(w, [a, b], [c]);
      }
    }
  }

  lemma CancellationIsSafe(w: World, key: Key, op: Operation, c: Cancellation, status: Option<Status>)
    requires Inv(w) && key in w.operations
    requires op.identity == w.operations[key].identity && op.provider == w.operations[key].provider
    requires op.maximumOutput == w.operations[key].maximumOutput
    ensures AllSafe(w, CancellationScript(key, op, c, status).effects)
  {
    var script := CancellationScript(key, op, c, status);
    if |script.effects| == 1 {
      OneSafe(w, script.effects[0]);
    } else {
      TwoSafe(w, script.effects[0], script.effects[1]);
    }
  }

  /** The world in which the provider is asked to cancel. */
  lemma AnnouncingIsSafe(w: World, key: Key, c: Cancellation, requested: Operation, inProgress: Cancellation)
    requires Inv(w) && key in w.operations && KeyOf(w.operations[key].identity) == key
    requires requested == w.operations[key].(state := CancellationRequested)
    ensures var effects := [SaveCancellation(key, c), SaveOperation(requested)] + [SaveCancellation(key, inProgress), CallCancel(key)];
      var w' := Replay(w, effects);
      && AllSafe(w, effects) && Inv(w') && key in w'.operations && w'.operations[key] == requested
  {
    hide Inv, Safe, After, KeyOf;
    var a, b := SaveCancellation(key, c), SaveOperation(requested);
    var d, e := SaveCancellation(key, inProgress), CallCancel(key);
    var w1 := After(w, a);
    HarmlessIsSafe(w, a);
    ResaveIsSafe(w1, key, requested);
    SafeKeepsInv(w1, b);
    AfterSave(w1, requested);
    var w2 := After(w1, b);
    HarmlessIsSafe(w2, d);
    HarmlessIsSafe(After(w2, d), e);
    TwoSafe(w, a, b);
    TwoSafe(w2, d, e);
    AllSafeConcat(w, [a, b], [d, e]);
    ReplayConcat(w, [a, b], [d, e]);
  }

  lemma CancelIsSafe(cfg: Config, w: World, key: Key, actor: string, reason: string, raises: bool, status: Option<Status>)
    requires Inv(w)
    ensures AllSafe(w, CancelScript(cfg, w, key, actor, reason, raises, status).effects)
  {
    hide CancellationScript, Inv, Safe, After, AllSafe, KeyOf;
    var script := CancelScript(cfg, w, key, actor, reason, raises, status);
    if script.effects == [] {
      NothingIsSafe(w);
    } else {
      var op := w.operations[key];
      var requested := op.(state := CancellationRequested);
      var c := Cancellation(op.provider, op.taskId, actor, reason, CancellationPrepared);
      var inProgress := c.(state := CancellationInProgress);
      var first := [SaveCancellation(key, c), SaveOperation(requested)] + [SaveCancellation(key, inProgress), CallCancel(key)];
      var rest := script.effects[4..];
      assert script.effects == first + rest;
      StoredUnderOwnKey(w, key);
      AnnouncingIsSafe(w, key, c, requested, inProgress);
      AllSafeConcat(w, first, rest);
      var w' := Replay(w, first);
      if raises {
        HarmlessIsSafe(w', rest[0]);
        OneSafe(w', rest[0]);
      } else {
        CancellationIsSafe(w', key, requested, inProgress, status);
      }
    }
  }

  lemma NothingIsSafe(w: World)
    ensures AllSafe(w, [])
  {
  }

  lemma AfterSave(w: World, op: Operation)
    ensures After(w, SaveOperation(op)) == w.(operations := w.operations[KeyOf(op.identity) := op])
  {
  }

  lemma StoredUnderOwnKey(w: World, key: Key)
    requires Inv(w) && key in w.operations
    ensures KeyOf(w.operations[key].identity) == key
  {
  }
}
