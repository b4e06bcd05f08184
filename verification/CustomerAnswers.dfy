/** What each call of the three customer services answers, as conditions on the stored records, the
    confirmations and the replies of the environment. */
module CustomerAnswers {
  import opened Wrappers
  import opened ApprovalRecords
  import opened CustomerDesk
  import opened CustomerSafety
  import opened CustomerRuns

  /** The call raises, having changed nothing. */
  ghost predicate Refuses(rules: Rules, w: Desk, c: Command, error: Error) {
    TrailOf(rules, w, c) == Trail([w], Raised(error))
  }

  /** The call returns this, having changed nothing. */
  ghost predicate Returns(rules: Rules, w: Desk, c: Command, outcome: Outcome) {
    TrailOf(rules, w, c) == Trail([w], outcome)
  }

  /** The call stores the plan in one step and returns it. */
  ghost predicate StoresPlan(rules: Rules, w: Desk, c: Command, plan: Plan) {
    TrailOf(rules, w, c) == Trail([w, w.(plans := w.plans[c.id := plan])], PlanReturned(plan))
  }

  ghost predicate StoresDelivery(rules: Rules, w: Desk, c: Command, delivery: Delivery) {
    TrailOf(rules, w, c) == Trail([w, w.(deliveries := w.deliveries[c.id := delivery])], DeliveryReturned(delivery))
  }

  ghost predicate StoresAcceptance(rules: Rules, w: Desk, c: Command, acceptance: Acceptance) {
    TrailOf(rules, w, c) == Trail([w, w.(acceptances := w.acceptances[c.id := acceptance])], AcceptanceReturned(acceptance))
  }

  // Execution.

  /** A plan can be made of this scope: one to a hundred tasks, no task and no requirement twice, and valid. */
  predicate Plannable(rules: Rules, scope: PlanScope) {
    && 1 <= |scope.tasks| <= 100 && rules.validPlan(scope)
    && (forall i, j :: 0 <= i < j < |scope.tasks| ==> scope.tasks[i].id != scope.tasks[j].id)
    && (forall i, j :: 0 <= i < j < |scope.tasks| ==> scope.tasks[i].requirement != scope.tasks[j].requirement)
  }

  /** `plan`: writes once; the same scope again yields the stored plan, another one a conflict. */
  lemma PlanAnswers(rules: Rules, w: Desk, c: Command)
    requires c.MakePlan?
    ensures !rules.configured ==> Refuses(rules, w, c, NotConfigured)
    ensures rules.configured && c.planScope.None? ==> Refuses(rules, w, c, PolicyViolation)
    ensures rules.configured && c.planScope.Some? && !Plannable(rules, c.planScope.value) ==> Refuses(rules, w, c, InvalidValue)
    ensures rules.configured && c.planScope.Some? && Plannable(rules, c.planScope.value) ==>
      var scope := c.planScope.value.(request := c.id);
      if c.id !in w.plans then
        StoresPlan(rules, w, c, Plan(scope, Header(c.now, c.now, Awaiting, None, None, None), seq(|scope.tasks|, _ => Task(Pending, None, None))))
      else if w.plans[c.id].scope == scope then Returns(rules, w, c, PlanReturned(w.plans[c.id]))
      else Refuses(rules, w, c, ConflictError)
  {
    hide ApprovePlanTrail, ExecuteTrail, PrepareDeliveryTrail, ApproveDeliveryTrail, DeliverTrail, PrepareAcceptanceTrail,
      ApproveAcceptanceTrail, RunTrail;
    if c.planScope.Some? {
      var tasks := c.planScope.value.tasks;
      assert NewTasks(|tasks|) == seq(|tasks|, _ => Task(Pending, None, None));
      assert Plannable(rules, c.planScope.value) <==> ValidTasks(tasks) && rules.validPlan(c.planScope.value);
    }
  }

  /** `approve`: a waiting plan with exactly this scope, while authority and workspace are still what it names. */
  lemma ApprovePlanAnswers(rules: Rules, w: Desk, c: Command)
    requires c.ApprovePlan? && (c.id in w.plans ==> Constructible(w.plans[c.id].header))
    ensures !rules.configured ==> Refuses(rules, w, c, NotConfigured)
    ensures rules.configured && c.id !in w.plans ==> Refuses(rules, w, c, NoRecord)
    ensures rules.configured && c.id in w.plans ==>
      var plan := w.plans[c.id];
      var h := plan.header;
      && (h.status == Approved && plan.scope == c.expectedPlan ==> Returns(rules, w, c, PlanReturned(plan)))
      && (h.status == Awaiting && plan.scope == c.expectedPlan && c.current ==>
            if c.now < h.created then Refuses(rules, w, c, InvalidValue)
            else StoresPlan(rules, w, c, plan.(header := Header(h.created, c.now, Approved, Some(c.now), Some(c.id.customer), None))))
      && ((h.status != Awaiting && h.status != Approved) || plan.scope != c.expectedPlan || (h.status == Awaiting && !c.current) ==>
            Refuses(rules, w, c, ConflictError))
  {
    hide PlanTrail, ExecuteTrail, PrepareDeliveryTrail, ApproveDeliveryTrail, DeliverTrail, PrepareAcceptanceTrail,
      ApproveAcceptanceTrail, RunTrail;
  }

  /** Task `i` is the first that has not been started. */
  predicate NextTask(plan: Plan, i: nat) {
    && i < |plan.tasks| && i < |plan.scope.tasks| && plan.tasks[i].status == Pending
    && forall j :: 0 <= j < i ==> plan.tasks[j].status != Pending
  }

  lemma {:induction false} FirstPendingIs(tasks: seq<Task>, i: nat)
    requires i < |tasks|
    ensures FirstPending(tasks) == Some(i) <==> tasks[i].status == Pending && forall j :: 0 <= j < i ==> tasks[j].status != Pending
  {
    if i > 0 {
      FirstPendingIs(tasks[1..], i - 1);
      assert forall j :: 0 < j < i ==> tasks[j] == tasks[1..][j - 1];
      assert forall j :: 0 <= j < i - 1 ==> tasks[1..][j] == tasks[j + 1];
    }
  }

  lemma {:induction false} PendingIsFound(tasks: seq<Task>)
    ensures FirstPending(tasks).None? ==> forall j :: 0 <= j < |tasks| ==> tasks[j].status != Pending
    ensures FirstPending(tasks).Some? ==> FirstPending(tasks).value < |tasks|
  {
    if tasks != [] {
      PendingIsFound(tasks[1..]);
      assert forall j :: 0 < j < |tasks| ==> tasks[j] == tasks[1..][j - 1];
    }
  }

  /** The records' own construction: a usable header, and a state for each task of the scope. */
  predicate PlanMade(w: Desk, id: Request) {
    id in w.plans ==> Constructible(w.plans[id].header) && |w.plans[id].tasks| == |w.plans[id].scope.tasks|
  }

  /** The call may start the coding turn of task `i`. */
  predicate MayExecute(rules: Rules, w: Desk, c: Command, i: nat) {
    && c.ExecuteNext? && rules.configured && rules.live && c.confirmScope && c.confirmUsage
    && c.id in w.plans && w.plans[c.id].header.status == Approved && w.plans[c.id].scope == c.expectedPlan && c.current
    && NextTask(w.plans[c.id], i) && w.plans[c.id].header.created <= c.now
  }

  lemma ExecuteRefuses(rules: Rules, w: Desk, c: Command)
    requires c.ExecuteNext? && PlanMade(w, c.id)
    ensures !rules.configured || !rules.live ==> Refuses(rules, w, c, NotConfigured)
    ensures rules.configured && rules.live && !(c.confirmScope && c.confirmUsage) ==> Refuses(rules, w, c, PolicyViolation)
    ensures rules.configured && rules.live && c.confirmScope && c.confirmUsage && c.id !in w.plans ==> Refuses(rules, w, c, NoRecord)
    ensures rules.configured && rules.live && c.confirmScope && c.confirmUsage && c.id in w.plans ==>
      var plan := w.plans[c.id];
      && (plan.header.status != Approved || plan.scope != c.expectedPlan || !c.current || (forall i :: 0 <= i < |plan.tasks| ==> plan.tasks[i].status != Pending) ==>
            Refuses(rules, w, c, ConflictError))
      && (plan.header.status == Approved && plan.scope == c.expectedPlan && c.current && (exists i :: NextTask(plan, i)) && c.now < plan.header.created ==>
            Refuses(rules, w, c, InvalidValue))
  {
    hide PlanTrail, ApprovePlanTrail, PrepareDeliveryTrail, ApproveDeliveryTrail, DeliverTrail, PrepareAcceptanceTrail,
      ApproveAcceptanceTrail, RunTrail, CompletePlan, FailPlan, FirstPending;
    if c.id in w.plans {
      var plan := w.plans[c.id];
      PendingIsFound(plan.tasks);
      if FirstPending(plan.tasks).Some? {
        FirstPendingIs(plan.tasks, FirstPending(plan.tasks).value);
      }
      assert (exists i :: NextTask(plan, i)) ==> FirstPending(plan.tasks).Some?;
    }
  }

  /** The turn answers what was approved: the operation named for the task, and the approved billing. */
  predicate TurnFits(rules: Rules, plan: Plan, i: nat, turn: Turn)
    requires i < |plan.scope.tasks|
  {
    && turn.operation == rules.operationId(plan.scope, plan.scope.tasks[i])
    && turn.authentication == plan.scope.authentication && turn.billing == plan.scope.billing && rules.validTurn(turn)
  }

  /** The plan while task `i` is being worked on. */
  function InTurn(rules: Rules, plan: Plan, i: nat, now: int): Plan
    requires i < |plan.tasks| && i < |plan.scope.tasks|
  {
    plan.(header := plan.header.(status := InProgress, updated := now),
          tasks := plan.tasks[i := Task(Executing, Some(rules.operationId(plan.scope, plan.scope.tasks[i])), plan.tasks[i].turn)])
  }

  /** `execute_next`, once it may start: the plan in progress is stored, then the turn is invoked with it,
      and it ends reviewable exactly when the turn fits and the clock has not fallen behind; else it waits for
      an operator, or, when the clock has fallen behind in the failure handler too, stays in progress. */
  lemma ExecuteStarts(rules: Rules, w: Desk, c: Command, i: nat)
    requires MayExecute(rules, w, c, i) && PlanMade(w, c.id)
    ensures var plan := w.plans[c.id];
      var going := InTurn(rules, plan, i, c.now);
      var w1 := w.(plans := w.plans[c.id := going]);
      var w2 := w1.(calls := w.calls + [Executed(c.id, going)]);
      var task, created := going.tasks[i], plan.header.created;
      if c.turn.Some? && TurnFits(rules, plan, i, c.turn.value) && created <= c.later then
        var review := going.(header := going.header.(status := Done, updated := c.later),
                             tasks := going.tasks[i := Task(ReviewRequired, task.operation, c.turn)]);
        TrailOf(rules, w, c) == Trail([w, w1, w2, w2.(plans := w2.plans[c.id := review])], PlanReturned(review))
      else if created <= c.last then
        var failed := going.(header := going.header.(status := NeedsReconciliation, failure := Some("error"), updated := c.last),
                             tasks := going.tasks[i := Task(TaskNeedsReconciliation, task.operation, task.turn)]);
        TrailOf(rules, w, c) == Trail([w, w1, w2, w2.(plans := w2.plans[c.id := failed])], Raised(ReconciliationRequired))
      else TrailOf(rules, w, c) == Trail([w, w1, w2], Raised(InvalidValue))
  {
    hide PlanTrail, ApprovePlanTrail, PrepareDeliveryTrail, ApproveDeliveryTrail, DeliverTrail, PrepareAcceptanceTrail,
      ApproveAcceptanceTrail, RunTrail, FirstPending;
    FirstPendingIs(w.plans[c.id].tasks, i);
  }

  // Delivery.

  /** Task `i` is the only one that awaits review. */
  predicate Alone(tasks: seq<Task>, i: nat) {
    && i < |tasks| && tasks[i].status == ReviewRequired
    && forall j :: 0 <= j < |tasks| && j != i ==> tasks[j].status != ReviewRequired
  }

  /** It is the only one, and its turn is known. */
  predicate SoleReview(tasks: seq<Task>, i: nat) {
    Alone(tasks, i) && tasks[i].turn.Some?
  }

  ghost predicate HasSoleReview(tasks: seq<Task>) {
    exists i: nat :: SoleReview(tasks, i)
  }

  lemma {:induction false} NoneCompleted(tasks: seq<Task>)
    ensures Completed(tasks) == [] <==> forall j :: 0 <= j < |tasks| ==> tasks[j].status != ReviewRequired
  {
    if tasks != [] {
      var rest := tasks[1..];
      NoneCompleted(rest);
      assert forall j :: 0 < j < |tasks| ==> tasks[j] == rest[j - 1];
      assert forall j :: 0 <= j < |rest| ==> rest[j] == tasks[j + 1];
    }
  }

  lemma {:induction false} OneCompleted(tasks: seq<Task>) returns (i: nat)
    requires |Completed(tasks)| == 1
    ensures Alone(tasks, i)
  {
    var rest := tasks[1..];
    NoneCompleted(rest);
    assert forall j :: 0 < j < |tasks| ==> tasks[j] == rest[j - 1];
    if tasks[0].status == ReviewRequired {
      i := 0;
    } else {
      i := OneCompleted(rest);
      i := i + 1;
    }
  }

  lemma {:induction false} AloneIsCompleted(tasks: seq<Task>, i: nat)
    requires Alone(tasks, i)
    ensures Completed(tasks) == [tasks[i]]
  {
    var rest := tasks[1..];
    assert forall j :: 0 <= j < |rest| ==> rest[j] == tasks[j + 1];
    if i == 0 {
      NoneCompleted(rest);
    } else {
      AloneIsCompleted(rest, i - 1);
    }
  }

  /** What a review is made from: the turn of the only task that awaits review, and evidence that holds. */
  lemma SourceIs(plan: Plan, evidence: Option<Evidence>)
    ensures Source(plan, evidence).Some? <==> evidence.Some? && HasSoleReview(plan.tasks)
    ensures forall i: nat :: SoleReview(plan.tasks, i) && evidence.Some? ==> Source(plan, evidence) == Some((plan.tasks[i].turn.value, evidence.value))
  {
    hide Completed;
    forall i: nat | SoleReview(plan.tasks, i) ensures Completed(plan.tasks) == [plan.tasks[i]] {
      AloneIsCompleted(plan.tasks, i);
    }
    if |Completed(plan.tasks)| == 1 {
      var i := OneCompleted(plan.tasks);
      AloneIsCompleted(plan.tasks, i);
      if plan.tasks[i].turn.Some? {
        assert SoleReview(plan.tasks, i);
      }
    }
  }

  predicate HasReviewablePlan(w: Desk, id: Request) {
    id in w.plans && w.plans[id].header.status == Done
  }

  /** The review names this plan, its scope, and its workspace. */
  predicate ReviewsPlan(scope: DeliveryScope, plan: Plan) {
    && scope.request == plan.scope.request && scope.product == plan.scope.product && scope.workspace == plan.scope.workspace
    && scope.plan == plan && scope.planScope == plan.scope
  }

  /** `prepare` of the delivery. */
  lemma PrepareDeliveryAnswers(rules: Rules, w: Desk, c: Command, i: nat)
    requires c.PrepareDelivery?
    ensures !rules.configured ==> Refuses(rules, w, c, NotConfigured)
    ensures rules.configured && !HasReviewablePlan(w, c.id) ==> Refuses(rules, w, c, ConflictError)
    ensures rules.configured && HasReviewablePlan(w, c.id) && (c.evidence.None? || !HasSoleReview(w.plans[c.id].tasks)) ==>
      Refuses(rules, w, c, PolicyViolation)
    ensures rules.configured && HasReviewablePlan(w, c.id) && c.evidence.Some? && SoleReview(w.plans[c.id].tasks, i) ==>
      var plan := w.plans[c.id];
      var scope := DeliveryScope(request := c.id, product := plan.scope.product, plan := plan, planScope := plan.scope, workspace := plan.scope.workspace,
                                 turn := plan.tasks[i].turn.value, evidence := c.evidence.value, repository := c.repository, base := c.base);
      if !rules.validReview(scope) then Refuses(rules, w, c, InvalidValue)
      else if c.id !in w.deliveries then StoresDelivery(rules, w, c, Delivery(scope, Header(c.now, c.now, Awaiting, None, None, None), None))
      else if w.deliveries[c.id].scope == scope then Returns(rules, w, c, DeliveryReturned(w.deliveries[c.id]))
      else Refuses(rules, w, c, ConflictError)
  {
    hide PlanTrail, ApprovePlanTrail, ExecuteTrail, ApproveDeliveryTrail, DeliverTrail, PrepareAcceptanceTrail,
      ApproveAcceptanceTrail, RunTrail, Source, SoleReview;
    if c.id in w.plans {
      SourceIs(w.plans[c.id], c.evidence);
    }
  }

  /** `approve` of the delivery: a waiting review of the current plan with exactly this scope, whose evidence
      is still what the workspace holds. */
  lemma ApproveDeliveryAnswers(rules: Rules, w: Desk, c: Command)
    requires c.ApproveDelivery? && (c.id in w.deliveries ==> Constructible(w.deliveries[c.id].header))
    ensures !c.confirmed ==> Refuses(rules, w, c, PolicyViolation)
    ensures c.confirmed && !HasReviewablePlan(w, c.id) ==> Refuses(rules, w, c, ConflictError)
    ensures c.confirmed && HasReviewablePlan(w, c.id) && c.id !in w.deliveries ==> Refuses(rules, w, c, NoRecord)
    ensures c.confirmed && HasReviewablePlan(w, c.id) && c.id in w.deliveries ==>
      var plan, review := w.plans[c.id], w.deliveries[c.id];
      var h := review.header;
      && (!ReviewsPlan(review.scope, plan) ==> Refuses(rules, w, c, PolicyViolation))
      && (ReviewsPlan(review.scope, plan) && h.status == Approved && review.scope == c.expectedDelivery ==>
            Returns(rules, w, c, DeliveryReturned(review)))
      && (ReviewsPlan(review.scope, plan) && ((h.status != Approved && h.status != Awaiting) || review.scope != c.expectedDelivery) ==>
            Refuses(rules, w, c, ConflictError))
      && (ReviewsPlan(review.scope, plan) && h.status == Awaiting && review.scope == c.expectedDelivery ==>
            if c.evidence != Some(review.scope.evidence) || !HasSoleReview(plan.tasks) then Refuses(rules, w, c, PolicyViolation)
            else if c.now < h.created then Refuses(rules, w, c, InvalidValue)
            else StoresDelivery(rules, w, c, review.(header := Header(h.created, c.now, Approved, Some(c.now), Some(c.id.customer), None))))
  {
    hide PlanTrail, ApprovePlanTrail, ExecuteTrail, PrepareDeliveryTrail, DeliverTrail, PrepareAcceptanceTrail,
      ApproveAcceptanceTrail, RunTrail, Source, SoleReview;
    if c.id in w.plans {
      SourceIs(w.plans[c.id], c.evidence);
      forall k | SoleReview(w.plans[c.id].tasks, k) && c.evidence.Some?
        ensures Source(w.plans[c.id], c.evidence).value.1 == c.evidence.value
      {
      }
    }
  }

  /** The call may have the adapter deliver. */
  predicate MayDeliver(rules: Rules, w: Desk, c: Command, i: nat) {
    && c.Deliver? && rules.configured && rules.live && c.confirmed
    && HasReviewablePlan(w, c.id) && c.id in w.deliveries && ReviewsPlan(w.deliveries[c.id].scope, w.plans[c.id])
    && w.deliveries[c.id].header.status == Approved && w.deliveries[c.id].scope == c.expectedDelivery
    && SoleReview(w.plans[c.id].tasks, i) && c.evidence.Some? && c.preflight
    && w.deliveries[c.id].header.created <= c.now
  }

  lemma DeliverRefuses(rules: Rules, w: Desk, c: Command)
    requires c.Deliver? && (c.id in w.deliveries ==> Constructible(w.deliveries[c.id].header))
    ensures !rules.configured || !rules.live ==> Refuses(rules, w, c, NotConfigured)
    ensures rules.configured && rules.live && !c.confirmed ==> Refuses(rules, w, c, PolicyViolation)
    ensures rules.configured && rules.live && c.confirmed && !HasReviewablePlan(w, c.id) ==> Refuses(rules, w, c, ConflictError)
    ensures rules.configured && rules.live && c.confirmed && HasReviewablePlan(w, c.id) && c.id !in w.deliveries ==> Refuses(rules, w, c, NoRecord)
    ensures rules.configured && rules.live && c.confirmed && HasReviewablePlan(w, c.id) && c.id in w.deliveries ==>
      var plan, review := w.plans[c.id], w.deliveries[c.id];
      var h := review.header;
      && (!ReviewsPlan(review.scope, plan) ==> Refuses(rules, w, c, PolicyViolation))
      && (ReviewsPlan(review.scope, plan) && h.status == Done && review.scope == c.expectedDelivery ==>
            Returns(rules, w, c, DeliveryReturned(review)))
      && (ReviewsPlan(review.scope, plan) && ((h.status != Done && h.status != Approved) || review.scope != c.expectedDelivery) ==>
            Refuses(rules, w, c, ConflictError))
      && (ReviewsPlan(review.scope, plan) && h.status == Approved && review.scope == c.expectedDelivery ==>
            && (c.evidence.None? || !c.preflight || !HasSoleReview(plan.tasks) ==> Refuses(rules, w, c, PolicyViolation))
            && (c.evidence.Some? && c.preflight && HasSoleReview(plan.tasks) && c.now < h.created ==> Refuses(rules, w, c, InvalidValue)))
  {
    hide PlanTrail, ApprovePlanTrail, ExecuteTrail, PrepareDeliveryTrail, ApproveDeliveryTrail, PrepareAcceptanceTrail,
      ApproveAcceptanceTrail, RunTrail, Source, SoleReview, CompleteDelivery;
    if c.id in w.plans {
      SourceIs(w.plans[c.id], c.evidence);
    }
  }

  /** `deliver`, once it may start: the review in progress is stored, then the adapter is invoked with it, and
      the draft is recorded exactly when the adapter answered with a valid receipt and the clock has not
      fallen behind. */
  lemma DeliverStarts(rules: Rules, w: Desk, c: Command, i: nat)
    requires MayDeliver(rules, w, c, i) && Constructible(w.deliveries[c.id].header)
    ensures var review := w.deliveries[c.id];
      var going := review.(header := review.header.(status := InProgress, updated := c.now));
      var w1 := w.(deliveries := w.deliveries[c.id := going]);
      var w2 := w1.(calls := w.calls + [Delivered(c.id, going)]);
      var created := review.header.created;
      if c.draft.Some? && rules.validDraft(c.draft.value) && created <= c.later then
        var drafted := going.(header := going.header.(status := Done, updated := c.later), receipt := c.draft);
        TrailOf(rules, w, c) == Trail([w, w1, w2, w2.(deliveries := w2.deliveries[c.id := drafted])], DeliveryReturned(drafted))
      else if created <= c.last then
        var failed := going.(header := going.header.(status := NeedsReconciliation, failure := Some("error"), updated := c.last));
        TrailOf(rules, w, c) == Trail([w, w1, w2, w2.(deliveries := w2.deliveries[c.id := failed])], Raised(ReconciliationRequired))
      else TrailOf(rules, w, c) == Trail([w, w1, w2], Raised(InvalidValue))
  {
    hide PlanTrail, ApprovePlanTrail, ExecuteTrail, PrepareDeliveryTrail, ApproveDeliveryTrail, PrepareAcceptanceTrail,
      ApproveAcceptanceTrail, RunTrail, Source, SoleReview;
    SourceIs(w.plans[c.id], c.evidence);
  }

  // Acceptance.

  predicate HasDraft(w: Desk, id: Request) {
    id in w.deliveries && w.deliveries[id].header.status == Done && w.deliveries[id].receipt.Some?
  }

  /** The acceptance names this delivery, its repository and branches, and its receipt. */
  predicate AcceptsDelivery(scope: AcceptanceScope, delivery: Delivery) {
    && scope.request == delivery.scope.request && scope.product == delivery.scope.product
    && scope.delivery == delivery && scope.deliveryScope == delivery.scope
    && scope.repository == delivery.scope.repository && scope.base == delivery.scope.base
    && scope.head == delivery.scope.workspace.branch && delivery.receipt == Some(scope.receipt)
  }

  /** `prepare` of the acceptance. */
  lemma PrepareAcceptanceAnswers(rules: Rules, w: Desk, c: Command)
    requires c.PrepareAcceptance?
    ensures !rules.configured ==> Refuses(rules, w, c, NotConfigured)
    ensures rules.configured && !HasDraft(w, c.id) ==> Refuses(rules, w, c, ConflictError)
    ensures rules.configured && HasDraft(w, c.id) ==>
      var delivery := w.deliveries[c.id];
      var receipt := delivery.receipt.value;
      var scope := AcceptanceScope(request := c.id, product := delivery.scope.product, delivery := delivery, deliveryScope := delivery.scope,
                                   repository := delivery.scope.repository, base := delivery.scope.base, head := delivery.scope.workspace.branch,
                                   receipt := receipt, configuration := c.configuration);
      if |receipt.commit| != 40 || |receipt.tree| != 40 then Refuses(rules, w, c, PolicyViolation)
      else if !rules.validAcceptance(scope) then Refuses(rules, w, c, InvalidValue)
      else if c.id !in w.acceptances then StoresAcceptance(rules, w, c, Acceptance(scope, Header(c.now, c.now, Awaiting, None, None, None), None))
      else if w.acceptances[c.id].scope == scope then Returns(rules, w, c, AcceptanceReturned(w.acceptances[c.id]))
      else Refuses(rules, w, c, ConflictError)
  {
    hide PlanTrail, ApprovePlanTrail, ExecuteTrail, PrepareDeliveryTrail, ApproveDeliveryTrail, DeliverTrail,
      ApproveAcceptanceTrail, RunTrail;
  }

  /** `approve` of the acceptance. */
  lemma ApproveAcceptanceAnswers(rules: Rules, w: Desk, c: Command)
    requires c.ApproveAcceptance? && (c.id in w.acceptances ==> Constructible(w.acceptances[c.id].header))
    ensures !c.confirmed ==> Refuses(rules, w, c, PolicyViolation)
    ensures c.confirmed && !HasDraft(w, c.id) ==> Refuses(rules, w, c, ConflictError)
    ensures c.confirmed && HasDraft(w, c.id) && c.id !in w.acceptances ==> Refuses(rules, w, c, NoRecord)
    ensures c.confirmed && HasDraft(w, c.id) && c.id in w.acceptances ==>
      var delivery, record := w.deliveries[c.id], w.acceptances[c.id];
      var h := record.header;
      && (!AcceptsDelivery(record.scope, delivery) ==> Refuses(rules, w, c, PolicyViolation))
      && (AcceptsDelivery(record.scope, delivery) && h.status == Approved && record.scope == c.expectedAcceptance ==>
            Returns(rules, w, c, AcceptanceReturned(record)))
      && (AcceptsDelivery(record.scope, delivery) && ((h.status != Approved && h.status != Awaiting) || record.scope != c.expectedAcceptance) ==>
            Refuses(rules, w, c, ConflictError))
      && (AcceptsDelivery(record.scope, delivery) && h.status == Awaiting && record.scope == c.expectedAcceptance ==>
            if c.now < h.created then Refuses(rules, w, c, InvalidValue)
            else StoresAcceptance(rules, w, c, record.(header := Header(h.created, c.now, Approved, Some(c.now), Some(c.id.customer), None))))
  {
    hide PlanTrail, ApprovePlanTrail, ExecuteTrail, PrepareDeliveryTrail, ApproveDeliveryTrail, DeliverTrail,
      PrepareAcceptanceTrail, RunTrail;
  }

  /** The call may have preview and browser run. */
  predicate MayRun(rules: Rules, w: Desk, c: Command) {
    && c.Execute? && rules.configured && rules.live && c.confirmDeployment && c.confirmBrowser
    && HasDraft(w, c.id) && c.id in w.acceptances && AcceptsDelivery(w.acceptances[c.id].scope, w.deliveries[c.id])
    && w.acceptances[c.id].header.status == Approved && w.acceptances[c.id].scope == c.expectedAcceptance
    && c.planKept && c.preflight && w.acceptances[c.id].header.created <= c.now
  }

  lemma RunRefuses(rules: Rules, w: Desk, c: Command)
    requires c.Execute? && (c.id in w.acceptances ==> Constructible(w.acceptances[c.id].header))
    ensures !rules.configured || !rules.live ==> Refuses(rules, w, c, NotConfigured)
    ensures rules.configured && rules.live && !(c.confirmDeployment && c.confirmBrowser) ==> Refuses(rules, w, c, PolicyViolation)
    ensures rules.configured && rules.live && c.confirmDeployment && c.confirmBrowser ==>
      && (!HasDraft(w, c.id) ==> Refuses(rules, w, c, ConflictError))
      && (HasDraft(w, c.id) && c.id !in w.acceptances ==> Refuses(rules, w, c, NoRecord))
      && (HasDraft(w, c.id) && c.id in w.acceptances ==>
            var delivery, record := w.deliveries[c.id], w.acceptances[c.id];
            var h := record.header;
            && (!AcceptsDelivery(record.scope, delivery) ==> Refuses(rules, w, c, PolicyViolation))
            && (AcceptsDelivery(record.scope, delivery) && h.status == Done && record.scope == c.expectedAcceptance ==>
                  Returns(rules, w, c, AcceptanceReturned(record)))
            && (AcceptsDelivery(record.scope, delivery) && ((h.status != Done && h.status != Approved) || record.scope != c.expectedAcceptance) ==>
                  Refuses(rules, w, c, ConflictError))
            && (AcceptsDelivery(record.scope, delivery) && h.status == Approved && record.scope == c.expectedAcceptance ==>
                  && (!c.planKept || !c.preflight ==> Refuses(rules, w, c, PolicyViolation))
                  && (c.planKept && c.preflight && c.now < h.created ==> Refuses(rules, w, c, InvalidValue))))
  {
    hide PlanTrail, ApprovePlanTrail, ExecuteTrail, PrepareDeliveryTrail, ApproveDeliveryTrail, DeliverTrail,
      PrepareAcceptanceTrail, ApproveAcceptanceTrail, CompleteAcceptance;
  }

  /** `execute`, once it may start: the record in progress is stored, then preview and browser are invoked
      with it, and the evidence is recorded exactly when there is valid evidence and the clock has not
      fallen behind. */
  lemma RunStarts(rules: Rules, w: Desk, c: Command)
    requires MayRun(rules, w, c) && Constructible(w.acceptances[c.id].header)
    ensures var record := w.acceptances[c.id];
      var going := record.(header := record.header.(status := InProgress, updated := c.now));
      var w1 := w.(acceptances := w.acceptances[c.id := going]);
      var w2 := w1.(calls := w.calls + [Ran(c.id, going)]);
      var created := record.header.created;
      if c.receipt.Some? && rules.validEvidence(c.receipt.value) && created <= c.later then
        var ready := going.(header := going.header.(status := Done, updated := c.later), receipt := c.receipt);
        TrailOf(rules, w, c) == Trail([w, w1, w2, w2.(acceptances := w2.acceptances[c.id := ready])], AcceptanceReturned(ready))
      else if created <= c.last then
        var failed := going.(header := going.header.(status := NeedsReconciliation, failure := Some("error"), updated := c.last));
        TrailOf(rules, w, c) == Trail([w, w1, w2, w2.(acceptances := w2.acceptances[c.id := failed])], Raised(ReconciliationRequired))
      else TrailOf(rules, w, c) == Trail([w, w1, w2], Raised(InvalidValue))
  {
    hide PlanTrail, ApprovePlanTrail, ExecuteTrail, PrepareDeliveryTrail, ApproveDeliveryTrail, DeliverTrail,
      PrepareAcceptanceTrail, ApproveAcceptanceTrail;
  }

  // Over runs.

  /** The command, in this world, may start this very invocation, and hands over the approved record marked
      as in progress now. */
  ghost predicate Starts(rules: Rules, w: Desk, c: Command, call: Call) {
    && call.request == c.id
    && match call
       case Executed(id, plan) => exists i: nat :: MayExecute(rules, w, c, i) && HandsOver(rules, w, c, plan, i)
       case Delivered(id, delivery) =>
         && (exists i: nat :: MayDeliver(rules, w, c, i))
         && delivery == w.deliveries[c.id].(header := w.deliveries[c.id].header.(status := InProgress, updated := c.now))
       case Ran(id, acceptance) =>
         && MayRun(rules, w, c)
         && acceptance == w.acceptances[c.id].(header := w.acceptances[c.id].header.(status := InProgress, updated := c.now))
  }

  predicate HandsOver(rules: Rules, w: Desk, c: Command, plan: Plan, i: nat)
    requires MayExecute(rules, w, c, i)
  {
    plan == InTurn(rules, w.plans[c.id], i, c.now)
  }

  /** Only the three effect commands call an adapter. */
  lemma OthersInvokeNothing(rules: Rules, w: Desk, c: Command)
    requires !c.ExecuteNext? && !c.Deliver? && !c.Execute?
    ensures forall n :: 0 <= n < |TrailOf(rules, w, c).worlds| ==> TrailOf(rules, w, c).worlds[n].calls == w.calls
  {
    hide ExecuteTrail, DeliverTrail, RunTrail, Source, BindsPlan, BindsDelivery, Constructible, ValidTasks;
  }

  /** Starting is the only way past the refusals. */
  lemma ExecuteStays(rules: Rules, w: Desk, c: Command)
    requires c.ExecuteNext? && PlanMade(w, c.id) && forall i: nat :: !MayExecute(rules, w, c, i)
    ensures TrailOf(rules, w, c).worlds == [w]
  {
    hide TrailOf, NextTask;
    ExecuteRefuses(rules, w, c);
    if c.id in w.plans {
      SomeTaskPends(w.plans[c.id]);
      assert forall i: nat :: NextTask(w.plans[c.id], i) ==> !MayExecute(rules, w, c, i);
    }
  }

  lemma ExecuteInvokes(rules: Rules, w: Desk, c: Command, n: nat, call: Call)
    requires c.ExecuteNext? && PlanMade(w, c.id)
    requires n < |TrailOf(rules, w, c).worlds| && call in TrailOf(rules, w, c).worlds[n].calls && call !in w.calls
    ensures Starts(rules, w, c, call)
  {
    hide TrailOf, InTurn, NextTask, TurnFits;
    if i: nat :| MayExecute(rules, w, c, i) {
      ExecuteStarts(rules, w, c, i);
      assert HandsOver(rules, w, c, call.plan, i);
    } else {
      ExecuteStays(rules, w, c);
    }
  }

  lemma SomeTaskPends(plan: Plan)
    requires |plan.tasks| == |plan.scope.tasks|
    ensures (forall i :: 0 <= i < |plan.tasks| ==> plan.tasks[i].status != Pending) || exists i: nat :: NextTask(plan, i)
  {
    PendingIsFound(plan.tasks);
    if FirstPending(plan.tasks).Some? {
      FirstPendingIs(plan.tasks, FirstPending(plan.tasks).value);
      assert NextTask(plan, FirstPending(plan.tasks).value);
    }
  }

  lemma DeliverStays(rules: Rules, w: Desk, c: Command)
    requires c.Deliver? && (c.id in w.deliveries ==> Constructible(w.deliveries[c.id].header)) && forall i: nat :: !MayDeliver(rules, w, c, i)
    ensures TrailOf(rules, w, c).worlds == [w]
  {
    hide TrailOf, SoleReview, Constructible;
    DeliverRefuses(rules, w, c);
    if c.id in w.plans {
      assert forall i: nat :: SoleReview(w.plans[c.id].tasks, i) ==> !MayDeliver(rules, w, c, i);
    }
  }

  lemma DeliverInvokes(rules: Rules, w: Desk, c: Command, n: nat, call: Call)
    requires c.Deliver? && (c.id in w.deliveries ==> Constructible(w.deliveries[c.id].header))
    requires n < |TrailOf(rules, w, c).worlds| && call in TrailOf(rules, w, c).worlds[n].calls && call !in w.calls
    ensures Starts(rules, w, c, call)
  {
    hide TrailOf, SoleReview, Constructible;
    if i: nat :| MayDeliver(rules, w, c, i) {
      DeliverStarts(rules, w, c, i);
    } else {
      DeliverStays(rules, w, c);
    }
  }

  lemma RunInvokes(rules: Rules, w: Desk, c: Command, n: nat, call: Call)
    requires c.Execute? && (c.id in w.acceptances ==> Constructible(w.acceptances[c.id].header))
    requires n < |TrailOf(rules, w, c).worlds| && call in TrailOf(rules, w, c).worlds[n].calls && call !in w.calls
    ensures Starts(rules, w, c, call)
  {
    hide TrailOf, Constructible;
    RunRefuses(rules, w, c);
    if MayRun(rules, w, c) {
      RunStarts(rules, w, c);
    }
  }

  lemma RecordsAreMade(w: Desk, id: Request)
    requires Inv(w)
    ensures PlanMade(w, id)
    ensures id in w.deliveries ==> Constructible(w.deliveries[id].header)
    ensures id in w.acceptances ==> Constructible(w.acceptances[id].header)
  {
    hide CallsOk, Constructible, BindsPlan, BindsDelivery, TasksOk;
  }

  /** Every invocation of an effect in a run was started by a call of that effect's command, fully confirmed,
      under an enabled live configuration, for the record approved at that moment, whose upstream record,
      evidence and preflight checks held. */
  lemma {:induction false} EveryInvocationWasChecked(events: seq<Event>, call: Call) returns (k: nat)
    requires call in Run(events).calls
    ensures k < |events| && Starts(events[k].rules, Run(events[..k]), events[k].command, call)
  {
    hide Starts, TrailOf, Inv;
    var before, last := events[..|events| - 1], events[|events| - 1];
    var w := Run(before);
    if call in w.calls {
      k := EveryInvocationWasChecked(before, call);
      assert before[..k] == events[..k];
    } else {
      k := |events| - 1;
      var c, trail := last.command, TrailOf(last.rules, w, last.command);
      TrailsStart(last.rules, w, c);
      EveryRunKeepsInv(before);
      RecordsAreMade(w, c.id);
      var n := if last.fuel < |trail.worlds| then last.fuel else |trail.worlds| - 1;
      if c.ExecuteNext? {
        ExecuteInvokes(last.rules, w, c, n, call);
      } else if c.Deliver? {
        DeliverInvokes(last.rules, w, c, n, call);
      } else if c.Execute? {
        RunInvokes(last.rules, w, c, n, call);
      } else {
        OthersInvokeNothing(last.rules, w, c);
      }
    }
  }

  /** The header says when and by whom the record was approved exactly if it was, and why it failed exactly if
      it did. */
  predicate Complete(h: Header, customer: string) {
    && h.created <= h.updated
    && (h.status == Awaiting ==> h.approvedAt.None? && h.approvedBy.None?)
    && (h.status != Awaiting ==> h.approvedAt.Some? && h.approvedBy == Some(customer))
    && (h.failure.Some? <==> h.status == NeedsReconciliation)
  }

  /** In every run every stored record is complete, and approved by its own customer if at all. */
  lemma EveryHeaderIsComplete(events: seq<Event>, id: Request)
    ensures var w := Run(events);
      && (id in w.plans ==> Complete(w.plans[id].header, id.customer))
      && (id in w.deliveries ==> Complete(w.deliveries[id].header, id.customer))
      && (id in w.acceptances ==> Complete(w.acceptances[id].header, id.customer))
  {
    hide Run, CallsOk, TasksOk, BindsPlan, BindsDelivery;
    EveryRunKeepsInv(events);
  }
}
