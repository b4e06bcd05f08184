/** What holds of the three customer records in every world that any run passes through. */
module CustomerSafety {
  import opened Wrappers
  import opened ApprovalRecords
  import opened CustomerDesk

  /** Nothing started while the plan waits; afterwards exactly its first task has left `Pending`. */
  predicate TasksOk(status: Status, tasks: seq<Task>) {
    && tasks != []
    && (forall i :: 0 < i < |tasks| ==> tasks[i] == NEW_TASK)
    && match status
       case Awaiting => tasks[0] == NEW_TASK
       case Approved => tasks[0] == NEW_TASK
       case InProgress => tasks[0].status == Executing
       case Done => tasks[0].status == ReviewRequired && tasks[0].turn.Some?
       case NeedsReconciliation => tasks[0].status == TaskNeedsReconciliation
  }

  predicate PlanOk(id: Request, p: Plan) {
    && p.scope.request == id && Constructible(p.header)
    && |p.tasks| == |p.scope.tasks| && TasksOk(p.header.status, p.tasks)
    && (p.header.status != Awaiting ==> p.header.approvedBy == Some(id.customer))
  }

  predicate DeliveryOk(id: Request, d: Delivery) {
    && Constructible(d.header) && (d.header.status == Done <==> d.receipt.Some?)
    && (d.header.status != Awaiting ==> d.header.approvedBy == Some(id.customer))
  }

  predicate AcceptanceOk(id: Request, a: Acceptance) {
    && Constructible(a.header) && (a.header.status == Done <==> a.receipt.Some?)
    && (a.header.status != Awaiting ==> a.header.approvedBy == Some(id.customer))
  }

  ghost predicate PlansOk(plans: map<Request, Plan>) {
    forall id :: id in plans ==> PlanOk(id, plans[id])
  }

  /** A delivery stands on a reviewed plan, with its digest. */
  ghost predicate DeliveriesOk(plans: map<Request, Plan>, deliveries: map<Request, Delivery>) {
    forall id :: id in deliveries ==>
      DeliveryOk(id, deliveries[id]) && id in plans && plans[id].header.status == Done && BindsPlan(deliveries[id].scope, plans[id])
  }

  /** An acceptance stands on a created draft, with its digest. */
  ghost predicate AcceptancesOk(deliveries: map<Request, Delivery>, acceptances: map<Request, Acceptance>) {
    forall id :: id in acceptances ==>
      AcceptanceOk(id, acceptances[id]) && id in deliveries && deliveries[id].header.status == Done
      && BindsDelivery(acceptances[id].scope, deliveries[id])
  }

  predicate Started(status: Status) {
    status == InProgress || status == Done || status == NeedsReconciliation
  }

  predicate SameEffect(a: Call, b: Call) {
    a.request == b.request && (a.Executed? <==> b.Executed?) && (a.Delivered? <==> b.Delivered?)
  }

  /** A call was handed its durable in-progress record, whose scope the stored record still has. */
  predicate CallOk(w: Desk, call: Call) {
    match call
    case Executed(id, plan) =>
      id in w.plans && w.plans[id].scope == plan.scope && plan.header.status == InProgress && Started(w.plans[id].header.status)
    case Delivered(id, delivery) =>
      id in w.deliveries && w.deliveries[id].scope == delivery.scope && delivery.header.status == InProgress
      && Started(w.deliveries[id].header.status)
    case Ran(id, acceptance) =>
      id in w.acceptances && w.acceptances[id].scope == acceptance.scope && acceptance.header.status == InProgress
      && Started(w.acceptances[id].header.status)
  }

  ghost predicate CallsOk(w: Desk) {
    && (forall i :: 0 <= i < |w.calls| ==> CallOk(w, w.calls[i]))
    && (forall i, j :: 0 <= i < j < |w.calls| ==> !SameEffect(w.calls[i], w.calls[j]))
  }

  ghost predicate Inv(w: Desk) {
    PlansOk(w.plans) && DeliveriesOk(w.plans, w.deliveries) && AcceptancesOk(w.deliveries, w.acceptances) && CallsOk(w)
  }

  // What a command asks for.

  predicate ApprovesPlan(c: Command, id: Request, scope: PlanScope) {
    c.ApprovePlan? && c.id == id && c.expectedPlan == scope
  }

  predicate ApprovesDelivery(c: Command, id: Request, scope: DeliveryScope) {
    c.ApproveDelivery? && c.id == id && c.expectedDelivery == scope && c.confirmed
  }

  predicate ApprovesAcceptance(c: Command, id: Request, scope: AcceptanceScope) {
    c.ApproveAcceptance? && c.id == id && c.expectedAcceptance == scope && c.confirmed
  }

  /** The command asks to run exactly this scope. */
  predicate Requests(c: Command, call: Call) {
    match call
    case Executed(id, plan) => c.ExecuteNext? && c.id == id && c.expectedPlan == plan.scope && c.confirmScope && c.confirmUsage
    case Delivered(id, delivery) => c.Deliver? && c.id == id && c.expectedDelivery == delivery.scope && c.confirmed
    case Ran(id, acceptance) => c.Execute? && c.id == id && c.expectedAcceptance == acceptance.scope && c.confirmDeployment && c.confirmBrowser
  }

  // The atomic moves of a command.

  ghost predicate MovesPlan(w: Desk, w': Desk, c: Command) {
    var id := c.id;
    && id in w'.plans && w' == PutPlan(w, id, w'.plans[id]) && PlanOk(id, w'.plans[id])
    && if id in w.plans then
         && Advances(w.plans[id].header, w'.plans[id].header) && w'.plans[id].scope == w.plans[id].scope
         && (w.plans[id].header.status == Awaiting ==> ApprovesPlan(c, id, w.plans[id].scope))
       else w'.plans[id].header.status == Awaiting
  }

  ghost predicate MovesDelivery(w: Desk, w': Desk, c: Command) {
    var id := c.id;
    && id in w'.deliveries && w' == PutDelivery(w, id, w'.deliveries[id]) && DeliveryOk(id, w'.deliveries[id])
    && if id in w.deliveries then
         && Advances(w.deliveries[id].header, w'.deliveries[id].header) && w'.deliveries[id].scope == w.deliveries[id].scope
         && (w.deliveries[id].header.status == Awaiting ==> ApprovesDelivery(c, id, w.deliveries[id].scope))
       else w'.deliveries[id].header.status == Awaiting && Reviewable(w, id) && BindsPlan(w'.deliveries[id].scope, w.plans[id])
  }

  ghost predicate MovesAcceptance(w: Desk, w': Desk, c: Command) {
    var id := c.id;
    && id in w'.acceptances && w' == PutAcceptance(w, id, w'.acceptances[id]) && AcceptanceOk(id, w'.acceptances[id])
    && if id in w.acceptances then
         && Advances(w.acceptances[id].header, w'.acceptances[id].header) && w'.acceptances[id].scope == w.acceptances[id].scope
         && (w.acceptances[id].header.status == Awaiting ==> ApprovesAcceptance(c, id, w.acceptances[id].scope))
       else w'.acceptances[id].header.status == Awaiting && Delivers(w, id) && BindsDelivery(w'.acceptances[id].scope, w.deliveries[id])
  }

  /** The call is handed the very record that is stored, in progress. */
  predicate Handed(w: Desk, call: Call) {
    match call
    case Executed(id, plan) => id in w.plans && w.plans[id] == plan && plan.header.status == InProgress
    case Delivered(id, delivery) => id in w.deliveries && w.deliveries[id] == delivery && delivery.header.status == InProgress
    case Ran(id, acceptance) => id in w.acceptances && w.acceptances[id] == acceptance && acceptance.header.status == InProgress
  }

  ghost predicate MovesCalls(w: Desk, w': Desk, c: Command) {
    && w'.calls != []
    && var call := w'.calls[|w'.calls| - 1];
       && w' == Called(w, call) && Handed(w, call) && Requests(c, call)
       && forall i :: 0 <= i < |w.calls| ==> !SameEffect(w.calls[i], call)
  }

  ghost predicate Moves(w: Desk, w': Desk, c: Command) {
    MovesPlan(w, w', c) || MovesDelivery(w, w', c) || MovesAcceptance(w, w', c) || MovesCalls(w, w', c)
  }

  ghost predicate KeepsPlans(before: map<Request, Plan>, after: map<Request, Plan>) {
    forall id :: id in before ==>
      id in after && after[id].scope == before[id].scope && (before[id].header.status == Done ==> after[id] == before[id])
  }

  ghost predicate KeepsDeliveries(before: map<Request, Delivery>, after: map<Request, Delivery>) {
    forall id :: id in before ==>
      id in after && after[id].scope == before[id].scope && (before[id].header.status == Done ==> after[id] == before[id])
  }

  ghost predicate KeepsAcceptances(before: map<Request, Acceptance>, after: map<Request, Acceptance>) {
    forall id :: id in before ==>
      id in after && after[id].scope == before[id].scope && (before[id].header.status == Done ==> after[id] == before[id])
  }

  /** What no step undoes: records stay with their scope, finished ones never change, calls are kept. */
  ghost predicate Extends(w: Desk, w': Desk) {
    && KeepsPlans(w.plans, w'.plans) && KeepsDeliveries(w.deliveries, w'.deliveries)
    && KeepsAcceptances(w.acceptances, w'.acceptances) && w.calls <= w'.calls
  }

  lemma ExtendsTransitive(a: Desk, b: Desk, c: Desk)
    requires Extends(a, b) && Extends(b, c)
    ensures Extends(a, c)
  {
  }

  lemma PlanMoveKeepsInv(w: Desk, w': Desk, c: Command)
    requires Inv(w) && MovesPlan(w, w', c)
    ensures Inv(w') && Extends(w, w')
  {
    hide PlansOk, DeliveriesOk, AcceptancesOk, CallsOk, KeepsPlans;
    PlanMoveKeepsPlans(w, w', c);
    PlanMoveKeepsDeliveries(w, w', c);
    PlanMoveKeepsCalls(w, w', c);
    assert w'.deliveries == w.deliveries && w'.acceptances == w.acceptances && w'.calls == w.calls;
  }

  lemma PlanMoveKeepsPlans(w: Desk, w': Desk, c: Command)
    requires PlansOk(w.plans) && MovesPlan(w, w', c)
    ensures PlansOk(w'.plans) && KeepsPlans(w.plans, w'.plans)
  {
    hide PlanOk, Constructible;
  }

  lemma PlanMoveKeepsDeliveries(w: Desk, w': Desk, c: Command)
    requires DeliveriesOk(w.plans, w.deliveries) && MovesPlan(w, w', c)
    ensures DeliveriesOk(w'.plans, w'.deliveries)
  {
    hide PlanOk, DeliveryOk, Constructible, BindsPlan;
  }

  lemma PlanMoveKeepsCalls(w: Desk, w': Desk, c: Command)
    requires CallsOk(w) && MovesPlan(w, w', c)
    ensures CallsOk(w')
  {
    hide PlanOk, Constructible, SameEffect;
  }

  lemma DeliveryMoveKeepsInv(w: Desk, w': Desk, c: Command)
    requires Inv(w) && MovesDelivery(w, w', c)
    ensures Inv(w') && Extends(w, w')
  {
    hide PlansOk, Constructible, BindsPlan, BindsDelivery, AcceptanceOk, AcceptancesOk, CallsOk, KeepsDeliveries;
    DeliveryMoveKeepsCalls(w, w', c);
    DeliveryMoveKeepsAcceptances(w, w', c);
  }

  lemma DeliveryMoveKeepsCalls(w: Desk, w': Desk, c: Command)
    requires CallsOk(w) && MovesDelivery(w, w', c)
    ensures CallsOk(w') && KeepsDeliveries(w.deliveries, w'.deliveries)
  {
    hide Constructible, BindsPlan, BindsDelivery, SameEffect;
  }

  lemma DeliveryMoveKeepsAcceptances(w: Desk, w': Desk, c: Command)
    requires AcceptancesOk(w.deliveries, w.acceptances) && MovesDelivery(w, w', c)
    ensures AcceptancesOk(w'.deliveries, w'.acceptances)
  {
    hide Constructible, BindsPlan, BindsDelivery, AcceptanceOk;
  }

  lemma AcceptanceMoveKeepsInv(w: Desk, w': Desk, c: Command)
    requires Inv(w) && MovesAcceptance(w, w', c)
    ensures Inv(w') && Extends(w, w')
  {
    hide PlansOk, DeliveriesOk, AcceptancesOk, CallsOk, KeepsAcceptances;
    AcceptanceMoveKeepsAcceptances(w, w', c);
    AcceptanceMoveKeepsCalls(w, w', c);
    assert w'.plans == w.plans && w'.deliveries == w.deliveries && w'.calls == w.calls;
  }

  lemma AcceptanceMoveKeepsAcceptances(w: Desk, w': Desk, c: Command)
    requires AcceptancesOk(w.deliveries, w.acceptances) && MovesAcceptance(w, w', c)
    ensures AcceptancesOk(w'.deliveries, w'.acceptances) && KeepsAcceptances(w.acceptances, w'.acceptances)
  {
    hide AcceptanceOk, Constructible, BindsPlan, BindsDelivery;
    var id := c.id;
    assert id in w.acceptances ==> AcceptanceOk(id, w.acceptances[id]);
  }

  lemma AcceptanceMoveKeepsCalls(w: Desk, w': Desk, c: Command)
    requires CallsOk(w) && MovesAcceptance(w, w', c)
    ensures CallsOk(w')
  {
    hide AcceptanceOk, Constructible, SameEffect, BindsDelivery;
  }

  lemma CallMoveKeepsInv(w: Desk, w': Desk, c: Command)
    requires Inv(w) && MovesCalls(w, w', c)
    ensures Inv(w') && Extends(w, w')
  {
    hide PlansOk, DeliveriesOk, AcceptancesOk, SameEffect;
  }

  lemma MoveKeepsInv(w: Desk, w': Desk, c: Command)
    requires Inv(w) && Moves(w, w', c)
    ensures Inv(w') && Extends(w, w')
  {
    hide Inv, Extends, MovesPlan, MovesDelivery, MovesAcceptance, MovesCalls;
    if MovesPlan(w, w', c) {
      PlanMoveKeepsInv(w, w', c);
    } else if MovesDelivery(w, w', c) {
      DeliveryMoveKeepsInv(w, w', c);
    } else if MovesAcceptance(w, w', c) {
      AcceptanceMoveKeepsInv(w, w', c);
    } else {
      CallMoveKeepsInv(w, w', c);
    }
  }

  /** Each world of the trail is one move from the one before. */
  ghost predicate AllMoves(worlds: seq<Desk>, c: Command) {
    forall i :: 0 <= i < |worlds| - 1 ==> Moves(worlds[i], worlds[i + 1], c)
  }

  lemma {:induction false} TrailKeepsInv(worlds: seq<Desk>, c: Command, n: nat)
    requires n < |worlds| && Inv(worlds[0]) && AllMoves(worlds, c)
    ensures Inv(worlds[n]) && Extends(worlds[0], worlds[n])
  {
    hide Inv, Extends, Moves;
    if n == 0 {
      ExtendsReflexive(worlds[0]);
    } else {
      TrailKeepsInv(worlds, c, n - 1);
      MoveKeepsInv(worlds[n - 1], worlds[n], c);
      ExtendsTransitive(worlds[0], worlds[n - 1], worlds[n]);
    }
  }

  lemma ExtendsReflexive(w: Desk)
    ensures Extends(w, w)
  {
  }

  /** A trail that starts in `w` and only moves. */
  ghost predicate Moving(w: Desk, trail: Trail, c: Command) {
    trail.worlds != [] && trail.worlds[0] == w && AllMoves(trail.worlds, c)
  }

  lemma StaysMoving(w: Desk, c: Command)
    ensures forall outcome :: Moving(w, Stay(w, outcome), c)
  {
  }

  lemma ThenMoving(w: Desk, w1: Desk, rest: Trail, c: Command)
    requires Moves(w, w1, c) && Moving(w1, rest, c)
    ensures Moving(w, Then(w, rest), c)
  {
    hide Moves;
  }

  // Every call's trail moves.

  lemma {:induction false} FreshTasks(n: nat)
    requires n > 0
    ensures TasksOk(Awaiting, NewTasks(n)) && FirstPending(NewTasks(n)) == Some(0)
  {
  }

  /** Before execution the first task is the first pending one: `execute_next` always finds one. */
  lemma PendingIsFirst(p: Plan)
    requires p.header.status == Approved && TasksOk(p.header.status, p.tasks)
    ensures FirstPending(p.tasks) == Some(0)
  {
  }

  lemma PlanMoves(rules: Rules, w: Desk, id: Request, scope: Option<PlanScope>, now: int)
    requires Inv(w)
    ensures Moving(w, PlanTrail(rules, w, id, scope, now), MakePlan(id, scope, now))
  {
    hide Inv, Moving, MovesDelivery, MovesAcceptance, MovesCalls;
    var c := MakePlan(id, scope, now);
    StaysMoving(w, c);
    var trail := PlanTrail(rules, w, id, scope, now);
    if |trail.worlds| > 1 {
      var plan := trail.outcome.plan;
      FreshTasks(|scope.value.tasks|);
      var w1 := PutPlan(w, id, plan);
      StaysMoving(w1, c);
      assert MovesPlan(w, w1, c);
      ThenMoving(w, w1, Stay(w1, trail.outcome), c);
    }
  }

  lemma ApprovePlanMoves(rules: Rules, w: Desk, id: Request, expected: PlanScope, current: bool, now: int)
    requires Inv(w)
    ensures Moving(w, ApprovePlanTrail(rules, w, id, expected, current, now), ApprovePlan(id, expected, current, now))
  {
    hide Moving, MovesDelivery, MovesAcceptance, MovesCalls, DeliveriesOk, AcceptancesOk, CallsOk;
    var c := ApprovePlan(id, expected, current, now);
    StaysMoving(w, c);
    var trail := ApprovePlanTrail(rules, w, id, expected, current, now);
    if |trail.worlds| > 1 {
      var w1 := PutPlan(w, id, trail.outcome.plan);
      StaysMoving(w1, c);
      assert MovesPlan(w, w1, c);
      ThenMoving(w, w1, Stay(w1, trail.outcome), c);
    }
  }

  /** The record such a call would be made for has not started. */
  predicate Unstarted(w: Desk, call: Call) {
    match call
    case Executed(id, _) => id in w.plans && !Started(w.plans[id].header.status)
    case Delivered(id, _) => id in w.deliveries && !Started(w.deliveries[id].header.status)
    case Ran(id, _) => id in w.acceptances && !Started(w.acceptances[id].header.status)
  }

  lemma NoCallYet(w: Desk, call: Call)
    requires CallsOk(w) && Unstarted(w, call)
    ensures forall i :: 0 <= i < |w.calls| ==> !SameEffect(w.calls[i], call)
  {
    forall i | 0 <= i < |w.calls| ensures !SameEffect(w.calls[i], call) {
      assert CallOk(w, w.calls[i]);
    }
  }

  lemma BegunPlan(rules: Rules, w: Desk, c: Command, now: int)
    requires c.ExecuteNext? && c.confirmScope && c.confirmUsage && c.id in w.plans && c.expectedPlan == w.plans[c.id].scope
    requires PlansOk(w.plans) && CallsOk(w) && c.id in w.plans && w.plans[c.id].header.status == Approved
    requires BeginPlan(rules, w.plans[c.id], now).0.Some?
    ensures FirstPending(w.plans[c.id].tasks) == Some(0)
    ensures var began := BeginPlan(rules, w.plans[c.id], now).0.value;
      var w1 := PutPlan(w, c.id, began);
      && began.header.status == InProgress && PlanOk(c.id, began) && began.tasks[0].operation.Some?
      && MovesPlan(w, w1, c) && MovesCalls(w1, Called(w1, Executed(c.id, began)), c)
  {
    hide SameEffect, CallsOk;
    PendingIsFirst(w.plans[c.id]);
    var began := BeginPlan(rules, w.plans[c.id], now).0.value;
    NoCallYet(w, Executed(c.id, began));
  }

  lemma EndedPlan(rules: Rules, w: Desk, c: Command, turn: Option<Turn>, now: int)
    requires c.id in w.plans && PlanOk(c.id, w.plans[c.id]) && w.plans[c.id].header.status == InProgress
    ensures CompletePlan(rules, w.plans[c.id], 0, turn, now).Some? ==>
      MovesPlan(w, PutPlan(w, c.id, CompletePlan(rules, w.plans[c.id], 0, turn, now).value), c)
    ensures FailPlan(w.plans[c.id], 0, now).Some? ==>
      MovesPlan(w, PutPlan(w, c.id, FailPlan(w.plans[c.id], 0, now).value), c)
  {
  }

  lemma ExecuteMoves(rules: Rules, w: Desk, id: Request, expected: PlanScope, confirmScope: bool, confirmUsage: bool, current: bool,
                     turn: Option<Turn>, now: int, later: int, last: int)
    requires Inv(w)
    ensures Moving(w, ExecuteTrail(rules, w, id, expected, confirmScope, confirmUsage, current, turn, now, later, last), ExecuteNext(id, expected, confirmScope, confirmUsage, current, turn, now, later, last))
  {
    hide Moving, MovesPlan, MovesDelivery, MovesAcceptance, MovesCalls, PlansOk, CallsOk, DeliveriesOk, AcceptancesOk,
      BeginPlan, CompletePlan, FailPlan;
    var c := ExecuteNext(id, expected, confirmScope, confirmUsage, current, turn, now, later, last);
    StaysMoving(w, c);
    var trail := ExecuteTrail(rules, w, id, expected, confirmScope, confirmUsage, current, turn, now, later, last);
    if |trail.worlds| > 1 {
      BegunPlan(rules, w, c, now);
      var began := BeginPlan(rules, w.plans[id], now).0.value;
      var w1 := PutPlan(w, id, began);
      var w2 := Called(w1, Executed(id, began));
      EndedPlan(rules, w2, c, turn, later);
      EndedPlan(rules, w2, c, turn, last);
      var rest := Trail(trail.worlds[2..], trail.outcome);
      EndsMoving(w2, rest, c);
      assert trail == Then(w, Then(w1, rest));
      ThenMoving(w1, w2, rest, c);
      ThenMoving(w, w1, Then(w1, rest), c);
    }
  }

  lemma EndsMoving(w: Desk, rest: Trail, c: Command)
    requires 1 <= |rest.worlds| <= 2 && rest.worlds[0] == w && (|rest.worlds| == 2 ==> Moves(w, rest.worlds[1], c))
    ensures Moving(w, rest, c)
  {
    hide Moves;
  }

  lemma PrepareDeliveryMoves(rules: Rules, w: Desk, id: Request, evidence: Option<Evidence>, repository: string, base: string, now: int)
    requires Inv(w)
    ensures Moving(w, PrepareDeliveryTrail(rules, w, id, evidence, repository, base, now), PrepareDelivery(id, evidence, repository, base, now))
  {
    hide Moving, MovesPlan, MovesAcceptance, MovesCalls, DeliveriesOk, AcceptancesOk, CallsOk, TasksOk, Source;
    var c := PrepareDelivery(id, evidence, repository, base, now);
    StaysMoving(w, c);
    var trail := PrepareDeliveryTrail(rules, w, id, evidence, repository, base, now);
    if |trail.worlds| > 1 {
      var w1 := PutDelivery(w, id, trail.outcome.delivery);
      StaysMoving(w1, c);
      assert MovesDelivery(w, w1, c);
      ThenMoving(w, w1, Stay(w1, trail.outcome), c);
    }
  }

  lemma ApproveDeliveryMoves(rules: Rules, w: Desk, id: Request, expected: DeliveryScope, confirmed: bool, evidence: Option<Evidence>, now: int)
    requires Inv(w)
    ensures Moving(w, ApproveDeliveryTrail(rules, w, id, expected, confirmed, evidence, now), ApproveDelivery(id, expected, confirmed, evidence, now))
  {
    hide Moving, MovesPlan, MovesAcceptance, MovesCalls, PlansOk, AcceptancesOk, CallsOk, Source, BindsPlan;
    var c := ApproveDelivery(id, expected, confirmed, evidence, now);
    StaysMoving(w, c);
    var trail := ApproveDeliveryTrail(rules, w, id, expected, confirmed, evidence, now);
    if |trail.worlds| > 1 {
      var w1 := PutDelivery(w, id, trail.outcome.delivery);
      StaysMoving(w1, c);
      assert MovesDelivery(w, w1, c);
      ThenMoving(w, w1, Stay(w1, trail.outcome), c);
    }
  }

  lemma BegunDelivery(w: Desk, c: Command, now: int)
    requires c.Deliver? && c.confirmed && c.id in w.deliveries && c.expectedDelivery == w.deliveries[c.id].scope
    requires DeliveriesOk(w.plans, w.deliveries) && CallsOk(w) && c.id in w.deliveries && w.deliveries[c.id].header.status == Approved
    requires Construct(Began(w.deliveries[c.id].header, now)).Some?
    ensures var began := w.deliveries[c.id].(header := Began(w.deliveries[c.id].header, now));
      var w1 := PutDelivery(w, c.id, began);
      && DeliveryOk(c.id, began) && MovesDelivery(w, w1, c) && MovesCalls(w1, Called(w1, Delivered(c.id, began)), c)
  {
    hide SameEffect, CallsOk, BindsPlan;
    NoCallYet(w, Delivered(c.id, w.deliveries[c.id].(header := Began(w.deliveries[c.id].header, now))));
  }

  lemma EndedDelivery(rules: Rules, w: Desk, c: Command, draft: Option<DraftReceipt>, now: int)
    requires c.id in w.deliveries && DeliveryOk(c.id, w.deliveries[c.id]) && w.deliveries[c.id].header.status == InProgress
    ensures CompleteDelivery(rules, w.deliveries[c.id], draft, now).Some? ==>
      MovesDelivery(w, PutDelivery(w, c.id, CompleteDelivery(rules, w.deliveries[c.id], draft, now).value), c)
    ensures Construct(Failed(w.deliveries[c.id].header, now)).Some? ==>
      MovesDelivery(w, PutDelivery(w, c.id, w.deliveries[c.id].(header := Failed(w.deliveries[c.id].header, now))), c)
  {
  }

  lemma DeliverMoves(rules: Rules, w: Desk, id: Request, expected: DeliveryScope, confirmed: bool, evidence: Option<Evidence>,
                     preflight: bool, draft: Option<DraftReceipt>, now: int, later: int, last: int)
    requires Inv(w)
    ensures Moving(w, DeliverTrail(rules, w, id, expected, confirmed, evidence, preflight, draft, now, later, last), Deliver(id, expected, confirmed, evidence, preflight, draft, now, later, last))
  {
    hide Moving, MovesPlan, MovesDelivery, MovesAcceptance, MovesCalls, PlansOk, CallsOk, DeliveriesOk, AcceptancesOk,
      CompleteDelivery, Source, BindsPlan, Constructible, Failed, Began;
    var c := Deliver(id, expected, confirmed, evidence, preflight, draft, now, later, last);
    StaysMoving(w, c);
    var trail := DeliverTrail(rules, w, id, expected, confirmed, evidence, preflight, draft, now, later, last);
    if |trail.worlds| > 1 {
      BegunDelivery(w, c, now);
      var began := w.deliveries[id].(header := Began(w.deliveries[id].header, now));
      BeganIsInProgress(w.deliveries[id].header, now);
      var w1 := PutDelivery(w, id, began);
      var w2 := Called(w1, Delivered(id, began));
      EndedDelivery(rules, w2, c, draft, later);
      EndedDelivery(rules, w2, c, draft, last);
      var rest := Trail(trail.worlds[2..], trail.outcome);
      EndsMoving(w2, rest, c);
      assert trail == Then(w, Then(w1, rest));
      ThenMoving(w1, w2, rest, c);
      ThenMoving(w, w1, Then(w1, rest), c);
    }
  }

  lemma BeganIsInProgress(h: Header, now: int)
    ensures Began(h, now).status == InProgress
  {
  }

  lemma PrepareAcceptanceMoves(rules: Rules, w: Desk, id: Request, configuration: string, now: int)
    requires Inv(w)
    ensures Moving(w, PrepareAcceptanceTrail(rules, w, id, configuration, now), PrepareAcceptance(id, configuration, now))
  {
    hide Moving, MovesPlan, MovesDelivery, MovesCalls, PlansOk, AcceptancesOk, CallsOk;
    var c := PrepareAcceptance(id, configuration, now);
    StaysMoving(w, c);
    var trail := PrepareAcceptanceTrail(rules, w, id, configuration, now);
    if |trail.worlds| > 1 {
      DeliveryKnowsItsRequest(w, id);
      var w1 := PutAcceptance(w, id, trail.outcome.acceptance);
      StaysMoving(w1, c);
      assert MovesAcceptance(w, w1, c);
      ThenMoving(w, w1, Stay(w1, trail.outcome), c);
    }
  }

  lemma DeliveryKnowsItsRequest(w: Desk, id: Request)
    requires Inv(w) && id in w.deliveries
    ensures w.deliveries[id].scope.request == id
  {
  }

  lemma ApproveAcceptanceMoves(rules: Rules, w: Desk, id: Request, expected: AcceptanceScope, confirmed: bool, now: int)
    requires Inv(w)
    ensures Moving(w, ApproveAcceptanceTrail(rules, w, id, expected, confirmed, now), ApproveAcceptance(id, expected, confirmed, now))
  {
    hide Moving, MovesPlan, MovesDelivery, MovesCalls, PlansOk, DeliveriesOk, CallsOk, BindsDelivery;
    var c := ApproveAcceptance(id, expected, confirmed, now);
    StaysMoving(w, c);
    var trail := ApproveAcceptanceTrail(rules, w, id, expected, confirmed, now);
    if |trail.worlds| > 1 {
      var w1 := PutAcceptance(w, id, trail.outcome.acceptance);
      StaysMoving(w1, c);
      assert MovesAcceptance(w, w1, c);
      ThenMoving(w, w1, Stay(w1, trail.outcome), c);
    }
  }

  lemma BegunAcceptance(w: Desk, c: Command, now: int)
    requires c.Execute? && c.confirmDeployment && c.confirmBrowser && c.id in w.acceptances && c.expectedAcceptance == w.acceptances[c.id].scope
    requires AcceptancesOk(w.deliveries, w.acceptances) && CallsOk(w) && c.id in w.acceptances && w.acceptances[c.id].header.status == Approved
    requires Construct(Began(w.acceptances[c.id].header, now)).Some?
    ensures var began := w.acceptances[c.id].(header := Began(w.acceptances[c.id].header, now));
      var w1 := PutAcceptance(w, c.id, began);
      && AcceptanceOk(c.id, began) && MovesAcceptance(w, w1, c) && MovesCalls(w1, Called(w1, Ran(c.id, began)), c)
  {
    hide SameEffect, CallsOk, BindsDelivery;
    NoCallYet(w, Ran(c.id, w.acceptances[c.id].(header := Began(w.acceptances[c.id].header, now))));
  }

  lemma EndedAcceptance(rules: Rules, w: Desk, c: Command, evidence: Option<EvidenceReceipt>, now: int)
    requires c.id in w.acceptances && AcceptanceOk(c.id, w.acceptances[c.id]) && w.acceptances[c.id].header.status == InProgress
    ensures CompleteAcceptance(rules, w.acceptances[c.id], evidence, now).Some? ==>
      MovesAcceptance(w, PutAcceptance(w, c.id, CompleteAcceptance(rules, w.acceptances[c.id], evidence, now).value), c)
    ensures Construct(Failed(w.acceptances[c.id].header, now)).Some? ==>
      MovesAcceptance(w, PutAcceptance(w, c.id, w.acceptances[c.id].(header := Failed(w.acceptances[c.id].header, now))), c)
  {
  }

  lemma RunMoves(rules: Rules, w: Desk, id: Request, expected: AcceptanceScope, confirmDeployment: bool, confirmBrowser: bool, planKept: bool, preflight: bool,
                 evidence: Option<EvidenceReceipt>, now: int, later: int, last: int)
    requires Inv(w)
    ensures Moving(w, RunTrail(rules, w, id, expected, confirmDeployment, confirmBrowser, planKept, preflight, evidence, now, later, last), Execute(id, expected, confirmDeployment, confirmBrowser, planKept, preflight, evidence, now, later, last))
  {
    hide Moving, MovesPlan, MovesDelivery, MovesAcceptance, MovesCalls, PlansOk, CallsOk, DeliveriesOk, AcceptancesOk,
      CompleteAcceptance, BindsDelivery, Constructible, Failed, Began;
    var c := Execute(id, expected, confirmDeployment, confirmBrowser, planKept, preflight, evidence, now, later, last);
    StaysMoving(w, c);
    var trail := RunTrail(rules, w, id, expected, confirmDeployment, confirmBrowser, planKept, preflight, evidence, now, later, last);
    if |trail.worlds| > 1 {
      BegunAcceptance(w, c, now);
      var began := w.acceptances[id].(header := Began(w.acceptances[id].header, now));
      BeganIsInProgress(w.acceptances[id].header, now);
      var w1 := PutAcceptance(w, id, began);
      var w2 := Called(w1, Ran(id, began));
      EndedAcceptance(rules, w2, c, evidence, later);
      EndedAcceptance(rules, w2, c, evidence, last);
      var rest := Trail(trail.worlds[2..], trail.outcome);
      EndsMoving(w2, rest, c);
      assert trail == Then(w, Then(w1, rest));
      ThenMoving(w1, w2, rest, c);
      ThenMoving(w, w1, Then(w1, rest), c);
    }
  }

  /** Every call only moves, one atomic step at a time. */
  lemma CallsOnlyMove(rules: Rules, w: Desk, c: Command)
    requires Inv(w)
    ensures Moving(w, TrailOf(rules, w, c), c)
  {
    hide Inv, Moving, PlanTrail, ApprovePlanTrail, ExecuteTrail, PrepareDeliveryTrail, ApproveDeliveryTrail, DeliverTrail,
      PrepareAcceptanceTrail, ApproveAcceptanceTrail, RunTrail;
    match c
    case MakePlan(id, scope, now) => PlanMoves(rules, w, id, scope, now);
    case ApprovePlan(id, expected, current, now) => ApprovePlanMoves(rules, w, id, expected, current, now);
    case ExecuteNext(id, expected, confirmScope, confirmUsage, current, turn, now, later, last) =>
      ExecuteMoves(rules, w, id, expected, confirmScope, confirmUsage, current, turn, now, later, last);
    case PrepareDelivery(id, evidence, repository, base, now) => PrepareDeliveryMoves(rules, w, id, evidence, repository, base, now);
    case ApproveDelivery(id, expected, confirmed, evidence, now) => ApproveDeliveryMoves(rules, w, id, expected, confirmed, evidence, now);
    case Deliver(id, expected, confirmed, evidence, preflight, draft, now, later, last) =>
      DeliverMoves(rules, w, id, expected, confirmed, evidence, preflight, draft, now, later, last);
    case PrepareAcceptance(id, configuration, now) => PrepareAcceptanceMoves(rules, w, id, configuration, now);
    case ApproveAcceptance(id, expected, confirmed, now) => ApproveAcceptanceMoves(rules, w, id, expected, confirmed, now);
    case Execute(id, expected, confirmDeployment, confirmBrowser, planKept, preflight, receipt, now, later, last) =>
      RunMoves(rules, w, id, expected, confirmDeployment, confirmBrowser, planKept, preflight, receipt, now, later, last);
  }
}
