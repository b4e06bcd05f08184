/** The three customer services over mutable stores. Every method goes through exactly the worlds of
    its trail, up to the durable step the process dies before. */
module CustomerServices {
  import opened Wrappers
  import opened ApprovalRecords
  import opened CustomerDesk
  import opened CustomerRuns
  import CustomerSafety

  /** How a call ends; no outcome means that the process died. */
  datatype Goal = Goal(world: Desk, outcome: Option<Outcome>, remaining: nat)

  ghost function GoalOf(trail: Trail, fuel: nat): Goal
    requires trail.worlds != []
  {
    var steps := |trail.worlds| - 1;
    Goal(Left(trail, fuel), if fuel < steps then None else Some(trail.outcome), if fuel < steps then 0 else fuel - steps)
  }

  lemma GoalStay(w: Desk, outcome: Outcome, fuel: nat)
    ensures GoalOf(Stay(w, outcome), fuel) == Goal(w, Some(outcome), fuel)
  {
  }

  lemma GoalRefuse(w: Desk, fuel: nat)
    ensures forall error :: GoalOf(Refuse(w, error), fuel) == Goal(w, Some(Raised(error)), fuel)
  {
    forall error ensures GoalOf(Refuse(w, error), fuel) == Goal(w, Some(Raised(error)), fuel) {
      GoalStay(w, Raised(error), fuel);
    }
  }

  lemma GoalThen(w: Desk, rest: Trail, fuel: nat)
    requires rest.worlds != []
    ensures Then(w, rest).worlds != []
    ensures GoalOf(Then(w, rest), fuel) == if fuel == 0 then Goal(w, None, 0) else GoalOf(rest, fuel - 1)
  {
  }

  class CustomerStores {
    var plans: map<Request, Plan>
    var deliveries: map<Request, Delivery>
    var acceptances: map<Request, Acceptance>
    var calls: seq<Call>
    var remaining: nat

    constructor (remaining: nat)
      ensures Now() == NOTHING && this.remaining == remaining
    {
      plans, deliveries, acceptances, calls := map[], map[], map[], [];
      this.remaining := remaining;
    }

    function Now(): Desk
      reads this
    {
      Desk(plans, deliveries, acceptances, calls)
    }

    ghost predicate Did(trail: Trail, fuel: nat, outcome: Option<Outcome>)
      requires trail.worlds != []
      reads this
    {
      GoalOf(trail, fuel) == Goal(Now(), outcome, remaining)
    }

    /** One durable step, unless the process dies before it. */
    ghost predicate Stepped(before: Desk, after: Desk, fuel: nat, alive: bool)
      reads this
    {
      alive == (fuel > 0) && Now() == (if alive then after else before) && remaining == (if alive then fuel - 1 else 0)
    }

    method WritePlan(id: Request, plan: Plan) returns (alive: bool)
      modifies this
      ensures Stepped(old(Now()), PutPlan(old(Now()), id, plan), old(remaining), alive)
    {
      if remaining == 0 {
        return false;
      }
      plans, remaining := plans[id := plan], remaining - 1;
      alive := true;
    }

    method WriteDelivery(id: Request, delivery: Delivery) returns (alive: bool)
      modifies this
      ensures Stepped(old(Now()), PutDelivery(old(Now()), id, delivery), old(remaining), alive)
    {
      if remaining == 0 {
        return false;
      }
      deliveries, remaining := deliveries[id := delivery], remaining - 1;
      alive := true;
    }

    method WriteAcceptance(id: Request, acceptance: Acceptance) returns (alive: bool)
      modifies this
      ensures Stepped(old(Now()), PutAcceptance(old(Now()), id, acceptance), old(remaining), alive)
    {
      if remaining == 0 {
        return false;
      }
      acceptances, remaining := acceptances[id := acceptance], remaining - 1;
      alive := true;
    }

    /** `replace` of the execution store: compare with the expected record, keep the scope, write. */
    method ReplacePlan(id: Request, plan: Plan, expected: Plan) returns (alive: bool, reply: StoreReply<Plan>)
      modifies this
      ensures reply.Absent? <==> id !in old(plans)
      ensures reply.Stored? <==> id in old(plans) && old(plans)[id] == expected && plan.scope == expected.scope
      ensures reply.Absent? || reply.Conflict? || reply == Stored(plan)
      ensures if reply.Stored? then Stepped(old(Now()), PutPlan(old(Now()), id, plan), old(remaining), alive)
              else alive && Now() == old(Now()) && remaining == old(remaining)
    {
      reply := ReplaceReply(plans, id, plan, expected, SamePlanScope);
      alive := true;
      if reply.Stored? {
        alive := WritePlan(id, plan);
      }
    }

    method ReplaceDelivery(id: Request, delivery: Delivery, expected: Delivery) returns (alive: bool, reply: StoreReply<Delivery>)
      modifies this
      ensures reply.Absent? <==> id !in old(deliveries)
      ensures reply.Stored? <==> id in old(deliveries) && old(deliveries)[id] == expected && delivery.scope == expected.scope
      ensures reply.Absent? || reply.Conflict? || reply == Stored(delivery)
      ensures if reply.Stored? then Stepped(old(Now()), PutDelivery(old(Now()), id, delivery), old(remaining), alive)
              else alive && Now() == old(Now()) && remaining == old(remaining)
    {
      reply := ReplaceReply(deliveries, id, delivery, expected, SameDeliveryScope);
      alive := true;
      if reply.Stored? {
        alive := WriteDelivery(id, delivery);
      }
    }

    method ReplaceAcceptance(id: Request, acceptance: Acceptance, expected: Acceptance) returns (alive: bool, reply: StoreReply<Acceptance>)
      modifies this
      ensures reply.Absent? <==> id !in old(acceptances)
      ensures reply.Stored? <==> id in old(acceptances) && old(acceptances)[id] == expected && acceptance.scope == expected.scope
      ensures reply.Absent? || reply.Conflict? || reply == Stored(acceptance)
      ensures if reply.Stored? then Stepped(old(Now()), PutAcceptance(old(Now()), id, acceptance), old(remaining), alive)
              else alive && Now() == old(Now()) && remaining == old(remaining)
    {
      reply := ReplaceReply(acceptances, id, acceptance, expected, SameAcceptanceScope);
      alive := true;
      if reply.Stored? {
        alive := WriteAcceptance(id, acceptance);
      }
    }

    /** The adapter's effect method is invoked. */
    method CallAdapter(call: Call) returns (alive: bool)
      modifies this
      ensures Stepped(old(Now()), Called(old(Now()), call), old(remaining), alive)
    {
      if remaining == 0 {
        return false;
      }
      calls, remaining := calls + [call], remaining - 1;
      alive := true;
    }
  }

  class CustomerExecutionService {
    const rules: Rules
    const store: CustomerStores

    constructor (rules: Rules, store: CustomerStores)
      ensures this.rules == rules && this.store == store
    {
      this.rules, this.store := rules, store;
    }

    method MakePlan(id: Request, scope: Option<PlanScope>, now: int) returns (outcome: Option<Outcome>)
      modifies store
      ensures var trail := PlanTrail(rules, old(store.Now()), id, scope, now);
        trail.worlds != [] && store.Did(trail, old(store.remaining), outcome)
    {
      hide GoalOf, Fresh;
      GoalRefuse(store.Now(), store.remaining);
      if !rules.configured {
        return Some(Raised(NotConfigured));
      }
      if scope.None? {
        return Some(Raised(PolicyViolation));
      }
      if !ValidTasks(scope.value.tasks) || !rules.validPlan(scope.value) {
        return Some(Raised(InvalidValue));
      }
      var plan := Plan(scope.value.(request := id), Fresh(now), NewTasks(|scope.value.tasks|));
      match CreateReply(store.plans, id, plan, SamePlanScope)
      case Created(created) =>
        var after := Stay(PutPlan(store.Now(), id, created), PlanReturned(created));
        GoalThen(store.Now(), after, store.remaining);
        GoalStay(PutPlan(store.Now(), id, created), PlanReturned(created), if store.remaining > 0 then store.remaining - 1 else 0);
        var alive := store.WritePlan(id, created);
        outcome := if alive then Some(PlanReturned(created)) else None;
      case Stored(stored) =>
        GoalStay(store.Now(), PlanReturned(stored), store.remaining);
        outcome := Some(PlanReturned(stored));
      case _ =>
        outcome := Some(Raised(ConflictError));
    }

    method Approve(id: Request, expected: PlanScope, current: bool, now: int) returns (outcome: Option<Outcome>)
      modifies store
      ensures var trail := ApprovePlanTrail(rules, old(store.Now()), id, expected, current, now);
        trail.worlds != [] && store.Did(trail, old(store.remaining), outcome)
    {
      hide GoalOf, Constructible, ApprovedBy;
      GoalRefuse(store.Now(), store.remaining);
      if !rules.configured {
        return Some(Raised(NotConfigured));
      }
      if id !in store.plans {
        return Some(Raised(NoRecord));
      }
      var plan := store.plans[id];
      if plan.header.status != Awaiting {
        GoalStay(store.Now(), PlanReturned(plan), store.remaining);
        return Some(if plan.header.status == Approved && plan.scope == expected then PlanReturned(plan) else Raised(ConflictError));
      }
      if plan.scope != expected || !current {
        return Some(Raised(ConflictError));
      }
      var header := Construct(ApprovedBy(plan.header, id.customer, now));
      if header.None? {
        return Some(Raised(InvalidValue));
      }
      var approved := plan.(header := header.value);
      outcome := ReplaceAndReturn(id, plan, approved, PlanReturned(approved));
    }

    /** Store the next version of the stored plan and return; the comparison always succeeds. */
    method ReplaceAndReturn(id: Request, expected: Plan, plan: Plan, result: Outcome) returns (outcome: Option<Outcome>)
      requires id in store.plans && store.plans[id] == expected && plan.scope == expected.scope
      modifies store
      ensures var trail := Then(old(store.Now()), Stay(PutPlan(old(store.Now()), id, plan), result));
        store.Did(trail, old(store.remaining), outcome)
    {
      hide GoalOf;
      ghost var w1 := PutPlan(store.Now(), id, plan);
      GoalThen(store.Now(), Stay(w1, result), store.remaining);
      GoalStay(w1, result, if store.remaining > 0 then store.remaining - 1 else 0);
      var alive, reply := store.ReplacePlan(id, plan, expected);
      assert reply == Stored(plan);
      outcome := if alive then Some(result) else None;
    }

    /** `execute_next`: the in-progress plan is durable before the coding turn starts. */
    method ExecuteNext(id: Request, expected: PlanScope, confirmScope: bool, confirmUsage: bool, current: bool,
                       turn: Option<Turn>, now: int, later: int, last: int) returns (outcome: Option<Outcome>)
      modifies store
      ensures var trail := ExecuteTrail(rules, old(store.Now()), id, expected, confirmScope, confirmUsage, current, turn, now, later, last);
        trail.worlds != [] && store.Did(trail, old(store.remaining), outcome)
    {
      hide GoalOf, BeginPlan, CompletePlan, FailPlan;
      GoalRefuse(store.Now(), store.remaining);
      if !rules.configured || !rules.live {
        return Some(Raised(NotConfigured));
      }
      if !confirmScope || !confirmUsage {
        return Some(Raised(PolicyViolation));
      }
      if id !in store.plans {
        return Some(Raised(NoRecord));
      }
      var plan := store.plans[id];
      if plan.header.status != Approved || plan.scope != expected || !current {
        return Some(Raised(ConflictError));
      }
      var (begun, error) := BeginPlan(rules, plan, now);
      if begun.None? {
        return Some(Raised(error));
      }
      BeginKeeps(rules, plan, now);
      var began := begun.value;
      var i := NextPending(plan.tasks);
      ghost var w1 := PutPlan(store.Now(), id, began);
      ghost var w2 := Called(w1, Executed(id, began));
      ghost var end := PlanEnd(rules, w2, id, began, i, turn, later, last);
      GoalThen(store.Now(), Then(w1, end), store.remaining);
      var alive, reply := store.ReplacePlan(id, began, plan);
      assert reply == Stored(began);
      if !alive {
        return None;
      }
      GoalThen(w1, end, store.remaining);
      alive := store.CallAdapter(Executed(id, began));
      if !alive {
        return None;
      }
      outcome := FinishTurn(id, began, i, turn, later, last);
    }

    /** The loop over the tasks: the index of the first pending one. */
    method NextPending(tasks: seq<Task>) returns (index: nat)
      requires FirstPending(tasks).Some?
      ensures index == FirstPending(tasks).value
    {
      index := 0;
      while tasks[index].status != Pending
        invariant index < |tasks| && FirstPending(tasks[index..]).Some?
        invariant FirstPending(tasks).value == index + FirstPending(tasks[index..]).value
        decreases |tasks| - index
      {
        assert tasks[index..][1..] == tasks[index + 1..];
        index := index + 1;
      }
    }

    method FinishTurn(id: Request, began: Plan, i: nat, turn: Option<Turn>, later: int, last: int) returns (outcome: Option<Outcome>)
      requires id in store.plans && store.plans[id] == began && i < |began.tasks|
      modifies store
      ensures store.Did(PlanEnd(rules, old(store.Now()), id, began, i, turn, later, last), old(store.remaining), outcome)
    {
      hide GoalOf;
      GoalRefuse(store.Now(), store.remaining);
      var review := CompletePlan(rules, began, i, turn, later);
      if review.Some? {
        outcome := ReplaceAndReturn(id, began, review.value, PlanReturned(review.value));
        return;
      }
      var failed := FailPlan(began, i, last);
      if failed.None? {
        return Some(Raised(InvalidValue));
      }
      outcome := ReplaceAndReturn(id, began, failed.value, Raised(ReconciliationRequired));
    }
  }

  /** What follows the coding turn. */
  function PlanEnd(rules: Rules, w: Desk, id: Request, began: Plan, i: nat, turn: Option<Turn>, later: int, last: int): (end: Trail)
    requires i < |began.tasks|
    ensures end.worlds != []
  {
    match CompletePlan(rules, began, i, turn, later)
    case Some(review) => Then(w, Stay(PutPlan(w, id, review), PlanReturned(review)))
    case None =>
      match FailPlan(began, i, last)
      case Some(failed) => Then(w, Stay(PutPlan(w, id, failed), Raised(ReconciliationRequired)))
      case None => Refuse(w, InvalidValue)
  }

  lemma BeginKeeps(rules: Rules, plan: Plan, now: int)
    requires BeginPlan(rules, plan, now).0.Some?
    ensures FirstPending(plan.tasks).Some?
    ensures var began := BeginPlan(rules, plan, now).0.value;
      began.scope == plan.scope && |began.tasks| == |plan.tasks| && FirstPending(plan.tasks).value < |began.tasks|
  {
  }

  class CustomerDeliveryService {
    const rules: Rules
    const store: CustomerStores

    constructor (rules: Rules, store: CustomerStores)
      ensures this.rules == rules && this.store == store
    {
      this.rules, this.store := rules, store;
    }

    method Prepare(id: Request, evidence: Option<Evidence>, repository: string, base: string, now: int) returns (outcome: Option<Outcome>)
      modifies store
      ensures var trail := PrepareDeliveryTrail(rules, old(store.Now()), id, evidence, repository, base, now);
        trail.worlds != [] && store.Did(trail, old(store.remaining), outcome)
    {
      hide GoalOf, Fresh, Source;
      GoalRefuse(store.Now(), store.remaining);
      if !rules.configured {
        return Some(Raised(NotConfigured));
      }
      if !Reviewable(store.Now(), id) {
        return Some(Raised(ConflictError));
      }
      var plan := store.plans[id];
      var source := Source(plan, evidence);
      if source.None? {
        return Some(Raised(PolicyViolation));
      }
      var scope := DeliveryScope(id, plan.scope.product, plan, plan.scope, plan.scope.workspace,
                                 source.value.0, source.value.1, repository, base);
      if !rules.validReview(scope) {
        return Some(Raised(InvalidValue));
      }
      match CreateReply(store.deliveries, id, Delivery(scope, Fresh(now), None), SameDeliveryScope)
      case Created(created) =>
        var after := Stay(PutDelivery(store.Now(), id, created), DeliveryReturned(created));
        GoalThen(store.Now(), after, store.remaining);
        GoalStay(PutDelivery(store.Now(), id, created), DeliveryReturned(created), if store.remaining > 0 then store.remaining - 1 else 0);
        var alive := store.WriteDelivery(id, created);
        outcome := if alive then Some(DeliveryReturned(created)) else None;
      case Stored(stored) =>
        GoalStay(store.Now(), DeliveryReturned(stored), store.remaining);
        outcome := Some(DeliveryReturned(stored));
      case _ =>
        outcome := Some(Raised(ConflictError));
    }

    method ReplaceAndReturn(id: Request, expected: Delivery, delivery: Delivery, result: Outcome) returns (outcome: Option<Outcome>)
      requires id in store.deliveries && store.deliveries[id] == expected && delivery.scope == expected.scope
      modifies store
      ensures var trail := Then(old(store.Now()), Stay(PutDelivery(old(store.Now()), id, delivery), result));
        store.Did(trail, old(store.remaining), outcome)
    {
      hide GoalOf;
      ghost var w1 := PutDelivery(store.Now(), id, delivery);
      GoalThen(store.Now(), Stay(w1, result), store.remaining);
      GoalStay(w1, result, if store.remaining > 0 then store.remaining - 1 else 0);
      var alive, reply := store.ReplaceDelivery(id, delivery, expected);
      assert reply == Stored(delivery);
      outcome := if alive then Some(result) else None;
    }

    method Approve(id: Request, expected: DeliveryScope, confirmed: bool, evidence: Option<Evidence>, now: int) returns (outcome: Option<Outcome>)
      modifies store
      ensures var trail := ApproveDeliveryTrail(rules, old(store.Now()), id, expected, confirmed, evidence, now);
        trail.worlds != [] && store.Did(trail, old(store.remaining), outcome)
    {
      hide GoalOf, Source, Constructible, ApprovedBy, BindsPlan;
      GoalRefuse(store.Now(), store.remaining);
      if !confirmed {
        return Some(Raised(PolicyViolation));
      }
      if !Reviewable(store.Now(), id) {
        return Some(Raised(ConflictError));
      }
      if id !in store.deliveries {
        return Some(Raised(NoRecord));
      }
      var plan, review := store.plans[id], store.deliveries[id];
      if !BindsPlan(review.scope, plan) {
        return Some(Raised(PolicyViolation));
      }
      if review.header.status == Approved {
        GoalStay(store.Now(), DeliveryReturned(review), store.remaining);
        return Some(if review.scope == expected then DeliveryReturned(review) else Raised(ConflictError));
      }
      if review.header.status != Awaiting || review.scope != expected {
        return Some(Raised(ConflictError));
      }
      var source := Source(plan, evidence);
      if source.None? || source.value.1 != review.scope.evidence {
        return Some(Raised(PolicyViolation));
      }
      var header := Construct(ApprovedBy(review.header, id.customer, now));
      if header.None? {
        return Some(Raised(InvalidValue));
      }
      var approved := review.(header := header.value);
      outcome := ReplaceAndReturn(id, review, approved, DeliveryReturned(approved));
    }

    /** `deliver`: the in-progress review is durable before the adapter delivers. */
    method Deliver(id: Request, expected: DeliveryScope, confirmed: bool, evidence: Option<Evidence>,
                   preflight: bool, draft: Option<DraftReceipt>, now: int, later: int, last: int) returns (outcome: Option<Outcome>)
      modifies store
      ensures var trail := DeliverTrail(rules, old(store.Now()), id, expected, confirmed, evidence, preflight, draft, now, later, last);
        trail.worlds != [] && store.Did(trail, old(store.remaining), outcome)
    {
      hide GoalOf, Source, Constructible, Began, BindsPlan, CompleteDelivery, Failed;
      GoalRefuse(store.Now(), store.remaining);
      if !rules.configured || !rules.live {
        return Some(Raised(NotConfigured));
      }
      if !confirmed {
        return Some(Raised(PolicyViolation));
      }
      if !Reviewable(store.Now(), id) {
        return Some(Raised(ConflictError));
      }
      if id !in store.deliveries {
        return Some(Raised(NoRecord));
      }
      var plan, review := store.plans[id], store.deliveries[id];
      if !BindsPlan(review.scope, plan) {
        return Some(Raised(PolicyViolation));
      }
      if review.header.status == Done {
        GoalStay(store.Now(), DeliveryReturned(review), store.remaining);
        return Some(if review.scope == expected then DeliveryReturned(review) else Raised(ConflictError));
      }
      if review.header.status != Approved || review.scope != expected {
        return Some(Raised(ConflictError));
      }
      if Source(plan, evidence).None? || !preflight {
        return Some(Raised(PolicyViolation));
      }
      var header := Construct(Began(review.header, now));
      if header.None? {
        return Some(Raised(InvalidValue));
      }
      var began := review.(header := header.value);
      ghost var w1 := PutDelivery(store.Now(), id, began);
      ghost var w2 := Called(w1, Delivered(id, began));
      ghost var end := DeliveryEnd(rules, w2, id, began, draft, later, last);
      GoalThen(store.Now(), Then(w1, end), store.remaining);
      var alive, reply := store.ReplaceDelivery(id, began, review);
      assert reply == Stored(began);
      if !alive {
        return None;
      }
      GoalThen(w1, end, store.remaining);
      alive := store.CallAdapter(Delivered(id, began));
      if !alive {
        return None;
      }
      outcome := FinishDelivery(id, began, draft, later, last);
    }

    method FinishDelivery(id: Request, began: Delivery, draft: Option<DraftReceipt>, later: int, last: int) returns (outcome: Option<Outcome>)
      requires id in store.deliveries && store.deliveries[id] == began
      modifies store
      ensures store.Did(DeliveryEnd(rules, old(store.Now()), id, began, draft, later, last), old(store.remaining), outcome)
    {
      hide GoalOf, Constructible, Failed;
      GoalRefuse(store.Now(), store.remaining);
      var delivered := CompleteDelivery(rules, began, draft, later);
      if delivered.Some? {
        outcome := ReplaceAndReturn(id, began, delivered.value, DeliveryReturned(delivered.value));
        return;
      }
      var failed := Construct(Failed(began.header, last));
      if failed.None? {
        return Some(Raised(InvalidValue));
      }
      outcome := ReplaceAndReturn(id, began, began.(header := failed.value), Raised(ReconciliationRequired));
    }
  }

  /** What follows the adapter's delivery. */
  function DeliveryEnd(rules: Rules, w: Desk, id: Request, began: Delivery, draft: Option<DraftReceipt>, later: int, last: int): (end: Trail)
    ensures end.worlds != []
  {
    match CompleteDelivery(rules, began, draft, later)
    case Some(delivered) => Then(w, Stay(PutDelivery(w, id, delivered), DeliveryReturned(delivered)))
    case None =>
      match Construct(Failed(began.header, last))
      case Some(failed) => Then(w, Stay(PutDelivery(w, id, began.(header := failed)), Raised(ReconciliationRequired)))
      case None => Refuse(w, InvalidValue)
  }

  class CustomerAcceptanceService {
    const rules: Rules
    const store: CustomerStores

    constructor (rules: Rules, store: CustomerStores)
      ensures this.rules == rules && this.store == store
    {
      this.rules, this.store := rules, store;
    }

    method Prepare(id: Request, configuration: string, now: int) returns (outcome: Option<Outcome>)
      modifies store
      ensures var trail := PrepareAcceptanceTrail(rules, old(store.Now()), id, configuration, now);
        trail.worlds != [] && store.Did(trail, old(store.remaining), outcome)
    {
      hide GoalOf, Fresh;
      GoalRefuse(store.Now(), store.remaining);
      if !rules.configured {
        return Some(Raised(NotConfigured));
      }
      if !Delivers(store.Now(), id) {
        return Some(Raised(ConflictError));
      }
      var delivery := store.deliveries[id];
      var receipt := delivery.receipt.value;
      if |receipt.commit| != 40 || |receipt.tree| != 40 {
        return Some(Raised(PolicyViolation));
      }
      var scope := AcceptanceScope(id, delivery.scope.product, delivery, delivery.scope, delivery.scope.repository,
                                   delivery.scope.base, delivery.scope.workspace.branch, receipt, configuration);
      if !rules.validAcceptance(scope) {
        return Some(Raised(InvalidValue));
      }
      match CreateReply(store.acceptances, id, Acceptance(scope, Fresh(now), None), SameAcceptanceScope)
      case Created(created) =>
        var after := Stay(PutAcceptance(store.Now(), id, created), AcceptanceReturned(created));
        GoalThen(store.Now(), after, store.remaining);
        GoalStay(PutAcceptance(store.Now(), id, created), AcceptanceReturned(created), if store.remaining > 0 then store.remaining - 1 else 0);
        var alive := store.WriteAcceptance(id, created);
        outcome := if alive then Some(AcceptanceReturned(created)) else None;
      case Stored(stored) =>
        GoalStay(store.Now(), AcceptanceReturned(stored), store.remaining);
        outcome := Some(AcceptanceReturned(stored));
      case _ =>
        outcome := Some(Raised(ConflictError));
    }

    method ReplaceAndReturn(id: Request, expected: Acceptance, acceptance: Acceptance, result: Outcome) returns (outcome: Option<Outcome>)
      requires id in store.acceptances && store.acceptances[id] == expected && acceptance.scope == expected.scope
      modifies store
      ensures var trail := Then(old(store.Now()), Stay(PutAcceptance(old(store.Now()), id, acceptance), result));
        store.Did(trail, old(store.remaining), outcome)
    {
      hide GoalOf;
      ghost var w1 := PutAcceptance(store.Now(), id, acceptance);
      GoalThen(store.Now(), Stay(w1, result), store.remaining);
      GoalStay(w1, result, if store.remaining > 0 then store.remaining - 1 else 0);
      var alive, reply := store.ReplaceAcceptance(id, acceptance, expected);
      assert reply == Stored(acceptance);
      outcome := if alive then Some(result) else None;
    }

    method Approve(id: Request, expected: AcceptanceScope, confirmed: bool, now: int) returns (outcome: Option<Outcome>)
      modifies store
      ensures var trail := ApproveAcceptanceTrail(rules, old(store.Now()), id, expected, confirmed, now);
        trail.worlds != [] && store.Did(trail, old(store.remaining), outcome)
    {
      hide GoalOf, Constructible, ApprovedBy, BindsDelivery;
      GoalRefuse(store.Now(), store.remaining);
      if !confirmed {
        return Some(Raised(PolicyViolation));
      }
      if !Delivers(store.Now(), id) {
        return Some(Raised(ConflictError));
      }
      if id !in store.acceptances {
        return Some(Raised(NoRecord));
      }
      var record := store.acceptances[id];
      if !BindsDelivery(record.scope, store.deliveries[id]) {
        return Some(Raised(PolicyViolation));
      }
      if record.header.status == Approved {
        GoalStay(store.Now(), AcceptanceReturned(record), store.remaining);
        return Some(if record.scope == expected then AcceptanceReturned(record) else Raised(ConflictError));
      }
      if record.header.status != Awaiting || record.scope != expected {
        return Some(Raised(ConflictError));
      }
      var header := Construct(ApprovedBy(record.header, id.customer, now));
      if header.None? {
        return Some(Raised(InvalidValue));
      }
      var approved := record.(header := header.value);
      outcome := ReplaceAndReturn(id, record, approved, AcceptanceReturned(approved));
    }

    /** `execute`: the in-progress record is durable before preview and browser run. */
    method Execute(id: Request, expected: AcceptanceScope, confirmDeployment: bool, confirmBrowser: bool, planKept: bool, preflight: bool,
                   evidence: Option<EvidenceReceipt>, now: int, later: int, last: int) returns (outcome: Option<Outcome>)
      modifies store
      ensures var trail := RunTrail(rules, old(store.Now()), id, expected, confirmDeployment, confirmBrowser, planKept, preflight, evidence, now, later, last);
        trail.worlds != [] && store.Did(trail, old(store.remaining), outcome)
    {
      hide GoalOf, Constructible, Began, BindsDelivery, CompleteAcceptance, Failed;
      GoalRefuse(store.Now(), store.remaining);
      if !rules.configured || !rules.live {
        return Some(Raised(NotConfigured));
      }
      if !confirmDeployment || !confirmBrowser {
        return Some(Raised(PolicyViolation));
      }
      if !Delivers(store.Now(), id) {
        return Some(Raised(ConflictError));
      }
      if id !in store.acceptances {
        return Some(Raised(NoRecord));
      }
      var record := store.acceptances[id];
      if !BindsDelivery(record.scope, store.deliveries[id]) {
        return Some(Raised(PolicyViolation));
      }
      if record.header.status == Done {
        GoalStay(store.Now(), AcceptanceReturned(record), store.remaining);
        return Some(if record.scope == expected then AcceptanceReturned(record) else Raised(ConflictError));
      }
      if record.header.status != Approved || record.scope != expected {
        return Some(Raised(ConflictError));
      }
      if !planKept || !preflight {
        return Some(Raised(PolicyViolation));
      }
      var header := Construct(Began(record.header, now));
      if header.None? {
        return Some(Raised(InvalidValue));
      }
      var began := record.(header := header.value);
      ghost var w1 := PutAcceptance(store.Now(), id, began);
      ghost var w2 := Called(w1, Ran(id, began));
      ghost var end := AcceptanceEnd(rules, w2, id, began, evidence, later, last);
      GoalThen(store.Now(), Then(w1, end), store.remaining);
      var alive, reply := store.ReplaceAcceptance(id, began, record);
      assert reply == Stored(began);
      if !alive {
        return None;
      }
      GoalThen(w1, end, store.remaining);
      alive := store.CallAdapter(Ran(id, began));
      if !alive {
        return None;
      }
      outcome := FinishAcceptance(id, began, evidence, later, last);
    }

    method FinishAcceptance(id: Request, began: Acceptance, evidence: Option<EvidenceReceipt>, later: int, last: int) returns (outcome: Option<Outcome>)
      requires id in store.acceptances && store.acceptances[id] == began
      modifies store
      ensures store.Did(AcceptanceEnd(rules, old(store.Now()), id, began, evidence, later, last), old(store.remaining), outcome)
    {
      hide GoalOf, Constructible, Failed;
      GoalRefuse(store.Now(), store.remaining);
      var ready := CompleteAcceptance(rules, began, evidence, later);
      if ready.Some? {
        outcome := ReplaceAndReturn(id, began, ready.value, AcceptanceReturned(ready.value));
        return;
      }
      var failed := Construct(Failed(began.header, last));
      if failed.None? {
        return Some(Raised(InvalidValue));
      }
      outcome := ReplaceAndReturn(id, began, began.(header := failed.value), Raised(ReconciliationRequired));
    }
  }

  /** What follows the preview and browser run. */
  function AcceptanceEnd(rules: Rules, w: Desk, id: Request, began: Acceptance, evidence: Option<EvidenceReceipt>, later: int, last: int): (end: Trail)
    ensures end.worlds != []
  {
    match CompleteAcceptance(rules, began, evidence, later)
    case Some(ready) => Then(w, Stay(PutAcceptance(w, id, ready), AcceptanceReturned(ready)))
    case None =>
      match Construct(Failed(began.header, last))
      case Some(failed) => Then(w, Stay(PutAcceptance(w, id, began.(header := failed)), Raised(ReconciliationRequired)))
      case None => Refuse(w, InvalidValue)
  }

  /** A call that the process survives leaves the last world of its trail and answers as the trail does. */
  lemma CallIsAnswered(store: CustomerStores, before: Desk, rules: Rules, c: Command, fuel: nat, outcome: Option<Outcome>)
    requires TrailOf(rules, before, c).worlds != [] && store.Did(TrailOf(rules, before, c), fuel, outcome) && outcome.Some?
    ensures var trail := TrailOf(rules, before, c);
      outcome == Some(trail.outcome) && store.Now() == trail.worlds[|trail.worlds| - 1]
  {
    hide TrailOf, CustomerStores.Now;
  }

  /** What a method's contract says is one step of a run, so the linked invariant survives every call. */
  lemma CallIsStep(store: CustomerStores, before: Desk, rules: Rules, c: Command, fuel: nat, outcome: Option<Outcome>)
    requires TrailOf(rules, before, c).worlds != [] && store.Did(TrailOf(rules, before, c), fuel, outcome)
    ensures store.Now() == Step(before, Event(rules, c, fuel))
    ensures CustomerSafety.Inv(before) ==> CustomerSafety.Inv(store.Now()) && CustomerSafety.Extends(before, store.Now())
  {
    hide CustomerSafety.Inv, CustomerSafety.Extends, TrailOf, CustomerStores.Now, Left;
    if CustomerSafety.Inv(before) {
      CustomerRuns.StepKeepsInv(before, Event(rules, c, fuel));
    }
  }

  /** So stores that were empty at first and went through one call after the other are where a run leads. */
  lemma CallsAreRuns(store: CustomerStores, events: seq<Event>, rules: Rules, c: Command, fuel: nat, outcome: Option<Outcome>)
    requires TrailOf(rules, Run(events), c).worlds != [] && store.Did(TrailOf(rules, Run(events), c), fuel, outcome)
    ensures store.Now() == Run(events + [Event(rules, c, fuel)])
  {
    hide TrailOf, CustomerStores.Did, CustomerStores.Now, Step;
    CallIsStep(store, Run(events), rules, c, fuel, outcome);
    assert (events + [Event(rules, c, fuel)])[..|events|] == events;
  }
}
