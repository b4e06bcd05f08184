/** The customer's three linked records (execution plan, delivery review, acceptance) and the worlds
    that every call of the three services passes through. */
module CustomerDesk {
  import opened Wrappers
  import opened ApprovalRecords

  datatype Request = Request(customer: string, request: string)

  datatype Workspace = Workspace(id: string, branch: string, commit: string)

  datatype TaskScope = TaskScope(id: string, requirement: string, objective: string)

  datatype PlanScope = PlanScope(
    request: Request, product: string, authority: string, workspace: Workspace,
    authentication: string, billing: string, tasks: seq<TaskScope>)

  datatype TaskStatus = Pending | Executing | ReviewRequired | TaskNeedsReconciliation

  /** What the execution adapter reports of one coding turn. */
  datatype Turn = Turn(operation: string, task: string, authentication: string, billing: string, changed: seq<string>, manifest: string)

  datatype Task = Task(status: TaskStatus, operation: Option<string>, turn: Option<Turn>)

  /** The scope holds the tasks' scopes; their states are in the same order. */
  datatype Plan = Plan(scope: PlanScope, header: Header, tasks: seq<Task>)

  datatype Evidence = Evidence(files: seq<(string, string)>, diff: string)

  datatype DeliveryScope = DeliveryScope(
    request: Request, product: string, plan: Plan, planScope: PlanScope, workspace: Workspace,
    turn: Turn, evidence: Evidence, repository: string, base: string)

  datatype DraftReceipt = DraftReceipt(commit: string, tree: string, number: int, url: string)

  datatype Delivery = Delivery(scope: DeliveryScope, header: Header, receipt: Option<DraftReceipt>)

  datatype AcceptanceScope = AcceptanceScope(
    request: Request, product: string, delivery: Delivery, deliveryScope: DeliveryScope,
    repository: string, base: string, head: string, receipt: DraftReceipt, configuration: string)

  datatype EvidenceReceipt = EvidenceReceipt(run: int, url: string, revision: string, package: string)

  datatype Acceptance = Acceptance(scope: AcceptanceScope, header: Header, receipt: Option<EvidenceReceipt>)

  /** One invocation of an adapter's effect method, with the record it was handed. */
  datatype Call =
    | Executed(request: Request, plan: Plan)
    | Delivered(request: Request, delivery: Delivery)
    | Ran(request: Request, acceptance: Acceptance)

  datatype Desk = Desk(
    plans: map<Request, Plan>, deliveries: map<Request, Delivery>, acceptances: map<Request, Acceptance>,
    calls: seq<Call>)

  /** The parts of the records' validity that depend on patterns and digests; any predicates. */
  datatype Rules = Rules(
    operationId: (PlanScope, TaskScope) -> string,
    validPlan: PlanScope -> bool, validTurn: Turn -> bool,
    validReview: DeliveryScope -> bool, validDraft: DraftReceipt -> bool,
    validAcceptance: AcceptanceScope -> bool, validEvidence: EvidenceReceipt -> bool,
    configured: bool, live: bool)

  datatype Error = PolicyViolation | ConflictError | NotConfigured | InvalidValue | ReconciliationRequired | NoRecord

  datatype Outcome =
    | PlanReturned(plan: Plan) | DeliveryReturned(delivery: Delivery) | AcceptanceReturned(acceptance: Acceptance)
    | Raised(error: Error)

  /** The durable worlds a call passes through, one effect apart, and how it returns. A crash leaves
      one of them. */
  datatype Trail = Trail(worlds: seq<Desk>, outcome: Outcome)

  function Stay(w: Desk, outcome: Outcome): Trail {
    Trail([w], outcome)
  }

  function Refuse(w: Desk, error: Error): Trail {
    Stay(w, Raised(error))
  }

  function Then(w: Desk, rest: Trail): Trail {
    Trail([w] + rest.worlds, rest.outcome)
  }

  predicate SamePlanScope(a: Plan, b: Plan) {
    a.scope == b.scope
  }

  predicate SameDeliveryScope(a: Delivery, b: Delivery) {
    a.scope == b.scope
  }

  predicate SameAcceptanceScope(a: Acceptance, b: Acceptance) {
    a.scope == b.scope
  }

  function PutPlan(w: Desk, id: Request, plan: Plan): Desk {
    w.(plans := w.plans[id := plan])
  }

  function PutDelivery(w: Desk, id: Request, delivery: Delivery): Desk {
    w.(deliveries := w.deliveries[id := delivery])
  }

  function PutAcceptance(w: Desk, id: Request, acceptance: Acceptance): Desk {
    w.(acceptances := w.acceptances[id := acceptance])
  }

  function Called(w: Desk, call: Call): Desk {
    w.(calls := w.calls + [call])
  }

  predicate ValidTasks(tasks: seq<TaskScope>) {
    && 1 <= |tasks| <= 100
    && (forall i, j :: 0 <= i < j < |tasks| ==> tasks[i].id != tasks[j].id && tasks[i].requirement != tasks[j].requirement)
  }

  const NEW_TASK := Task(Pending, None, None)

  function NewTasks(n: nat): seq<Task> {
    seq(n, _ => NEW_TASK)
  }

  // Execution: plan, approve, execute.

  /** `plan`: the scope the authority and the workspace yield, or None when one of them is refused. */
  function PlanTrail(rules: Rules, w: Desk, id: Request, scope: Option<PlanScope>, now: int): Trail {
    if !rules.configured then Refuse(w, NotConfigured)
    else if scope.None? then Refuse(w, PolicyViolation)
    else if !ValidTasks(scope.value.tasks) || !rules.validPlan(scope.value) then Refuse(w, InvalidValue)
    else
      var plan := Plan(scope.value.(request := id), Fresh(now), NewTasks(|scope.value.tasks|));
      match CreateReply(w.plans, id, plan, SamePlanScope)
      case Created(created) => Then(w, Stay(PutPlan(w, id, created), PlanReturned(created)))
      case Stored(stored) => Stay(w, PlanReturned(stored))
      case _ => Refuse(w, ConflictError)
  }

  function ApprovePlanTrail(rules: Rules, w: Desk, id: Request, expected: PlanScope, current: bool, now: int): Trail {
    if !rules.configured then Refuse(w, NotConfigured)
    else if id !in w.plans then Refuse(w, NoRecord)
    else
      var plan := w.plans[id];
      if plan.header.status != Awaiting then
        if plan.header.status == Approved && plan.scope == expected then Stay(w, PlanReturned(plan))
        else Refuse(w, ConflictError)
      else if plan.scope != expected then Refuse(w, ConflictError)
      else if !current then Refuse(w, ConflictError)
      else
        match Construct(ApprovedBy(plan.header, id.customer, now))
        case None => Refuse(w, InvalidValue)
        case Some(header) =>
          var approved := plan.(header := header);
          Then(w, Stay(PutPlan(w, id, approved), PlanReturned(approved)))
  }

  /** The first pending task. */
  function FirstPending(tasks: seq<Task>): Option<nat> {
    if tasks == [] then None
    else if tasks[0].status == Pending then Some(0)
    else
      match FirstPending(tasks[1..])
      case None => None
      case Some(i) => Some(i + 1)
  }

  /** The in-progress plan of `execute_next`, or why there is none. */
  function BeginPlan(rules: Rules, plan: Plan, now: int): (Option<Plan>, Error) {
    match FirstPending(plan.tasks)
    case None => (None, ConflictError)
    case Some(i) =>
      if |plan.scope.tasks| <= i || |plan.tasks| <= i then (None, ConflictError)
      else
        var task := plan.tasks[i].(status := Executing, operation := Some(rules.operationId(plan.scope, plan.scope.tasks[i])));
        match Construct(Began(plan.header, now))
        case None => (None, InvalidValue)
        case Some(header) => (Some(plan.(header := header, tasks := plan.tasks[i := task])), InvalidValue)
  }

  /** The reviewed plan after the turn, when the adapter answered and everything is valid. */
  function CompletePlan(rules: Rules, plan: Plan, i: nat, turn: Option<Turn>, now: int): Option<Plan>
    requires i < |plan.tasks|
  {
    if turn.None? then None
    else if || Some(turn.value.operation) != plan.tasks[i].operation
            || turn.value.authentication != plan.scope.authentication
            || turn.value.billing != plan.scope.billing
            || !rules.validTurn(turn.value)
    then None
    else
      match Construct(Finished(plan.header, now))
      case None => None
      case Some(header) =>
        Some(plan.(header := header, tasks := plan.tasks[i := plan.tasks[i].(status := ReviewRequired, turn := turn)]))
  }

  function FailPlan(plan: Plan, i: nat, now: int): Option<Plan>
    requires i < |plan.tasks|
  {
    match Construct(Failed(plan.header, now))
    case None => None
    case Some(header) => Some(plan.(header := header, tasks := plan.tasks[i := plan.tasks[i].(status := TaskNeedsReconciliation)]))
  }

  function ExecuteTrail(rules: Rules, w: Desk, id: Request, expected: PlanScope, confirmScope: bool, confirmUsage: bool, current: bool,
                        turn: Option<Turn>, now: int, later: int, last: int): Trail {
    if !rules.configured || !rules.live then Refuse(w, NotConfigured)
    else if !confirmScope || !confirmUsage then Refuse(w, PolicyViolation)
    else if id !in w.plans then Refuse(w, NoRecord)
    else
      var plan := w.plans[id];
      if plan.header.status != Approved || plan.scope != expected || !current then Refuse(w, ConflictError)
      else
        match BeginPlan(rules, plan, now)
        case (None, error) => Refuse(w, error)
        case (Some(began), _) =>
          var i := FirstPending(plan.tasks).value;
          var w1 := PutPlan(w, id, began);
          var w2 := Called(w1, Executed(id, began));
          Then(w, Then(w1,
            match CompletePlan(rules, began, i, turn, later)
            case Some(review) => Then(w2, Stay(PutPlan(w2, id, review), PlanReturned(review)))
            case None =>
              match FailPlan(began, i, last)
              case Some(failed) => Then(w2, Stay(PutPlan(w2, id, failed), Raised(ReconciliationRequired)))
              case None => Refuse(w2, InvalidValue)))
  }

  // Delivery: prepare, approve, deliver.

  predicate Reviewable(w: Desk, id: Request) {
    id in w.plans && w.plans[id].header.status == Done
  }

  /** The tasks that await review. */
  function Completed(tasks: seq<Task>): seq<Task> {
    if tasks == [] then []
    else (if tasks[0].status == ReviewRequired then [tasks[0]] else []) + Completed(tasks[1..])
  }

  /** `_source`: exactly one task awaits review and its evidence holds; the evidence is the environment's. */
  function Source(plan: Plan, evidence: Option<Evidence>): Option<(Turn, Evidence)> {
    var completed := Completed(plan.tasks);
    if |completed| != 1 || completed[0].turn.None? || evidence.None? then None
    else Some((completed[0].turn.value, evidence.value))
  }

  /** `_require_plan_binding`. */
  predicate BindsPlan(scope: DeliveryScope, plan: Plan) {
    && scope.request == plan.scope.request && scope.product == plan.scope.product
    && scope.plan == plan && scope.planScope == plan.scope && scope.workspace == plan.scope.workspace
  }

  function PrepareDeliveryTrail(rules: Rules, w: Desk, id: Request, evidence: Option<Evidence>, repository: string, base: string, now: int): Trail {
    if !rules.configured then Refuse(w, NotConfigured)
    else if !Reviewable(w, id) then Refuse(w, ConflictError)
    else
      var plan := w.plans[id];
      match Source(plan, evidence)
      case None => Refuse(w, PolicyViolation)
      case Some((turn, proof)) =>
        var scope := DeliveryScope(id, plan.scope.product, plan, plan.scope, plan.scope.workspace, turn, proof, repository, base);
        if !rules.validReview(scope) then Refuse(w, InvalidValue)
        else
          match CreateReply(w.deliveries, id, Delivery(scope, Fresh(now), None), SameDeliveryScope)
          case Created(created) => Then(w, Stay(PutDelivery(w, id, created), DeliveryReturned(created)))
          case Stored(stored) => Stay(w, DeliveryReturned(stored))
          case _ => Refuse(w, ConflictError)
  }

  function ApproveDeliveryTrail(rules: Rules, w: Desk, id: Request, expected: DeliveryScope, confirmed: bool, evidence: Option<Evidence>, now: int): Trail {
    if !confirmed then Refuse(w, PolicyViolation)
    else if !Reviewable(w, id) then Refuse(w, ConflictError)
    else if id !in w.deliveries then Refuse(w, NoRecord)
    else
      var plan, review := w.plans[id], w.deliveries[id];
      if !BindsPlan(review.scope, plan) then Refuse(w, PolicyViolation)
      else if review.header.status == Approved then
        if review.scope == expected then Stay(w, DeliveryReturned(review)) else Refuse(w, ConflictError)
      else if review.header.status != Awaiting || review.scope != expected then Refuse(w, ConflictError)
      else
        match Source(plan, evidence)
        case None => Refuse(w, PolicyViolation)
        case Some((_, proof)) =>
          if proof != review.scope.evidence then Refuse(w, PolicyViolation)
          else
            match Construct(ApprovedBy(review.header, id.customer, now))
            case None => Refuse(w, InvalidValue)
            case Some(header) =>
              var approved := review.(header := header);
              Then(w, Stay(PutDelivery(w, id, approved), DeliveryReturned(approved)))
  }

  function CompleteDelivery(rules: Rules, began: Delivery, draft: Option<DraftReceipt>, now: int): Option<Delivery> {
    if draft.None? || !rules.validDraft(draft.value) then None
    else
      match Construct(Finished(began.header, now))
      case None => None
      case Some(header) => Some(began.(header := header, receipt := draft))
  }

  function DeliverTrail(rules: Rules, w: Desk, id: Request, expected: DeliveryScope, confirmed: bool, evidence: Option<Evidence>,
                        preflight: bool, draft: Option<DraftReceipt>, now: int, later: int, last: int): Trail {
    if !rules.configured || !rules.live then Refuse(w, NotConfigured)
    else if !confirmed then Refuse(w, PolicyViolation)
    else if !Reviewable(w, id) then Refuse(w, ConflictError)
    else if id !in w.deliveries then Refuse(w, NoRecord)
    else
      var plan, review := w.plans[id], w.deliveries[id];
      if !BindsPlan(review.scope, plan) then Refuse(w, PolicyViolation)
      else if review.header.status == Done then
        if review.scope == expected then Stay(w, DeliveryReturned(review)) else Refuse(w, ConflictError)
      else if review.header.status != Approved || review.scope != expected then Refuse(w, ConflictError)
      else if Source(plan, evidence).None? || !preflight then Refuse(w, PolicyViolation)
      else
        match Construct(Began(review.header, now))
        case None => Refuse(w, InvalidValue)
        case Some(header) =>
          var began := review.(header := header);
          var w1 := PutDelivery(w, id, began);
          var w2 := Called(w1, Delivered(id, began));
          Then(w, Then(w1,
            match CompleteDelivery(rules, began, draft, later)
            case Some(delivered) => Then(w2, Stay(PutDelivery(w2, id, delivered), DeliveryReturned(delivered)))
            case None =>
              match Construct(Failed(began.header, last))
              case Some(failed) => Then(w2, Stay(PutDelivery(w2, id, began.(header := failed)), Raised(ReconciliationRequired)))
              case None => Refuse(w2, InvalidValue)))
  }

  // Acceptance: prepare, approve, execute.

  predicate Delivers(w: Desk, id: Request) {
    id in w.deliveries && w.deliveries[id].header.status == Done && w.deliveries[id].receipt.Some?
  }

  /** `_require_binding`. */
  predicate BindsDelivery(scope: AcceptanceScope, delivery: Delivery) {
    && scope.request == delivery.scope.request && scope.product == delivery.scope.product
    && scope.delivery == delivery && scope.deliveryScope == delivery.scope
    && scope.repository == delivery.scope.repository && scope.base == delivery.scope.base
    && scope.head == delivery.scope.workspace.branch
    && Some(scope.receipt) == delivery.receipt
  }

  function PrepareAcceptanceTrail(rules: Rules, w: Desk, id: Request, configuration: string, now: int): Trail {
    if !rules.configured then Refuse(w, NotConfigured)
    else if !Delivers(w, id) then Refuse(w, ConflictError)
    else
      var delivery := w.deliveries[id];
      var receipt := delivery.receipt.value;
      if |receipt.commit| != 40 || |receipt.tree| != 40 then Refuse(w, PolicyViolation)
      else
        var scope := AcceptanceScope(id, delivery.scope.product, delivery, delivery.scope, delivery.scope.repository,
                                     delivery.scope.base, delivery.scope.workspace.branch, receipt, configuration);
        if !rules.validAcceptance(scope) then Refuse(w, InvalidValue)
        else
          match CreateReply(w.acceptances, id, Acceptance(scope, Fresh(now), None), SameAcceptanceScope)
          case Created(created) => Then(w, Stay(PutAcceptance(w, id, created), AcceptanceReturned(created)))
          case Stored(stored) => Stay(w, AcceptanceReturned(stored))
          case _ => Refuse(w, ConflictError)
  }

  function ApproveAcceptanceTrail(rules: Rules, w: Desk, id: Request, expected: AcceptanceScope, confirmed: bool, now: int): Trail {
    if !confirmed then Refuse(w, PolicyViolation)
    else if !Delivers(w, id) then Refuse(w, ConflictError)
    else if id !in w.acceptances then Refuse(w, NoRecord)
    else
      var record := w.acceptances[id];
      if !BindsDelivery(record.scope, w.deliveries[id]) then Refuse(w, PolicyViolation)
      else if record.header.status == Approved then
        if record.scope == expected then Stay(w, AcceptanceReturned(record)) else Refuse(w, ConflictError)
      else if record.header.status != Awaiting || record.scope != expected then Refuse(w, ConflictError)
      else
        match Construct(ApprovedBy(record.header, id.customer, now))
        case None => Refuse(w, InvalidValue)
        case Some(header) =>
          var approved := record.(header := header);
          Then(w, Stay(PutAcceptance(w, id, approved), AcceptanceReturned(approved)))
  }

  function CompleteAcceptance(rules: Rules, began: Acceptance, evidence: Option<EvidenceReceipt>, now: int): Option<Acceptance> {
    if evidence.None? || !rules.validEvidence(evidence.value) then None
    else
      match Construct(Finished(began.header, now))
      case None => None
      case Some(header) => Some(began.(header := header, receipt := evidence))
  }

  function RunTrail(rules: Rules, w: Desk, id: Request, expected: AcceptanceScope, confirmDeployment: bool, confirmBrowser: bool, planKept: bool, preflight: bool,
                    evidence: Option<EvidenceReceipt>, now: int, later: int, last: int): Trail {
    if !rules.configured || !rules.live then Refuse(w, NotConfigured)
    else if !confirmDeployment || !confirmBrowser then Refuse(w, PolicyViolation)
    else if !Delivers(w, id) then Refuse(w, ConflictError)
    else if id !in w.acceptances then Refuse(w, NoRecord)
    else
      var record := w.acceptances[id];
      if !BindsDelivery(record.scope, w.deliveries[id]) then Refuse(w, PolicyViolation)
      else if record.header.status == Done then
        if record.scope == expected then Stay(w, AcceptanceReturned(record)) else Refuse(w, ConflictError)
      else if record.header.status != Approved || record.scope != expected then Refuse(w, ConflictError)
      else if !planKept || !preflight then Refuse(w, PolicyViolation)
      else
        match Construct(Began(record.header, now))
        case None => Refuse(w, InvalidValue)
        case Some(header) =>
          var began := record.(header := header);
          var w1 := PutAcceptance(w, id, began);
          var w2 := Called(w1, Ran(id, began));
          Then(w, Then(w1,
            match CompleteAcceptance(rules, began, evidence, later)
            case Some(ready) => Then(w2, Stay(PutAcceptance(w2, id, ready), AcceptanceReturned(ready)))
            case None =>
              match Construct(Failed(began.header, last))
              case Some(failed) => Then(w2, Stay(PutAcceptance(w2, id, began.(header := failed)), Raised(ReconciliationRequired)))
              case None => Refuse(w2, InvalidValue)))
  }

  /** One call with everything the environment answers and the clock shows during it. */
  datatype Command =
    | MakePlan(id: Request, planScope: Option<PlanScope>, now: int)
    | ApprovePlan(id: Request, expectedPlan: PlanScope, current: bool, now: int)
    | ExecuteNext(id: Request, expectedPlan: PlanScope, confirmScope: bool, confirmUsage: bool, current: bool, turn: Option<Turn>, now: int, later: int, last: int)
    | PrepareDelivery(id: Request, evidence: Option<Evidence>, repository: string, base: string, now: int)
    | ApproveDelivery(id: Request, expectedDelivery: DeliveryScope, confirmed: bool, evidence: Option<Evidence>, now: int)
    | Deliver(id: Request, expectedDelivery: DeliveryScope, confirmed: bool, evidence: Option<Evidence>, preflight: bool,
              draft: Option<DraftReceipt>, now: int, later: int, last: int)
    | PrepareAcceptance(id: Request, configuration: string, now: int)
    | ApproveAcceptance(id: Request, expectedAcceptance: AcceptanceScope, confirmed: bool, now: int)
    | Execute(id: Request, expectedAcceptance: AcceptanceScope, confirmDeployment: bool, confirmBrowser: bool, planKept: bool, preflight: bool,
              receipt: Option<EvidenceReceipt>, now: int, later: int, last: int)

  function TrailOf(rules: Rules, w: Desk, c: Command): Trail {
    match c
    case MakePlan(id, scope, now) => PlanTrail(rules, w, id, scope, now)
    case ApprovePlan(id, expected, current, now) => ApprovePlanTrail(rules, w, id, expected, current, now)
    case ExecuteNext(id, expected, confirmScope, confirmUsage, current, turn, now, later, last) =>
      ExecuteTrail(rules, w, id, expected, confirmScope, confirmUsage, current, turn, now, later, last)
    case PrepareDelivery(id, evidence, repository, base, now) => PrepareDeliveryTrail(rules, w, id, evidence, repository, base, now)
    case ApproveDelivery(id, expected, confirmed, evidence, now) => ApproveDeliveryTrail(rules, w, id, expected, confirmed, evidence, now)
    case Deliver(id, expected, confirmed, evidence, preflight, draft, now, later, last) =>
      DeliverTrail(rules, w, id, expected, confirmed, evidence, preflight, draft, now, later, last)
    case PrepareAcceptance(id, configuration, now) => PrepareAcceptanceTrail(rules, w, id, configuration, now)
    case ApproveAcceptance(id, expected, confirmed, now) => ApproveAcceptanceTrail(rules, w, id, expected, confirmed, now)
    case Execute(id, expected, confirmDeployment, confirmBrowser, planKept, preflight, receipt, now, later, last) =>
      RunTrail(rules, w, id, expected, confirmDeployment, confirmBrowser, planKept, preflight, receipt, now, later, last)
  }
}
