/** Whole runs of the three customer services: any calls in any order, each dying after any of its
    durable steps, with any clock and any replies. */
module CustomerRuns {
  import opened Wrappers
  import opened ApprovalRecords
  import opened CustomerDesk
  import opened CustomerSafety

  datatype Event = Event(rules: Rules, command: Command, fuel: nat)

  /** The world a call leaves when the process dies after `fuel` durable steps. */
  function Left(trail: Trail, fuel: nat): Desk
    requires trail.worlds != []
  {
    trail.worlds[if fuel < |trail.worlds| then fuel else |trail.worlds| - 1]
  }

  lemma TrailsStart(rules: Rules, w: Desk, c: Command)
    ensures TrailOf(rules, w, c).worlds != [] && TrailOf(rules, w, c).worlds[0] == w
  {
    hide BeginPlan, CompletePlan, FailPlan, CompleteDelivery, CompleteAcceptance, Source, Constructible, CreateReply,
      BindsPlan, BindsDelivery;
  }

  function Step(w: Desk, e: Event): Desk {
    TrailsStart(e.rules, w, e.command);
    Left(TrailOf(e.rules, w, e.command), e.fuel)
  }

  const NOTHING := Desk(map[], map[], map[], [])

  function Run(events: seq<Event>): Desk {
    if events == [] then NOTHING else Step(Run(events[..|events| - 1]), events[|events| - 1])
  }

  lemma StepKeepsInv(w: Desk, e: Event)
    requires Inv(w)
    ensures Inv(Step(w, e)) && Extends(w, Step(w, e))
  {
    hide Inv, Extends, TrailOf, Moves;
    var trail := TrailOf(e.rules, w, e.command);
    CallsOnlyMove(e.rules, w, e.command);
    TrailKeepsInv(trail.worlds, e.command, if e.fuel < |trail.worlds| then e.fuel else |trail.worlds| - 1);
  }

  lemma {:induction false} EveryRunKeepsInv(events: seq<Event>)
    ensures Inv(Run(events))
  {
    if events == [] {
    } else {
      hide Inv, Step;
      EveryRunKeepsInv(events[..|events| - 1]);
      StepKeepsInv(Run(events[..|events| - 1]), events[|events| - 1]);
    }
  }

  /** What one moment of a run recorded, every later moment still records. */
  lemma {:induction false} RunsExtend(events: seq<Event>, n: nat)
    requires n <= |events|
    ensures Extends(Run(events[..n]), Run(events))
    decreases |events|
  {
    hide Inv, Step, Extends;
    if n == |events| {
      assert events[..n] == events;
      ExtendsReflexive(Run(events));
    } else {
      var before := events[..|events| - 1];
      assert before[..n] == events[..n];
      RunsExtend(before, n);
      EveryRunKeepsInv(before);
      StepKeepsInv(Run(before), events[|events| - 1]);
      ExtendsTransitive(Run(events[..n]), Run(before), Run(events));
    }
  }

  /** How often one adapter's effect method was invoked for one request. */
  function Effects(calls: seq<Call>, call: Call): nat {
    if calls == [] then 0 else (if SameEffect(calls[0], call) then 1 else 0) + Effects(calls[1..], call)
  }

  lemma {:induction false} DistinctEffects(calls: seq<Call>, call: Call)
    requires forall i, j :: 0 <= i < j < |calls| ==> !SameEffect(calls[i], calls[j])
    ensures Effects(calls, call) <= 1
    ensures Effects(calls, call) == 1 ==> exists i :: 0 <= i < |calls| && SameEffect(calls[i], call)
  {
    if calls != [] {
      DistinctEffects(calls[1..], call);
      if SameEffect(calls[0], call) {
        NoOther(calls, call);
      } else if Effects(calls[1..], call) == 1 {
        var i :| 0 <= i < |calls[1..]| && SameEffect(calls[1..][i], call);
        assert SameEffect(calls[i + 1], call);
      }
    }
  }

  lemma NoOther(calls: seq<Call>, call: Call)
    requires calls != [] && SameEffect(calls[0], call)
    requires forall i, j :: 0 <= i < j < |calls| ==> !SameEffect(calls[i], calls[j])
    ensures Effects(calls[1..], call) == 0
  {
    forall i | 0 <= i < |calls[1..]| ensures !SameEffect(calls[1..][i], call) {
      assert !SameEffect(calls[0], calls[i + 1]);
    }
    NoneSame(calls[1..], call);
  }

  lemma {:induction false} NoneSame(calls: seq<Call>, call: Call)
    requires forall i :: 0 <= i < |calls| ==> !SameEffect(calls[i], call)
    ensures Effects(calls, call) == 0
  {
    if calls != [] {
      NoneSame(calls[1..], call);
    }
  }

  /** In every run each adapter's effect method is invoked at most once per request, with a record that
      is in progress, and only when that record has been stored. */
  lemma AtMostOneEffect(events: seq<Event>, call: Call)
    ensures Effects(Run(events).calls, call) <= 1
    ensures forall i :: 0 <= i < |Run(events).calls| ==> CallOk(Run(events), Run(events).calls[i])
  {
    EveryRunKeepsInv(events);
    DistinctEffects(Run(events).calls, call);
  }

  /** At the moment of an invocation the very record handed over is durable and in progress, and no
      earlier invocation for the request is on record. */
  lemma RecordedBeforeEffect(rules: Rules, w: Desk, c: Command, n: nat)
    requires Inv(w) && n + 1 < |TrailOf(rules, w, c).worlds|
    requires TrailOf(rules, w, c).worlds[n + 1].calls != TrailOf(rules, w, c).worlds[n].calls
    ensures var before, after := TrailOf(rules, w, c).worlds[n], TrailOf(rules, w, c).worlds[n + 1];
      && after.calls != [] && var call := after.calls[|after.calls| - 1];
         after.calls == before.calls + [call] && Handed(before, call) && Effects(before.calls, call) == 0
  {
    hide Inv, TrailOf, Handed, SameEffect;
    CallsOnlyMove(rules, w, c);
    var before, after := TrailOf(rules, w, c).worlds[n], TrailOf(rules, w, c).worlds[n + 1];
    assert Moves(before, after, c);
    assert MovesCalls(before, after, c);
    NoneSame(before.calls, after.calls[|after.calls| - 1]);
  }

  /** Frozen chain: a delivery stands on a reviewed plan and an acceptance on a created draft, with
      their digests, and neither the plan nor the draft ever changes again, so the binding checks hold
      at every later moment too. */
  lemma FrozenChain(events: seq<Event>, n: nat, id: Request)
    requires n <= |events|
    ensures var w, later := Run(events[..n]), Run(events);
      && (id in w.deliveries ==>
            && id in w.plans && w.plans[id].header.status == Done && w.deliveries[id].scope.plan == w.plans[id]
            && id in later.plans && later.plans[id] == w.plans[id]
            && id in later.deliveries && BindsPlan(later.deliveries[id].scope, later.plans[id]))
      && (id in w.acceptances ==>
            && id in w.deliveries && w.deliveries[id].header.status == Done && w.acceptances[id].scope.delivery == w.deliveries[id]
            && id in later.deliveries && later.deliveries[id] == w.deliveries[id]
            && id in later.acceptances && BindsDelivery(later.acceptances[id].scope, later.deliveries[id]))
  {
    hide Run, PlanOk, DeliveryOk, AcceptanceOk, CallsOk;
    EveryRunKeepsInv(events[..n]);
    EveryRunKeepsInv(events);
    RunsExtend(events, n);
  }

  /** In every run an approved plan still has its first task to start, and a reviewable plan has exactly
      one completed task; so `execute_next` never lacks a pending task and the delivery's
      exactly-one-task guard always passes. */
  lemma OneTaskPlans(events: seq<Event>, id: Request)
    requires id in Run(events).plans
    ensures var plan := Run(events).plans[id];
      && TasksOk(plan.header.status, plan.tasks)
      && (plan.header.status == Approved ==> FirstPending(plan.tasks) == Some(0))
      && (plan.header.status == Done ==> |Completed(plan.tasks)| == 1 && Completed(plan.tasks)[0] == plan.tasks[0] && plan.tasks[0].turn.Some?)
  {
    EveryRunKeepsInv(events);
    var plan := Run(events).plans[id];
    if plan.header.status == Approved {
      PendingIsFirst(plan);
    }
    if plan.header.status == Done {
      NewAreNotCompleted(plan.tasks[1..]);
    }
  }

  lemma {:induction false} NewAreNotCompleted(tasks: seq<Task>)
    requires forall i :: 0 <= i < |tasks| ==> tasks[i] == NEW_TASK
    ensures Completed(tasks) == []
  {
    if tasks != [] {
      NewAreNotCompleted(tasks[1..]);
    }
  }

  // What runs is what was approved.

  /** The record the call is for, with its scope, is past its approval. */
  predicate PastApproval(w: Desk, call: Call) {
    match call
    case Executed(id, plan) => id in w.plans && w.plans[id].scope == plan.scope && w.plans[id].header.status != Awaiting
    case Delivered(id, delivery) =>
      id in w.deliveries && w.deliveries[id].scope == delivery.scope && w.deliveries[id].header.status != Awaiting
    case Ran(id, acceptance) =>
      id in w.acceptances && w.acceptances[id].scope == acceptance.scope && w.acceptances[id].header.status != Awaiting
  }

  predicate Approves(c: Command, call: Call) {
    match call
    case Executed(id, plan) => ApprovesPlan(c, id, plan.scope)
    case Delivered(id, delivery) => ApprovesDelivery(c, id, delivery.scope)
    case Ran(id, acceptance) => ApprovesAcceptance(c, id, acceptance.scope)
  }

  lemma PlanMoveApproves(w: Desk, w': Desk, c: Command, call: Call)
    requires MovesPlan(w, w', c) && PastApproval(w', call) && !PastApproval(w, call)
    ensures Approves(c, call)
  {
    hide PlanOk, Constructible;
  }

  lemma DeliveryMoveApproves(w: Desk, w': Desk, c: Command, call: Call)
    requires MovesDelivery(w, w', c) && PastApproval(w', call) && !PastApproval(w, call)
    ensures Approves(c, call)
  {
    hide DeliveryOk, Constructible, BindsPlan, Reviewable;
  }

  lemma AcceptanceMoveApproves(w: Desk, w': Desk, c: Command, call: Call)
    requires MovesAcceptance(w, w', c) && PastApproval(w', call) && !PastApproval(w, call)
    ensures Approves(c, call)
  {
    hide AcceptanceOk, Constructible, BindsDelivery, Delivers;
  }

  lemma CallMoveApprovesNothing(w: Desk, w': Desk, c: Command, call: Call)
    requires MovesCalls(w, w', c)
    ensures PastApproval(w', call) <==> PastApproval(w, call)
  {
    hide SameEffect, Requests, Handed;
  }

  lemma MoveApproves(w: Desk, w': Desk, c: Command, call: Call)
    requires Moves(w, w', c) && PastApproval(w', call) && !PastApproval(w, call)
    ensures Approves(c, call)
  {
    hide MovesPlan, MovesDelivery, MovesAcceptance, MovesCalls, PastApproval, Approves;
    if MovesPlan(w, w', c) {
      PlanMoveApproves(w, w', c, call);
    } else if MovesDelivery(w, w', c) {
      DeliveryMoveApproves(w, w', c, call);
    } else if MovesAcceptance(w, w', c) {
      AcceptanceMoveApproves(w, w', c, call);
    } else {
      CallMoveApprovesNothing(w, w', c, call);
    }
  }

  /** Nothing gets past approval but by a command that approves exactly its scope. */
  lemma {:induction false} TrailApproves(worlds: seq<Desk>, c: Command, n: nat, call: Call)
    requires n < |worlds| && AllMoves(worlds, c)
    requires PastApproval(worlds[n], call) && !PastApproval(worlds[0], call)
    ensures Approves(c, call)
  {
    hide Moves, PastApproval, Approves;
    if n > 0 {
      if PastApproval(worlds[n - 1], call) {
        TrailApproves(worlds, c, n - 1, call);
      } else {
        MoveApproves(worlds[n - 1], worlds[n], c, call);
      }
    }
  }

  /** A record past its approval was approved by an earlier command, with this very scope. */
  lemma {:induction false} PastWasApproved(events: seq<Event>, call: Call) returns (j: nat)
    requires PastApproval(Run(events), call)
    ensures j < |events| && Approves(events[j].command, call)
  {
    hide PastApproval, Approves, TrailOf, Inv, AllMoves;
    if events == [] {
      NothingIsApproved(call);
    } else {
      var before, last := events[..|events| - 1], events[|events| - 1];
      if PastApproval(Run(before), call) {
        j := PastWasApproved(before, call);
      } else {
        j := |events| - 1;
        var trail := TrailOf(last.rules, Run(before), last.command);
        EveryRunKeepsInv(before);
        CallsOnlyMove(last.rules, Run(before), last.command);
        TrailApproves(trail.worlds, last.command, if last.fuel < |trail.worlds| then last.fuel else |trail.worlds| - 1, call);
      }
    }
  }

  lemma NothingIsApproved(call: Call)
    ensures !PastApproval(NOTHING, call)
  {
  }

  /** A call that a trail adds was requested by its command, for a record approved before the command. */
  lemma {:induction false} TrailRequests(worlds: seq<Desk>, c: Command, n: nat, call: Call)
    requires n < |worlds| && AllMoves(worlds, c)
    requires call in worlds[n].calls && call !in worlds[0].calls
    ensures Requests(c, call) && PastApproval(worlds[0], call)
  {
    hide Moves, PastApproval, Approves, Requests;
    if n > 0 {
      if call in worlds[n - 1].calls {
        TrailRequests(worlds, c, n - 1, call);
      } else {
        MoveRequests(worlds[n - 1], worlds[n], c, call);
        if !PastApproval(worlds[0], call) {
          TrailApproves(worlds, c, n - 1, call);
          RequestIsNoApproval(c, call);
        }
      }
    }
  }

  lemma RequestIsNoApproval(c: Command, call: Call)
    ensures !(Requests(c, call) && Approves(c, call))
  {
  }

  lemma OnlyCallMovesCall(w: Desk, w': Desk, c: Command)
    requires Moves(w, w', c) && w'.calls != w.calls
    ensures MovesCalls(w, w', c)
  {
    hide PlanOk, DeliveryOk, AcceptanceOk, Advances, BindsPlan, BindsDelivery, MovesCalls;
  }

  lemma MoveRequests(w: Desk, w': Desk, c: Command, call: Call)
    requires Moves(w, w', c) && call in w'.calls && call !in w.calls
    ensures Requests(c, call) && PastApproval(w, call)
  {
    OnlyCallMovesCall(w, w', c);
    hide MovesPlan, MovesDelivery, MovesAcceptance, SameEffect;
  }

  /** What runs is what was approved: every invocation of an effect in a run was requested by a command
      naming the scope of the record it was handed, and approved by an earlier command naming the same. */
  lemma {:induction false} WhatRunsWasApproved(events: seq<Event>, call: Call) returns (j: nat, k: nat)
    requires call in Run(events).calls
    ensures j < k < |events| && Approves(events[j].command, call) && Requests(events[k].command, call)
  {
    hide PastApproval, Approves, Requests, TrailOf, Inv, AllMoves;
    var before, last := events[..|events| - 1], events[|events| - 1];
    if call in Run(before).calls {
      j, k := WhatRunsWasApproved(before, call);
    } else {
      var trail := TrailOf(last.rules, Run(before), last.command);
      EveryRunKeepsInv(before);
      CallsOnlyMove(last.rules, Run(before), last.command);
      TrailRequests(trail.worlds, last.command, if last.fuel < |trail.worlds| then last.fuel else |trail.worlds| - 1, call);
      j := PastWasApproved(before, call);
      k := |events| - 1;
    }
  }

  // How a call that reached its effect ends.

  /** The record of the command's own stage. */
  function HeaderAt(w: Desk, c: Command): Option<Header> {
    if c.ExecuteNext? && c.id in w.plans then Some(w.plans[c.id].header)
    else if c.Deliver? && c.id in w.deliveries then Some(w.deliveries[c.id].header)
    else if c.Execute? && c.id in w.acceptances then Some(w.acceptances[c.id].header)
    else None
  }

  /** A call that invoked its effect and was not killed ends with the record done or, after any failure,
      in `RECONCILIATION_REQUIRED`, unless the clock fell behind the record's creation when the failure
      handler read it; then, and only then, the record stays in progress. */
  ghost predicate EndsWell(w: Desk, trail: Trail, c: Command, last: int)
    requires trail.worlds != []
  {
    var after := trail.worlds[|trail.worlds| - 1];
    && HeaderAt(w, c).Some? && HeaderAt(after, c).Some?
    && var created := HeaderAt(w, c).value.created;
       var status := HeaderAt(after, c).value.status;
       && (status == Done <==> !trail.outcome.Raised?)
       && (status == NeedsReconciliation <==> trail.outcome == Raised(ReconciliationRequired))
       && (trail.outcome.Raised? ==> (status == NeedsReconciliation <==> created <= last) && (status == InProgress <==> last < created))
  }

  lemma ExecutionEnds(rules: Rules, w: Desk, c: Command)
    requires Inv(w) && c.ExecuteNext? && |TrailOf(rules, w, c).worlds| > 1
    ensures EndsWell(w, TrailOf(rules, w, c), c, c.last)
  {
    hide DeliveriesOk, AcceptancesOk, CallsOk, PlansOk, FirstPending, TasksOk;
    ApprovedPlanPends(w, c.id);
  }

  lemma ApprovedPlanPends(w: Desk, id: Request)
    requires Inv(w)
    ensures id in w.plans && w.plans[id].header.status == Approved ==> FirstPending(w.plans[id].tasks) == Some(0)
    ensures id in w.plans ==> |w.plans[id].tasks| == |w.plans[id].scope.tasks|
  {
    hide DeliveriesOk, AcceptancesOk, CallsOk;
    if id in w.plans && w.plans[id].header.status == Approved {
      PendingIsFirst(w.plans[id]);
    }
  }

  lemma DeliveryEnds(rules: Rules, w: Desk, c: Command)
    requires Inv(w) && c.Deliver? && |TrailOf(rules, w, c).worlds| > 1
    ensures EndsWell(w, TrailOf(rules, w, c), c, c.last)
  {
    hide PlansOk, AcceptancesOk, CallsOk, BindsPlan, Source;
  }

  lemma AcceptanceEnds(rules: Rules, w: Desk, c: Command)
    requires Inv(w) && c.Execute? && |TrailOf(rules, w, c).worlds| > 1
    ensures EndsWell(w, TrailOf(rules, w, c), c, c.last)
  {
    hide PlansOk, DeliveriesOk, CallsOk, BindsDelivery;
  }

  predicate Busy(h: Header) {
    h.status == InProgress || h.status == NeedsReconciliation
  }

  /** One record of the request waits, those it stands on are finished, and none stands on it. */
  ghost predicate Waiting(w: Desk, id: Request) {
    && id in w.plans
    && (w.plans[id].header.status == Done <==> id in w.deliveries)
    && (id in w.deliveries ==> (w.deliveries[id].header.status == Done <==> id in w.acceptances))
    && (id in w.acceptances ==> id in w.deliveries && Busy(w.acceptances[id].header))
    && (id in w.deliveries && id !in w.acceptances ==> Busy(w.deliveries[id].header))
    && (id !in w.deliveries ==> Busy(w.plans[id].header))
  }

  lemma BusyWaits(w: Desk, id: Request)
    requires Inv(w)
    requires || (id in w.plans && Busy(w.plans[id].header))
             || (id in w.deliveries && Busy(w.deliveries[id].header))
             || (id in w.acceptances && Busy(w.acceptances[id].header))
    ensures Waiting(w, id)
  {
    hide CallsOk, PlansOk, DeliveryOk, AcceptanceOk, BindsPlan, BindsDelivery;
  }

  lemma PlanCallsWait(rules: Rules, w: Desk, c: Command)
    requires Waiting(w, c.id) && (c.MakePlan? || c.ApprovePlan? || c.ExecuteNext?)
    ensures TrailOf(rules, w, c).worlds == [w]
  {
    hide CompletePlan, FailPlan, BeginPlan, Constructible, DeliverTrail, RunTrail;
  }

  lemma DeliveryCallsWait(rules: Rules, w: Desk, c: Command)
    requires Waiting(w, c.id) && (c.PrepareDelivery? || c.ApproveDelivery? || c.Deliver?)
    ensures TrailOf(rules, w, c).worlds == [w]
  {
    hide CompleteDelivery, Source, BindsPlan, Constructible, ExecuteTrail, RunTrail;
  }

  lemma AcceptanceCallsWait(rules: Rules, w: Desk, c: Command)
    requires Waiting(w, c.id) && (c.PrepareAcceptance? || c.ApproveAcceptance? || c.Execute?)
    ensures TrailOf(rules, w, c).worlds == [w]
  {
    hide CompleteAcceptance, BindsDelivery, Constructible, ExecuteTrail, DeliverTrail;
  }

  /** After a crash during an effect, or a failure, the request is stuck: no call for it changes anything. */
  lemma BusyRequestsStay(rules: Rules, w: Desk, c: Command)
    requires Inv(w)
    requires || (c.id in w.plans && Busy(w.plans[c.id].header))
             || (c.id in w.deliveries && Busy(w.deliveries[c.id].header))
             || (c.id in w.acceptances && Busy(w.acceptances[c.id].header))
    ensures TrailOf(rules, w, c).worlds == [w]
  {
    hide Inv, Waiting, TrailOf, Busy;
    BusyWaits(w, c.id);
    if c.MakePlan? || c.ApprovePlan? || c.ExecuteNext? {
      PlanCallsWait(rules, w, c);
    } else if c.PrepareDelivery? || c.ApproveDelivery? || c.Deliver? {
      DeliveryCallsWait(rules, w, c);
    } else {
      AcceptanceCallsWait(rules, w, c);
    }
  }
}
