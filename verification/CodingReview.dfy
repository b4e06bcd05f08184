/** The bounded review loop: rounds of text patches, QA, security review and returned feedback. The
    test run and the security scan are arbitrary functions of the files. */
module CodingReview {
  import opened Wrappers

  type Files = map<string, string>

  datatype Assignment = Assignment(role: string, paths: seq<string>)

  datatype WorkOrder = WorkOrder(assignments: seq<Assignment>, qaPaths: seq<string>)

  /** The limits an authority may set: 1 to 5 rounds, 6 to 32 writes, 16 to 96 tool calls. */
  datatype Authority = Authority(rounds: nat, writes: nat, toolCalls: nat)

  predicate AuthorityOk(a: Authority) {
    1 <= a.rounds <= 5 && 6 <= a.writes <= 32 && 16 <= a.toolCalls <= 96
  }

  datatype Patch = Patch(role: string, path: string, content: string)

  datatype Plan = Plan(number: nat, patches: seq<Patch>, resolves: seq<string>, owner: string)

  predicate Distinct(items: seq<string>) {
    forall i, j :: 0 <= i < j < |items| ==> items[i] != items[j]
  }

  /** What the plan's constructor guarantees. */
  predicate PlanOk(plan: Plan) {
    && 1 <= |plan.patches| <= 16
    && (forall i, j :: 0 <= i < j < |plan.patches| ==> plan.patches[i].path != plan.patches[j].path)
    && |plan.resolves| <= 8 && Distinct(plan.resolves)
  }

  datatype Finding = Finding(code: string, reviewer: string, responsible: string, path: string)

  datatype QaStatus = QaPass | QaFail
  datatype SecurityStatus = SecurityPass | SecurityFail | NotRun

  datatype RoundRecord = RoundRecord(
    number: nat, resolved: seq<string>, changed: set<string>, qa: QaStatus, security: SecurityStatus, findings: seq<Finding>,
    state: Files, writes: nat, commands: nat)

  const QA_ROLE := "QA_ENGINEER"
  const SECURITY_ROLE := "SECURITY_ENGINEER"

  /** What the record's constructor checks. */
  predicate RecordOk(r: RoundRecord) {
    && r.number >= 1 && |r.resolved| <= 8 && Distinct(r.resolved) && 1 <= |r.changed| <= 16 && |r.findings| <= 8
    && (r.qa == QaFail ==>
          r.security == NotRun && r.findings != [] && forall i :: 0 <= i < |r.findings| ==> r.findings[i].reviewer == QA_ROLE)
    && (r.qa == QaPass && r.security == SecurityFail ==>
          r.findings != [] && forall i :: 0 <= i < |r.findings| ==> r.findings[i].reviewer == SECURITY_ROLE)
    && (r.qa == QaPass && r.security == SecurityPass ==> r.findings == [])
    && 1 <= r.writes <= 16 && r.commands in {1, 2}
  }

  function Codes(findings: seq<Finding>): seq<string> {
    seq(|findings|, i requires 0 <= i < |findings| => findings[i].code)
  }

  datatype Route = Route(number: nat, code: string, reviewer: string, responsible: string)

  datatype Observation = Observation(
    rounds: seq<RoundRecord>, routes: seq<Route>, changed: set<string>, files: Files,
    qaCount: nat, securityCount: nat, writes: nat, commands: nat)

  function RoutesOf(r: RoundRecord): seq<Route> {
    seq(|r.findings|, i requires 0 <= i < |r.findings| =>
      Route(r.number, r.findings[i].code, r.findings[i].reviewer, r.findings[i].responsible))
  }

  function ExpectedRoutes(rounds: seq<RoundRecord>): seq<Route> {
    if rounds == [] then [] else ExpectedRoutes(rounds[..|rounds| - 1]) + RoutesOf(rounds[|rounds| - 1])
  }

  function SecurityRuns(rounds: seq<RoundRecord>): nat {
    if rounds == [] then 0
    else SecurityRuns(rounds[..|rounds| - 1]) + (if rounds[|rounds| - 1].security != NotRun then 1 else 0)
  }

  function Writes(rounds: seq<RoundRecord>): nat {
    if rounds == [] then 0 else Writes(rounds[..|rounds| - 1]) + rounds[|rounds| - 1].writes
  }

  function Commands(rounds: seq<RoundRecord>): nat {
    if rounds == [] then 0 else Commands(rounds[..|rounds| - 1]) + rounds[|rounds| - 1].commands
  }

  predicate Passing(r: RoundRecord) {
    r.qa == QaPass && r.security == SecurityPass
  }

  /** What the observation's constructor checks. */
  predicate ObservationOk(o: Observation) {
    && 1 <= |o.rounds| <= 5
    && (forall i :: 0 <= i < |o.rounds| ==> o.rounds[i].number == i + 1)
    && Passing(o.rounds[|o.rounds| - 1])
    && |o.routes| <= 16 && o.routes == ExpectedRoutes(o.rounds)
    && 1 <= |o.changed| <= 32 && o.files.Keys == o.changed
    && o.qaCount == |o.rounds| && o.securityCount == SecurityRuns(o.rounds)
    && o.writes == Writes(o.rounds) && o.commands == Commands(o.rounds)
  }

  // The environment.

  datatype Environment = Environment(
    qa: Files -> bool,
    scan: Files -> seq<(string, string)>,       // codes and paths of the security findings
    placeable: (Files, string) -> bool)         // no parent of the path is a file, and it is no directory

  function OwnerIn(assignments: seq<Assignment>, path: string): Option<string> {
    if assignments == [] then None
    else if path in assignments[0].paths then Some(assignments[0].role)
    else OwnerIn(assignments[1..], path)
  }

  /** `owner_for`. */
  function OwnerFor(order: WorkOrder, path: string): Option<string> {
    if path in order.qaPaths then Some(QA_ROLE) else OwnerIn(order.assignments, path)
  }

  /** A patch of the role that owns its path, onto a regular file or nothing. */
  predicate Valid(env: Environment, order: WorkOrder, files: Files, patch: Patch) {
    OwnerFor(order, patch.path) == Some(patch.role) && env.placeable(files, patch.path)
  }

  predicate AllValid(env: Environment, order: WorkOrder, files: Files, patches: seq<Patch>) {
    forall i :: 0 <= i < |patches| ==> Valid(env, order, files, patches[i])
  }

  /** The files after the patches, one after the other. */
  function Patched(files: Files, patches: seq<Patch>): Files {
    if patches == [] then files
    else Patched(files, patches[..|patches| - 1])[patches[|patches| - 1].path := patches[|patches| - 1].content]
  }

  /** Every patch still finds its destination when its turn comes. */
  predicate Writable(env: Environment, files: Files, patches: seq<Patch>) {
    forall i :: 0 <= i < |patches| ==> env.placeable(Patched(files, patches[..i]), patches[i].path)
  }

  function PathsOf(patches: seq<Patch>): set<string> {
    set i | 0 <= i < |patches| :: patches[i].path
  }

  predicate TestsExist(order: WorkOrder, files: Files) {
    forall i :: 0 <= i < |order.qaPaths| ==> order.qaPaths[i] in files
  }

  function Findings(env: Environment, order: WorkOrder, files: Files, owner: string): seq<Finding>
    requires order.qaPaths != []
  {
    if !env.qa(files) then [Finding("QA_TEST_FAILURE", QA_ROLE, owner, order.qaPaths[0])]
    else
      var found := env.scan(files);
      seq(|found|, i requires 0 <= i < |found| => Finding(found[i].0, SECURITY_ROLE, owner, found[i].1))
  }

  function StateOf(files: Files, changed: set<string>): Files {
    map p | p in changed && p in files :: files[p]
  }

  /** The record of one round; `files` is the workspace after its patches. */
  function RecordOf(env: Environment, order: WorkOrder, plan: Plan, files: Files, changed: set<string>): RoundRecord
    requires order.qaPaths != []
  {
    var findings := Findings(env, order, files, plan.owner);
    RoundRecord(plan.number, plan.resolves, PathsOf(plan.patches), if env.qa(files) then QaPass else QaFail,
                if !env.qa(files) then NotRun else if findings != [] then SecurityFail else SecurityPass,
                findings, StateOf(files, changed), |plan.patches|, if env.qa(files) then 2 else 1)
  }

  /** Where the loop stands after some rounds; None when a round raised. */
  datatype Loop = Loop(files: Files, changed: set<string>, records: seq<RoundRecord>)

  function LastCodes(records: seq<RoundRecord>): seq<string> {
    if records == [] then [] else Codes(records[|records| - 1].findings)
  }

  /** One round of the specification. */
  function Round(env: Environment, order: WorkOrder, authority: Authority, loop: Loop, plan: Plan): Option<Loop>
    requires order.qaPaths != []
  {
    if plan.resolves != LastCodes(loop.records) then None
    else if !AllValid(env, order, loop.files, plan.patches) || !Writable(env, loop.files, plan.patches) then None
    else
      var files := Patched(loop.files, plan.patches);
      var changed := loop.changed + PathsOf(plan.patches);
      if Writes(loop.records) + |plan.patches| > authority.writes || !TestsExist(order, files) then None
      else
        var record := RecordOf(env, order, plan, files, changed);
        if RecordOk(record) then Some(Loop(files, changed, loop.records + [record])) else None
  }

  /** The rounds of the first `n` plans; nothing may follow a passing round. */
  function Rounds(env: Environment, order: WorkOrder, authority: Authority, files: Files, plans: seq<Plan>, n: nat): Option<Loop>
    requires order.qaPaths != [] && n <= |plans|
  {
    if n == 0 then Some(Loop(files, {}, []))
    else
      match Rounds(env, order, authority, files, plans, n - 1)
      case None => None
      case Some(loop) =>
        if loop.records != [] && Passing(loop.records[|loop.records| - 1]) then None
        else Round(env, order, authority, loop, plans[n - 1])
  }

  predicate Ordered(authority: Authority, plans: seq<Plan>) {
    1 <= |plans| <= authority.rounds && forall i :: 0 <= i < |plans| ==> plans[i].number == i + 1
  }

  /** What `execute` returns; None when it raises. */
  function Execution(env: Environment, order: WorkOrder, authority: Authority, files: Files, plans: seq<Plan>): Option<Observation>
    requires order.qaPaths != []
  {
    if !Ordered(authority, plans) then None
    else
      match Rounds(env, order, authority, files, plans, |plans|)
      case None => None
      case Some(loop) =>
        if loop.records == [] || !Passing(loop.records[|loop.records| - 1]) then None
        else if Commands(loop.records) + Writes(loop.records) > authority.toolCalls then None
        else if |ExpectedRoutes(loop.records)| > 16 then None
        else
          Some(Observation(loop.records, ExpectedRoutes(loop.records), loop.changed, StateOf(loop.files, loop.changed),
                           |loop.records|, SecurityRuns(loop.records), Writes(loop.records), Commands(loop.records)))
  }

  // What holds of every execution.

  /** All patches of the plans, in order. */
  function AllPatches(plans: seq<Plan>): seq<Patch> {
    if plans == [] then [] else AllPatches(plans[..|plans| - 1]) + plans[|plans| - 1].patches
  }

  /** The content of the last patch to a path. */
  function LastContent(patches: seq<Patch>, path: string): Option<string> {
    if patches == [] then None
    else if patches[|patches| - 1].path == path then Some(patches[|patches| - 1].content)
    else LastContent(patches[..|patches| - 1], path)
  }

  /** Each round resolves exactly what the round before it found, and only the last one passes. */
  predicate Chained(records: seq<RoundRecord>) {
    forall i :: 0 <= i < |records| ==>
      && records[i].resolved == LastCodes(records[..i]) && records[i].number == i + 1 && RecordOk(records[i])
      && (i < |records| - 1 ==> !Passing(records[i]))
  }

  lemma {:induction false} PatchedConcat(files: Files, a: seq<Patch>, b: seq<Patch>)
    ensures Patched(files, a + b) == Patched(Patched(files, a), b)
  {
    if b == [] {
      assert a + b == a;
    } else {
      assert (a + b)[..|a + b| - 1] == a + b[..|b| - 1];
      PatchedConcat(files, a, b[..|b| - 1]);
    }
  }

  lemma {:induction false} PatchedHolds(files: Files, patches: seq<Patch>, path: string)
    ensures Lookup(Patched(files, patches), path) ==
            if LastContent(patches, path).Some? then LastContent(patches, path) else Lookup(files, path)
    ensures LastContent(patches, path).Some? <==> path in PathsOf(patches)
  {
    if patches != [] {
      var front := patches[..|patches| - 1];
      PatchedHolds(files, front, path);
      assert PathsOf(patches) == PathsOf(front) + {patches[|patches| - 1].path} by {
        forall p ensures p in PathsOf(patches) <==> p in PathsOf(front) + {patches[|patches| - 1].path} {
          if p in PathsOf(front) {
            var i :| 0 <= i < |front| && front[i].path == p;
            assert patches[i].path == p;
          }
        }
      }
    } else {
      assert PathsOf(patches) == {};
    }
  }

  lemma PathsOfConcat(a: seq<Patch>, b: seq<Patch>)
    ensures PathsOf(a + b) == PathsOf(a) + PathsOf(b)
  {
    forall p ensures p in PathsOf(a + b) <==> p in PathsOf(a) + PathsOf(b) {
      if p in PathsOf(a) {
        var i :| 0 <= i < |a| && a[i].path == p;
        assert (a + b)[i].path == p;
      } else if p in PathsOf(b) {
        var i :| 0 <= i < |b| && b[i].path == p;
        assert (a + b)[|a| + i].path == p;
      }
    }
  }

  lemma {:induction false} PathsAreFew(patches: seq<Patch>)
    ensures |PathsOf(patches)| <= |patches|
    ensures patches != [] ==> |PathsOf(patches)| >= 1
  {
    if patches == [] {
      assert PathsOf(patches) == {};
    } else {
      var front, last := patches[..|patches| - 1], patches[|patches| - 1..];
      PathsAreFew(front);
      PathsOfConcat(front, last);
      assert patches == front + last;
      assert PathsOf(last) == {patches[|patches| - 1].path};
      assert patches[0].path in PathsOf(patches);
    }
  }

  /** What the loop has reached after `n` rounds. */
  ghost predicate Reached(authority: Authority, files: Files, plans: seq<Plan>, loop: Loop) {
    && |loop.records| == |plans|
    && Chained(loop.records)
    && loop.files == Patched(files, AllPatches(plans)) && loop.changed == PathsOf(AllPatches(plans))
    && Writes(loop.records) == |AllPatches(plans)| && (plans != [] ==> Writes(loop.records) <= authority.writes)
    && (forall i :: 0 <= i < |plans| ==> loop.records[i].writes == |plans[i].patches|)
  }

  /** What one round adds to the loop. */
  lemma RoundAdds(env: Environment, order: WorkOrder, authority: Authority, loop: Loop, plan: Plan)
    requires order.qaPaths != [] && Round(env, order, authority, loop, plan).Some?
    ensures var after := Round(env, order, authority, loop, plan).value;
      && |after.records| == |loop.records| + 1
      && after.files == Patched(loop.files, plan.patches)
      && after.changed == loop.changed + PathsOf(plan.patches)
      && var record := after.records[|loop.records|];
         && after.records == loop.records + [record]
         && record.resolved == LastCodes(loop.records) && record.number == plan.number && RecordOk(record)
         && record.writes == |plan.patches| && Writes(loop.records) + |plan.patches| <= authority.writes
  {
    hide RecordOk, AllValid, Writable, TestsExist, Findings, Passing, Patched, PathsOf, LastCodes, Writes;
  }

  lemma OnePlanMore(plans: seq<Plan>, plan: Plan)
    ensures AllPatches(plans + [plan]) == AllPatches(plans) + plan.patches
  {
    assert (plans + [plan])[..|plans|] == plans;
  }

  lemma OneRecordMore(records: seq<RoundRecord>, record: RoundRecord)
    ensures Writes(records + [record]) == Writes(records) + record.writes
  {
    assert (records + [record])[..|records|] == records;
  }

  lemma RoundReaches(env: Environment, order: WorkOrder, authority: Authority, files: Files, plans: seq<Plan>, loop: Loop, plan: Plan)
    requires order.qaPaths != [] && Reached(authority, files, plans, loop) && plan.number == |plans| + 1
    requires loop.records == [] || !Passing(loop.records[|loop.records| - 1])
    requires Round(env, order, authority, loop, plan).Some?
    ensures Reached(authority, files, plans + [plan], Round(env, order, authority, loop, plan).value)
  {
    hide RecordOk, Passing, Patched, PathsOf, Round, LastCodes, Chained, Writes, AllPatches;
    var after := Round(env, order, authority, loop, plan).value;
    RoundAdds(env, order, authority, loop, plan);
    OnePlanMore(plans, plan);
    PatchedConcat(files, AllPatches(plans), plan.patches);
    PathsOfConcat(AllPatches(plans), plan.patches);
    ChainedStep(loop.records, after.records[|loop.records|]);
    OneRecordMore(loop.records, after.records[|loop.records|]);
  }

  lemma ChainedStep(records: seq<RoundRecord>, record: RoundRecord)
    requires Chained(records) && record.resolved == LastCodes(records) && record.number == |records| + 1 && RecordOk(record)
    requires records == [] || !Passing(records[|records| - 1])
    ensures Chained(records + [record])
  {
    hide RecordOk, Passing, LastCodes;
    var longer := records + [record];
    forall i | 0 <= i < |longer|
      ensures longer[i].resolved == LastCodes(longer[..i]) && longer[i].number == i + 1 && RecordOk(longer[i])
      ensures i < |longer| - 1 ==> !Passing(longer[i])
    {
      assert longer[..i] == records[..i];
      if i == |records| {
        assert records[..i] == records;
      }
    }
  }

  lemma {:induction false} RoundsReach(env: Environment, order: WorkOrder, authority: Authority, files: Files, plans: seq<Plan>, n: nat)
    requires order.qaPaths != [] && Ordered(authority, plans) && n <= |plans|
    requires Rounds(env, order, authority, files, plans, n).Some?
    ensures Reached(authority, files, plans[..n], Rounds(env, order, authority, files, plans, n).value)
  {
    hide Reached, Round, Passing;
    if n == 0 {
      NothingReached(authority, files, plans[..0]);
    } else {
      RoundsReach(env, order, authority, files, plans, n - 1);
      var loop := Rounds(env, order, authority, files, plans, n - 1).value;
      ReachedLength(authority, files, plans[..n - 1], loop);
      RoundReaches(env, order, authority, files, plans[..n - 1], loop, plans[n - 1]);
      assert plans[..n - 1] + [plans[n - 1]] == plans[..n];
    }
  }

  lemma NothingReached(authority: Authority, files: Files, plans: seq<Plan>)
    requires plans == []
    ensures Reached(authority, files, plans, Loop(files, {}, []))
  {
    assert PathsOf([]) == {};
  }

  lemma ReachedLength(authority: Authority, files: Files, plans: seq<Plan>, loop: Loop)
    requires Reached(authority, files, plans, loop)
    ensures |loop.records| == |plans|
  {
  }

  /** Whenever the loop returns, its accumulators satisfy every check of the observation's constructor,
      its rounds are chained and only the last passes, all plans were used, and each final file holds
      the content of the last patch to its path. */
  lemma ExecutionIsSound(env: Environment, order: WorkOrder, authority: Authority, files: Files, plans: seq<Plan>)
    requires order.qaPaths != [] && AuthorityOk(authority) && forall i :: 0 <= i < |plans| ==> PlanOk(plans[i])
    requires Execution(env, order, authority, files, plans).Some?
    ensures var o := Execution(env, order, authority, files, plans).value;
      && ObservationOk(o) && Chained(o.rounds) && |o.rounds| == |plans|
      && o.changed == PathsOf(AllPatches(plans))
      && (forall p :: Lookup(o.files, p) == LastContent(AllPatches(plans), p))
      && o.writes + o.commands <= authority.toolCalls && o.writes <= authority.writes
  {
    hide RecordOk, Round, Rounds, Reached, Passing, Patched, PathsOf, LastContent, AllPatches, ExpectedRoutes,
      SecurityRuns, Writes, Commands;
    RoundsReach(env, order, authority, files, plans, |plans|);
    assert plans[..|plans|] == plans;
    var o := Execution(env, order, authority, files, plans).value;
    var loop := Rounds(env, order, authority, files, plans, |plans|).value;
    ReachedFacts(authority, files, plans, loop);
    SomePatch(plans);
    PathsAreFew(AllPatches(plans));
    FinalFiles(files, AllPatches(plans));
  }

  lemma ReachedFacts(authority: Authority, files: Files, plans: seq<Plan>, loop: Loop)
    requires Reached(authority, files, plans, loop)
    ensures |loop.records| == |plans| && Chained(loop.records)
    ensures loop.files == Patched(files, AllPatches(plans)) && loop.changed == PathsOf(AllPatches(plans))
    ensures Writes(loop.records) == |AllPatches(plans)| && (plans != [] ==> Writes(loop.records) <= authority.writes)
    ensures forall i :: 0 <= i < |plans| ==> loop.records[i].number == i + 1
  {
    hide RecordOk, LastCodes, Passing;
  }

  lemma FinalFiles(files: Files, patches: seq<Patch>)
    ensures var final := StateOf(Patched(files, patches), PathsOf(patches));
      final.Keys == PathsOf(patches) && forall p :: Lookup(final, p) == LastContent(patches, p)
  {
    hide Patched, PathsOf, LastContent;
    var final := StateOf(Patched(files, patches), PathsOf(patches));
    forall p ensures Lookup(final, p) == LastContent(patches, p) && (p in PathsOf(patches) ==> p in final) {
      PatchedHolds(files, patches, p);
    }
  }

  lemma SomePatch(plans: seq<Plan>)
    requires plans != [] && forall i :: 0 <= i < |plans| ==> PlanOk(plans[i])
    ensures AllPatches(plans) != []
  {
  }

  /** A round that found the same code twice cannot be followed: no plan may name a code twice. */
  lemma RepeatedCodesEndTheLoop(env: Environment, order: WorkOrder, authority: Authority, loop: Loop, plan: Plan)
    requires order.qaPaths != [] && PlanOk(plan)
    requires !Distinct(LastCodes(loop.records)) || |LastCodes(loop.records)| > 8
    ensures Round(env, order, authority, loop, plan).None?
  {
  }

  lemma NoPatch(files: Files)
    ensures Patched(files, []) == files && PathsOf([]) == {}
  {
  }

  lemma OnePatch(files: Files, patches: seq<Patch>, i: nat)
    requires i < |patches|
    ensures Patched(files, patches[..i + 1]) == Patched(files, patches[..i])[patches[i].path := patches[i].content]
    ensures PathsOf(patches[..i + 1]) == PathsOf(patches[..i]) + {patches[i].path}
  {
    assert patches[..i + 1][..i] == patches[..i];
    PathsOfConcat(patches[..i], [patches[i]]);
    assert patches[..i + 1] == patches[..i] + [patches[i]];
    assert PathsOf([patches[i]]) == {patches[i].path};
  }

  // The loop itself.

  class LocalDeterministicCodingReviewProvider {
    const env: Environment
    const plans: seq<Plan>
    var executionCount: nat
    var files: Files

    constructor (env: Environment, plans: seq<Plan>, files: Files)
      ensures this.env == env && this.plans == plans && this.files == files && executionCount == 0
    {
      this.env, this.plans, this.files := env, plans, files;
      executionCount := 0;
    }

    /** `_validate_patches`: nothing is written before every patch of the round is valid. */
    method ValidatePatches(order: WorkOrder, patches: seq<Patch>) returns (ok: bool)
      ensures ok <==> AllValid(env, order, files, patches)
    {
      for i := 0 to |patches|
        invariant forall j :: 0 <= j < i ==> Valid(env, order, files, patches[j])
      {
        var owner := OwnerFor(order, patches[i].path);
        if owner.None? || owner.value != patches[i].role || !env.placeable(files, patches[i].path) {
          return false;
        }
      }
      ok := true;
    }

    /** `_write`. */
    method Write(patch: Patch) returns (ok: bool)
      modifies `files
      ensures ok <==> env.placeable(old(files), patch.path)
      ensures files == if ok then old(files)[patch.path := patch.content] else old(files)
    {
      ok := env.placeable(files, patch.path);
      if ok {
        files := files[patch.path := patch.content];
      }
    }

    /** The writes of one round. */
    method WriteAll(patches: seq<Patch>, changed: set<string>, writes: nat) returns (ok: bool, changed': set<string>, writes': nat)
      modifies `files
      ensures ok <==> Writable(env, old(files), patches)
      ensures ok ==> files == Patched(old(files), patches) && changed' == changed + PathsOf(patches) && writes' == writes + |patches|
    {
      hide Patched, PathsOf;
      changed', writes' := changed, writes;
      NoPatch(files);
      assert patches[..0] == [];
      for i := 0 to |patches|
        invariant files == Patched(old(files), patches[..i])
        invariant forall j :: 0 <= j < i ==> env.placeable(Patched(old(files), patches[..j]), patches[j].path)
        invariant changed' == changed + PathsOf(patches[..i]) && writes' == writes + i
      {
        OnePatch(old(files), patches, i);
        ok := Write(patches[i]);
        if !ok {
          return;
        }
        changed' := changed' + {patches[i].path};
        writes' := writes' + 1;
      }
      assert patches[..|patches|] == patches;
      ok := true;
    }

    /** One round: patches, QA, and security only when QA passed. */
    method RunRound(order: WorkOrder, authority: Authority, plan: Plan, previous: seq<string>, changed: set<string>, writes: nat,
                    ghost records: seq<RoundRecord>)
      returns (result: Option<RoundRecord>, changed': set<string>, writes': nat)
      requires order.qaPaths != [] && previous == LastCodes(records) && writes == Writes(records)
      modifies `files
      ensures Round(env, order, authority, Loop(old(files), changed, records), plan) ==
        if result.Some? then Some(Loop(files, changed', records + [result.value])) else None
      ensures result.Some? ==> writes' == writes + result.value.writes
    {
      hide RecordOk, Writable, AllValid, Patched, PathsOf, LastCodes, StateOf;
      result, changed', writes' := None, changed, writes;
      if plan.resolves != previous {
        return;
      }
      var ok := ValidatePatches(order, plan.patches);
      if !ok {
        return;
      }
      ok, changed', writes' := WriteAll(plan.patches, changed, writes);
      if !ok || writes' > authority.writes || !TestsExist(order, files) {
        return;
      }
      var qaPassed := env.qa(files);
      var commands := 1;
      var findings: seq<Finding>;
      var security: SecurityStatus;
      if !qaPassed {
        findings := [Finding("QA_TEST_FAILURE", QA_ROLE, plan.owner, order.qaPaths[0])];
        security := NotRun;
      } else {
        var found := env.scan(files);
        findings := seq(|found|, i requires 0 <= i < |found| => Finding(found[i].0, SECURITY_ROLE, plan.owner, found[i].1));
        commands := commands + 1;
        security := if findings != [] then SecurityFail else SecurityPass;
      }
      assert findings == Findings(env, order, files, plan.owner);
      var record := RoundRecord(plan.number, plan.resolves, PathsOf(plan.patches), if qaPassed then QaPass else QaFail,
                                security, findings, StateOf(files, changed'), |plan.patches|, commands);
      result := if RecordOk(record) then Some(record) else None;
    }

    /** `execute`: what it returns is the specified execution, accumulated round by round. */
    method Execute(order: WorkOrder, authority: Authority) returns (observation: Option<Observation>)
      requires order.qaPaths != [] && AuthorityOk(authority)
      requires forall i :: 0 <= i < |plans| ==> PlanOk(plans[i])
      modifies this
      ensures observation == Execution(env, order, authority, old(files), plans)
      ensures observation.Some? ==> files == Patched(old(files), AllPatches(plans))
      ensures executionCount == old(executionCount) + 1
    {
      hide RecordOk, Round, Rounds, Reached, PlanOk, Passing, RecordOf, Patched, PathsOf, AllPatches, StateOf,
        Accumulated, RoutesOf,
        LastCodes, Codes, ExpectedRoutes, SecurityRuns, Writes, Commands;
      executionCount := executionCount + 1;
      if !(1 <= |plans| <= authority.rounds) || exists i :: 0 <= i < |plans| && plans[i].number != i + 1 {
        return None;
      }
      ghost var start := files;
      var records: seq<RoundRecord> := [];
      var routes: seq<Route> := [];
      var changed: set<string> := {};
      var writes: nat, commands: nat := 0, 0;
      var previous, passed := [], false;
      var index := 0;
      NothingAccumulated();
      NoRounds(env, order, authority, start, plans);
      while index < |plans| && !passed
        invariant index <= |plans| && previous == LastCodes(records)
        invariant Rounds(env, order, authority, start, plans, index) == Some(Loop(files, changed, records))
        invariant Accumulated(records, routes, writes, commands)
        invariant passed <==> records != [] && Passing(records[|records| - 1])
        invariant passed ==> index == |plans|
        invariant executionCount == old(executionCount) + 1
      {
        AccumulatedMeans(records, routes, writes, commands);
        var result;
        result, changed, writes := RunRound(order, authority, plans[index], previous, changed, writes, records);
        NextRound(env, order, authority, start, plans, index);
        if result.None? {
          RoundsStop(env, order, authority, start, plans, index + 1);
          return None;
        }
        var record := result.value;
        AccumulatedStep(records, routes, writes - record.writes, commands, record);
        records := records + [record];
        routes := routes + RoutesOf(record);
        commands := commands + record.commands;
        previous := Codes(record.findings);
        LastCodesAre(records);
        passed := Passing(record);
        index := index + 1;
        if passed && index != |plans| {
          PassedEarly(env, order, authority, start, plans, index);
          return None;
        }
      }
      AccumulatedMeans(records, routes, writes, commands);
      if !passed || commands + writes > authority.toolCalls || |routes| > 16 {
        return None;
      }
      observation := Some(Observation(records, routes, changed, StateOf(files, changed),
                                      |records|, SecurityRuns(records), writes, commands));
      RoundsReach(env, order, authority, start, plans, |plans|);
      assert plans[..|plans|] == plans;
      ReachedFacts(authority, start, plans, Loop(files, changed, records));
    }
  }

  lemma NoRounds(env: Environment, order: WorkOrder, authority: Authority, files: Files, plans: seq<Plan>)
    requires order.qaPaths != []
    ensures Rounds(env, order, authority, files, plans, 0) == Some(Loop(files, {}, [])) && LastCodes([]) == []
  {
  }

  lemma NextRound(env: Environment, order: WorkOrder, authority: Authority, files: Files, plans: seq<Plan>, n: nat)
    requires order.qaPaths != [] && n < |plans| && Rounds(env, order, authority, files, plans, n).Some?
    requires var records := Rounds(env, order, authority, files, plans, n).value.records;
      records == [] || !Passing(records[|records| - 1])
    ensures Rounds(env, order, authority, files, plans, n + 1) ==
            Round(env, order, authority, Rounds(env, order, authority, files, plans, n).value, plans[n])
  {
    hide Round, Passing;
  }

  lemma LastCodesAre(records: seq<RoundRecord>)
    requires records != []
    ensures LastCodes(records) == Codes(records[|records| - 1].findings)
  {
  }

  /** The accumulators hold the sums and the routes of the records. */
  predicate Accumulated(records: seq<RoundRecord>, routes: seq<Route>, writes: nat, commands: nat) {
    routes == ExpectedRoutes(records) && writes == Writes(records) && commands == Commands(records)
  }

  lemma NothingAccumulated()
    ensures Accumulated([], [], 0, 0)
  {
  }

  lemma AccumulatedMeans(records: seq<RoundRecord>, routes: seq<Route>, writes: nat, commands: nat)
    requires Accumulated(records, routes, writes, commands)
    ensures routes == ExpectedRoutes(records) && writes == Writes(records) && commands == Commands(records)
  {
  }

  lemma AccumulatedStep(records: seq<RoundRecord>, routes: seq<Route>, writes: nat, commands: nat, record: RoundRecord)
    requires Accumulated(records, routes, writes, commands)
    ensures Accumulated(records + [record], routes + RoutesOf(record), writes + record.writes, commands + record.commands)
  {
    assert (records + [record])[..|records|] == records;
  }

  lemma {:induction false} RoundsStop(env: Environment, order: WorkOrder, authority: Authority, files: Files, plans: seq<Plan>, n: nat)
    requires order.qaPaths != [] && n <= |plans| && Rounds(env, order, authority, files, plans, n).None?
    ensures Rounds(env, order, authority, files, plans, |plans|).None?
    decreases |plans| - n
  {
    hide Round, Passing;
    if n < |plans| {
      RoundsStop(env, order, authority, files, plans, n + 1);
    }
  }

  lemma PassedEarly(env: Environment, order: WorkOrder, authority: Authority, files: Files, plans: seq<Plan>, n: nat)
    requires order.qaPaths != [] && n < |plans| && Rounds(env, order, authority, files, plans, n).Some?
    requires var records := Rounds(env, order, authority, files, plans, n).value.records;
      records != [] && Passing(records[|records| - 1])
    ensures Rounds(env, order, authority, files, plans, |plans|).None?
  {
    hide Round, Passing;
    RoundsStop(env, order, authority, files, plans, n + 1);
  }
}
