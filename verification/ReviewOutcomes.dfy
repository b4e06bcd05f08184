/** Exactly when the review loop returns, and what it then reports, in terms of the workspace after each
    round rather than of the loop. */
module ReviewOutcomes {
  import opened Wrappers
  import opened CodingReview

  /** The workspace after the first `n` rounds. */
  function FilesAfter(files: Files, plans: seq<Plan>, n: nat): Files
    requires n <= |plans|
  {
    Patched(files, AllPatches(plans[..n]))
  }

  /** The codes that QA or, once QA passes, the security scan reports of a workspace. */
  function Reported(env: Environment, files: Files): seq<string> {
    if !env.qa(files) then ["QA_TEST_FAILURE"] else seq(|env.scan(files)|, i requires 0 <= i < |env.scan(files)| => env.scan(files)[i].0)
  }

  /** QA passes and the scan finds nothing. */
  predicate Sound(env: Environment, files: Files) {
    env.qa(files) && env.scan(files) == []
  }

  /** QA owns its paths; any other path belongs to the first assignment that lists it. */
  ghost predicate Owns(order: WorkOrder, role: string, path: string) {
    if path in order.qaPaths then role == "QA_ENGINEER"
    else exists i: nat :: FirstLists(order.assignments, path, i) && order.assignments[i].role == role
  }

  predicate FirstLists(assignments: seq<Assignment>, path: string, i: nat) {
    i < |assignments| && path in assignments[i].paths && forall j :: 0 <= j < i ==> path !in assignments[j].paths
  }

  lemma {:induction false} OwnerInIs(assignments: seq<Assignment>, path: string, role: string)
    ensures OwnerIn(assignments, path) == Some(role) <==> exists i: nat :: FirstLists(assignments, path, i) && assignments[i].role == role
  {
    if assignments == [] {
    } else if path in assignments[0].paths {
      assert FirstLists(assignments, path, 0);
      assert forall i: nat :: FirstLists(assignments, path, i) ==> i == 0;
    } else {
      var rest := assignments[1..];
      OwnerInIs(rest, path, role);
      if i: nat :| FirstLists(assignments, path, i) && assignments[i].role == role {
        assert forall j :: 0 <= j < i - 1 ==> rest[j] == assignments[j + 1];
        assert FirstLists(rest, path, i - 1);
      }
      if i: nat :| FirstLists(rest, path, i) && rest[i].role == role {
        assert forall j :: 0 < j < i + 1 ==> assignments[j] == rest[j - 1];
        assert FirstLists(assignments, path, i + 1);
      }
    }
  }

  lemma OwnerIs(order: WorkOrder, role: string, path: string)
    ensures OwnerFor(order, path) == Some(role) <==> Owns(order, role, path)
  {
    OwnerInIs(order.assignments, path, role);
  }

  /** The plan can be carried out: it resolves exactly what was reported before, every patch is its path's
      owner's and finds its destination both before the round and when its turn comes, the declared tests exist
      afterwards, and no more than eight codes are then reported. */
  ghost predicate Feasible(env: Environment, order: WorkOrder, files: Files, plan: Plan, reported: seq<string>) {
    && plan.resolves == reported
    && (forall i :: 0 <= i < |plan.patches| ==>
          Owns(order, plan.patches[i].role, plan.patches[i].path) && env.placeable(files, plan.patches[i].path)
          && env.placeable(Patched(files, plan.patches[..i]), plan.patches[i].path))
    && (forall i :: 0 <= i < |order.qaPaths| ==> order.qaPaths[i] in Patched(files, plan.patches))
    && |Reported(env, Patched(files, plan.patches))| <= 8
  }

  /** Everything the record of a round says. */
  ghost predicate Describes(env: Environment, order: WorkOrder, plan: Plan, after: Files, changed: set<string>, r: RoundRecord)
    requires order.qaPaths != []
  {
    && r.number == plan.number && r.resolved == plan.resolves && r.changed == PathsOf(plan.patches)
    && (r.qa == QaPass <==> env.qa(after))
    && (r.security == NotRun <==> !env.qa(after))
    && (r.security == SecurityPass <==> Sound(env, after))
    && |r.findings| == |Reported(env, after)|
    && (forall i :: 0 <= i < |r.findings| ==> r.findings[i].code == Reported(env, after)[i] && r.findings[i].responsible == plan.owner)
    && (forall i :: 0 <= i < |r.findings| ==>
          && r.findings[i].reviewer == (if env.qa(after) then "SECURITY_ENGINEER" else "QA_ENGINEER")
          && r.findings[i].path == (if env.qa(after) then env.scan(after)[i].1 else order.qaPaths[0]))
    && (forall p :: Lookup(r.state, p) == if p in changed then Lookup(after, p) else None)
    && r.writes == |plan.patches| && r.commands == (if env.qa(after) then 2 else 1)
  }

  lemma RecordIsOk(env: Environment, order: WorkOrder, plan: Plan, files: Files, changed: set<string>)
    requires order.qaPaths != [] && PlanOk(plan) && plan.number >= 1
    ensures var r := RecordOf(env, order, plan, files, changed);
      && Describes(env, order, plan, files, changed, r)
      && (RecordOk(r) <==> |Reported(env, files)| <= 8)
      && (Passing(r) <==> Sound(env, files))
  {
    hide Patched, PathsOf;
    PathsAreFew(plan.patches);
  }

  lemma RecordCodes(env: Environment, order: WorkOrder, plan: Plan, files: Files, changed: set<string>, r: RoundRecord)
    requires order.qaPaths != [] && Describes(env, order, plan, files, changed, r)
    ensures Codes(r.findings) == Reported(env, files)
  {
    hide PathsOf, Sound, Reported;
  }

  lemma AllValidIs(env: Environment, order: WorkOrder, files: Files, patches: seq<Patch>)
    ensures AllValid(env, order, files, patches) <==>
      forall i :: 0 <= i < |patches| ==> Owns(order, patches[i].role, patches[i].path) && env.placeable(files, patches[i].path)
  {
    hide Owns, OwnerFor;
    forall i | 0 <= i < |patches|
      ensures OwnerFor(order, patches[i].path) == Some(patches[i].role) <==> Owns(order, patches[i].role, patches[i].path)
    {
      OwnerIs(order, patches[i].role, patches[i].path);
    }
  }

  /** One round goes through exactly when its plan is feasible and within the writes left. */
  lemma RoundIff(env: Environment, order: WorkOrder, authority: Authority, loop: Loop, plan: Plan)
    requires order.qaPaths != [] && PlanOk(plan) && plan.number >= 1
    ensures Round(env, order, authority, loop, plan).Some? <==>
      Feasible(env, order, loop.files, plan, LastCodes(loop.records)) && Writes(loop.records) + |plan.patches| <= authority.writes
    ensures Round(env, order, authority, loop, plan).Some? ==>
      var after := Round(env, order, authority, loop, plan).value;
      && after.files == Patched(loop.files, plan.patches) && after.changed == loop.changed + PathsOf(plan.patches)
      && |after.records| == |loop.records| + 1 && after.records[..|loop.records|] == loop.records
      && var r := after.records[|loop.records|];
         Describes(env, order, plan, after.files, after.changed, r) && (Passing(r) <==> Sound(env, after.files))
  {
    hide RecordOk, RecordOf, Describes, Patched, PathsOf, Owns, AllValid, LastCodes, Writes, Reported, Sound, Passing, PlanOk;
    var files := Patched(loop.files, plan.patches);
    AllValidIs(env, order, loop.files, plan.patches);
    RecordIsOk(env, order, plan, files, loop.changed + PathsOf(plan.patches));
  }

  /** How many of the first `n` rounds QA passes. */
  function QaPasses(env: Environment, files: Files, plans: seq<Plan>, n: nat): nat
    requires n <= |plans|
  {
    if n == 0 then 0 else QaPasses(env, files, plans, n - 1) + (if env.qa(FilesAfter(files, plans, n)) then 1 else 0)
  }

  /** How many codes are reported in the first `n` rounds. */
  function CodesReported(env: Environment, files: Files, plans: seq<Plan>, n: nat): nat
    requires n <= |plans|
  {
    if n == 0 then 0 else CodesReported(env, files, plans, n - 1) + |Reported(env, FilesAfter(files, plans, n))|
  }

  /** Round `i` goes through: what was reported before it asks for another round, and its plan is feasible
      within the writes the authority leaves. */
  ghost predicate Goes(env: Environment, order: WorkOrder, authority: Authority, files: Files, plans: seq<Plan>, i: nat)
    requires i < |plans|
  {
    && (i > 0 ==> !Sound(env, FilesAfter(files, plans, i)))
    && Feasible(env, order, FilesAfter(files, plans, i), plans[i], if i == 0 then [] else Reported(env, FilesAfter(files, plans, i)))
    && |AllPatches(plans[..i + 1])| <= authority.writes
  }

  /** Where the loop stands after `n` rounds. */
  ghost predicate Stands(env: Environment, order: WorkOrder, files: Files, plans: seq<Plan>, n: nat, loop: Loop)
    requires n <= |plans| && order.qaPaths != []
  {
    && loop.files == FilesAfter(files, plans, n) && loop.changed == PathsOf(AllPatches(plans[..n]))
    && |loop.records| == n && Writes(loop.records) == |AllPatches(plans[..n])|
    && LastCodes(loop.records) == (if n == 0 then [] else Reported(env, FilesAfter(files, plans, n)))
    && (n > 0 ==> (Passing(loop.records[n - 1]) <==> Sound(env, FilesAfter(files, plans, n))))
    && Commands(loop.records) == n + QaPasses(env, files, plans, n)
    && |ExpectedRoutes(loop.records)| == CodesReported(env, files, plans, n)
    && (forall i :: 0 <= i < n ==>
          Describes(env, order, plans[i], FilesAfter(files, plans, i + 1), PathsOf(AllPatches(plans[..i + 1])), loop.records[i]))
  }

  lemma NothingDone(env: Environment, order: WorkOrder, files: Files, plans: seq<Plan>)
    requires order.qaPaths != []
    ensures Stands(env, order, files, plans, 0, Loop(files, {}, []))
    ensures FilesAfter(files, plans, 0) == files
  {
    assert plans[..0] == [];
    assert PathsOf([]) == {};
  }

  /** Plan by plan: the workspace and the patches so far. */
  lemma OneRoundOn(files: Files, plans: seq<Plan>, n: nat)
    requires n < |plans|
    ensures FilesAfter(files, plans, n + 1) == Patched(FilesAfter(files, plans, n), plans[n].patches)
    ensures AllPatches(plans[..n + 1]) == AllPatches(plans[..n]) + plans[n].patches
    ensures PathsOf(AllPatches(plans[..n + 1])) == PathsOf(AllPatches(plans[..n])) + PathsOf(plans[n].patches)
  {
    hide Patched, PathsOf;
    assert plans[..n + 1] == plans[..n] + [plans[n]];
    OnePlanMore(plans[..n], plans[n]);
    PatchedConcat(files, AllPatches(plans[..n]), plans[n].patches);
    PathsOfConcat(AllPatches(plans[..n]), plans[n].patches);
  }

  lemma SumsGrow(records: seq<RoundRecord>, r: RoundRecord)
    ensures Writes(records + [r]) == Writes(records) + r.writes
    ensures Commands(records + [r]) == Commands(records) + r.commands
    ensures |ExpectedRoutes(records + [r])| == |ExpectedRoutes(records)| + |r.findings|
    ensures LastCodes(records + [r]) == Codes(r.findings)
  {
    assert (records + [r])[..|records|] == records;
  }

  lemma StandsOn(env: Environment, order: WorkOrder, authority: Authority, files: Files, plans: seq<Plan>, n: nat, loop: Loop)
    requires n < |plans| && order.qaPaths != [] && PlanOk(plans[n]) && plans[n].number == n + 1
    requires Stands(env, order, files, plans, n, loop) && Round(env, order, authority, loop, plans[n]).Some?
    ensures Stands(env, order, files, plans, n + 1, Round(env, order, authority, loop, plans[n]).value)
  {
    hide Round, Describes, Patched, PathsOf, AllPatches, LastCodes, Writes, Commands, ExpectedRoutes, Reported, Sound, Passing,
      FilesAfter, Feasible, Codes, PlanOk;
    RoundIff(env, order, authority, loop, plans[n]);
    OneRoundOn(files, plans, n);
    var after := Round(env, order, authority, loop, plans[n]).value;
    var r := after.records[n];
    assert after.records == loop.records + [r];
    SumsGrow(loop.records, r);
    RecordCodes(env, order, plans[n], after.files, after.changed, r);
    DescribedSums(env, order, plans[n], after.files, after.changed, r);
  }

  lemma DescribedSums(env: Environment, order: WorkOrder, plan: Plan, after: Files, changed: set<string>, r: RoundRecord)
    requires order.qaPaths != [] && Describes(env, order, plan, after, changed, r)
    ensures r.writes == |plan.patches| && r.commands == (if env.qa(after) then 2 else 1) && |r.findings| == |Reported(env, after)|
  {
    hide Reported, Sound, PathsOf;
  }

  /** Any number of rounds goes through exactly when each of them does; and then the loop stands where the
      workspaces after the rounds say. */
  lemma {:induction false} RoundsIff(env: Environment, order: WorkOrder, authority: Authority, files: Files, plans: seq<Plan>, n: nat)
    requires order.qaPaths != [] && n <= |plans|
    requires forall i :: 0 <= i < |plans| ==> PlanOk(plans[i]) && plans[i].number == i + 1
    ensures Rounds(env, order, authority, files, plans, n).Some? <==> forall i :: 0 <= i < n ==> Goes(env, order, authority, files, plans, i)
    ensures Rounds(env, order, authority, files, plans, n).Some? ==>
      Stands(env, order, files, plans, n, Rounds(env, order, authority, files, plans, n).value)
  {
    hide Stands, Goes, Round, PlanOk, Passing;
    if n == 0 {
      NothingDone(env, order, files, plans);
    } else {
      RoundsIff(env, order, authority, files, plans, n - 1);
      if Rounds(env, order, authority, files, plans, n - 1).Some? {
        var loop := Rounds(env, order, authority, files, plans, n - 1).value;
        NextGoes(env, order, authority, files, plans, n - 1, loop);
        if Goes(env, order, authority, files, plans, n - 1) {
          StandsOn(env, order, authority, files, plans, n - 1, loop);
        }
      }
    }
  }

  lemma NextGoes(env: Environment, order: WorkOrder, authority: Authority, files: Files, plans: seq<Plan>, n: nat, loop: Loop)
    requires n < |plans| && order.qaPaths != [] && PlanOk(plans[n]) && plans[n].number == n + 1
    requires Stands(env, order, files, plans, n, loop)
    ensures |loop.records| == n
    ensures Goes(env, order, authority, files, plans, n) <==>
      !(loop.records != [] && Passing(loop.records[n - 1])) && Round(env, order, authority, loop, plans[n]).Some?
  {
    hide Round, Describes, Patched, PathsOf, AllPatches, LastCodes, Writes, Commands, ExpectedRoutes, Reported, Sound, Passing,
      FilesAfter, Feasible, Codes, PlanOk;
    RoundIff(env, order, authority, loop, plans[n]);
    OneRoundOn(files, plans, n);
  }

  /** The review returns if and only if the plans are numbered from one within the rounds allowed, every round
      goes through, the last workspace and no earlier one is sound, and tool calls and routes stay within their
      limits; and then every round's record says what happened in it. */
  lemma ReturnsIff(env: Environment, order: WorkOrder, authority: Authority, files: Files, plans: seq<Plan>)
    requires order.qaPaths != [] && forall i :: 0 <= i < |plans| ==> PlanOk(plans[i])
    ensures var n := |plans|;
      Execution(env, order, authority, files, plans).Some? <==>
        && 1 <= n <= authority.rounds && (forall i :: 0 <= i < n ==> plans[i].number == i + 1)
        && (forall i :: 0 <= i < n ==> Goes(env, order, authority, files, plans, i))
        && Sound(env, FilesAfter(files, plans, n))
        && n + QaPasses(env, files, plans, n) + |AllPatches(plans)| <= authority.toolCalls
        && CodesReported(env, files, plans, n) <= 16
    ensures Execution(env, order, authority, files, plans).Some? ==>
      var o := Execution(env, order, authority, files, plans).value;
      && |o.rounds| == |plans|
      && forall i :: 0 <= i < |plans| ==>
           Describes(env, order, plans[i], FilesAfter(files, plans, i + 1), PathsOf(AllPatches(plans[..i + 1])), o.rounds[i])
  {
    hide Rounds, Stands, Goes, Describes, PlanOk, Passing, Sound, FilesAfter, PathsOf, AllPatches, Writes, Commands, ExpectedRoutes,
      SecurityRuns, StateOf, QaPasses, CodesReported;
    assert plans[..|plans|] == plans;
    if Ordered(authority, plans) {
      RoundsIff(env, order, authority, files, plans, |plans|);
      if Rounds(env, order, authority, files, plans, |plans|).Some? {
        StandsMeans(env, order, files, plans, |plans|, Rounds(env, order, authority, files, plans, |plans|).value);
      }
    }
  }

  lemma StandsMeans(env: Environment, order: WorkOrder, files: Files, plans: seq<Plan>, n: nat, loop: Loop)
    requires n <= |plans| && order.qaPaths != [] && Stands(env, order, files, plans, n, loop)
    ensures |loop.records| == n && Writes(loop.records) == |AllPatches(plans[..n])|
    ensures n > 0 ==> (Passing(loop.records[n - 1]) <==> Sound(env, FilesAfter(files, plans, n)))
    ensures Commands(loop.records) == n + QaPasses(env, files, plans, n)
    ensures |ExpectedRoutes(loop.records)| == CodesReported(env, files, plans, n)
    ensures forall i :: 0 <= i < n ==>
      Describes(env, order, plans[i], FilesAfter(files, plans, i + 1), PathsOf(AllPatches(plans[..i + 1])), loop.records[i])
  {
    hide Describes, Passing, Sound, FilesAfter, PathsOf, AllPatches, Writes, Commands, ExpectedRoutes, LastCodes, Reported;
  }
}
