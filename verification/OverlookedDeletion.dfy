/** A run of the service alone in which recovery accepts a patch whose deletion never happened: between
    the intent and its recovery another operation's accepted patch made the listed paths differ. */
module OverlookedDeletion {
  import opened Wrappers
  import opened Paths
  import opened ProviderModel
  import opened Patching
  import opened PatchScripts
  import opened PatchExact
  import opened PatchCrash
  import opened ProtocolScripts
  import opened ProtocolRuns
  import opened CompleteRuns
  import PatchAccepted
  import Utf8

  /** The checks before the intent is stored let the operation through. */
  ghost predicate Ready(w: World, key: Key) {
    && key in w.operations && key in w.results && key in w.receipts
    && w.operations[key].state == ResultAvailable
    && w.operations[key].resultReference == Some(key.operation)
    && ReceiptMatches(w.operations[key], w.receipts[key], w.results[key])
    && !AcceptedElsewhere(w, key, w.results[key])
    && w.repository.branch == w.operations[key].identity.branch
  }

  function StagedIntent(w: World, key: Key): PatchEffect
    requires key in w.operations && key in w.results
  {
    IntentFor(w.operations[key], w.results[key], w.repository).(state := Staging)
  }

  lemma TwoSaves(w: World, key: Key, p: PatchEffect, q: PatchEffect, script: Script)
    requires |script.effects| >= 2 && script.effects[0] == SavePatch(key, p) && script.effects[1] == SavePatch(key, q)
    ensures Reached(w, script, 2) == w.(patches := w.patches[key := q])
  {
    hide Replay;
    assert script.effects[..2] == [SavePatch(key, p)] + [SavePatch(key, q)];
    ReplayConcat(w, [SavePatch(key, p)], [SavePatch(key, q)]);
    ReplayOne(w, SavePatch(key, p));
    ReplayOne(After(w, SavePatch(key, p)), SavePatch(key, q));
  }

  /** Without a stored intent, the first two effects store it and mark it as being staged. */
  lemma DiesAfterIntent(limits: Limits, task: TaskPolicy, w: World, key: Key)
    requires Ready(w, key) && key !in w.patches && w.repository.Clean()
    ensures Reached(w, ApplyScript(limits, task, true, w, key), 2) == w.(patches := w.patches[key := StagedIntent(w, key)])
  {
    hide Ready, DirectScript, ApplyScript, Repository.Clean, Reached;
    FreshScript(limits, task, w, key);
    var intent := IntentFor(w.operations[key], w.results[key], w.repository);
    StagingIsFirst(limits, task, key, w.operations[key], intent, w.repository);
    TwoSaves(w, key, intent, StagedIntent(w, key), ApplyScript(limits, task, true, w, key));
  }

  lemma StagingIsFirst(limits: Limits, task: TaskPolicy, key: Key, op: Operation, intent: PatchEffect, r: ProviderModel.Repository)
    ensures var effects := DirectScript(limits, task, key, op, intent, r).effects;
      effects != [] && effects[0] == SavePatch(key, intent.(state := Staging))
  {
    hide Acceptable, StageEffects, ReplaceScript, StagedRepository;
  }

  lemma FreshScript(limits: Limits, task: TaskPolicy, w: World, key: Key)
    requires Ready(w, key) && key !in w.patches && w.repository.Clean()
    ensures key in w.operations && key in w.results
    ensures var intent := IntentFor(w.operations[key], w.results[key], w.repository);
      ApplyScript(limits, task, true, w, key) ==
      Emit([SavePatch(key, intent)], DirectScript(limits, task, key, w.operations[key], intent, w.repository))
  {
    hide DirectScript, RecoverScript, AcceptedElsewhere, ReceiptMatches, Repository.Clean;
  }

  /** A fresh call on a clean workspace accepts a list that a direct application accepts. */
  lemma FreshIsAccepted(limits: Limits, task: TaskPolicy, w: World, key: Key)
    requires Ready(w, key) && key !in w.patches && w.repository.Clean() && w.repository.Ok()
    requires WouldAccept(limits, task, w.repository.base, w.results[key].operations)
    ensures var script := ApplyScript(limits, task, true, w, key);
      var after := Replay(w, script.effects);
      && script.outcome.Patched?
      && PatchAccepted.AcceptedWorld(w, after, key, w.operations[key], w.results[key], script.outcome.manifest)
      && ExactlyApplied(w.repository.base, after.repository.files, w.results[key].operations)
  {
    hide Ready, DirectScript, Repository.Clean, Repository.Ok, PatchAccepted.AcceptedWorld, ApplyAll, Acceptable, Effective, ExactlyApplied, Replay;
    FreshScript(limits, task, w, key);
    var intent := IntentFor(w.operations[key], w.results[key], w.repository);
    DirectAcceptsIff(limits, task, key, w.operations[key], intent, w.repository);
    PatchAccepted.DirectlyAcceptedIsExact(limits, task, w, key);
  }

  /** An intent being staged on this commit is recovered. */
  lemma StagedIsRecovered(limits: Limits, task: TaskPolicy, w: World, key: Key, intent: PatchEffect)
    requires Ready(w, key) && key in w.patches && w.patches[key] == intent && intent.state == Staging
    requires IntentMatches(intent, w.operations[key], w.results[key], w.repository)
    ensures ApplyScript(limits, task, true, w, key) == RecoverScript(key, w.operations[key], intent, w.results[key], w.repository)
  {
    hide DirectScript, RecoverScript, AcceptedElsewhere, ReceiptMatches, Repository.Clean, IntentMatches;
  }

  function Creation(): FileOperation {
    FileOperation(Create, "a", Some("x"))
  }

  /** Create "a" and delete "q". */
  function Deleting(): seq<FileOperation> {
    [Creation(), FileOperation(Delete, "q", None)]
  }

  /** Create "a" and update "q". */
  function Updating(): seq<FileOperation> {
    [Creation(), FileOperation(Update, "q", Some("new"))]
  }

  function Base(): map<Path, string> {
    map[["q"] := "old"]
  }

  function Updated(): map<Path, string> {
    map[["a"] := "x", ["q"] := "new"]
  }

  function CleanRepository(): ProviderModel.Repository {
    Repository("commit", "branch", Base(), Base(), map[])
  }

  function Anything(): TaskPolicy {
    TaskPolicy([], [])
  }

  lemma NamesDiffer()
    ensures ["a"] != ["q"] && "a" != "q" && "old" != "new" && KeyFor("deleting") != KeyFor("updating")
  {
    assert "a"[0] != "q"[0] && ["a"][0] != ["q"][0];
    assert "old"[0] != "new"[0];
    assert "deleting"[0] != "updating"[0];
  }

  lemma SpelledAsListed()
    ensures Canonical("a") && Canonical("q") && Normalize("a") == "a" && Normalize("q") == "q"
    ensures Components("a") == ["a"] && Components("q") == ["q"] && WellFormed(["a"]) && WellFormed(["q"])
    ensures Join(["a"]) == "a" && Join(["q"]) == "q"
  {
    assert "a"[0] == 'a' && "q"[0] == 'q';
    assert WellFormedPart("a") && WellFormedPart("q") by { assert |"a"| == |"q"| == 1 && |".."| == 2; assert "."[0] == '.'; }
    assert Join(["a"]) == "a" && Join(["q"]) == "q";
    ComponentsOfJoin(["a"]);
    ComponentsOfJoin(["q"]);
    NormalizeCanonical("a");
    NormalizeCanonical("q");
  }

  lemma Destinations()
    ensures Destination(Creation()) == ["a"]
    ensures Destination(Updating()[1]) == ["q"] && Destination(Deleting()[1]) == ["q"]
  {
    SpelledAsListed();
    hide Normalize, Components;
  }

  /** Validation of a write to one of the two files. */
  lemma LetterIsAcceptable(op: FileOperation)
    requires (op.path == "a" || op.path == "q") && Writes(op)
    requires op.content.Some? && '\0' !in op.content.value && |op.content.value| <= 3
    ensures AcceptableOne(Allowing(), Base(), Anything(), op) && ContentSize(op) <= 12
  {
    SpelledAsListed();
    Utf8.LengthIsBounded(op.content.value);
    hide Normalize, Components, Utf8.Length;
    assert "a"[0] == 'a' && "q"[0] == 'q' && |"a"| == |"q"| == 1;
    assert ".git"[0] == '.' && |".git/"| == 5 && |".git"| == 4;
    assert ".." != "a" && ".." != "q" by { assert |".."| == 2; }
  }

  lemma UpdatingIsAcceptable()
    ensures Acceptable(Allowing(), Base(), Anything(), Updating())
  {
    SpelledAsListed();
    NamesDiffer();
    LetterIsAcceptable(Updating()[0]);
    LetterIsAcceptable(Updating()[1]);
    SizeOfTwo(Updating()[0], Updating()[1]);
    hide AcceptableOne, Normalize, TotalSize, ContentSize, Base;
  }

  lemma SizeOfTwo(a: FileOperation, b: FileOperation)
    ensures TotalSize([a, b]) == ContentSize(a) + ContentSize(b)
  {
    hide ContentSize;
    assert [a, b][..1] == [a] && [a][..0] == [];
    assert TotalSize([a]) == ContentSize(a);
  }

  lemma ApplyTwo(files: map<Path, string>, a: FileOperation, b: FileOperation)
    requires ApplyOne(files, a).Some?
    ensures ApplyAll(files, [a, b]) == ApplyOne(ApplyOne(files, a).value, b)
  {
    hide ApplyOne;
    assert [a, b][..1] == [a] && [a][..0] == [];
    assert ApplyAll(files, [a]) == ApplyOne(files, a);
  }

  lemma WriteAtTop(files: map<Path, string>, op: FileOperation)
    requires Writes(op) && op.content.Some? && |Destination(op)| == 1 && forall f :: f in files ==> |f| == 1
    ensures ApplyOne(files, op) == Some(files[Destination(op) := op.content.value])
  {
    hide Destination;
  }

  lemma UpdatingApplies()
    ensures ApplyAll(Base(), Updating()) == Some(Updated())
  {
    Destinations();
    NamesDiffer();
    hide Destination, ApplyOne;
    var a, b := Updating()[0], Updating()[1];
    var between := Base()[["a"] := "x"];
    WriteAtTop(Base(), a);
    WriteAtTop(between, b);
    assert between[["q"] := "new"] == Updated();
    ApplyTwo(Base(), a, b);
  }

  lemma UpdatingIsEffective()
    ensures forall i :: 0 <= i < |Updating()| ==> Effective(Base(), Updating()[i])
  {
    SpelledAsListed();
    NamesDiffer();
    hide Canonical, Components;
  }

  lemma UpdatingWouldBeAccepted()
    ensures WouldAccept(Allowing(), Anything(), Base(), Updating())
  {
    UpdatingIsAcceptable();
    UpdatingApplies();
    UpdatingIsEffective();
    hide Acceptable, ApplyAll, Effective;
  }

  lemma CleanIsOk()
    ensures CleanRepository().Ok() && CleanRepository().Clean()
  {
    SpelledAsListed();
    assert CleanRepository().Changed() == {};
  }

  /** What the other operation leaves looks to Git like the creation and the deletion. */
  lemma LooksDeleted()
    ensures var r := CleanRepository().(files := Updated());
      r.Ok() && r.StatusIs(PathSet(Deleting())) && FileAt(r.files, "a") == Some("x")
  {
    SpelledAsListed();
    NamesDiffer();
    hide Components, WellFormed, Join;
    var r := CleanRepository().(files := Updated());
    assert ["a"] in r.files.Keys && ["q"] in r.base.Keys;
    assert Lookup(r.base, ["a"]) != Lookup(r.files, ["a"]) && Lookup(r.base, ["q"]) != Lookup(r.files, ["q"]);
    assert Deleting()[0].path == "a" && Deleting()[1].path == "q";
    assert PathSet(Deleting()) == {"a", "q"};
    assert Join(["a"]) in r.Changed() && Join(["q"]) in r.Changed();
  }

  /** Recovery accepts such a workspace for the deletion although the file is still there. */
  lemma RecoveryOverlooks(key: Key, op: Operation, patch: PatchEffect, result: Result, r: ProviderModel.Repository)
    requires r == CleanRepository().(files := Updated()) && result.operations == Deleting()
    requires patch.expected == PathList(result.operations) && patch.manifest.None?
    ensures RecoverScript(key, op, patch, result, r).outcome.Patched?
    ensures !ExactlyApplied(r.base, r.files, result.operations)
  {
    hide Repository.StatusIs, Repository.Changed, Repository.Ok, Destination, FileAt, ManifestOf, PathSet, PathList, ExactlyApplied;
    LooksDeleted();
    Destinations();
    ListedPaths(Deleting());
    ExpectedContents();
    assert Matching(r.files, Expected(Deleting())) == {"a"};
    DeletedIsStillThere(r);
  }

  lemma ExpectedContents()
    ensures Expected(Deleting()) == map["a" := "x"]
  {
    var ops := Deleting();
    assert ops[..1] == [ops[0]] && ops[..1][..0] == [];
    assert Expected(ops) == Expected(ops[..1]);
  }

  lemma DeletedIsStillThere(r: ProviderModel.Repository)
    requires r.files == Updated() && Destination(Deleting()[1]) == ["q"]
    ensures !ExactlyApplied(r.base, r.files, Deleting())
  {
    hide Destination;
    var ops := Deleting();
    assert LastFor(ops, ["q"]) == Some(ops[1]) && Intended(ops[1]).None? && ["q"] in r.files;
    assert Lookup(r.files, ["q"]) != IntendedAt(r.base, ops, ["q"]);
  }

  lemma ExactIsUnique(base: map<Path, string>, f: map<Path, string>, g: map<Path, string>, ops: seq<FileOperation>)
    requires ExactlyApplied(base, f, ops) && ExactlyApplied(base, g, ops)
    ensures f == g
  {
    hide IntendedAt;
    forall p: Path ensures Lookup(f, p) == Lookup(g, p) {
    }
    assert forall p :: p in f ==> Lookup(f, p) == Some(f[p]) && Lookup(g, p) == Some(f[p]);
    assert forall p :: p in g ==> Lookup(g, p) == Some(g[p]) && Lookup(f, p) == Some(g[p]);
  }

  lemma {:induction false} LoopIsShort(key: Key, op: Operation, patch: PatchEffect, r: ProviderModel.Repository, i: nat)
    requires i <= |patch.operations|
    ensures |ReplaceScript(key, op, patch, r, i).effects| <= 4 + 2 * (|patch.operations| - i)
    decreases |patch.operations| - i
  {
    hide ApplyOne, AfterRepository, FileEffect, ManifestOf, Repository.StatusIs;
    if i < |patch.operations| && ApplyOne(r.files, patch.operations[i]).Some? {
      LoopIsShort(key, op, Checkpoint(patch, patch.operations[i].path), AfterRepository(r, FileEffect(key, i, patch.operations[i])), i + 1);
    }
  }

  lemma {:induction false} StagingIsShort(key: Key, ops: seq<FileOperation>)
    ensures |StageEffects(key, ops)| <= |ops|
  {
    if ops != [] {
      StagingIsShort(key, ops[..|ops| - 1]);
    }
  }

  lemma CallIsShort(limits: Limits, task: TaskPolicy, w: World, key: Key)
    requires Ready(w, key) && key !in w.patches && w.repository.Clean()
    ensures |ApplyScript(limits, task, true, w, key).effects| <= 6 + 3 * |w.results[key].operations|
  {
    hide Ready, ApplyScript, Repository.Clean, Acceptable, ReplaceScript, StageEffects, StagedRepository;
    FreshScript(limits, task, w, key);
    var intent := IntentFor(w.operations[key], w.results[key], w.repository);
    StagingIsShort(key, intent.operations);
    LoopIsShort(key, w.operations[key], intent.(state := Staging), StagedRepository(key, intent.operations, w.repository), 0);
  }

  function DeliveryOf(task: string, operations: seq<FileOperation>): seq<Event> {
    Delivery(SampleConfig(), RequestFor(task, "deterministic"), ResultWith("", operations))
  }

  function Holding(w: World, task: string, operations: seq<FileOperation>): World {
    DeliveredWorld(SampleConfig(), w, RequestFor(task, "deterministic"), ResultWith("", operations))
  }

  lemma ContentIsSmall(operations: seq<FileOperation>)
    requires operations == Deleting() || operations == Updating()
    ensures TotalContent(operations) <= 1000
  {
    hide Utf8.Length;
    Utf8.LengthIsBounded("x");
    Utf8.LengthIsBounded("new");
    var a, b := operations[0], operations[1];
    assert operations[..1] == [a] && [a][..0] == [];
    assert TotalContent([a]) <= 4;
  }

  /** Both operations get their results by four ordinary calls each. */
  lemma IsDelivered(w: World, task: string, operations: seq<FileOperation>)
    requires KeyFor(task) !in w.operations && KeyFor(task) !in w.progress
    requires operations == Deleting() || operations == Updating()
    ensures Run(w, DeliveryOf(task, operations)) == Holding(w, task, operations)
    ensures Holding(w, task, operations) ==
            w.(operations := w.operations[KeyFor(task) := OperationFor(task, "deterministic")],
               results := w.results[KeyFor(task) := ResultWith("", operations)],
               receipts := w.receipts[KeyFor(task) := FetchedReceipt(OperationFor(task, "deterministic"), ResultWith("", operations))],
               submissions := w.submissions + [KeyFor(task)])
    ensures ReceiptMatches(OperationFor(task, "deterministic"), FetchedReceipt(OperationFor(task, "deterministic"), ResultWith("", operations)), ResultWith("", operations))
  {
    hide Delivery, Run, TotalContent, RequestedIdentity, Deleting, Updating, Deliverable;
    ContentIsSmall(operations);
    SampleIsDeliverable(task, "deterministic", ResultWith("", operations));
    OperationFacts(task, "deterministic");
    NotLive();
    ResultIsReached(SampleConfig(), w, RequestFor(task, "deterministic"), ResultWith("", operations));
  }

  lemma IsReady(w: World, task: string, operations: seq<FileOperation>)
    requires KeyFor(task) in w.operations && w.operations[KeyFor(task)] == OperationFor(task, "deterministic")
    requires KeyFor(task) in w.results && w.results[KeyFor(task)] == ResultWith("", operations)
    requires KeyFor(task) in w.receipts && w.receipts[KeyFor(task)] == FetchedReceipt(OperationFor(task, "deterministic"), ResultWith("", operations))
    requires ReceiptMatches(OperationFor(task, "deterministic"), FetchedReceipt(OperationFor(task, "deterministic"), ResultWith("", operations)), ResultWith("", operations))
    requires !AcceptedElsewhere(w, KeyFor(task), ResultWith("", operations)) && w.repository.branch == "branch"
    ensures Ready(w, KeyFor(task))
  {
    hide OperationFor, AcceptedElsewhere, ReceiptMatches, FetchedReceipt;
    OperationFacts(task, "deterministic");
  }

  /** Both results are stored and nothing is applied yet. */
  function Delivered(): World {
    Holding(Holding(Initially(CleanRepository()), "deleting", Deleting()), "updating", Updating())
  }

  function FirstEvents(): seq<Event> {
    DeliveryOf("deleting", Deleting()) + DeliveryOf("updating", Updating())
  }

  lemma DeliveredFacts()
    ensures var w := Delivered();
      && Run(Initially(CleanRepository()), FirstEvents()) == w
      && w.patches == map[] && w.repository == CleanRepository()
      && Stores(w, "deleting", Deleting()) && Stores(w, "updating", Updating())
  {
    hide DeliveryOf, Run, OperationFor, FetchedReceipt, ReceiptMatches, ResultWith, Deleting, Updating, CleanRepository, Holding;
    NamesDiffer();
    var w0 := Initially(CleanRepository());
    IsDelivered(w0, "deleting", Deleting());
    IsDelivered(Holding(w0, "deleting", Deleting()), "updating", Updating());
    RunConcat(w0, DeliveryOf("deleting", Deleting()), DeliveryOf("updating", Updating()));
  }

  ghost predicate Stores(w: World, task: string, operations: seq<FileOperation>) {
    var key := KeyFor(task);
    && key in w.operations && w.operations[key] == OperationFor(task, "deterministic")
    && key in w.results && w.results[key] == ResultWith("", operations)
    && key in w.receipts && w.receipts[key] == FetchedReceipt(OperationFor(task, "deterministic"), ResultWith("", operations))
    && ReceiptMatches(OperationFor(task, "deterministic"), FetchedReceipt(OperationFor(task, "deterministic"), ResultWith("", operations)), ResultWith("", operations))
  }

  /** The application of the operation named. */
  function Applying(task: string): Command {
    ApplyAndAccept(KeyFor(task), Anything(), "policy")
  }

  lemma ApplyingIs(w: World, task: string)
    ensures ScriptOf(SampleConfig(), w, Applying(task)) == ApplyScript(Allowing(), Anything(), true, w, KeyFor(task))
  {
    hide ApplyScript;
  }

  /** After the first application died with its intent being staged. */
  function Died(): World
    requires Stores(Delivered(), "deleting", Deleting())
  {
    Delivered().(patches := map[KeyFor("deleting") := StagedIntent(Delivered(), KeyFor("deleting"))])
  }

  lemma FirstDies()
    ensures Stores(Delivered(), "deleting", Deleting()) && Stores(Delivered(), "updating", Updating())
    ensures Step(Delivered(), Invoke(SampleConfig(), Applying("deleting"), 2)) == Died()
    ensures Died().repository == CleanRepository()
  {
    hide ApplyScript, Delivered, OperationFor, FetchedReceipt, ReceiptMatches, ResultWith, Deleting, Updating, CleanRepository,
      Applying, Reached, Run, StagedIntent, Repository.Clean, Repository.Ok, Ready;
    DeliveredFacts();
    CleanIsOk();
    var w := Delivered();
    CleanBranch();
    IsReady(w, "deleting", Deleting());
    ApplyingIs(w, "deleting");
    DiesAfterIntent(Allowing(), Anything(), w, KeyFor("deleting"));
  }

  lemma CleanBranch()
    ensures CleanRepository().branch == "branch" && CleanRepository().base == Base() && CleanRepository().stages == map[]
  {
  }

  /** The other operation's application is accepted. */
  lemma SecondIsAccepted() returns (after: World)
    requires Stores(Delivered(), "deleting", Deleting())
    ensures after == Step(Died(), Invoke(SampleConfig(), Applying("updating"), 100))
    ensures after.repository == CleanRepository().(files := Updated())
    ensures Stores(after, "deleting", Deleting())
    ensures KeyFor("deleting") in after.patches && after.patches[KeyFor("deleting")] == Died().patches[KeyFor("deleting")]
    ensures !AcceptedElsewhere(after, KeyFor("deleting"), ResultWith("", Deleting()))
  {
    hide ApplyScript, Delivered, OperationFor, FetchedReceipt, ReceiptMatches, ResultWith, Deleting, Updating, CleanRepository,
      Applying, Replay, Run, StagedIntent, Repository.Clean, Repository.Ok, Ready, Repository.Changed, ExactlyApplied, Base, Updated,
      ManifestOf, PathSet, WouldAccept, SampleConfig, Anything, Allowing;
    NamesDiffer();
    DeliveredFacts();
    CleanIsOk();
    CleanBranch();
    StagedIsNotAccepted(Delivered(), KeyFor("deleting"));
    var w := Died();
    var key := KeyFor("updating");
    IsReady(w, "updating", Updating());
    UpdatingWouldBeAccepted();
    TwoOperations();
    FreshIsAccepted(Allowing(), Anything(), w, key);
    CallIsShort(Allowing(), Anything(), w, key);
    ApplyingIs(w, "updating");
    var script := ApplyScript(Allowing(), Anything(), true, w, key);
    assert script.effects[..|script.effects|] == script.effects;
    after := Replay(w, script.effects);
    UpdatedIs(after.repository.files);
    OperationFacts("updating", "deterministic");
    ResultsDiffer();
  }

  lemma UpdatedIs(files: map<Path, string>)
    requires ExactlyApplied(Base(), files, Updating())
    ensures files == Updated()
  {
    hide ExactlyApplied, Base, Updated, Updating, ApplyAll;
    UpdatingApplies();
    ApplyAllIsExact(Base(), Updating());
    ExactIsUnique(Base(), files, Updated(), Updating());
  }

  lemma StagedIsNotAccepted(w: World, key: Key)
    requires key in w.operations && key in w.results
    ensures StagedIntent(w, key).state == Staging
  {
  }

  lemma TwoOperations()
    ensures |ResultWith("", Updating()).operations| == 2 && ResultWith("", Updating()).operations == Updating()
  {
  }

  lemma ResultsDiffer()
    ensures ResultWith("", Updating()) != ResultWith("", Deleting())
  {
    assert Updating()[1].kind != Deleting()[1].kind;
  }

  lemma IntentStillMatches(w: World, task: string, r: ProviderModel.Repository)
    requires Stores(w, task, Deleting()) && w.repository.commit == r.commit
    ensures var key := KeyFor(task);
      && IntentMatches(StagedIntent(w, key), OperationFor(task, "deterministic"), ResultWith("", Deleting()), r)
      && StagedIntent(w, key).expected == PathList(Deleting()) && StagedIntent(w, key).manifest.None?
  {
    hide OperationFor, Deleting, FetchedReceipt, ReceiptMatches;
  }

  /** Every event before the acceptance: the deliveries, the application that dies, the other one. */
  function EventsBefore(): seq<Event> {
    FirstEvents() + [Invoke(SampleConfig(), Applying("deleting"), 2), Invoke(SampleConfig(), Applying("updating"), 100)]
  }

  lemma RunBefore()
    ensures Run(Initially(CleanRepository()), EventsBefore()) ==
            Step(Step(Delivered(), Invoke(SampleConfig(), Applying("deleting"), 2)), Invoke(SampleConfig(), Applying("updating"), 100))
  {
    hide Step, Run, Delivered, FirstEvents, Applying, SampleConfig, CleanRepository;
    DeliveredFacts();
    var a, b := Invoke(SampleConfig(), Applying("deleting"), 2), Invoke(SampleConfig(), Applying("updating"), 100);
    assert [a, b] == [a] + [b];
    RunConcat(Initially(CleanRepository()), FirstEvents(), [a, b]);
    RunConcat(Delivered(), [a], [b]);
    RunOne(Delivered(), a);
    RunOne(Step(Delivered(), a), b);
  }

  /** In this run of the service alone, on a workspace that starts clean, the patch that creates "a" and
      deletes "q" is accepted although "q" is still there with another operation's content. */
  lemma AcceptedWithoutItsDeletion()
    ensures var w := Run(Initially(CleanRepository()), EventsBefore());
      var key := KeyFor("deleting");
      && CleanRepository().Ok() && CleanRepository().Clean()
      && (forall i :: 0 <= i < |EventsBefore()| ==> EventsBefore()[i].Invoke?)
      && ScriptOf(SampleConfig(), w, Applying("deleting")).outcome.Patched?
      && key in w.results && w.results[key].operations == Deleting()
      && !ExactlyApplied(w.repository.base, w.repository.files, Deleting())
  {
    hide Run, Step, ApplyScript, RecoverScript, Delivered, OperationFor, FetchedReceipt, ReceiptMatches, CleanRepository,
      Applying, Died, StagedIntent, Ready, AcceptedElsewhere, ExactlyApplied, Deleting, Updated, IntentMatches, ScriptOf,
      FirstEvents, SampleConfig, Repository.Clean, Repository.Ok;
    CleanIsOk();
    RunBefore();
    FirstDies();
    var w := SecondIsAccepted();
    var key := KeyFor("deleting");
    CleanBranch();
    IsReady(w, "deleting", Deleting());
    DiedIntent();
    IntentStillMatches(Delivered(), "deleting", w.repository);
    StagedIsNotAccepted(Delivered(), key);
    StagedIsRecovered(Allowing(), Anything(), w, key, StagedIntent(Delivered(), key));
    ApplyingIs(w, "deleting");
    RecoveryOverlooks(key, OperationFor("deleting", "deterministic"), StagedIntent(Delivered(), key), ResultWith("", Deleting()), w.repository);
    FirstAreCalls();
  }

  lemma DiedIntent()
    requires Stores(Delivered(), "deleting", Deleting())
    ensures KeyFor("deleting") in Died().patches && Died().patches[KeyFor("deleting")] == StagedIntent(Delivered(), KeyFor("deleting"))
    ensures Delivered().repository == CleanRepository()
  {
    hide Delivered, StagedIntent, Run, Stores;
    DeliveredFacts();
  }

  lemma FirstAreCalls()
    ensures forall i :: 0 <= i < |FirstEvents()| ==> FirstEvents()[i].Invoke?
  {
    hide FetchedOperation, PreparedOperation, Submission;
    SubmissionsAreCalls();
  }

  lemma SubmissionsAreCalls()
    ensures forall cfg, op, answer :: Submission(cfg, op, answer).Invoke?
  {
  }
}
