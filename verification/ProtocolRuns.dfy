/** Whole runs of the coding-provider service: calls that may die after any effect, and anyone
    changing the workspace in between. */
module ProtocolRuns {
  import opened ProviderModel
  import opened ProtocolScripts
  import opened ProtocolSafety
  import PatchSafety

  /** The process survives a call's first `fuel` effects; it survives all of them when there are no more. */
  datatype Event =
    | Invoke(config: Config, command: Command, fuel: nat)
    | Outside(repository: Repository)

  function Step(w: World, e: Event): World {
    match e
    case Invoke(config, command, fuel) => Reached(w, ScriptOf(config, w, command), fuel)
    case Outside(repository) => w.(repository := repository)
  }

  function Run(w: World, events: seq<Event>): World {
    if events == [] then w else Step(Run(w, events[..|events| - 1]), events[|events| - 1])
  }

  /** Empty stores over some workspace. */
  function Initially(repository: Repository): World {
    World(map[], map[], map[], map[], map[], map[], repository, [])
  }

  lemma StepKeepsInv(w: World, e: Event)
    requires Inv(w)
    ensures Inv(Step(w, e)) && Extends(w, Step(w, e))
  {
    hide Inv, AllSafe, ScriptOf, Extends;
    match e
    case Invoke(config, command, fuel) =>
      var effects := ScriptOf(config, w, command).effects;
      PatchSafety.ScriptIsSafe(config, w, command);
      PrefixKeepsInv(w, effects, if fuel < |effects| then fuel else |effects|);
    case Outside(repository) =>
      OutsideKeepsInv(w, repository);
  }

  lemma OutsideKeepsInv(w: World, repository: Repository)
    requires Inv(w)
    ensures Inv(w.(repository := repository)) && Extends(w, w.(repository := repository))
  {
  }

  /** In every run the invariant holds, and whatever an earlier moment recorded as submitted, logged
      or identified is still there. */
  lemma {:induction false} EveryRun(repository: Repository, events: seq<Event>, n: nat)
    requires n <= |events|
    ensures var w := Run(Initially(repository), events);
      Inv(w) && Extends(Run(Initially(repository), events[..n]), w)
    decreases |events|
  {
    hide Inv, Extends;
    var start := Initially(repository);
    if n == |events| {
      assert events[..n] == events;
      ReachableKeepsInv(repository, events);
    } else {
      var before := events[..|events| - 1];
      EveryRun(repository, before, n);
      assert before[..n] == events[..n];
      StepKeepsInv(Run(start, before), events[|events| - 1]);
      ExtendsTransitive(Run(start, events[..n]), Run(start, before), Run(start, events));
    }
  }

  lemma {:induction false} ReachableKeepsInv(repository: Repository, events: seq<Event>)
    ensures Inv(Run(Initially(repository), events)) && Extends(Run(Initially(repository), events), Run(Initially(repository), events))
  {
    if events == [] {
      InitiallyInv(repository);
    } else {
      hide Inv, Extends, Step;
      ReachableKeepsInv(repository, events[..|events| - 1]);
      StepKeepsInv(Run(Initially(repository), events[..|events| - 1]), events[|events| - 1]);
      ExtendsReflexive(Run(Initially(repository), events));
    }
  }

  lemma InitiallyInv(repository: Repository)
    ensures Inv(Initially(repository)) && Extends(Initially(repository), Initially(repository))
  {
  }

  lemma ExtendsReflexive(w: World)
    ensures Extends(w, w)
  {
  }

  /** How often an operation was handed to a provider. */
  function Submissions(submissions: seq<Key>, key: Key): nat {
    if submissions == [] then 0
    else (if submissions[0] == key then 1 else 0) + Submissions(submissions[1..], key)
  }

  lemma {:induction false} DistinctAtMostOnce(submissions: seq<Key>, key: Key)
    requires forall i, j :: 0 <= i < j < |submissions| ==> submissions[i] != submissions[j]
    ensures Submissions(submissions, key) == if key in submissions then 1 else 0
  {
    if submissions != [] {
      DistinctAtMostOnce(submissions[1..], key);
    }
  }

  /** In every run `submit_task` is called at most once per operation, and never for one still prepared. */
  lemma AtMostOneSubmission(repository: Repository, events: seq<Event>, key: Key)
    ensures var w := Run(Initially(repository), events);
      && Submissions(w.submissions, key) <= 1
      && (key in w.operations && w.operations[key].state == Prepared ==> Submissions(w.submissions, key) == 0)
      && (key !in w.operations ==> Submissions(w.submissions, key) == 0)
  {
    EveryRun(repository, events, |events|);
    DistinctAtMostOnce(Run(Initially(repository), events).submissions, key);
  }

  /** In every run, within one project an accepted result belongs to one operation only, and an operation
      saved as accepted has its accepted patch. */
  lemma OneAcceptancePerResult(repository: Repository, events: seq<Event>, a: Key, b: Key)
    ensures var w := Run(Initially(repository), events);
      && (a in w.patches && b in w.patches && a.project == b.project
          && w.patches[a].state == Accepted && w.patches[b].state == Accepted && w.patches[a].result == w.patches[b].result
          ==> a == b)
      && (a in w.operations && w.operations[a].state == ResultAccepted ==> a in w.patches && w.patches[a].state == Accepted)
  {
    EveryRun(repository, events, |events|);
  }

  /** In every run the stored progress of an operation is numbered 1..n and only ever grows at the end. */
  lemma ProgressOnlyGrows(repository: Repository, events: seq<Event>, n: nat, key: Key)
    requires n <= |events|
    ensures var before := LogAt(Run(Initially(repository), events[..n]), key);
      var after := LogAt(Run(Initially(repository), events), key);
      Numbered(after, key.operation) && before <= after
  {
    EveryRun(repository, events, n);
  }

  lemma ReplayLast(w: World, effects: seq<Effect>)
    requires effects != []
    ensures Replay(w, effects) == After(Replay(w, effects[..|effects| - 1]), effects[|effects| - 1])
  {
    var front, last := effects[..|effects| - 1], effects[|effects| - 1];
    assert effects == front + [last];
    ReplayConcat(w, front, [last]);
    ReplayOne(Replay(w, front), last);
  }
}
