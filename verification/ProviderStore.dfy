/** The durable stores, the workspace and the submission ledger as one mutable object. The process
    dies when it has performed as many atomic effects as `remaining` grants it. */
module ProviderStore {
  import opened Wrappers
  import opened Paths
  import opened ProviderModel
  import opened ProtocolScripts

  /** How a call ends: the world it leaves, what it returns, and how long the process still lives. */
  datatype Goal = Goal(world: World, outcome: Outcome, remaining: nat)

  ghost function GoalOf(w: World, fuel: nat, script: Script): Goal {
    Goal(Reached(w, script, fuel), Returned(script, fuel),
         if fuel < |script.effects| then 0 else fuel - |script.effects|)
  }

  lemma GoalStep(w: World, fuel: nat, e: Effect, rest: Script)
    ensures GoalOf(w, fuel, Emit([e], rest)) ==
            if fuel == 0 then Goal(w, Crashed, 0) else GoalOf(After(w, e), fuel - 1, rest)
  {
    var effects := [e] + rest.effects;
    if fuel == 0 {
      assert effects[..0] == [];
    } else {
      var cut := if fuel < |effects| then fuel else |effects|;
      assert effects[..cut][1..] == rest.effects[..cut - 1];
    }
  }

  lemma GoalOne(w: World, fuel: nat, e: Effect, outcome: Outcome)
    ensures GoalOf(w, fuel, Script([e], outcome)) ==
            if fuel == 0 then Goal(w, Crashed, 0) else Goal(After(w, e), outcome, fuel - 1)
  {
    GoalStep(w, fuel, e, Script([], outcome));
    assert Emit([e], Script([], outcome)) == Script([e], outcome);
  }

  lemma GoalNone(w: World, fuel: nat, outcome: Outcome)
    ensures GoalOf(w, fuel, Script([], outcome)) == Goal(w, outcome, fuel)
  {
    assert Script([], outcome).effects[..0] == [];
  }

  lemma GoalRaise(w: World, fuel: nat)
    ensures forall error :: GoalOf(w, fuel, Raise(error)) == Goal(w, Raised(error), fuel)
  {
    forall error ensures GoalOf(w, fuel, Raise(error)) == Goal(w, Raised(error), fuel) {
      GoalNone(w, fuel, Raised(error));
    }
  }

  class DurableState {
    var operations: map<Key, Operation>
    var results: map<Key, Result>
    var receipts: map<Key, Receipt>
    var patches: map<Key, PatchEffect>
    var cancellations: map<Key, Cancellation>
    var progress: map<Key, seq<ProgressEvent>>
    var repository: Repository
    var submissions: seq<Key>
    var remaining: nat

    /** Empty stores beside some workspace. */
    constructor (repository: Repository, remaining: nat)
      ensures Now() == World(map[], map[], map[], map[], map[], map[], repository, [])
      ensures this.remaining == remaining
    {
      operations, results, receipts := map[], map[], map[];
      patches, cancellations, progress := map[], map[], map[];
      this.repository := repository;
      submissions := [];
      this.remaining := remaining;
    }

    function Now(): World
      reads this
    {
      World(operations, results, receipts, patches, cancellations, progress, repository, submissions)
    }

    /** The object went through exactly what the script says, as far as it got. */
    ghost predicate Did(before: World, fuel: nat, script: Script, outcome: Outcome)
      reads this
    {
      GoalOf(before, fuel, script) == Goal(Now(), outcome, remaining)
    }

    ghost predicate Performed(before: World, fuel: nat, e: Effect, alive: bool)
      reads this
    {
      && alive == (fuel > 0)
      && Now() == (if alive then After(before, e) else before)
      && remaining == (if alive then fuel - 1 else 0)
    }

    method SaveOperation(op: Operation) returns (alive: bool)
      modifies this
      ensures Performed(old(Now()), old(remaining), Effect.SaveOperation(op), alive)
    {
      if remaining == 0 {
        return false;
      }
      operations, remaining := operations[KeyOf(op.identity) := op], remaining - 1;
      alive := true;
    }

    method SaveResult(key: Key, result: Result) returns (alive: bool)
      modifies this
      ensures Performed(old(Now()), old(remaining), Effect.SaveResult(key, result), alive)
    {
      if remaining == 0 {
        return false;
      }
      results, remaining := results[key := result], remaining - 1;
      alive := true;
    }

    method SaveReceipt(receipt: Receipt) returns (alive: bool)
      modifies this
      ensures Performed(old(Now()), old(remaining), Effect.SaveReceipt(receipt), alive)
    {
      if remaining == 0 {
        return false;
      }
      receipts, remaining := receipts[KeyOf(receipt.identity) := receipt], remaining - 1;
      alive := true;
    }

    method SavePatch(key: Key, patch: PatchEffect) returns (alive: bool)
      modifies this
      ensures Performed(old(Now()), old(remaining), Effect.SavePatch(key, patch), alive)
    {
      if remaining == 0 {
        return false;
      }
      patches, remaining := patches[key := patch], remaining - 1;
      alive := true;
    }

    method SaveCancellation(key: Key, cancellation: Cancellation) returns (alive: bool)
      modifies this
      ensures Performed(old(Now()), old(remaining), Effect.SaveCancellation(key, cancellation), alive)
    {
      if remaining == 0 {
        return false;
      }
      cancellations, remaining := cancellations[key := cancellation], remaining - 1;
      alive := true;
    }

    /** `append_progress`: an event already stored is kept, the next one is appended, and any other
        sequence number or a different event under a stored number is refused. */
    method AppendProgress(key: Key, event: ProgressEvent) returns (alive: bool, ok: bool)
      modifies this
      ensures var log := LogAt(old(Now()), key);
        match Appended(log, event)
        case None => alive && !ok && Now() == old(Now()) && remaining == old(remaining)
        case Some(longer) =>
          if longer == log then alive && ok && Now() == old(Now()) && remaining == old(remaining)
          else Performed(old(Now()), old(remaining), SaveProgress(key, longer), alive) && ok
    {
      alive, ok := true, true;
      var events := if key in progress then progress[key] else [];
      var existing := FindSequence(events, event.sequence);
      if existing.Some? {
        return true, existing.value == event;
      }
      if event.sequence != |events| + 1 {
        return true, false;
      }
      assert events + [event] != events;
      if remaining == 0 {
        return false, true;
      }
      progress, remaining := progress[key := events + [event]], remaining - 1;
    }

    /** The submission leaves the process. */
    method CallSubmit(key: Key, request: Identity) returns (alive: bool)
      modifies this
      ensures Performed(old(Now()), old(remaining), Effect.CallSubmit(key, request), alive)
    {
      if remaining == 0 {
        return false;
      }
      submissions, remaining := submissions + [key], remaining - 1;
      alive := true;
    }

    method CallCancel(key: Key) returns (alive: bool)
      modifies this
      ensures Performed(old(Now()), old(remaining), Effect.CallCancel(key), alive)
    {
      if remaining == 0 {
        return false;
      }
      remaining := remaining - 1;
      alive := true;
    }

    method WriteStage(stage: Stage, content: string) returns (alive: bool)
      modifies this
      ensures Performed(old(Now()), old(remaining), Effect.WriteStage(stage, content), alive)
    {
      if remaining == 0 {
        return false;
      }
      repository, remaining := repository.(stages := repository.stages[stage := content]), remaining - 1;
      alive := true;
    }

    /** `os.replace` of a stage file onto its destination. */
    method ReplaceFile(stage: Stage, path: Path, content: string) returns (alive: bool)
      modifies this
      ensures Performed(old(Now()), old(remaining), Effect.ReplaceFile(stage, path, content), alive)
    {
      if remaining == 0 {
        return false;
      }
      repository := repository.(files := repository.files[path := content], stages := repository.stages - {stage});
      remaining := remaining - 1;
      alive := true;
    }

    method RemoveFile(path: Path) returns (alive: bool)
      modifies this
      ensures Performed(old(Now()), old(remaining), Effect.RemoveFile(path), alive)
    {
      if remaining == 0 {
        return false;
      }
      repository, remaining := repository.(files := repository.files - {path}), remaining - 1;
      alive := true;
    }
  }
}
