/** Polling: the stored progress log and its cursor. */
module ProgressLog {
  import opened Wrappers
  import opened ProviderModel
  import opened ProtocolScripts

  /** Every event the provider reports is stored in the log, sanitized. */
  ghost predicate Holds(cfg: Config, op: Operation, log: seq<ProgressEvent>, events: seq<ProgressEvent>) {
    forall i :: 0 <= i < |events| ==>
      && events[i].operation == op.identity.operation
      && cfg.eventSize(Sanitize(cfg, events[i], op.maximumOutput)) <= op.maximumOutput
      && FindSequence(log, events[i].sequence) == Some(Sanitize(cfg, events[i], op.maximumOutput))
  }

  /** An event found stays found when the log grows at its end. */
  lemma {:induction false} FoundStays(log: seq<ProgressEvent>, longer: seq<ProgressEvent>, sequence: int)
    requires log <= longer && FindSequence(log, sequence).Some?
    ensures FindSequence(longer, sequence) == FindSequence(log, sequence)
  {
    if log[0].sequence != sequence {
      FoundStays(log[1..], longer[1..], sequence);
    }
  }

  lemma {:induction false} FoundAtEnd(log: seq<ProgressEvent>, event: ProgressEvent)
    requires FindSequence(log, event.sequence).None?
    ensures FindSequence(log + [event], event.sequence) == Some(event)
  {
    if log != [] {
      assert (log + [event])[1..] == log[1..] + [event];
      FoundAtEnd(log[1..], event);
    }
  }

  lemma AppendedIsFound(log: seq<ProgressEvent>, event: ProgressEvent)
    requires Appended(log, event).Some?
    ensures log <= Appended(log, event).value
    ensures FindSequence(Appended(log, event).value, event.sequence) == Some(event)
  {
    if FindSequence(log, event.sequence).None? {
      FoundAtEnd(log, event);
    }
  }

  /** The log a successful poll leaves. */
  function Polled(cfg: Config, op: Operation, log: seq<ProgressEvent>, events: seq<ProgressEvent>): seq<ProgressEvent>
    decreases |events|
  {
    if events == [] then log
    else
      match Appended(log, Sanitize(cfg, events[0], op.maximumOutput))
      case None => log
      case Some(longer) => Polled(cfg, op, longer, events[1..])
  }

  lemma {:induction false} PolledHolds(cfg: Config, key: Key, op: Operation, log: seq<ProgressEvent>, events: seq<ProgressEvent>, status: Option<Status>)
    requires key.operation == op.identity.operation
    requires PollEvents(cfg, key, op, log, events, status).outcome.Operated?
    ensures log <= Polled(cfg, op, log, events)
    ensures Holds(cfg, op, Polled(cfg, op, log, events), events)
    ensures PollEvents(cfg, key, op, log, events, status).outcome.operation.cursor == |Polled(cfg, op, log, events)|
    ensures status.Some? && PollEvents(cfg, key, op, log, events, status).outcome.operation.state == StateAfterPoll(status.value)
    decreases |events|
  {
    hide FindSequence, StateAfterPoll;
    if events != [] {
      var event := Sanitize(cfg, events[0], op.maximumOutput);
      var longer := Appended(log, event).value;
      AppendedIsFound(log, event);
      PolledHolds(cfg, key, op, longer, events[1..], status);
      var final := Polled(cfg, op, longer, events[1..]);
      FoundStays(longer, final, event.sequence);
      forall i | 0 <= i < |events|
        ensures FindSequence(final, events[i].sequence) == Some(Sanitize(cfg, events[i], op.maximumOutput))
        ensures events[i].operation == op.identity.operation
        ensures cfg.eventSize(Sanitize(cfg, events[i], op.maximumOutput)) <= op.maximumOutput
      {
        if i > 0 {
          assert events[i] == events[1..][i - 1];
        }
      }
    }
  }

  /** A poll whose events the log holds already stores nothing but the operation. */
  lemma {:induction false} HeldEventsChangeNothing(cfg: Config, key: Key, op: Operation, log: seq<ProgressEvent>, events: seq<ProgressEvent>, status: Status)
    requires key.operation == op.identity.operation && Holds(cfg, op, log, events)
    ensures PollEvents(cfg, key, op, log, events, Some(status)) ==
            var updated := op.(state := StateAfterPoll(status), cursor := |log|);
            Script([SaveOperation(updated)], Operated(updated))
    decreases |events|
  {
    hide FindSequence, StateAfterPoll;
    if events != [] {
      assert Holds(cfg, op, log, events[1..]) by {
        forall i | 0 <= i < |events[1..]| ensures events[1..][i] == events[i + 1] {
        }
      }
      HeldEventsChangeNothing(cfg, key, op, log, events[1..], status);
    }
  }

  /** What a poll's effects leave in the stores. */
  lemma {:induction false} PollReplays(cfg: Config, w: World, key: Key, op: Operation, events: seq<ProgressEvent>, status: Option<Status>)
    requires key in w.operations && KeyOf(op.identity) == key
    requires PollEvents(cfg, key, op, LogAt(w, key), events, status).outcome.Operated?
    ensures var script := PollEvents(cfg, key, op, LogAt(w, key), events, status);
      var w' := Replay(w, script.effects);
      && LogAt(w', key) == Polled(cfg, op, LogAt(w, key), events)
      && w'.operations == w.operations[key := script.outcome.operation]
    decreases |events|
  {
    hide Appended, Sanitize, StateAfterPoll;
    var log := LogAt(w, key);
    var script := PollEvents(cfg, key, op, log, events, status);
    if events == [] {
      ReplayOne(w, script.effects[0]);
    } else {
      var longer := Appended(log, Sanitize(cfg, events[0], op.maximumOutput)).value;
      if longer == log {
        PollReplays(cfg, w, key, op, events[1..], status);
      } else {
        var save := SaveProgress(key, longer);
        var rest := PollEvents(cfg, key, op, longer, events[1..], status).effects;
        var w1 := After(w, save);
        assert LogAt(w1, key) == longer && w1.operations == w.operations;
        PollReplays(cfg, w1, key, op, events[1..], status);
        ReplayConcat(w, [save], rest);
        ReplayOne(w, save);
      }
    }
  }

  /** After a successful poll the cursor is the length of the log and the log holds every reported
      event; polling again with the same events leaves the log as it is. */
  lemma PollingTwice(cfg: Config, w: World, key: Key, events: seq<ProgressEvent>, status: Status, again: Status)
    requires key in w.operations && KeyOf(w.operations[key].identity) == key
    requires PollScript(cfg, w, key, Some(events), Some(status)).outcome.Operated?
    ensures var op := w.operations[key];
      var w1 := Replay(w, PollScript(cfg, w, key, Some(events), Some(status)).effects);
      && key in w1.operations && w1.operations[key].cursor == |LogAt(w1, key)|
      && LogAt(w, key) <= LogAt(w1, key) && Holds(cfg, op, LogAt(w1, key), events)
      && var second := PollScript(cfg, w1, key, Some(events), Some(again));
         if status == Succeeded then
           second == var updated := w1.operations[key].(state := StateAfterPoll(again)); Script([SaveOperation(updated)], Operated(updated))
         else
           second == Raise(StateError)
  {
    hide PollEvents, Polled, Holds, Replay;
    var op := w.operations[key];
    var log := LogAt(w, key);
    var script := PollEvents(cfg, key, op, log, events, Some(status));
    PolledHolds(cfg, key, op, log, events, Some(status));
    PollReplays(cfg, w, key, op, events, Some(status));
    PolledKeepsIdentity(cfg, key, op, log, events, Some(status));
    var w1 := Replay(w, script.effects);
    HoldsForSame(cfg, op, w1.operations[key], LogAt(w1, key), events);
    HeldEventsChangeNothing(cfg, key, w1.operations[key], LogAt(w1, key), events, again);
  }

  lemma HoldsForSame(cfg: Config, op: Operation, other: Operation, log: seq<ProgressEvent>, events: seq<ProgressEvent>)
    requires op.identity == other.identity && op.maximumOutput == other.maximumOutput && Holds(cfg, op, log, events)
    ensures Holds(cfg, other, log, events)
  {
  }

  lemma {:induction false} PolledKeepsIdentity(cfg: Config, key: Key, op: Operation, log: seq<ProgressEvent>, events: seq<ProgressEvent>, status: Option<Status>)
    requires PollEvents(cfg, key, op, log, events, status).outcome.Operated?
    ensures var after := PollEvents(cfg, key, op, log, events, status).outcome.operation;
      after == op.(state := after.state, cursor := after.cursor)
    decreases |events|
  {
    hide Appended, Sanitize, StateAfterPoll;
    if events != [] {
      PolledKeepsIdentity(cfg, key, op, Appended(log, Sanitize(cfg, events[0], op.maximumOutput)).value, events[1..], status);
    }
  }
}
