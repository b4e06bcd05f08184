/** What a whole poll answers and leaves behind, whatever events it is told of. */
module PollAnswers {
  import opened Wrappers
  import opened ProviderModel
  import opened ProtocolScripts
  import opened ProtocolSafety
  import opened ProviderAnswers

  /** Every event stands at its number, or comes next after the log or after one reported before it; and what
      has the same number is the same. */
  predicate InOrder(log: seq<ProgressEvent>, events: seq<ProgressEvent>) {
    && (forall i :: 0 <= i < |events| ==> InPlace(log, events, i))
    && (forall i, j :: 0 <= j < i < |events| && events[i].sequence == events[j].sequence ==> events[i] == events[j])
  }

  predicate InPlace(log: seq<ProgressEvent>, events: seq<ProgressEvent>, i: nat)
    requires i < |events|
  {
    var number := events[i].sequence;
    if 1 <= number <= |log| then log[number - 1] == events[i]
    else number == |log| + 1 || (number > |log| && exists j :: 0 <= j < i && events[j].sequence == number - 1)
  }

  /** The log with the next event, if it is the next one. */
  function Next(log: seq<ProgressEvent>, event: ProgressEvent): seq<ProgressEvent> {
    if event.sequence == |log| + 1 then log + [event] else log
  }

  function Grown(log: seq<ProgressEvent>, events: seq<ProgressEvent>): seq<ProgressEvent>
    decreases |events|
  {
    if events == [] then log else Grown(Next(log, events[0]), events[1..])
  }

  lemma InOrderOn(log: seq<ProgressEvent>, events: seq<ProgressEvent>)
    requires events != [] && InOrder(log, events)
    ensures InOrder(Next(log, events[0]), events[1..])
  {
    var longer, rest := Next(log, events[0]), events[1..];
    assert InPlace(log, events, 0);
    forall i | 0 <= i < |rest| ensures InPlace(longer, rest, i) {
      assert InPlace(log, events, i + 1);
      var number := rest[i].sequence;
      if number > |longer| + 1 {
        var j :| 0 <= j < i + 1 && events[j].sequence == number - 1;
        assert rest[j - 1].sequence == number - 1;
      }
    }
  }

  lemma InOrderBack(log: seq<ProgressEvent>, events: seq<ProgressEvent>)
    requires events != [] && InPlace(log, events, 0) && InOrder(Next(log, events[0]), events[1..])
    ensures InOrder(log, events)
  {
    var longer, rest := Next(log, events[0]), events[1..];
    forall i | 0 <= i < |events| ensures InPlace(log, events, i) {
      if i > 0 {
        PlaceBack(log, events, i);
      }
    }
    forall i, j | 0 <= j < i < |events| && events[i].sequence == events[j].sequence ensures events[i] == events[j] {
      assert InPlace(longer, rest, i - 1);
      if j > 0 {
        assert rest[i - 1] == events[i] && rest[j - 1] == events[j];
      }
    }
  }

  lemma PlaceBack(log: seq<ProgressEvent>, events: seq<ProgressEvent>, i: nat)
    requires 0 < i < |events| && InPlace(log, events, 0) && InPlace(Next(log, events[0]), events[1..], i - 1)
    ensures InPlace(log, events, i)
  {
    var longer, rest := Next(log, events[0]), events[1..];
    assert rest[i - 1] == events[i];
    var number := events[i].sequence;
    if number > |longer| + 1 {
      var j :| 0 <= j < i - 1 && rest[j].sequence == number - 1;
      assert events[j + 1].sequence == number - 1;
    } else if number == |log| + 2 {
      assert events[0].sequence == number - 1;
    }
  }

  /** Events in order all come to stand at their numbers, and nothing else is added. */
  lemma {:induction false} GrownHolds(log: seq<ProgressEvent>, events: seq<ProgressEvent>)
    requires InOrder(log, events)
    ensures var final := Grown(log, events);
      && log <= final
      && (forall i :: 0 <= i < |events| ==> 1 <= events[i].sequence <= |final| && final[events[i].sequence - 1] == events[i])
      && (forall k :: |log| <= k < |final| ==> final[k] in events)
    decreases |events|
  {
    hide InOrder;
    if events != [] {
      var longer, rest := Next(log, events[0]), events[1..];
      assert InPlace(log, events, 0) by {
        FirstInPlace(log, events);
      }
      InOrderOn(log, events);
      GrownHolds(longer, rest);
      assert forall i :: 0 < i < |events| ==> events[i] == rest[i - 1];
    }
  }

  lemma FirstInPlace(log: seq<ProgressEvent>, events: seq<ProgressEvent>)
    requires events != [] && InOrder(log, events)
    ensures InPlace(log, events, 0)
  {
  }

  /** The events as they are stored. */
  function AllCleaned(cfg: Config, op: Operation, events: seq<ProgressEvent>): seq<ProgressEvent> {
    seq(|events|, i requires 0 <= i < |events| => Cleaned(cfg, op, events[i]))
  }

  /** Every event is the operation's own and not too large, and they are in order. */
  predicate Storable(cfg: Config, key: Key, op: Operation, log: seq<ProgressEvent>, events: seq<ProgressEvent>) {
    && (forall i :: 0 <= i < |events| ==>
          events[i].operation == key.operation && cfg.eventSize(Cleaned(cfg, op, events[i])) <= op.maximumOutput)
    && InOrder(log, AllCleaned(cfg, op, events))
  }

  lemma StorableOn(cfg: Config, key: Key, op: Operation, log: seq<ProgressEvent>, events: seq<ProgressEvent>)
    requires events != []
    ensures var clean := Cleaned(cfg, op, events[0]);
      Storable(cfg, key, op, log, events) <==>
        && events[0].operation == key.operation && cfg.eventSize(clean) <= op.maximumOutput
        && InPlace(log, AllCleaned(cfg, op, events), 0) && Storable(cfg, key, op, Next(log, clean), events[1..])
    ensures AllCleaned(cfg, op, events)[1..] == AllCleaned(cfg, op, events[1..])
  {
    hide Cleaned, InPlace, InOrder;
    var cleans := AllCleaned(cfg, op, events);
    assert cleans[1..] == AllCleaned(cfg, op, events[1..]);
    if InOrder(log, cleans) {
      FirstInPlace(log, cleans);
      InOrderOn(log, cleans);
    }
    if InPlace(log, cleans, 0) && InOrder(Next(log, cleans[0]), cleans[1..]) {
      InOrderBack(log, cleans);
    }
    assert forall i :: 0 < i < |events| ==> events[i] == events[1..][i - 1];
    assert forall i :: 0 <= i < |events| - 1 ==> events[1..][i] == events[i + 1];
  }

  /** The log kept in a world. */
  function Log(w: World, key: Key): seq<ProgressEvent> {
    if key in w.progress then w.progress[key] else []
  }

  function WithLog(w: World, key: Key, log: seq<ProgressEvent>): World {
    if log == Log(w, key) then w else w.(progress := w.progress[key := log])
  }

  lemma {:induction false} GrowsAtItsEnd(log: seq<ProgressEvent>, events: seq<ProgressEvent>)
    ensures log <= Grown(log, events)
    decreases |events|
  {
    if events != [] {
      GrowsAtItsEnd(Next(log, events[0]), events[1..]);
    }
  }

  lemma LogTwice(w: World, key: Key, log: seq<ProgressEvent>, longer: seq<ProgressEvent>)
    requires Log(w, key) <= log <= longer
    ensures Log(WithLog(w, key, log), key) == log
    ensures WithLog(WithLog(w, key, log), key, longer) == WithLog(w, key, longer)
  {
    if longer != log && log != Log(w, key) {
      assert w.progress[key := log][key := longer] == w.progress[key := longer];
    }
  }

  /** How a poll ends that is told of these events. */
  lemma {:induction false} EventsAnswer(cfg: Config, w: World, key: Key, op: Operation, events: seq<ProgressEvent>, status: Option<Status>)
    requires Numbered(Log(w, key), key.operation) && KeyOf(op.identity) == key
    ensures var script := PollEvents(cfg, key, op, Log(w, key), events, status);
      var final := Grown(Log(w, key), AllCleaned(cfg, op, events));
      && (script.outcome.Operated? <==> status.Some? && Storable(cfg, key, op, Log(w, key), events))
      && (Storable(cfg, key, op, Log(w, key), events) ==>
            if status.None? then script.outcome == Raised(ProviderFailure) && Replay(w, script.effects) == WithLog(w, key, final)
            else
              && script.outcome.Operated?
              && var updated := script.outcome.operation;
                 && Means(status.value, updated.state) && updated == op.(state := updated.state, cursor := |final|)
                 && Replay(w, script.effects) == WithOperation(WithLog(w, key, final), key, updated))
    decreases |events|
  {
    hide Cleaned, Storable, Appended, KeyOf, Numbered, Means, Replay;
    if events == [] {
      NoEvents(cfg, w, key, op, status);
    } else {
      StorableOn(cfg, key, op, Log(w, key), events);
      TakesIff(cfg, key, op, Log(w, key), events);
      OneEvent(cfg, w, key, op, events, status);
      var clean := Cleaned(cfg, op, events[0]);
      if Takes(cfg, key, op, Log(w, key), events[0]) {
        var longer := Next(Log(w, key), clean);
        EventsAnswer(cfg, WithLog(w, key, longer), key, op, events[1..], status);
        GrowsAtItsEnd(longer, AllCleaned(cfg, op, events[1..]));
        LogTwice(w, key, longer, Grown(longer, AllCleaned(cfg, op, events[1..])));
      }
    }
  }

  lemma NoEvents(cfg: Config, w: World, key: Key, op: Operation, status: Option<Status>)
    requires KeyOf(op.identity) == key
    ensures AllCleaned(cfg, op, []) == [] && Storable(cfg, key, op, Log(w, key), [])
    ensures var script := PollEvents(cfg, key, op, Log(w, key), [], status);
      if status.None? then script.outcome == Raised(ProviderFailure) && Replay(w, script.effects) == w
      else
        && script.outcome.Operated?
        && var updated := script.outcome.operation;
           && Means(status.value, updated.state) && updated == op.(state := updated.state, cursor := |Log(w, key)|)
           && Replay(w, script.effects) == WithOperation(w, key, updated)
  {
    hide KeyOf, Replay;
    NoEffects(w);
    if status.Some? {
      OneSave(w, key, PollEvents(cfg, key, op, Log(w, key), [], status).outcome.operation);
    }
  }

  /** The first event can be stored or is there already. */
  predicate Takes(cfg: Config, key: Key, op: Operation, log: seq<ProgressEvent>, event: ProgressEvent) {
    var clean := Cleaned(cfg, op, event);
    && event.operation == key.operation && cfg.eventSize(clean) <= op.maximumOutput
    && (if 1 <= clean.sequence <= |log| then log[clean.sequence - 1] == clean else clean.sequence == |log| + 1)
  }

  lemma TakesIff(cfg: Config, key: Key, op: Operation, log: seq<ProgressEvent>, events: seq<ProgressEvent>)
    requires events != []
    ensures Takes(cfg, key, op, log, events[0]) <==>
      && events[0].operation == key.operation && cfg.eventSize(Cleaned(cfg, op, events[0])) <= op.maximumOutput
      && InPlace(log, AllCleaned(cfg, op, events), 0)
  {
    hide Cleaned;
    assert AllCleaned(cfg, op, events)[0] == Cleaned(cfg, op, events[0]);
  }

  lemma OneEvent(cfg: Config, w: World, key: Key, op: Operation, events: seq<ProgressEvent>, status: Option<Status>)
    requires events != [] && Numbered(Log(w, key), key.operation)
    ensures var log, clean := Log(w, key), Cleaned(cfg, op, events[0]);
      var longer := WithLog(w, key, Next(log, clean));
      var script := PollEvents(cfg, key, op, log, events, status);
      if !Takes(cfg, key, op, log, events[0]) then script.outcome.Raised?
      else
        && Log(longer, key) == Next(log, clean) && Numbered(Next(log, clean), key.operation)
        && var rest := PollEvents(cfg, key, op, Next(log, clean), events[1..], status);
           script.outcome == rest.outcome && Replay(w, script.effects) == Replay(longer, rest.effects)
  {
    hide Replay, Appended;
    var log, clean := Log(w, key), Sanitize(cfg, events[0], op.maximumOutput);
    assert clean == Cleaned(cfg, op, events[0]);
    AppendedByNumber(log, clean, key.operation);
    if Takes(cfg, key, op, log, events[0]) && clean.sequence == |log| + 1 {
      var save := SaveProgress(key, log + [clean]);
      ReplayConcat(w, [save], PollEvents(cfg, key, op, log + [clean], events[1..], status).effects);
      ReplayOne(w, save);
    }
  }

  /** A poll that may be made returns exactly when the status call answers and every reported event can be
      stored. Then, and also when only the status call fails, every reported event stands in the log under its
      number, after the unchanged log before it; and on return the operation has the state that its task's status
      stands for and the length of the log as its cursor, and it and the world are otherwise unchanged. */
  lemma PollReturnsIff(cfg: Config, w: World, c: Command)
    requires Inv(w) && c.Poll? && MayPoll(cfg, w, c.key) && c.events.Some?
    ensures var op, log, events := w.operations[c.key], Log(w, c.key), c.events.value;
      var after := Finally(cfg, w, c);
      var final := Log(after, c.key);
      && (Reply(cfg, w, c).Operated? <==> c.status.Some? && Storable(cfg, c.key, op, log, events))
      && (Storable(cfg, c.key, op, log, events) ==>
            && log <= final
            && (forall i :: 0 <= i < |events| ==> 1 <= events[i].sequence <= |final| && final[events[i].sequence - 1] == Cleaned(cfg, op, events[i]))
            && (forall k :: |log| <= k < |final| ==> final[k] in AllCleaned(cfg, op, events))
            && if c.status.None? then Reply(cfg, w, c) == Raised(ProviderFailure) && after == WithLog(w, c.key, final)
               else
                 && Reply(cfg, w, c).Operated?
                 && var updated := Reply(cfg, w, c).operation;
                    && Means(c.status.value, updated.state) && updated == op.(state := updated.state, cursor := |final|)
                    && after == WithOperation(WithLog(w, c.key, final), c.key, updated))
  {
    hide Inv, ScriptOf, PollEvents, Means, Cleaned, AllCleaned, Storable, InOrder, Replay, Grown, KeyOf, Numbered, WithLog, Log;
    StoredUnderOwnKey(w, c.key);
    NumberedLog(w, c.key);
    var op, log, events := w.operations[c.key], Log(w, c.key), c.events.value;
    GoesToEvents(cfg, w, c);
    EventsAnswer(cfg, w, c.key, op, events, c.status);
    if Storable(cfg, c.key, op, log, events) {
      var final := Grown(log, AllCleaned(cfg, op, events));
      StorableGrows(cfg, c.key, op, log, events);
      LogTwice(w, c.key, final, final);
      if c.status.Some? {
        SameLog(WithLog(w, c.key, final), c.key, Reply(cfg, w, c).operation);
      }
    }
  }

  lemma NumberedLog(w: World, key: Key)
    requires Inv(w)
    ensures Numbered(Log(w, key), key.operation)
  {
  }

  lemma SameLog(w: World, key: Key, op: Operation)
    ensures Log(WithOperation(w, key, op), key) == Log(w, key)
  {
  }

  lemma GoesToEvents(cfg: Config, w: World, c: Command)
    requires c.Poll? && MayPoll(cfg, w, c.key) && c.events.Some?
    ensures ScriptOf(cfg, w, c) == PollEvents(cfg, c.key, w.operations[c.key], Log(w, c.key), c.events.value, c.status)
  {
    hide PollEvents;
  }

  lemma StorableGrows(cfg: Config, key: Key, op: Operation, log: seq<ProgressEvent>, events: seq<ProgressEvent>)
    requires Storable(cfg, key, op, log, events)
    ensures var final := Grown(log, AllCleaned(cfg, op, events));
      && log <= final
      && (forall i :: 0 <= i < |events| ==> 1 <= events[i].sequence <= |final| && final[events[i].sequence - 1] == Cleaned(cfg, op, events[i]))
      && (forall k :: |log| <= k < |final| ==> final[k] in AllCleaned(cfg, op, events))
  {
    hide Grown, InOrder;
    var cleans := AllCleaned(cfg, op, events);
    GrownHolds(log, cleans);
    forall i | 0 <= i < |events| ensures cleans[i] == Cleaned(cfg, op, events[i]) && cleans[i].sequence == events[i].sequence {
    }
  }
}
