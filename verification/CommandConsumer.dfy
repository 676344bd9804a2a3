/**
 * The command consumer as a state machine over deliveries, crashes and a marker store that may
 * fail: deduplicate, dispatch, mark, acknowledge, and drop a command that keeps failing.
 * Stream ids are positions in `commands`; an entry there is a message id, or None when malformed.
 */
module CommandConsumer {
  import opened Options

  const DEDUP_SET_MAX_SIZE: nat := 10000
  const PENDING_POISON_MAX_DELIVERIES: nat := 10

  /**
   * How one dispatch ended. Handled: the handler completed and the command was marked. Lost: the
   * handler completed and the process died before the mark. Died: the process died before the mark
   * with the handler not completed. Failed: the handler threw and the process lived.
   */
  datatype Verdict = Handled | Lost | Failed | Died {
    predicate Completed() { Handled? || Lost? }

    predicate Survived() { Handled? || Failed? }
  }

  datatype Dispatch = Dispatch(streamId: nat, id: string, verdict: Verdict)

  /**
   * The in-memory set in insertion order, the durable markers, the acknowledged entries, the
   * redelivery counters, the entries the running process holds, and the history of dispatches.
   */
  datatype Consumer = Consumer(memory: seq<string>, markers: set<string>, acked: set<nat>,
                               counters: map<nat, nat>, held: set<nat>, log: seq<Dispatch>)

  /** What the command handler does: return, throw a non-retryable error, throw any other, or die. */
  datatype Outcome = Completes | Refuses | Throws | Dies

  datatype Crash = BeforeMark | BeforeAck | NoCrash

  datatype Move = Move(outcome: Outcome, readsMarker: bool, writesMarker: bool, readsCounter: bool,
                       acks: bool, crash: Crash)

  const Fresh := Consumer([], {}, {}, map[], {}, [])

  function Deliveries(c: Consumer, streamId: nat): nat {
    if streamId in c.counters then c.counters[streamId] else 0
  }

  /** Add to the set; past the maximum keep only the newest half. */
  function Remember(memory: seq<string>, id: string): (kept: seq<string>)
    ensures id in kept
    ensures |memory| <= DEDUP_SET_MAX_SIZE ==> |kept| <= DEDUP_SET_MAX_SIZE
  {
    var added := if id in memory then memory else memory + [id];
    if |added| > DEDUP_SET_MAX_SIZE && id !in memory then
      assert added[|added| - 1] == id;
      added[|added| - DEDUP_SET_MAX_SIZE / 2..]
    else
      added
  }

  predicate AlreadyProcessed(c: Consumer, id: string, readsMarker: bool) {
    id in c.memory || (readsMarker && id in c.markers)
  }

  function Mark(c: Consumer, id: string, writesMarker: bool): Consumer {
    c.(memory := Remember(c.memory, id), markers := if writesMarker then c.markers + {id} else c.markers)
  }

  function Ack(c: Consumer, streamId: nat, acks: bool): Consumer {
    if acks then c.(acked := c.acked + {streamId}) else c
  }

  /** A dead process forgets its set and whatever it had read. */
  function Restarted(c: Consumer): Consumer { c.(memory := [], held := {}) }

  function Settle(c: Consumer, streamId: nat, id: string, m: Move): Consumer {
    var marked := Mark(c, id, m.writesMarker);
    if m.crash == BeforeAck then Restarted(marked) else Ack(marked, streamId, m.acks)
  }

  function VerdictOf(m: Move): Verdict {
    if m.outcome == Completes && m.crash == BeforeMark then Lost
    else if m.outcome == Dies || (m.outcome == Refuses && m.crash == BeforeMark) then Died
    else if m.outcome == Completes then Handled
    else Failed
  }

  /** The poison rule: an unreadable counter reads as zero. */
  predicate Poisoned(c: Consumer, streamId: nat, readsCounter: bool) {
    readsCounter && Deliveries(c, streamId) >= PENDING_POISON_MAX_DELIVERIES
  }

  function DispatchCommand(c: Consumer, streamId: nat, id: string, m: Move): Consumer {
    var dispatched := c.(log := c.log + [Dispatch(streamId, id, VerdictOf(m))]);
    if !VerdictOf(m).Survived() then Restarted(dispatched)
    else if m.outcome != Throws || Poisoned(c, streamId, m.readsCounter) then Settle(dispatched, streamId, id, m)
    else dispatched
  }

  function ProcessMessage(c: Consumer, streamId: nat, command: Option<string>, m: Move): Consumer {
    match command
    case None => Ack(c, streamId, m.acks)
    case Some(id) => if AlreadyProcessed(c, id, m.readsMarker) then Ack(c, streamId, m.acks) else DispatchCommand(c, streamId, id, m)
  }

  /** Read or claim an entry that is not acknowledged: its counter goes up and the process holds it. */
  function Claim(c: Consumer, streamId: nat): Consumer {
    if streamId in c.acked then c
    else c.(counters := c.counters[streamId := Deliveries(c, streamId) + 1], held := c.held + {streamId})
  }

  datatype Event =
    | Claimed(streamId: nat)
    | Processed(streamId: nat, move: Move)
    | Restart
    | Expire(id: string)

  function Step(commands: seq<Option<string>>, c: Consumer, e: Event): Consumer {
    match e
    case Claimed(streamId) => if streamId < |commands| then Claim(c, streamId) else c
    case Processed(streamId, m) =>
      if streamId < |commands| && streamId in c.held then
        ProcessMessage(c.(held := c.held - {streamId}), streamId, commands[streamId], m)
      else c
    case Restart => Restarted(c)
    case Expire(id) => c.(markers := c.markers - {id})
  }

  function Run(commands: seq<Option<string>>, c: Consumer, events: seq<Event>): Consumer {
    if events == [] then c else Step(commands, Run(commands, c, events[..|events| - 1]), events[|events| - 1])
  }

  // ----- an entry is acknowledged only once it is settled -----

  predicate Settled(c: Consumer, command: Option<string>) {
    command.Some? ==> command.value in c.memory || command.value in c.markers
  }

  /** Whatever fails, the step that acknowledges an entry leaves it malformed, remembered or durably marked. */
  lemma AckOnlyWhenSettled(commands: seq<Option<string>>, c: Consumer, e: Event, streamId: nat)
    requires streamId in Step(commands, c, e).acked && streamId !in c.acked
    ensures streamId < |commands| && Settled(Step(commands, c, e), commands[streamId])
    ensures e.Processed? && e.streamId == streamId && e.move.acks
  {
  }

  /**
   * Exactly when processing an entry acknowledges it: the acknowledgement works, and the entry is
   * malformed, known to be settled, or was settled now: completed, refused, or thrown back by the handler
   * on its tenth delivery or a later one.
   */
  lemma AcksExactly(commands: seq<Option<string>>, c: Consumer, streamId: nat, m: Move)
    requires streamId < |commands| && streamId in c.held && streamId !in c.acked
    ensures var id := commands[streamId];
      streamId in Step(commands, c, Processed(streamId, m)).acked <==>
        m.acks
        && (|| id.None?
            || id.value in c.memory || (m.readsMarker && id.value in c.markers)
            || ((m.outcome == Completes || m.outcome == Refuses) && m.crash == NoCrash)
            || (m.outcome == Throws && m.readsCounter && Deliveries(c, streamId) >= 10 && m.crash != BeforeAck))
  {}

  /** A command settled with every store working is marked and remembered, so it is known from then on. */
  lemma SettlingMarks(commands: seq<Option<string>>, c: Consumer, streamId: nat, id: string, m: Move)
    requires streamId < |commands| && streamId in c.held && commands[streamId] == Some(id)
    requires id !in c.memory && id !in c.markers && m.writesMarker && m.crash == NoCrash
    ensures var c' := Step(commands, c, Processed(streamId, m));
      && c'.log == c.log + [Dispatch(streamId, id, VerdictOf(m))]
      && (id in c'.markers <==> m.outcome == Completes || m.outcome == Refuses
                                || (m.outcome == Throws && m.readsCounter && Deliveries(c, streamId) >= 10))
      && (id in c'.memory <==> id in c'.markers)
  {}

  /** Marker reads and writes work and no marker expires. */
  predicate DurableEvent(e: Event) {
    !e.Expire? && (e.Processed? ==> e.move.readsMarker && e.move.writesMarker)
  }

  predicate Durable(events: seq<Event>) { forall k :: 0 <= k < |events| ==> DurableEvent(events[k]) }

  predicate MemoryIsMarked(c: Consumer) { forall id :: id in c.memory ==> id in c.markers }

  /** Everything remembered, handled or acknowledged is durably marked. */
  predicate Backed(commands: seq<Option<string>>, c: Consumer) {
    && MemoryIsMarked(c)
    && (forall streamId :: streamId in c.acked ==>
          streamId < |commands| && (commands[streamId].Some? ==> commands[streamId].value in c.markers))
  }

  lemma MarkBacked(commands: seq<Option<string>>, c: Consumer, id: string)
    requires Backed(commands, c)
    ensures Backed(commands, Mark(c, id, true))
  {
  }

  lemma StepBacked(commands: seq<Option<string>>, c: Consumer, e: Event)
    requires Backed(commands, c) && DurableEvent(e)
    ensures Backed(commands, Step(commands, c, e))
    ensures c.markers <= Step(commands, c, e).markers
  {
    if e.Processed? && e.streamId < |commands| && commands[e.streamId].Some? {
      MarkBacked(commands, c, commands[e.streamId].value);
    }
  }

  /** Over every durable run an acknowledged entry is malformed or durably marked, and stays so. */
  lemma {:induction false} AckedIsMarked(commands: seq<Option<string>>, c: Consumer, events: seq<Event>)
    requires Backed(commands, c) && Durable(events)
    ensures Backed(commands, Run(commands, c, events)) && c.markers <= Run(commands, c, events).markers
  {
    if events != [] {
      AckedIsMarked(commands, c, events[..|events| - 1]);
      StepBacked(commands, Run(commands, c, events[..|events| - 1]), events[|events| - 1]);
    }
  }

  // ----- a marked command is never dispatched again -----

  function DispatchesOf(log: seq<Dispatch>, id: string): nat {
    if log == [] then 0
    else DispatchesOf(log[..|log| - 1], id) + if log[|log| - 1].id == id then 1 else 0
  }

  function HandledOf(log: seq<Dispatch>, id: string): nat {
    if log == [] then 0
    else HandledOf(log[..|log| - 1], id) + if log[|log| - 1].id == id && log[|log| - 1].verdict == Handled then 1 else 0
  }

  /** Dispatches of one entry that the process lived through: handled or failed. */
  function SurvivedOf(log: seq<Dispatch>, streamId: nat): nat {
    if log == [] then 0
    else
      var d := log[|log| - 1];
      SurvivedOf(log[..|log| - 1], streamId) + if d.streamId == streamId && d.verdict.Survived() then 1 else 0
  }

  function DeathsOf(log: seq<Dispatch>, streamId: nat): nat {
    if log == [] then 0
    else
      var d := log[|log| - 1];
      DeathsOf(log[..|log| - 1], streamId) + if d.streamId == streamId && !d.verdict.Survived() then 1 else 0
  }

  /** Every dispatch of one entry. */
  function TriesOf(log: seq<Dispatch>, streamId: nat): nat {
    if log == [] then 0
    else TriesOf(log[..|log| - 1], streamId) + if log[|log| - 1].streamId == streamId then 1 else 0
  }

  lemma {:induction false} TriesAreSurvivedOrDied(log: seq<Dispatch>, streamId: nat)
    ensures TriesOf(log, streamId) == SurvivedOf(log, streamId) + DeathsOf(log, streamId)
  {
    if log != [] {
      TriesAreSurvivedOrDied(log[..|log| - 1], streamId);
    }
  }

  /** Dispatches of a command that ran its handler to completion. */
  function CompletionsOf(log: seq<Dispatch>, id: string): nat {
    if log == [] then 0
    else CompletionsOf(log[..|log| - 1], id) + if log[|log| - 1].id == id && log[|log| - 1].verdict.Completed() then 1 else 0
  }

  /** Completions the process died on before it could mark them. */
  function LostOf(log: seq<Dispatch>, id: string): nat {
    if log == [] then 0
    else LostOf(log[..|log| - 1], id) + if log[|log| - 1].id == id && log[|log| - 1].verdict == Lost then 1 else 0
  }

  lemma {:induction false} CompletionsAreHandledOrLost(log: seq<Dispatch>, id: string)
    ensures CompletionsOf(log, id) == HandledOf(log, id) + LostOf(log, id)
  {
    if log != [] {
      CompletionsAreHandledOrLost(log[..|log| - 1], id);
    }
  }

  lemma OneMoreCompletion(log: seq<Dispatch>, d: Dispatch, id: string)
    ensures CompletionsOf(log + [d], id) == CompletionsOf(log, id) + if d.id == id && d.verdict.Completed() then 1 else 0
    ensures LostOf(log + [d], id) == LostOf(log, id) + if d.id == id && d.verdict == Lost then 1 else 0
  {
    assert (log + [d])[..|log|] == log;
  }

  lemma OneMore(log: seq<Dispatch>, d: Dispatch, id: string, streamId: nat)
    ensures DispatchesOf(log + [d], id) == DispatchesOf(log, id) + if d.id == id then 1 else 0
    ensures HandledOf(log + [d], id) == HandledOf(log, id) + if d.id == id && d.verdict == Handled then 1 else 0
    ensures SurvivedOf(log + [d], streamId)
         == SurvivedOf(log, streamId) + if d.streamId == streamId && d.verdict.Survived() then 1 else 0
  {
    assert (log + [d])[..|log|] == log;
  }

  lemma OneMoreTry(log: seq<Dispatch>, d: Dispatch, streamId: nat)
    ensures TriesOf(log + [d], streamId) == TriesOf(log, streamId) + if d.streamId == streamId then 1 else 0
    ensures DeathsOf(log + [d], streamId)
         == DeathsOf(log, streamId) + if d.streamId == streamId && !d.verdict.Survived() then 1 else 0
  {
    assert (log + [d])[..|log|] == log;
  }

  /** A step dispatches the entry it processes, or nothing. */
  lemma StepLog(commands: seq<Option<string>>, c: Consumer, e: Event)
    ensures var log := Step(commands, c, e).log;
      || log == c.log
      || (Dispatches(commands, c, e)
          && log == c.log + [Dispatch(e.streamId, commands[e.streamId].value, VerdictOf(e.move))])
  {
  }

  lemma {:induction false} NeverDispatchedAgain(commands: seq<Option<string>>, c: Consumer, events: seq<Event>,
                                                id: string)
    requires Backed(commands, c) && Durable(events) && id in c.markers
    ensures DispatchesOf(Run(commands, c, events).log, id) == DispatchesOf(c.log, id)
  {
    if events != [] {
      var before, e := Run(commands, c, events[..|events| - 1]), events[|events| - 1];
      NeverDispatchedAgain(commands, c, events[..|events| - 1], id);
      AckedIsMarked(commands, c, events[..|events| - 1]);
      StepLog(commands, before, e);
      if Step(commands, before, e).log != before.log {
        OneMore(before.log, Dispatch(e.streamId, commands[e.streamId].value, VerdictOf(e.move)), id, 0);
      }
    }
  }

  /** Handled at most once, and only a marked command has been handled. */
  predicate HandledOnce(c: Consumer, id: string) {
    HandledOf(c.log, id) <= 1 && (HandledOf(c.log, id) == 1 ==> id in c.markers)
  }

  lemma StepHandledOnce(commands: seq<Option<string>>, c: Consumer, e: Event, id: string)
    requires Backed(commands, c) && DurableEvent(e) && HandledOnce(c, id)
    ensures HandledOnce(Step(commands, c, e), id)
  {
    StepLog(commands, c, e);
    StepBacked(commands, c, e);
    if Step(commands, c, e).log != c.log {
      OneMore(c.log, Dispatch(e.streamId, commands[e.streamId].value, VerdictOf(e.move)), id, 0);
    }
  }

  /** Once a completed command is marked, it is never dispatched again: at most one completion of it is marked. */
  lemma {:induction false} HandledAtMostOnce(commands: seq<Option<string>>, events: seq<Event>, id: string)
    requires Durable(events)
    ensures HandledOnce(Run(commands, Fresh, events), id)
  {
    if events != [] {
      HandledAtMostOnce(commands, events[..|events| - 1], id);
      AckedIsMarked(commands, Fresh, events[..|events| - 1]);
      StepHandledOnce(commands, Run(commands, Fresh, events[..|events| - 1]), events[|events| - 1], id);
    }
  }

  /**
   * However often a command is redelivered, its handler completes at most once, and once more for
   * every completion the process died on before marking it; an unmarked command has no other kind.
   */
  lemma CompletionsAreBounded(commands: seq<Option<string>>, events: seq<Event>, id: string)
    requires Durable(events)
    ensures var c := Run(commands, Fresh, events);
      && CompletionsOf(c.log, id) <= 1 + LostOf(c.log, id)
      && (id !in c.markers ==> CompletionsOf(c.log, id) == LostOf(c.log, id))
  {
    HandledAtMostOnce(commands, events, id);
    CompletionsAreHandledOrLost(Run(commands, Fresh, events).log, id);
  }

  /** A handler that runs to completion, with every store working. */
  function Completing(crash: Crash): Move { Move(Completes, true, true, true, true, crash) }

  /** An unmarked command of an entry is handled when the entry is claimed and processed. */
  lemma CompletesNext(commands: seq<Option<string>>, c: Consumer, streamId: nat, id: string)
    requires Backed(commands, c) && streamId < |commands| && commands[streamId] == Some(id) && id !in c.markers
    ensures var events := [Claimed(streamId), Processed(streamId, Completing(NoCrash))];
      Durable(events) && CompletionsOf(Run(commands, c, events).log, id) == CompletionsOf(c.log, id) + 1
  {
    var claimed := Claimed(streamId);
    var processed := Processed(streamId, Completing(NoCrash));
    RunTwoMore(commands, c, [], claimed, processed);
    assert [] + [claimed, processed] == [claimed, processed];
    OneMoreCompletion(c.log, Dispatch(streamId, id, Handled), id);
  }

  lemma {:induction false} MarkedCompletesNoMore(commands: seq<Option<string>>, c: Consumer, events: seq<Event>,
                                                 id: string)
    requires Backed(commands, c) && Durable(events) && id in c.markers
    ensures CompletionsOf(Run(commands, c, events).log, id) == CompletionsOf(c.log, id)
  {
    if events != [] {
      var before, e := Run(commands, c, events[..|events| - 1]), events[|events| - 1];
      MarkedCompletesNoMore(commands, c, events[..|events| - 1], id);
      AckedIsMarked(commands, c, events[..|events| - 1]);
      StepLog(commands, before, e);
      if Step(commands, before, e).log != before.log {
        OneMoreCompletion(before.log, Dispatch(e.streamId, commands[e.streamId].value, VerdictOf(e.move)), id);
      }
    }
  }

  /** Some future, with every store working, completes the command again. */
  ghost predicate CanComplete(commands: seq<Option<string>>, c: Consumer, id: string) {
    exists events :: Durable(events) && CompletionsOf(Run(commands, c, events).log, id) > CompletionsOf(c.log, id)
  }

  /**
   * In every state a durable run reaches, a command that is in the stream can be completed, again
   * or for the first time, exactly while it is not marked: while every completion so far was lost.
   */
  lemma CompletesAgainExactly(commands: seq<Option<string>>, past: seq<Event>, streamId: nat, id: string)
    requires Durable(past) && streamId < |commands| && commands[streamId] == Some(id)
    ensures var c := Run(commands, Fresh, past);
      CanComplete(commands, c, id) <==> id !in c.markers
  {
    var c := Run(commands, Fresh, past);
    AckedIsMarked(commands, Fresh, past);
    if id in c.markers {
      forall events | Durable(events) ensures CompletionsOf(Run(commands, c, events).log, id) == CompletionsOf(c.log, id) {
        MarkedCompletesNoMore(commands, c, events, id);
      }
    } else {
      CompletesNext(commands, c, streamId, id);
      var events := [Claimed(streamId), Processed(streamId, Completing(NoCrash))];
      assert CompletionsOf(Run(commands, c, events).log, id) > CompletionsOf(c.log, id);
    }
  }

  // ----- how often an entry is dispatched -----

  predicate ReadableEvent(e: Event) { e.Processed? ==> e.move.readsCounter }

  predicate Readable(events: seq<Event>) { forall k :: 0 <= k < |events| ==> ReadableEvent(events[k]) }

  /** Every survived dispatch used up a delivery, and a command not yet marked survived fewer than the cap. */
  predicate Capped(commands: seq<Option<string>>, c: Consumer, streamId: nat)
    requires streamId < |commands| && commands[streamId].Some?
  {
    var survived := SurvivedOf(c.log, streamId);
    && survived <= PENDING_POISON_MAX_DELIVERIES
    && survived + (if streamId in c.held then 1 else 0) <= Deliveries(c, streamId)
    && (commands[streamId].value !in c.markers ==> survived < PENDING_POISON_MAX_DELIVERIES)
  }

  lemma StepCapped(commands: seq<Option<string>>, c: Consumer, e: Event, streamId: nat)
    requires streamId < |commands| && commands[streamId].Some?
    requires Backed(commands, c) && DurableEvent(e) && ReadableEvent(e) && Capped(commands, c, streamId)
    ensures Capped(commands, Step(commands, c, e), streamId)
  {
    hide SurvivedOf, Remember;
    StepLog(commands, c, e);
    StepBacked(commands, c, e);
    if Step(commands, c, e).log != c.log {
      OneMore(c.log, Dispatch(e.streamId, commands[e.streamId].value, VerdictOf(e.move)), "", streamId);
    }
  }

  lemma {:induction false} RunCapped(commands: seq<Option<string>>, events: seq<Event>, streamId: nat)
    requires streamId < |commands| && commands[streamId].Some? && Durable(events) && Readable(events)
    ensures Capped(commands, Run(commands, Fresh, events), streamId)
  {
    if events != [] {
      var earlier := events[..|events| - 1];
      RunCapped(commands, earlier, streamId);
      AckedIsMarked(commands, Fresh, earlier);
      StepCapped(commands, Run(commands, Fresh, earlier), events[|events| - 1], streamId);
    }
  }

  /**
   * With readable counters and durable markers an entry is dispatched at most
   * PENDING_POISON_MAX_DELIVERIES times, and once more for every time the process died between
   * dispatching and marking it; so at most that many when no dispatch kills the process.
   */
  lemma DispatchesAreCapped(commands: seq<Option<string>>, events: seq<Event>, streamId: nat)
    requires streamId < |commands| && Durable(events) && Readable(events)
    ensures var log := Run(commands, Fresh, events).log;
      TriesOf(log, streamId) <= PENDING_POISON_MAX_DELIVERIES + DeathsOf(log, streamId)
  {
    TriesAreSurvivedOrDied(Run(commands, Fresh, events).log, streamId);
    if commands[streamId].Some? {
      RunCapped(commands, events, streamId);
    } else {
      MalformedIsNotDispatched(commands, events, streamId);
    }
  }

  lemma {:induction false} MalformedIsNotDispatched(commands: seq<Option<string>>, events: seq<Event>, streamId: nat)
    requires streamId < |commands| && commands[streamId].None?
    ensures SurvivedOf(Run(commands, Fresh, events).log, streamId) == 0
  {
    hide SurvivedOf, Remember;
    if events != [] {
      var before, e := Run(commands, Fresh, events[..|events| - 1]), events[|events| - 1];
      MalformedIsNotDispatched(commands, events[..|events| - 1], streamId);
      StepLog(commands, before, e);
      if Step(commands, before, e).log != before.log {
        OneMore(before.log, Dispatch(e.streamId, commands[e.streamId].value, VerdictOf(e.move)), "", streamId);
      }
    } else {
      NothingSurvived(streamId);
    }
  }

  lemma NothingSurvived(streamId: nat)
    ensures SurvivedOf([], streamId) == 0
  {}

  // ----- the bound is reached, so deaths are not capped -----

  /** Claim the only entry and process it. */
  function Attempt(m: Move): seq<Event> { [Claimed(0), Processed(0, m)] }

  /** The same move n times over. */
  function Attempts(m: Move, n: nat): (events: seq<Event>)
    requires m.readsMarker && m.writesMarker && m.readsCounter
    ensures forall e :: e in events ==> DurableEvent(e) && ReadableEvent(e)
  {
    if n == 0 then [] else Attempts(m, n - 1) + Attempt(m)
  }

  const DIE := Move(Dies, true, true, true, true, NoCrash)
  const THROW := Move(Throws, true, true, true, true, NoCrash)

  /** One entry dispatched n times, d of them deaths; nothing remembered, marked, acknowledged or held. */
  predicate Tried(c: Consumer, n: nat, d: nat) {
    && c.memory == [] && c.markers == {} && c.acked == {} && c.held == {}
    && Deliveries(c, 0) == n && TriesOf(c.log, 0) == n && DeathsOf(c.log, 0) == d
  }

  lemma RunTwoMore(commands: seq<Option<string>>, c: Consumer, events: seq<Event>, e: Event, f: Event)
    ensures Run(commands, c, events + [e, f]) == Step(commands, Step(commands, Run(commands, c, events), e), f)
  {
    var all := events + [e, f];
    assert all[..|all| - 1] == events + [e] && (events + [e])[..|events|] == events;
  }

  /** Whether a move leaves an entry that was delivered n times before to be tried again. */
  predicate Retried(m: Move, n: nat) {
    && m.readsMarker && m.readsCounter && m.writesMarker
    && (!VerdictOf(m).Survived() || (m.outcome == Throws && n + 1 < PENDING_POISON_MAX_DELIVERIES))
  }

  lemma TryAgain(c: Consumer, id: string, m: Move, n: nat, d: nat)
    requires Tried(c, n, d) && Retried(m, n)
    ensures var c' := Step([Some(id)], Step([Some(id)], c, Claimed(0)), Processed(0, m));
      && Tried(c', n + 1, if VerdictOf(m).Survived() then d else d + 1)
      && c'.log == c.log + [Dispatch(0, id, VerdictOf(m))]
  {
    hide TriesOf, DeathsOf;
    OneMoreTry(c.log, Dispatch(0, id, VerdictOf(m)), 0);
  }

  lemma {:induction false} TryOn(id: string, past: seq<Event>, m: Move, k: nat, n: nat, d: nat)
    requires Tried(Run([Some(id)], Fresh, past), n, d)
    requires m.readsMarker && m.readsCounter && m.writesMarker
    requires !VerdictOf(m).Survived() || (m.outcome == Throws && n + k < PENDING_POISON_MAX_DELIVERIES)
    ensures var c, c' := Run([Some(id)], Fresh, past), Run([Some(id)], Fresh, past + Attempts(m, k));
      && Tried(c', n + k, if VerdictOf(m).Survived() then d else d + k)
      && LostOf(c'.log, id) == LostOf(c.log, id) + if VerdictOf(m) == Lost then k else 0
  {
    hide Step, Tried, VerdictOf, LostOf, DurableEvent, ReadableEvent;
    if k == 0 {
      assert past + [] == past;
    } else {
      var earlier := past + Attempts(m, k - 1);
      TryOn(id, past, m, k - 1, n, d);
      assert past + Attempts(m, k) == earlier + Attempt(m);
      RunTwoMore([Some(id)], Fresh, earlier, Attempt(m)[0], Attempt(m)[1]);
      var before := Run([Some(id)], Fresh, earlier);
      TryAgain(before, id, m, n + k - 1, if VerdictOf(m).Survived() then d else d + k - 1);
      OneMoreCompletion(before.log, Dispatch(0, id, VerdictOf(m)), id);
    }
  }

  lemma LastTry(c: Consumer, id: string, n: nat, d: nat)
    requires Tried(c, n, d)
    ensures var log := Step([Some(id)], Step([Some(id)], c, Claimed(0)), Processed(0, Completing(NoCrash))).log;
      TriesOf(log, 0) == n + 1 && DeathsOf(log, 0) == d && log == c.log + [Dispatch(0, id, Handled)]
  {
    hide TriesOf, DeathsOf;
    OneMoreTry(c.log, Dispatch(0, id, Handled), 0);
  }

  /** A failure short of the cap nine times over, then d deaths, then a completion. */
  function LongRun(d: nat): (events: seq<Event>)
    ensures Durable(events) && Readable(events)
  {
    Attempts(THROW, PENDING_POISON_MAX_DELIVERIES - 1) + Attempts(DIE, d) + Attempt(Completing(NoCrash))
  }

  /**
   * The bound is reached for every number of deaths, with every store working: a command whose
   * handler kills the process is dispatched any number of times, because the consumer counts only
   * the dispatches it lives through.
   */
  lemma DeathsAreNotCapped(id: string, d: nat)
    ensures var log := Run([Some(id)], Fresh, LongRun(d)).log;
      DeathsOf(log, 0) == d && TriesOf(log, 0) == PENDING_POISON_MAX_DELIVERIES + d
  {
    var nine := PENDING_POISON_MAX_DELIVERIES - 1;
    var failed := Attempts(THROW, nine);
    var died := failed + Attempts(DIE, d);
    assert Tried(Run([Some(id)], Fresh, []), 0, 0);
    TryOn(id, [], THROW, nine, 0, 0);
    assert [] + failed == failed;
    TryOn(id, failed, DIE, d, nine, 0);
    RunTwoMore([Some(id)], Fresh, died, Attempt(Completing(NoCrash))[0], Attempt(Completing(NoCrash))[1]);
    LastTry(Run([Some(id)], Fresh, died), id, nine + d, d);
  }

  /** A completion lost to a crash before its mark n times over, then one that is marked. */
  function LosingRun(n: nat): (events: seq<Event>)
    ensures Durable(events) && Readable(events)
  {
    Attempts(Completing(BeforeMark), n) + Attempt(Completing(NoCrash))
  }

  /**
   * At-most-once fails of the handler itself, with every store working: for every n a handler can
   * complete n + 1 times, n of them lost to a crash between completion and mark.
   */
  lemma CompletionsRepeat(id: string, n: nat)
    ensures var log := Run([Some(id)], Fresh, LosingRun(n)).log;
      LostOf(log, id) == n && CompletionsOf(log, id) == n + 1
  {
    var lost := Attempts(Completing(BeforeMark), n);
    assert Tried(Run([Some(id)], Fresh, []), 0, 0) && Run([Some(id)], Fresh, []).log == [];
    TryOn(id, [], Completing(BeforeMark), n, 0, 0);
    assert [] + lost == lost;
    var c := Run([Some(id)], Fresh, lost);
    RunTwoMore([Some(id)], Fresh, lost, Attempt(Completing(NoCrash))[0], Attempt(Completing(NoCrash))[1]);
    LastTry(c, id, n, n);
    OneMoreCompletion(c.log, Dispatch(0, id, Handled), id);
    CompletionsAreBounded([Some(id)], lost, id);
  }

  // ----- the in-memory window -----

  predicate Dispatches(commands: seq<Option<string>>, c: Consumer, e: Event) {
    && e.Processed? && e.streamId < |commands| && e.streamId in c.held && commands[e.streamId].Some?
    && !AlreadyProcessed(c, commands[e.streamId].value, e.move.readsMarker)
  }

  /** The event dispatches a command and settles it: handled, refused, or dropped as poison. */
  predicate Marks(commands: seq<Option<string>>, c: Consumer, e: Event) {
    && Dispatches(commands, c, e) && VerdictOf(e.move).Survived()
    && (e.move.outcome != Throws || Poisoned(c, e.streamId, e.move.readsCounter))
  }

  predicate Restarts(commands: seq<Option<string>>, c: Consumer, e: Event) {
    || e.Restart?
    || (Dispatches(commands, c, e) && !VerdictOf(e.move).Survived())
    || (Marks(commands, c, e) && e.move.crash == BeforeAck)
  }

  function NowMarked(commands: seq<Option<string>>, c: Consumer, e: Event, earlier: seq<string>): seq<string> {
    if Restarts(commands, c, e) then []
    else if Marks(commands, c, e) then earlier + [commands[e.streamId].value]
    else earlier
  }

  /** The ids marked since the process last started, oldest first. */
  function MarkedSince(commands: seq<Option<string>>, c: Consumer, events: seq<Event>): seq<string> {
    if events == [] then []
    else
      NowMarked(commands, Run(commands, c, events[..|events| - 1]), events[|events| - 1],
                MarkedSince(commands, c, events[..|events| - 1]))
  }

  /** The set is the newest part of what was marked: all of it, or at least half the maximum. */
  predicate Newest(memory: seq<string>, marked: seq<string>) {
    && |memory| <= DEDUP_SET_MAX_SIZE && |memory| <= |marked|
    && memory == marked[|marked| - |memory|..]
    && (|memory| == |marked| || |memory| >= DEDUP_SET_MAX_SIZE / 2)
  }

  lemma RememberNewest(memory: seq<string>, marked: seq<string>, id: string)
    requires Newest(memory, marked) && id !in memory
    ensures Newest(Remember(memory, id), marked + [id])
  {
    var start := |marked| - |memory|;
    assert memory + [id] == (marked + [id])[start..];
    if |memory| == DEDUP_SET_MAX_SIZE {
      var drop := DEDUP_SET_MAX_SIZE + 1 - DEDUP_SET_MAX_SIZE / 2;
      assert (memory + [id])[drop..] == (marked + [id])[start + drop..];
    }
  }

  /** What a step does to the set: cleared by a restart, extended by a mark, otherwise untouched. */
  lemma StepMemory(commands: seq<Option<string>>, c: Consumer, e: Event)
    ensures var memory := Step(commands, c, e).memory;
      && (Restarts(commands, c, e) ==> memory == [])
      && (!Restarts(commands, c, e) && Marks(commands, c, e) ==>
            commands[e.streamId].value !in c.memory && memory == Remember(c.memory, commands[e.streamId].value))
      && (!Restarts(commands, c, e) && !Marks(commands, c, e) ==> memory == c.memory)
  {
  }

  lemma StepNewest(commands: seq<Option<string>>, c: Consumer, e: Event, marked: seq<string>)
    requires Newest(c.memory, marked)
    ensures Newest(Step(commands, c, e).memory, NowMarked(commands, c, e, marked))
  {
    StepMemory(commands, c, e);
    if !Restarts(commands, c, e) && Marks(commands, c, e) {
      RememberNewest(c.memory, marked, commands[e.streamId].value);
    }
  }

  /**
   * With or without Redis: within one process the bounded set always holds the newest marks, so
   * none of the last DEDUP_SET_MAX_SIZE / 2 commands it settled is ever dispatched again.
   */
  lemma {:induction false} MemoryIsNewest(commands: seq<Option<string>>, events: seq<Event>)
    ensures Newest(Run(commands, Fresh, events).memory, MarkedSince(commands, Fresh, events))
  {
    if events != [] {
      var earlier := events[..|events| - 1];
      MemoryIsNewest(commands, earlier);
      StepNewest(commands, Run(commands, Fresh, earlier), events[|events| - 1], MarkedSince(commands, Fresh, earlier));
    }
  }

  lemma RecentIsRemembered(memory: seq<string>, marked: seq<string>, k: nat)
    requires Newest(memory, marked) && |marked| - DEDUP_SET_MAX_SIZE / 2 <= k < |marked|
    ensures marked[k] in memory
  {
    assert marked[k] == memory[k - (|marked| - |memory|)];
  }

  lemma RecentIsNotDispatched(commands: seq<Option<string>>, events: seq<Event>, streamId: nat, m: Move, k: nat)
    requires |MarkedSince(commands, Fresh, events)| - DEDUP_SET_MAX_SIZE / 2 <= k < |MarkedSince(commands, Fresh, events)|
    requires streamId < |commands| && commands[streamId] == Some(MarkedSince(commands, Fresh, events)[k])
    ensures Step(commands, Run(commands, Fresh, events), Processed(streamId, m)).log == Run(commands, Fresh, events).log
  {
    var c := Run(commands, Fresh, events);
    assert commands[streamId].value in c.memory by {
      MemoryIsNewest(commands, events);
      RecentIsRemembered(c.memory, MarkedSince(commands, Fresh, events), k);
    }
    StepLog(commands, c, Processed(streamId, m));
  }
}
