/** The consumer's own code, updating its set and the stream's stores in place, proved against `CommandConsumer`. */
module CommandListening {
  import opened Options
  import opened CommandConsumer

  class CommandListener {
    const commands: seq<Option<string>>
    var processedMessageIds: seq<string>
    var markers: set<string>
    var acked: set<nat>
    var counters: map<nat, nat>
    var held: set<nat>
    var log: seq<Dispatch>

    constructor (commands: seq<Option<string>>)
      ensures this.commands == commands && State() == Fresh
    {
      this.commands := commands;
      processedMessageIds, markers, acked, counters, held, log := [], {}, {}, map[], {}, [];
    }

    function State(): Consumer reads this { Consumer(processedMessageIds, markers, acked, counters, held, log) }

    method IsProcessed(id: string, readsMarker: bool) returns (processed: bool)
      ensures processed == AlreadyProcessed(State(), id, readsMarker)
    {
      if id in processedMessageIds {
        return true;
      }
      return readsMarker && id in markers;
    }

    /** Keep the newest half: clear the set, then add the kept ids back in order. */
    method Trim()
      requires |processedMessageIds| > DEDUP_SET_MAX_SIZE
      modifies `processedMessageIds
      ensures processedMessageIds == old(processedMessageIds)[|old(processedMessageIds)| - DEDUP_SET_MAX_SIZE / 2..]
    {
      var keep := processedMessageIds[|processedMessageIds| - DEDUP_SET_MAX_SIZE / 2..];
      processedMessageIds := [];
      for i := 0 to |keep|
        invariant processedMessageIds == keep[..i]
      {
        processedMessageIds := processedMessageIds + [keep[i]];
      }
      assert keep[..|keep|] == keep;
    }

    /** Add, trim past the maximum, then write the marker. */
    method MarkProcessed(id: string, writesMarker: bool)
      requires id !in processedMessageIds
      modifies `processedMessageIds, `markers
      ensures State() == Mark(old(State()), id, writesMarker)
    {
      processedMessageIds := processedMessageIds + [id];
      if |processedMessageIds| > DEDUP_SET_MAX_SIZE {
        Trim();
      }
      if writesMarker {
        markers := markers + {id};
      }
    }

    method SafeAck(streamId: nat, acks: bool)
      modifies `acked
      ensures State() == Ack(old(State()), streamId, acks)
    {
      if acks {
        acked := acked + {streamId};
      }
    }

    method Die()
      modifies `processedMessageIds, `held
      ensures State() == Restarted(old(State()))
    {
      processedMessageIds, held := [], {};
    }

    /**
     * Malformed or duplicate entries are only acknowledged; the rest are dispatched, and settled unless
     * they may be retried.
     */
    method Process(streamId: nat, m: Move)
      requires streamId < |commands|
      modifies this
      ensures State() == ProcessMessage(old(State()), streamId, commands[streamId], m)
    {
      if commands[streamId].None? {
        SafeAck(streamId, m.acks);
        return;
      }
      var id := commands[streamId].value;
      var processed := IsProcessed(id, m.readsMarker);
      if processed {
        SafeAck(streamId, m.acks);
        return;
      }
      log := log + [Dispatch(streamId, id, VerdictOf(m))];
      if !VerdictOf(m).Survived() {
        Die();
        return;
      }
      if m.outcome == Throws {
        var deliveries := if m.readsCounter && streamId in counters then counters[streamId] else 0;
        if deliveries < PENDING_POISON_MAX_DELIVERIES {
          return;
        }
      }
      MarkProcessed(id, m.writesMarker);
      if m.crash == BeforeAck {
        Die();
        return;
      }
      SafeAck(streamId, m.acks);
    }

    /** Each claim raises the entry's counter; an acknowledged entry is no longer pending. */
    method ClaimPending(batch: seq<nat>) returns (ghost events: seq<Event>)
      requires forall k :: 0 <= k < |batch| ==> batch[k] < |commands|
      modifies `counters, `held
      ensures State() == Run(commands, old(State()), events)
      ensures |events| == |batch| && forall k :: 0 <= k < |batch| ==> events[k] == Claimed(batch[k])
    {
      events := [];
      for i := 0 to |batch|
        invariant |events| == i && forall k :: 0 <= k < i ==> events[k] == Claimed(batch[k])
        invariant State() == Run(commands, old(State()), events)
      {
        ghost var earlier := events;
        events := events + [Claimed(batch[i])];
        assert events[..|earlier|] == earlier;
        if batch[i] !in acked {
          var deliveries := if batch[i] in counters then counters[batch[i]] else 0;
          counters := counters[batch[i] := deliveries + 1];
          held := held + {batch[i]};
        }
      }
    }

    /** Claim a batch of pending entries, then process them in order while the process lives. */
    method RecoverPending(batch: seq<nat>, moves: seq<Move>) returns (ghost events: seq<Event>)
      requires |moves| == |batch|
      requires forall k :: 0 <= k < |batch| ==> batch[k] < |commands|
      modifies this
      ensures State() == Run(commands, old(State()), events)
      ensures |events| == 2 * |batch|
      ensures forall k :: 0 <= k < |batch| ==> events[k] == Claimed(batch[k])
      ensures forall k :: 0 <= k < |batch| ==> events[|batch| + k] == Processed(batch[k], moves[k])
    {
      events := ClaimPending(batch);
      for i := 0 to |batch|
        invariant |events| == |batch| + i
        invariant forall k :: 0 <= k < |batch| ==> events[k] == Claimed(batch[k])
        invariant forall k :: 0 <= k < i ==> events[|batch| + k] == Processed(batch[k], moves[k])
        invariant State() == Run(commands, old(State()), events)
      {
        ghost var earlier := events;
        events := events + [Processed(batch[i], moves[i])];
        assert events[..|earlier|] == earlier;
        if batch[i] in held {
          held := held - {batch[i]};
          Process(batch[i], moves[i]);
        }
      }
    }
  }
}
