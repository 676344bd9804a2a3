/** The reporter that journals, publishes and clears in place; each method is proved against `FillDelivery`. */
module FillReporting {
  import opened FillDelivery

  class LedgerTradeReporter {
    var journal: seq<string>
    var intact: bool
    var stream: seq<string>

    constructor ()
      ensures Stores() == Delivery([], true, [])
    {
      journal, intact, stream := [], true, [];
    }

    function Stores(): Delivery reads this { Delivery(journal, intact, stream) }

    /** Replace the entry of the same id or append; refused when integrity is unknown. */
    method JournalPendingFill(id: string, writes: bool) returns (written: bool)
      modifies `journal
      ensures written == (intact && writes)
      ensures journal == if written then Journaled(old(journal), id) else old(journal)
    {
      if !intact {
        return false;
      }
      var entries := journal;
      if id !in entries {
        entries := entries + [id];
      }
      if !writes {
        return false;
      }
      journal := entries;
      return true;
    }

    /** Filter the id out of the journal; refused when integrity is unknown. */
    method ClearPendingFill(id: string, clears: bool)
      modifies `journal
      ensures Stores() == Clear(old(Stores()), id, clears)
    {
      if !intact {
        return;
      }
      var remaining: seq<string> := [];
      for i := 0 to |journal|
        invariant remaining == Without(journal[..i], id)
      {
        assert journal[..i + 1][..i] == journal[..i];
        if journal[i] != id {
          remaining := remaining + [journal[i]];
        }
      }
      assert journal[..|journal|] == journal;
      if clears {
        journal := remaining;
      }
    }

    method PublishTradeExecuted(id: string, m: PublishMove) returns (success: bool)
      modifies `stream
      ensures success == m.Succeeds()
      ensures Stores() == Publish(old(Stores()), id, m)
    {
      if m.accepted {
        stream := stream + [id];
      }
      return m.Succeeds();
    }

    /** Journal first, publish, clear only on success; a fill without a durable copy is rejected. */
    method ReportFill(id: string, m: ReportMove) returns (result: ReportResult)
      modifies this
      ensures (Stores(), result) == Report(old(Stores()), id, m)
    {
      if m.crash == BeforeJournal {
        return Crashed;
      }
      var written := JournalPendingFill(id, m.writes);
      if !written {
        return Rejected;
      }
      if m.crash == AfterJournal {
        return Crashed;
      }
      var success := PublishTradeExecuted(id, m.publish);
      if m.crash == AfterPublish {
        return Crashed;
      }
      if success {
        ClearPendingFill(id, m.clears);
      }
      return Returned;
    }

    /**
     * Republish every journaled fill in order, stopping at the first failure. Replayed and remaining
     * always add up to what the journal held; an unverifiable journal replays nothing.
     */
    method ReplayPendingFills(moves: seq<ReplayMove>) returns (replayed: nat, remaining: nat, unknown: bool)
      requires |moves| == |journal|
      modifies this
      ensures unknown == !old(intact)
      ensures unknown ==> Stores() == old(Stores()) && replayed == remaining == 0
      ensures !unknown ==> Stores() == ReplayFrom(old(Stores()), old(journal), moves)
      ensures !unknown ==> replayed == ReplayedCount(old(journal), moves) && replayed + remaining == |old(journal)|
    {
      if !intact {
        return 0, 0, true;
      }
      var pending := journal;
      replayed := 0;
      while replayed < |pending|
        invariant replayed <= |pending|
        invariant ReplayFrom(old(Stores()), pending, moves) == ReplayFrom(Stores(), pending[replayed..], moves[replayed..])
        invariant ReplayedCount(pending, moves) == replayed + ReplayedCount(pending[replayed..], moves[replayed..])
      {
        var id := pending[replayed];
        var success := PublishTradeExecuted(id, moves[replayed].publish);
        if !success {
          break;
        }
        ClearPendingFill(id, moves[replayed].clears);
        assert pending[replayed..][1..] == pending[replayed + 1..] && moves[replayed..][1..] == moves[replayed + 1..];
        replayed := replayed + 1;
      }
      return replayed, |pending| - replayed, false;
    }
  }
}
