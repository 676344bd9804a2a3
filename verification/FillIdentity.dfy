/** Fill ids over the ledger: no two rows of any run hash the same text. */
module FillIdentity {
  import opened Options
  import opened OrderState
  import opened Ledger
  import opened LevelRuns
  import opened SlotReconciliation
  import opened TilingRuns
  import opened ClientOrderIds
  import FI = FillIds

  predicate Sized(r: Row) { 0 <= r.from < r.to }

  function SegmentOfRow(r: Row, full: int): FI.FillSegment
    requires Sized(r)
  {
    FI.FillSegment(r.from, r.to, full)
  }

  /** The venue's order id, or the client's own where the venue gave none. */
  function VenueText(r: Row, clientOrderId: string, venueId: Handle -> string): string {
    if r.exchangeId.Some? then venueId(r.exchangeId.value) else clientOrderId
  }

  /** The text a row's fill id hashes; None when the row's order never got a client id. */
  function FillText(botId: string, g: Generator, venueId: Handle -> string, r: Row, full: int): Option<string>
    requires g.Valid() && Sized(r)
  {
    var id := g.Generate(r.cid.level, r.cid.side, r.cid.gen);
    if id.None? then None
    else Some(FI.Preimage(botId, id.value, VenueText(r, id.value, venueId), Some(SegmentOfRow(r, full))))
  }

  /** Accepted client ids contain no colon. */
  lemma AcceptedIsFree(id: string)
    requires IsAccepted(id)
    ensures FI.Free(id, ':')
  {}

  lemma {:induction false} BookedIsPositive(rows: seq<Row>, cid: Cid)
    requires Tiled(rows)
    ensures Booked(rows, cid) >= 0
  {
    if rows != [] {
      BookedIsPositive(rows[..|rows| - 1], cid);
    }
  }

  /** In a tiled ledger each row is more than dust, and what is booked for its order reaches its end. */
  lemma {:induction false} RowInTiling(rows: seq<Row>, k: nat)
    requires Tiled(rows) && k < |rows|
    ensures Sized(rows[k]) && rows[k].to - rows[k].from > QTY_EPSILON && rows[k].to <= Booked(rows, rows[k].cid)
  {
    var n := |rows| - 1;
    if k < n {
      RowInTiling(rows[..n], k);
    } else {
      BookedIsPositive(rows[..n], rows[n].cid);
    }
  }

  /** Of two rows of one order the later starts where the earlier ended, or after. */
  lemma {:induction false} LaterStartsAfter(rows: seq<Row>, j: nat, k: nat)
    requires Tiled(rows) && j < k < |rows| && rows[j].cid == rows[k].cid
    ensures rows[j].to <= rows[k].from
  {
    var n := |rows| - 1;
    if k < n {
      LaterStartsAfter(rows[..n], j, k);
    } else {
      RowInTiling(rows[..n], j);
    }
  }

  predicate ColonFree(botId: string, venueId: Handle -> string, r: Row) {
    FI.Free(botId, ':') && (r.exchangeId.Some? ==> FI.Free(venueId(r.exchangeId.value), ':'))
  }

  /** The two rows get different fill ids, if the first gets one at all. */
  predicate Differ(botId: string, g: Generator, venueId: Handle -> string, full: int, r: Row, t: Row)
    requires g.Valid()
  {
    && Sized(r) && Sized(t)
    && (FillText(botId, g, venueId, r, full).Some? ==> FillText(botId, g, venueId, r, full) != FillText(botId, g, venueId, t, full))
  }

  lemma RowsHaveDistinctIds(r: Row, t: Row, botId: string, g: Generator, venueId: Handle -> string, full: int)
    requires g.Valid() && ColonFree(botId, venueId, r) && ColonFree(botId, venueId, t)
    requires Sized(r) && Sized(t) && r.to - r.from > QTY_EPSILON && t.to - t.from > QTY_EPSILON
    requires r.cid != t.cid || r.to <= t.from
    ensures Differ(botId, g, venueId, full, r, t)
  {
    if FillText(botId, g, venueId, r, full).Some? && FillText(botId, g, venueId, t, full).Some? {
      var c, c' := g.Generate(r.cid.level, r.cid.side, r.cid.gen).value,
        g.Generate(t.cid.level, t.cid.side, t.cid.gen).value;
      var e, e' := VenueText(r, c, venueId), VenueText(t, c', venueId);
      AcceptedIsFree(c);
      AcceptedIsFree(c');
      if r.cid == t.cid {
        FI.SegmentsHaveDistinctIds(botId, c, e, SegmentOfRow(r, full), botId, c', e', SegmentOfRow(t, full));
      } else {
        IdsAreDistinct(g, r.cid, t.cid);
        if FillText(botId, g, venueId, r, full) == FillText(botId, g, venueId, t, full) {
          FI.PreimageReads(botId, c, e, Some(SegmentOfRow(r, full)), botId, c', e', Some(SegmentOfRow(t, full)));
        }
      }
    }
  }

  /**
   * No two rows of a tiled ledger share a fill id: other orders differ in their client id, segments of
   * one order in their bounds.
   */
  lemma TiledRowsHaveDistinctIds(rows: seq<Row>, botId: string, g: Generator, venueId: Handle -> string, full: int,
                                 j: nat, k: nat)
    requires Tiled(rows) && j < k < |rows| && g.Valid()
    requires ColonFree(botId, venueId, rows[j]) && ColonFree(botId, venueId, rows[k])
    ensures Differ(botId, g, venueId, full, rows[j], rows[k])
  {
    RowInTiling(rows, j);
    RowInTiling(rows, k);
    if rows[j].cid == rows[k].cid {
      LaterStartsAfter(rows, j, k);
    }
    RowsHaveDistinctIds(rows[j], rows[k], botId, g, venueId, full);
  }

  /**
   * Over every run of a level, whatever the venue answers: no two rows booked for it share a fill
   * id, so a sink that keeps one row an id keeps them all.
   */
  lemma RunRowsHaveDistinctIds(price: real, cfg: Config, i: nat, events: seq<Event>, botId: string, g: Generator,
                               venueId: Handle -> string, j: nat, k: nat)
    requires j < k < |Run(FreshWorld(price, cfg.orderQuantity, i), cfg, i, events).rows| && g.Valid()
    requires var rows := Run(FreshWorld(price, cfg.orderQuantity, i), cfg, i, events).rows;
      ColonFree(botId, venueId, rows[j]) && ColonFree(botId, venueId, rows[k])
    ensures var rows := Run(FreshWorld(price, cfg.orderQuantity, i), cfg, i, events).rows;
      Differ(botId, g, venueId, cfg.orderQuantity, rows[j], rows[k])
  {
    SegmentsTile(price, cfg, i, events, Cid(i, Buy, 0));
    TiledRowsHaveDistinctIds(Run(FreshWorld(price, cfg.orderQuantity, i), cfg, i, events).rows, botId, g, venueId,
      cfg.orderQuantity, j, k);
  }
}
