/** Saving a whole grid and merging it back onto rebuilt levels, by price. */
module GridSnapshots {
  import opened Options
  import opened OrderState
  import LM = LevelMachine
  import opened LevelRuns
  import opened OrderManagement

  /** Saved entry for a price: the last one wins when a price was saved twice. */
  function SavedFor(saved: seq<GridLevel>, price: real): Option<GridLevel> {
    if saved == [] then None
    else if saved[|saved| - 1].price == price then Some(saved[|saved| - 1])
    else SavedFor(saved[..|saved| - 1], price)
  }

  /** One rebuilt level after the merge; a price the snapshot does not know starts fresh. */
  function Merged(base: GridLevel, saved: seq<GridLevel>): GridLevel {
    match SavedFor(saved, base.price)
    case Some(s) => MergeRestored(base, s)
    case None => base
  }

  method MergeRestoredLevels(base: seq<GridLevel>, saved: seq<GridLevel>) returns (merged: seq<GridLevel>)
    ensures |merged| == |base|
    ensures forall k :: 0 <= k < |base| ==> merged[k] == Merged(base[k], saved)
  {
    var byPrice: map<real, GridLevel> := map[];
    for k := 0 to |saved|
      invariant forall p :: (p in byPrice <==> SavedFor(saved[..k], p).Some?)
                            && (p in byPrice ==> byPrice[p] == SavedFor(saved[..k], p).value)
    {
      assert saved[..k + 1][..k] == saved[..k];
      byPrice := byPrice[saved[k].price := saved[k]];
    }
    assert saved[..|saved|] == saved;
    merged := [];
    for k := 0 to |base|
      invariant |merged| == k
      invariant forall j :: 0 <= j < k ==> merged[j] == Merged(base[j], saved)
    {
      if base[k].price in byPrice {
        merged := merged + [MergeRestored(base[k], byPrice[base[k].price])];
      } else {
        merged := merged + [base[k]];
      }
    }
  }

  /** `buildSnapshot`: the saved entry of every level. */
  function Snapshot(levels: seq<GridLevel>): seq<GridLevel> {
    seq(|levels|, k requires 0 <= k < |levels| => SnapshotLevel(levels[k]))
  }

  ghost predicate DistinctPrices(levels: seq<GridLevel>) {
    forall j, k :: 0 <= j < k < |levels| ==> levels[j].price != levels[k].price
  }

  /** With distinct lines, every level finds exactly its own saved entry. */
  lemma {:induction false} SavedForItself(levels: seq<GridLevel>, k: nat)
    requires DistinctPrices(levels) && k < |levels|
    ensures SavedFor(Snapshot(levels), levels[k].price) == Some(SnapshotLevel(levels[k]))
  {
    var n := |levels| - 1;
    var s := Snapshot(levels);
    assert s[n].price == levels[n].price;
    if k < n {
      assert s[..n] == Snapshot(levels[..n]);
      SavedForItself(levels[..n], k);
    }
  }

  /** A rebuilt grid: the same lines, nothing on them. */
  function Rebuilt(levels: seq<GridLevel>): seq<GridLevel> {
    seq(|levels|, k requires 0 <= k < |levels| => FreshLevel(levels[k].price))
  }

  /**
   * Saving a grid, rebuilding its lines, merging and seeding restores every level to exactly
   * the memory `LevelRuns.Restored` describes, whatever the other levels hold.
   */
  lemma GridRestores(levels: seq<GridLevel>, q: int, k: nat)
    requires DistinctPrices(levels) && k < |levels|
    ensures LM.Seed(Merged(Rebuilt(levels)[k], Snapshot(levels)), q, k) == Restored(levels[k], q, k)
  {
    SavedForItself(levels, k);
  }
}
