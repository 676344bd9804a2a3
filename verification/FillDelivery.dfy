/**
 * Journal before publish: a fill is written durably, then offered to the stream, and
 * only cleared once the stream acknowledged it; a replay republishes what is left.
 * Fills are their ids; a crash may fall between any two of these steps.
 */
module FillDelivery {
  /** The journal in order, whether its integrity is known, and what the stream accepted. */
  datatype Delivery = Delivery(journal: seq<string>, intact: bool, stream: seq<string>)

  /**
   * A publish the stream may take without its acknowledgement arriving. A crash in the middle of a
   * replay is a clear that was not written followed by a publish the stream does not take.
   */
  datatype PublishMove = PublishMove(accepted: bool, acknowledged: bool) {
    predicate Succeeds() { accepted && acknowledged }
  }

  /** How far a report gets before the process dies. */
  datatype CrashPoint = BeforeJournal | AfterJournal | AfterPublish | NoCrash

  datatype ReportMove = ReportMove(writes: bool, publish: PublishMove, clears: bool, crash: CrashPoint)

  datatype ReportResult = Rejected | Crashed | Returned

  datatype ReplayMove = ReplayMove(publish: PublishMove, clears: bool)

  /** Journal a fill: replace the entry of the same id, else append. */
  function Journaled(journal: seq<string>, id: string): seq<string> {
    if id in journal then journal else journal + [id]
  }

  function Without(journal: seq<string>, id: string): seq<string> {
    if journal == [] then []
    else
      var last := journal[|journal| - 1];
      Without(journal[..|journal| - 1], id) + if last == id then [] else [last]
  }

  function Publish(s: Delivery, id: string, m: PublishMove): Delivery {
    if m.accepted then s.(stream := s.stream + [id]) else s
  }

  /** A clear is refused when the journal's integrity is unknown, and may fail to write. */
  function Clear(s: Delivery, id: string, clears: bool): Delivery {
    if s.intact && clears then s.(journal := Without(s.journal, id)) else s
  }

  function Report(s: Delivery, id: string, m: ReportMove): (Delivery, ReportResult) {
    if m.crash == BeforeJournal then (s, Crashed)
    else if !s.intact || !m.writes then (s, Rejected)
    else
      var journaled := s.(journal := Journaled(s.journal, id));
      if m.crash == AfterJournal then (journaled, Crashed)
      else
        var published := Publish(journaled, id, m.publish);
        if m.crash == AfterPublish then (published, Crashed)
        else (if m.publish.Succeeds() then Clear(published, id, m.clears) else published, Returned)
  }

  /** Entries a replay publishes before its first failure. */
  function ReplayedCount(pending: seq<string>, moves: seq<ReplayMove>): (n: nat)
    requires |moves| == |pending|
    ensures n <= |pending|
  {
    if pending == [] || !moves[0].publish.Succeeds() then 0 else 1 + ReplayedCount(pending[1..], moves[1..])
  }

  function ReplayFrom(s: Delivery, pending: seq<string>, moves: seq<ReplayMove>): Delivery
    requires |moves| == |pending|
    decreases |pending|
  {
    if pending == [] then s
    else
      var published := Publish(s, pending[0], moves[0].publish);
      if !moves[0].publish.Succeeds() then published
      else ReplayFrom(Clear(published, pending[0], moves[0].clears), pending[1..], moves[1..])
  }

  datatype Event =
    | ReportFill(id: string, move: ReportMove)
    | ReplayPending(moves: seq<ReplayMove>)
    | LoseIntegrity
    | RestoreIntegrity

  function Step(s: Delivery, e: Event): Delivery {
    match e
    case ReportFill(id, m) => Report(s, id, m).0
    case ReplayPending(moves) => if s.intact && |moves| == |s.journal| then ReplayFrom(s, s.journal, moves) else s
    case LoseIntegrity => s.(intact := false)
    case RestoreIntegrity => s.(intact := true)
  }

  function Run(s: Delivery, events: seq<Event>): Delivery {
    if events == [] then s else Step(Run(s, events[..|events| - 1]), events[|events| - 1])
  }

  /** Somewhere a replay or the backend can find it. */
  predicate Safe(s: Delivery, id: string) { id in s.journal || id in s.stream }

  // ----- nothing handed over is lost -----

  lemma {:induction false} WithoutKeeps(journal: seq<string>, id: string, x: string)
    ensures x in Without(journal, id) <==> x in journal && x != id
  {
    if journal != [] {
      WithoutKeeps(journal[..|journal| - 1], id, x);
    }
  }

  lemma ClearKeeps(s: Delivery, id: string, clears: bool, x: string)
    requires Safe(s, x) && id in s.stream
    ensures Safe(Clear(s, id, clears), x)
  {
    WithoutKeeps(s.journal, id, x);
  }

  /**
   * From the journal write on, a fill passed on is journaled, accepted by the stream, or rejected to
   * the caller, at every crash point. A crash before the write leaves no trace of it.
   */
  lemma ReportIsSafe(s: Delivery, id: string, m: ReportMove)
    ensures var (s', r) := Report(s, id, m);
      && (r == Returned ==> Safe(s', id))
      && (r == Crashed && m.crash != BeforeJournal ==> Safe(s', id))
      && (r == Rejected ==> s' == s)
      && (r == Rejected <==> m.crash != BeforeJournal && (!s.intact || !m.writes))
      && (m.crash == BeforeJournal ==> r == Crashed && s' == s)
  {
    if m.publish.accepted {
      var published := Publish(s.(journal := Journaled(s.journal, id)), id, m.publish);
      assert published.stream[|s.stream|] == id;
      ClearKeeps(published, id, m.clears, id);
    }
  }

  /**
   * An undisturbed report puts the fill on the stream once and takes it, and nothing else, out of the
   * journal; as long as the stream has not acknowledged it, it stays in the journal.
   */
  lemma ReportDelivers(s: Delivery, id: string, m: ReportMove)
    requires s.intact && m.writes && m.crash == NoCrash
    ensures var (s', r) := Report(s, id, m);
      && r == Returned && s'.stream == (if m.publish.accepted then s.stream + [id] else s.stream)
      && (id in s'.journal <==> !(m.publish.accepted && m.publish.acknowledged && m.clears))
      && (forall x :: x != id ==> (x in s'.journal <==> x in s.journal))
  {
    forall x ensures x in Without(Journaled(s.journal, id), id) <==> x in Journaled(s.journal, id) && x != id {
      WithoutKeeps(Journaled(s.journal, id), id, x);
    }
  }

  lemma ReportKeeps(s: Delivery, id: string, m: ReportMove, x: string)
    requires Safe(s, x)
    ensures Safe(Report(s, id, m).0, x)
  {
    var published := Publish(s.(journal := Journaled(s.journal, id)), id, m.publish);
    if m.publish.accepted {
      assert published.stream[|s.stream|] == id;
      ClearKeeps(published, id, m.clears, x);
    }
  }

  lemma {:induction false} ReplayKeeps(s: Delivery, pending: seq<string>, moves: seq<ReplayMove>, x: string)
    requires |moves| == |pending| && Safe(s, x)
    ensures Safe(ReplayFrom(s, pending, moves), x)
    decreases |pending|
  {
    if pending != [] {
      var published := Publish(s, pending[0], moves[0].publish);
      if moves[0].publish.Succeeds() {
        assert published.stream[|s.stream|] == pending[0];
        ClearKeeps(published, pending[0], moves[0].clears, x);
        ReplayKeeps(Clear(published, pending[0], moves[0].clears), pending[1..], moves[1..], x);
      }
    }
  }

  /** Once safe, a fill stays safe under every run of reports, replays, crashes and lost integrity. */
  lemma {:induction false} SafeForGood(s: Delivery, events: seq<Event>, x: string)
    requires Safe(s, x)
    ensures Safe(Run(s, events), x)
  {
    if events != [] {
      SafeForGood(s, events[..|events| - 1], x);
      var before := Run(s, events[..|events| - 1]);
      match events[|events| - 1]
      case ReportFill(id, m) => ReportKeeps(before, id, m, x);
      case ReplayPending(moves) =>
        if before.intact && |moves| == |before.journal| {
          ReplayKeeps(before, before.journal, moves, x);
        }
      case LoseIntegrity =>
      case RestoreIntegrity =>
    }
  }

  // ----- the replay, exactly -----

  predicate Distinct(journal: seq<string>) { forall j, k :: 0 <= j < k < |journal| ==> journal[j] != journal[k] }

  lemma {:induction false} WithoutAbsent(journal: seq<string>, id: string)
    requires id !in journal
    ensures Without(journal, id) == journal
  {
    if journal != [] {
      WithoutAbsent(journal[..|journal| - 1], id);
    }
  }

  lemma WithoutAppend(a: seq<string>, x: string, id: string)
    ensures Without(a + [x], id) == Without(a, id) + if x == id then [] else [x]
  {
    assert (a + [x])[..|a|] == a;
  }

  /** Taking out one entry of a distinct journal closes the gap. */
  lemma {:induction false} WithoutMiddle(kept: seq<string>, id: string, rest: seq<string>)
    requires id !in kept && id !in rest
    ensures Without(kept + [id] + rest, id) == kept + rest
  {
    if rest == [] {
      assert kept + [id] + rest == kept + [id] && kept + rest == kept;
      WithoutAppend(kept, id, id);
      WithoutAbsent(kept, id);
    } else {
      var n := |rest| - 1;
      WithoutMiddle(kept, id, rest[..n]);
      assert kept + [id] + rest == (kept + [id] + rest[..n]) + [rest[n]];
      WithoutAppend(kept + [id] + rest[..n], rest[n], id);
      assert kept + rest == (kept + rest[..n]) + [rest[n]];
    }
  }

  /** Entries the replay got through whose clear was not written. */
  function Uncleared(pending: seq<string>, moves: seq<ReplayMove>): seq<string>
    requires |moves| == |pending|
  {
    if pending == [] || !moves[0].publish.Succeeds() then []
    else (if moves[0].clears then [] else [pending[0]]) + Uncleared(pending[1..], moves[1..])
  }

  lemma DistinctParts(kept: seq<string>, pending: seq<string>)
    requires pending != [] && Distinct(kept + pending)
    ensures pending[0] !in kept && pending[0] !in pending[1..]
    ensures Distinct(kept + pending[1..]) && Distinct((kept + [pending[0]]) + pending[1..])
    ensures kept + [pending[0]] + pending[1..] == kept + pending
  {
    var all := kept + pending;
    assert kept + [pending[0]] + pending[1..] == all;
    assert all[|kept|] == pending[0];
    forall j | 0 <= j < |kept| ensures kept[j] != pending[0] { assert all[j] == kept[j]; }
    forall j | 0 <= j < |pending| - 1 ensures pending[1..][j] != pending[0] { assert all[|kept| + 1 + j] == pending[1..][j]; }
    var gap := kept + pending[1..];
    forall j, k | 0 <= j < k < |gap| ensures gap[j] != gap[k] {
      assert gap[j] == all[if j < |kept| then j else j + 1] && gap[k] == all[if k < |kept| then k else k + 1];
    }
  }

  lemma {:induction false} ReplayLeaves(s: Delivery, kept: seq<string>, pending: seq<string>, moves: seq<ReplayMove>)
    requires s.intact && |moves| == |pending| && s.journal == kept + pending && Distinct(s.journal)
    ensures ReplayFrom(s, pending, moves).journal == kept + Uncleared(pending, moves) + pending[ReplayedCount(pending, moves)..]
    decreases |pending|
  {
    if pending == [] || !moves[0].publish.Succeeds() {
      assert kept + [] + pending[0..] == kept + pending;
    } else {
      DistinctParts(kept, pending);
      var first, rest, later := pending[0], pending[1..], moves[1..];
      var next := Clear(Publish(s, first, moves[0].publish), first, moves[0].clears);
      var n := ReplayedCount(rest, later);
      assert pending[n + 1..] == rest[n..];
      if moves[0].clears {
        WithoutMiddle(kept, first, rest);
        ReplayLeaves(next, kept, rest, later);
        assert [] + Uncleared(rest, later) == Uncleared(rest, later);
      } else {
        ReplayLeaves(next, kept + [first], rest, later);
        assert (kept + [first]) + Uncleared(rest, later) == kept + ([first] + Uncleared(rest, later));
      }
    }
  }

  lemma LongerByPrefix(left: seq<string>, rest: seq<string>)
    ensures left + rest == rest <==> left == []
  {
    if left == [] {
      assert left + rest == rest;
    } else {
      assert |left + rest| > |rest|;
    }
  }

  /**
   * What a replay leaves: exactly the entries it did not get to, if and only if every clear along
   * the way was written. (The returned count does not look at the clears: an entry whose clear
   * failed is counted as replayed and kept.)
   */
  lemma ReplayLeavesSuffix(s: Delivery, moves: seq<ReplayMove>)
    requires s.intact && |moves| == |s.journal| && Distinct(s.journal)
    ensures ReplayFrom(s, s.journal, moves).journal == s.journal[ReplayedCount(s.journal, moves)..]
            <==> Uncleared(s.journal, moves) == []
  {
    var left, rest := Uncleared(s.journal, moves), s.journal[ReplayedCount(s.journal, moves)..];
    assert ReplayFrom(s, s.journal, moves).journal == left + rest by {
      assert s.journal == [] + s.journal;
      ReplayLeaves(s, [], s.journal, moves);
      assert [] + left == left;
    }
    LongerByPrefix(left, rest);
  }

  /**
   * A fill the stream took whose clear was not written is counted as replayed and kept: nothing remains,
   * and the journal does.
   */
  lemma CountedAndKept(id: string)
    ensures var s := Delivery([id], true, []);
      var moves := [ReplayMove(PublishMove(true, true), false)];
      && ReplayedCount(s.journal, moves) == |s.journal|
      && ReplayFrom(s, s.journal, moves).journal == [id]
  {}

  lemma {:induction false} StopsAtFailure(pending: seq<string>, moves: seq<ReplayMove>)
    requires |moves| == |pending|
    ensures ReplayedCount(pending, moves) < |pending| ==> !moves[ReplayedCount(pending, moves)].publish.Succeeds()
    ensures forall k :: 0 <= k < ReplayedCount(pending, moves) ==> moves[k].publish.Succeeds()
  {
    if pending != [] && moves[0].publish.Succeeds() {
      StopsAtFailure(pending[1..], moves[1..]);
      forall k | 0 < k < ReplayedCount(pending, moves) ensures moves[k].publish.Succeeds() {
        assert moves[1..][k - 1] == moves[k];
      }
    }
  }

  /** A failed publish may still have reached the stream. */
  function Doubtful(pending: seq<string>, moves: seq<ReplayMove>): seq<string>
    requires |moves| == |pending|
  {
    var n := ReplayedCount(pending, moves);
    if n < |pending| && moves[n].publish.accepted then [pending[n]] else []
  }

  /** A replay publishes exactly the prefix it counts, and perhaps the one entry it stopped at. */
  lemma {:induction false} PrefixPublished(s: Delivery, pending: seq<string>, moves: seq<ReplayMove>)
    requires |moves| == |pending|
    ensures ReplayFrom(s, pending, moves).stream
         == s.stream + pending[..ReplayedCount(pending, moves)] + Doubtful(pending, moves)
    decreases |pending|
  {
    if pending != [] && moves[0].publish.Succeeds() {
      var next := Clear(Publish(s, pending[0], moves[0].publish), pending[0], moves[0].clears);
      PrefixPublished(next, pending[1..], moves[1..]);
      var n := ReplayedCount(pending[1..], moves[1..]);
      assert s.stream + pending[..n + 1] == next.stream + pending[1..][..n];
    }
  }

  // ----- a journal never lists a fill twice -----

  lemma {:induction false} WithoutDistinct(journal: seq<string>, id: string)
    requires Distinct(journal)
    ensures Distinct(Without(journal, id))
  {
    if journal != [] {
      var n := |journal| - 1;
      WithoutDistinct(journal[..n], id);
      WithoutKeeps(journal[..n], id, journal[n]);
    }
  }

  lemma {:induction false} ReplayDistinct(s: Delivery, pending: seq<string>, moves: seq<ReplayMove>)
    requires |moves| == |pending| && Distinct(s.journal)
    ensures Distinct(ReplayFrom(s, pending, moves).journal)
    decreases |pending|
  {
    if pending != [] && moves[0].publish.Succeeds() {
      WithoutDistinct(s.journal, pending[0]);
      ReplayDistinct(Clear(Publish(s, pending[0], moves[0].publish), pending[0], moves[0].clears), pending[1..],
        moves[1..]);
    }
  }

  lemma {:induction false} DistinctForGood(s: Delivery, events: seq<Event>)
    requires Distinct(s.journal)
    ensures Distinct(Run(s, events).journal)
  {
    if events != [] {
      DistinctForGood(s, events[..|events| - 1]);
      var before := Run(s, events[..|events| - 1]);
      match events[|events| - 1]
      case ReportFill(id, m) =>
        WithoutDistinct(Journaled(before.journal, id), id);
      case ReplayPending(moves) =>
        if before.intact && |moves| == |before.journal| {
          ReplayDistinct(before, before.journal, moves);
        }
      case LoseIntegrity =>
      case RestoreIntegrity =>
    }
  }

  // ----- the sink -----

  /** A sink keyed on fill id: a redelivered id changes nothing. */
  function Sink(stream: seq<string>): seq<string> {
    if stream == [] then []
    else
      var last := stream[|stream| - 1];
      var before := Sink(stream[..|stream| - 1]);
      if last in before then before else before + [last]
  }

  ghost predicate SameMembers(a: seq<string>, b: seq<string>) { forall id :: id in a <==> id in b }

  lemma SinkAppend(before: seq<string>, prefix: seq<string>, last: string)
    requires Distinct(before) && SameMembers(before, prefix)
    ensures var after := if last in before then before else before + [last];
      Distinct(after) && SameMembers(after, prefix + [last])
  {}

  lemma {:induction false} SinkHolds(stream: seq<string>)
    ensures Distinct(Sink(stream)) && SameMembers(Sink(stream), stream)
  {
    hide Distinct, Sink, SameMembers;
    if stream == [] {
      NothingTwice();
    } else {
      var prefix, last := stream[..|stream| - 1], stream[|stream| - 1];
      SinkStep(stream);
      SinkHolds(prefix);
      SinkAppend(Sink(prefix), prefix, last);
      assert stream == prefix + [last];
    }
  }

  lemma NothingTwice()
    ensures Distinct(Sink([])) && SameMembers(Sink([]), [])
  {}

  lemma SinkStep(stream: seq<string>)
    requires stream != []
    ensures var before, last := Sink(stream[..|stream| - 1]), stream[|stream| - 1];
      Sink(stream) == if last in before then before else before + [last]
  {}

  /** Every fill the stream ever accepted is recorded exactly once, however often it was delivered. */
  lemma SinkIsExact(stream: seq<string>)
    ensures Distinct(Sink(stream)) && forall id :: id in Sink(stream) <==> id in stream
  {
    SinkHolds(stream);
  }

  // ----- end to end -----

  predicate Clean(m: ReplayMove) { m.publish.Succeeds() && m.clears }

  lemma {:induction false} CleanReplayCounts(pending: seq<string>, moves: seq<ReplayMove>)
    requires |moves| == |pending| && forall k :: 0 <= k < |moves| ==> Clean(moves[k])
    ensures ReplayedCount(pending, moves) == |pending| && Uncleared(pending, moves) == []
  {
    if pending != [] {
      assert Clean(moves[0]);
      CleanReplayCounts(pending[1..], moves[1..]);
    }
  }

  /**
   * After any run of reports, replays, crashes and integrity loss, one undisturbed replay empties
   * the journal, and everything that was ever safe is recorded at the sink exactly once.
   */
  lemma Drained(events: seq<Event>, moves: seq<ReplayMove>)
    requires Run(Delivery([], true, []), events).intact
    requires |moves| == |Run(Delivery([], true, []), events).journal|
    requires forall k :: 0 <= k < |moves| ==> Clean(moves[k])
    ensures var s := Run(Delivery([], true, []), events);
      var s' := ReplayFrom(s, s.journal, moves);
      && s'.journal == []
      && (forall id :: Safe(s, id) ==> id in Sink(s'.stream))
      && Distinct(Sink(s'.stream))
  {
    var s := Run(Delivery([], true, []), events);
    DistinctForGood(Delivery([], true, []), events);
    CleanReplayCounts(s.journal, moves);
    ReplayLeavesSuffix(s, moves);
    var s' := ReplayFrom(s, s.journal, moves);
    SinkIsExact(s'.stream);
    forall id | Safe(s, id) ensures id in Sink(s'.stream) {
      ReplayKeeps(s, s.journal, moves, id);
    }
  }
}
