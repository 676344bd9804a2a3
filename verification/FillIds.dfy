/**
 * Fill identity: which segments of one order hash the same text. The hash itself is any
 * injective function, so identity is decided by the text that is hashed.
 */
module FillIds {
  import opened Options
  import opened DecimalStrings

  /** Whole-order tolerance: one unit of 1e-8. */
  const WHOLE_ORDER_EPSILON: int := 1

  /** Cumulative bounds of a booked segment and the configured order size, in 1e-8 units. */
  datatype FillSegment = FillSegment(from: nat, to: nat, full: int)

  predicate IsWholeOrder(s: FillSegment) {
    s.full > 0 && s.from <= WHOLE_ORDER_EPSILON && s.to >= s.full - WHOLE_ORDER_EPSILON
  }

  /** `toFixed(8)` of a bound: eight places, exactly. */
  function Bound(units: nat): string { FormatScaled(units, 8) }

  function Base(botId: string, clientOrderId: string, exchangeOrderId: string): string {
    botId + ":" + clientOrderId + ":" + exchangeOrderId
  }

  /** The text whose hash is the fill id. */
  function Preimage(botId: string, clientOrderId: string, exchangeOrderId: string,
                    segment: Option<FillSegment>): string {
    var base := Base(botId, clientOrderId, exchangeOrderId);
    if segment.None? || IsWholeOrder(segment.value) then base
    else base + ":" + SegmentText(segment.value)
  }

  /** A segment's bounds, as hashed. */
  function SegmentText(s: FillSegment): string { Bound(s.from) + ['-'] + (">" + Bound(s.to)) }

  /** The segment keeps the per-order identity. */
  predicate PerOrder(segment: Option<FillSegment>) { segment.None? || IsWholeOrder(segment.value) }

  // ----- reading the text back -----

  predicate Free(s: string, c: char) { forall k :: 0 <= k < |s| ==> s[k] != c }

  function IndexOf(s: string, c: char): nat {
    if s == "" || s[0] == c then 0 else 1 + IndexOf(s[1..], c)
  }

  lemma {:induction false} IndexAfter(a: string, x: string, c: char)
    requires Free(a, c)
    ensures IndexOf(a + [c] + x, c) == |a|
  {
    if a != "" {
      IndexAfter(a[1..], x, c);
      assert (a + [c] + x)[1..] == a[1..] + [c] + x;
    }
  }

  /** A text up to its first separator, and what follows, are determined by the whole. */
  lemma SplitUnique(a: string, x: string, b: string, y: string, c: char)
    requires Free(a, c) && Free(b, c) && a + [c] + x == b + [c] + y
    ensures a == b && x == y
  {
    var s := a + [c] + x;
    IndexAfter(a, x, c);
    IndexAfter(b, y, c);
    assert a == s[..|a|] && b == s[..|b|] && x == s[|a| + 1..] && y == s[|b| + 1..];
  }

  lemma BoundIsPlain(units: nat)
    ensures Free(Bound(units), '-') && Free(Bound(units), ':')
  {}

  lemma BoundReads(a: nat, b: nat)
    requires Bound(a) == Bound(b)
    ensures a == b
  {
    FormatParses(a, 8);
    FormatParses(b, 8);
  }

  /** Bounds are read back from the segment's text. */
  lemma SegmentTextReads(s: FillSegment, t: FillSegment)
    requires SegmentText(s) == SegmentText(t)
    ensures s.from == t.from && s.to == t.to
  {
    BoundIsPlain(s.from);
    BoundIsPlain(t.from);
    SplitUnique(Bound(s.from), ">" + Bound(s.to), Bound(t.from), ">" + Bound(t.to), '-');
    assert (">" + Bound(s.to))[1..] == Bound(s.to) && (">" + Bound(t.to))[1..] == Bound(t.to);
    BoundReads(s.from, t.from);
    BoundReads(s.to, t.to);
  }

  /** What follows the two leading ids. */
  function Tail(exchangeOrderId: string, segment: Option<FillSegment>): string {
    if PerOrder(segment) then exchangeOrderId else exchangeOrderId + ":" + SegmentText(segment.value)
  }

  lemma PreimageParts(botId: string, clientOrderId: string, exchangeOrderId: string, segment: Option<FillSegment>)
    ensures Preimage(botId, clientOrderId, exchangeOrderId, segment)
         == botId + [':'] + (clientOrderId + [':'] + Tail(exchangeOrderId, segment))
  {}

  lemma TailReads(e: string, s: Option<FillSegment>, f: string, t: Option<FillSegment>)
    requires Free(e, ':') && Free(f, ':') && Tail(e, s) == Tail(f, t)
    ensures e == f && (PerOrder(s) <==> PerOrder(t))
    ensures !PerOrder(s) ==> s.value.from == t.value.from && s.value.to == t.value.to
  {
    if !PerOrder(s) {
      assert Tail(e, s)[|e|] == ':';
    }
    if !PerOrder(t) {
      assert Tail(f, t)[|f|] == ':';
    }
    if !PerOrder(s) && !PerOrder(t) {
      SplitUnique(e, SegmentText(s.value), f, SegmentText(t.value), ':');
      SegmentTextReads(s.value, t.value);
    }
  }

  /**
   * The hashed text determines the order and, unless the segment covers the whole order, its
   * bounds: with colon-free ids, two fills share it only when they are the same segment of the
   * same order, or both cover that whole order.
   */
  lemma PreimageReads(b: string, c: string, e: string, s: Option<FillSegment>, b': string, c': string, e': string,
                      t: Option<FillSegment>)
    requires Free(b, ':') && Free(c, ':') && Free(e, ':') && Free(b', ':') && Free(c', ':') && Free(e', ':')
    requires Preimage(b, c, e, s) == Preimage(b', c', e', t)
    ensures b == b' && c == c' && e == e' && (PerOrder(s) <==> PerOrder(t))
    ensures !PerOrder(s) ==> s.value.from == t.value.from && s.value.to == t.value.to
  {
    PreimageParts(b, c, e, s);
    PreimageParts(b', c', e', t);
    SplitUnique(b, c + [':'] + Tail(e, s), b', c' + [':'] + Tail(e', t), ':');
    SplitUnique(c, Tail(e, s), c', Tail(e', t), ':');
    TailReads(e, s, e', t);
  }

  /** More than dust: what booking a fill requires of its quantity before any id is made. */
  predicate MoreThanDust(s: FillSegment) { s.to - s.from > WHOLE_ORDER_EPSILON }

  /**
   * Two disjoint booked segments never share a fill id, whatever the orders, their sizes and their
   * venue ids: of two segments of more than dust only the first can reach back to its order's start.
   */
  lemma SegmentsHaveDistinctIds(b: string, c: string, e: string, s: FillSegment, b': string, c': string, e': string,
                                t: FillSegment)
    requires Free(b, ':') && Free(c, ':') && Free(e, ':') && Free(b', ':') && Free(c', ':') && Free(e', ':')
    requires MoreThanDust(s) && MoreThanDust(t) && s.to <= t.from
    ensures Preimage(b, c, e, Some(s)) != Preimage(b', c', e', Some(t))
  {
    if Preimage(b, c, e, Some(s)) == Preimage(b', c', e', Some(t)) {
      PreimageReads(b, c, e, Some(s), b', c', e', Some(t));
    }
  }

  /** The whole-order exception exactly, dust included: when two disjoint segments of one order hash the same text. */
  lemma CollidesExactly(b: string, c: string, e: string, s: FillSegment, t: FillSegment)
    requires Free(b, ':') && Free(c, ':') && Free(e, ':')
    requires s.full == t.full && s.from < s.to <= t.from < t.to
    ensures Preimage(b, c, e, Some(s)) == Preimage(b, c, e, Some(t)) <==>
      s.full > 0 && t.from <= WHOLE_ORDER_EPSILON && s.to >= s.full - WHOLE_ORDER_EPSILON
  {
    if Preimage(b, c, e, Some(s)) == Preimage(b, c, e, Some(t)) {
      PreimageReads(b, c, e, Some(s), b, c, e, Some(t));
    }
  }
}
