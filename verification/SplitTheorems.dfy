/** What the splitter promises: nothing lost between cuts, cuts in the right places, stable statements. */
module SplitTheorems {
  import opened Options
  import opened DecimalStrings
  import opened SplitStatements

  // ----- nothing is lost -----

  /** Pieces joined with semicolons. */
  function Join(ps: seq<string>): string
    requires ps != []
  {
    if |ps| == 1 then ps[0] else ps[0] + ";" + Join(ps[1..])
  }

  lemma JoinFirst(p: string, ps: seq<string>)
    requires ps != []
    ensures Join([p] + ps) == p + ";" + Join(ps)
  {
    assert ([p] + ps)[1..] == ps;
  }

  lemma Rejoin(a: string, s: string, i: nat, j: nat)
    requires i <= j <= |s|
    ensures (a + s[i..j]) + s[j..] == a + s[i..]
  {
    assert s[i..] == s[i..j] + s[j..];
  }

  lemma {:induction false} JoinFrom(s: string, i: nat, m: Mode, current: string)
    requires i <= |s| && ValidMode(m)
    ensures Join(Pieces(s, i, m, current)) == current + s[i..]
    decreases |s| - i
  {
    if i == |s| {
      assert s[i..] == "";
    } else {
      var t := Lex(s, i, m);
      if t.cut {
        CutStep(s, i, m, current);
        JoinFrom(s, i + 1, Plain, "");
        JoinFirst(current, Pieces(s, i + 1, Plain, ""));
        assert "" + s[i + 1..] == s[i + 1..];
        assert s[i..i + 1] == ";";
        Rejoin(current, s, i, i + 1);
      } else {
        GoStep(s, i, m, current);
        JoinFrom(s, i + t.size, t.mode, current + s[i..i + t.size]);
        Rejoin(current, s, i, i + t.size);
      }
    }
  }

  /** The untrimmed pieces, joined with semicolons, are the input, character for character. */
  lemma PiecesJoinToInput(s: string)
    ensures Join(Pieces(s, 0, Plain, "")) == s
  {
    JoinFrom(s, 0, Plain, "");
    assert s[0..] == s;
  }

  // ----- where it cuts -----

  /** The automaton's mode at position k, when k starts a token. */
  function ModeAt(s: string, i: nat, m: Mode, k: nat): Option<Mode>
    requires i <= |s| && ValidMode(m)
    decreases |s| - i
  {
    if k == i then Some(m)
    else if k < i || i == |s| then None
    else var t := Lex(s, i, m); ModeAt(s, i + t.size, t.mode, k)
  }

  /** Positions the splitter cuts at. */
  function Cuts(s: string, i: nat, m: Mode): seq<nat>
    requires i <= |s| && ValidMode(m)
    decreases |s| - i
  {
    if i == |s| then []
    else
      var t := Lex(s, i, m);
      (if t.cut then [i] else []) + Cuts(s, i + t.size, t.mode)
  }

  /** Strictly climbing positions in [start, end). */
  predicate Ascending(cuts: seq<nat>, start: nat, end: nat) {
    && (forall k :: 0 <= k < |cuts| ==> start <= cuts[k] < end)
    && (forall j, k :: 0 <= j < k < |cuts| ==> cuts[j] < cuts[k])
  }

  /** Slices between cuts. */
  function Slices(s: string, start: nat, cuts: seq<nat>): seq<string>
    requires start <= |s| && Ascending(cuts, start, |s|)
    decreases |cuts|
  {
    if cuts == [] then [s[start..]] else [s[start..cuts[0]]] + Slices(s, cuts[0] + 1, cuts[1..])
  }

  lemma CutsStep(s: string, i: nat, m: Mode)
    requires i < |s| && ValidMode(m)
    ensures var t := Lex(s, i, m);
      Cuts(s, i, m) == if t.cut then [i] + Cuts(s, i + 1, Plain) else Cuts(s, i + t.size, t.mode)
  {}

  lemma ModeStep(s: string, i: nat, m: Mode, k: nat)
    requires i < |s| && ValidMode(m)
    ensures var t := Lex(s, i, m);
      ModeAt(s, i, m, k) == if k == i then Some(m) else if k < i then None else ModeAt(s, i + t.size, t.mode, k)
  {}

  lemma MemberStep(cut: bool, i: nat, k: nat, cuts: seq<nat>, rest: seq<nat>)
    requires cuts == if cut then [i] + rest else rest
    ensures k in cuts <==> (cut && k == i) || k in rest
  {}

  lemma {:induction false} CutsAre(s: string, i: nat, m: Mode, k: nat, cuts: seq<nat>, mode: Option<Mode>)
    requires i <= |s| && ValidMode(m) && cuts == Cuts(s, i, m) && mode == ModeAt(s, i, m, k)
    ensures k in cuts <==> i <= k < |s| && s[k] == ';' && mode == Some(Plain)
    decreases |s| - i
  {
    hide Lex;
    if i < |s| {
      var t := Lex(s, i, m);
      var rest := Cuts(s, i + t.size, t.mode);
      CutsAre(s, i + t.size, t.mode, k, rest, ModeAt(s, i + t.size, t.mode, k));
      CutsStep(s, i, m);
      MemberStep(t.cut, i, k, cuts, rest);
      ModeStep(s, i, m, k);
    }
  }

  /**
   * Cuts are exactly the semicolons at which the automaton is outside every quote,
   * comment and dollar block.
   */
  lemma CutsExactly(s: string, k: nat)
    ensures k in Cuts(s, 0, Plain) <==> k < |s| && s[k] == ';' && ModeAt(s, 0, Plain, k) == Some(Plain)
  {
    CutsAre(s, 0, Plain, k, Cuts(s, 0, Plain), ModeAt(s, 0, Plain, k));
  }

  lemma {:induction false} CutsAscend(s: string, i: nat, m: Mode)
    requires i <= |s| && ValidMode(m)
    ensures Ascending(Cuts(s, i, m), i, |s|)
    decreases |s| - i
  {
    if i < |s| {
      var t := Lex(s, i, m);
      CutsAscend(s, i + t.size, t.mode);
    }
  }

  lemma SlicesStep(s: string, start: nat, cuts: seq<nat>, c: nat, rest: seq<nat>)
    requires start <= c < |s| && cuts == [c] + rest && Ascending(cuts, start, |s|) && Ascending(rest, c + 1, |s|)
    ensures Slices(s, start, cuts) == [s[start..c]] + Slices(s, c + 1, rest)
  {
    assert cuts[1..] == rest;
  }

  /** The slices the scan closes, by position. */
  function Scan(s: string, start: nat, i: nat, m: Mode): seq<string>
    requires start <= i <= |s| && ValidMode(m)
    decreases |s| - i
  {
    if i == |s| then [s[start..i]]
    else
      var t := Lex(s, i, m);
      if t.cut then [s[start..i]] + Scan(s, i + 1, i + 1, Plain) else Scan(s, start, i + t.size, t.mode)
  }

  lemma ScanStep(s: string, start: nat, i: nat, m: Mode)
    requires start <= i < |s| && ValidMode(m)
    ensures var t := Lex(s, i, m);
      Scan(s, start, i, m) == if t.cut then [s[start..i]] + Scan(s, i + 1, i + 1, Plain) else Scan(s, start, i + t.size, t.mode)
  {}

  lemma SameSlice(s: string, start: nat, i: nat, j: nat)
    requires start <= i <= j <= |s|
    ensures s[start..i] + s[i..j] == s[start..j]
  {}

  /** The accumulated piece is always the slice since the last cut. */
  lemma {:induction false} PiecesAreScanned(s: string, start: nat, i: nat, m: Mode, ps: seq<string>,
                                            slices: seq<string>)
    requires start <= i <= |s| && ValidMode(m) && ps == Pieces(s, i, m, s[start..i]) && slices == Scan(s, start, i, m)
    ensures ps == slices
    decreases |s| - i
  {
    hide Lex;
    if i < |s| {
      var t := Lex(s, i, m);
      ScanStep(s, start, i, m);
      if t.cut {
        CutStep(s, i, m, s[start..i]);
        assert s[i + 1..i + 1] == "";
        PiecesAreScanned(s, i + 1, i + 1, Plain, Pieces(s, i + 1, Plain, ""), Scan(s, i + 1, i + 1, Plain));
      } else {
        GoStep(s, i, m, s[start..i]);
        SameSlice(s, start, i, i + t.size);
        PiecesAreScanned(s, start, i + t.size, t.mode, ps, slices);
      }
    }
  }

  lemma PiecesAreScan(s: string)
    ensures Pieces(s, 0, Plain, "") == Scan(s, 0, 0, Plain)
  {
    assert s[0..0] == "";
    PiecesAreScanned(s, 0, 0, Plain, Pieces(s, 0, Plain, ""), Scan(s, 0, 0, Plain));
  }

  lemma AscendTail(cuts: seq<nat>, start: nat, end: nat, c: nat, rest: seq<nat>)
    requires Ascending(cuts, start, end) && cuts == [c] + rest
    ensures Ascending(rest, c + 1, end)
  {
    assert cuts[0] == c;
    forall k | 0 <= k < |rest| ensures c + 1 <= rest[k] < end {
      assert rest[k] == cuts[k + 1];
    }
    forall j, k | 0 <= j < k < |rest| ensures rest[j] < rest[k] {
      assert rest[j] == cuts[j + 1] && rest[k] == cuts[k + 1];
    }
  }

  lemma {:induction false} ScanIsSlices(s: string, start: nat, i: nat, m: Mode, ps: seq<string>, cuts: seq<nat>)
    requires start <= i <= |s| && ValidMode(m) && ps == Scan(s, start, i, m) && cuts == Cuts(s, i, m)
    requires Ascending(cuts, start, |s|)
    ensures ps == Slices(s, start, cuts)
    decreases |s| - i
  {
    hide Lex;
    if i == |s| {
      assert s[start..] == s[start..i];
    } else {
      var t := Lex(s, i, m);
      CutsStep(s, i, m);
      ScanStep(s, start, i, m);
      if t.cut {
        var rest, later := Cuts(s, i + 1, Plain), Scan(s, i + 1, i + 1, Plain);
        AscendTail(cuts, start, |s|, i, rest);
        ScanIsSlices(s, i + 1, i + 1, Plain, later, rest);
        SlicesStep(s, start, cuts, i, rest);
      } else {
        ScanIsSlices(s, start, i + t.size, t.mode, ps, cuts);
      }
    }
  }

  /** The pieces are the slices between consecutive cuts. */
  lemma PiecesAreSlices(s: string)
    ensures Ascending(Cuts(s, 0, Plain), 0, |s|) && Pieces(s, 0, Plain, "") == Slices(s, 0, Cuts(s, 0, Plain))
  {
    PiecesAreScan(s);
    CutsAscend(s, 0, Plain);
    ScanIsSlices(s, 0, 0, Plain, Scan(s, 0, 0, Plain), Cuts(s, 0, Plain));
  }

  // ----- statements are stable -----

  /** Characters no token of two or more characters can contain: white space and semicolons. */
  predicate Inert(c: char) { IsSpace(c) || c == ';' }

  lemma {:induction false} NameEndInSlice(s: string, a: nat, e: nat, i: nat)
    requires a <= i <= e <= |s| && (e < |s| ==> Inert(s[e]))
    ensures NameEnd(s, i) <= e && NameEnd(s[a..e], i - a) == NameEnd(s, i) - a
    decreases e - i
  {
    if i < e && IsNameChar(s[i]) {
      NameEndInSlice(s, a, e, i + 1);
    }
  }

  lemma SliceOfSlice(s: string, a: nat, e: nat, x: nat, y: nat)
    requires a <= x <= y <= e <= |s|
    ensures s[a..e][x - a..y - a] == s[x..y]
  {
    assert forall k :: 0 <= k < y - x ==> s[a..e][x - a..y - a][k] == s[x..y][k];
  }

  lemma TagInSlice(s: string, a: nat, e: nat, i: nat)
    requires a <= i < e <= |s| && (e < |s| ==> Inert(s[e])) && s[i] == '$'
    ensures TagAt(s[a..e], i - a) == TagAt(s, i)
    ensures TagAt(s, i).Some? ==> i + |TagAt(s, i).value| <= e
  {
    NameEndInSlice(s, a, e, i + 1);
    var k := NameEnd(s, i + 1);
    if k < e {
      assert s[a..e][k - a] == s[k];
      SliceOfSlice(s, a, e, i, k + 1);
    }
  }

  lemma PrefixInSlice(s: string, a: nat, e: nat, i: nat, tag: string)
    requires a <= i < e <= |s| && (e < |s| ==> Inert(s[e])) && IsTag(tag)
    ensures StartsWith(s[a..e], tag, i - a) == StartsWith(s, tag, i)
    ensures StartsWith(s, tag, i) ==> i + |tag| <= e
  {
    if StartsWith(s, tag, i) {
      assert forall k :: 0 <= k < |tag| ==> s[i + k] == s[i..i + |tag|][k] == tag[k];
    }
    if i + |tag| <= e {
      SliceOfSlice(s, a, e, i, i + |tag|);
    }
  }

  /** Before an inert boundary the automaton does the same on the slice as on the whole text. */
  lemma LexInSlice(s: string, a: nat, e: nat, i: nat, m: Mode)
    requires a <= i < e <= |s| && (e < |s| ==> Inert(s[e])) && ValidMode(m)
    ensures Lex(s[a..e], i - a, m) == Lex(s, i, m)
    ensures i + Lex(s, i, m).size <= e
  {
    assert s[a..e][i - a] == s[i];
    if i + 1 < e { assert s[a..e][i + 1 - a] == s[i + 1]; }
    if m.Dollar? {
      PrefixInSlice(s, a, e, i, m.tag);
    }
    if s[i] == '$' {
      TagInSlice(s, a, e, i);
    }
  }

  /** From (i, m) the automaton reaches position b without cutting. */
  ghost predicate Uncut(s: string, i: nat, m: Mode, b: nat)
    requires i <= |s| && ValidMode(m)
    decreases |s| - i
  {
    i == b || (i < b <= |s| && !Lex(s, i, m).cut && Uncut(s, i + Lex(s, i, m).size, Lex(s, i, m).mode, b))
  }

  lemma UncutStep(s: string, i: nat, m: Mode, b: nat)
    requires i < b <= |s| && ValidMode(m) && Uncut(s, i, m, b)
    ensures !Lex(s, i, m).cut && Uncut(s, i + Lex(s, i, m).size, Lex(s, i, m).mode, b)
  {}

  lemma ScanEnd(w: string, m: Mode)
    requires ValidMode(m)
    ensures Scan(w, 0, |w|, m) == [w]
  {
    assert w[0..|w|] == w;
  }

  /** An uncut stretch up to an inert boundary is a single piece on its own. */
  lemma {:induction false} SliceIsOnePiece(s: string, a: nat, e: nat, b: nat, i: nat, m: Mode, ps: seq<string>)
    requires a <= i <= e <= b <= |s| && (e < |s| ==> Inert(s[e]))
    requires ValidMode(m) && Uncut(s, i, m, b) && ps == Scan(s[a..e], 0, i - a, m)
    ensures ps == [s[a..e]]
    decreases e - i
  {
    hide Lex;
    if i == e {
      ScanEnd(s[a..e], m);
    } else {
      UncutStep(s, i, m, b);
      LexInSlice(s, a, e, i, m);
      ScanStep(s[a..e], 0, i - a, m);
      var t := Lex(s, i, m);
      SliceIsOnePiece(s, a, e, b, i + t.size, t.mode, ps);
    }
  }

  /** Leading white space leaves the automaton where it was. */
  lemma {:induction false} SkipSpaces(s: string, i: nat, a: nat, b: nat)
    requires i <= a <= b <= |s| && Uncut(s, i, Plain, b) && forall k :: i <= k < a ==> IsSpace(s[k])
    ensures Uncut(s, a, Plain, b)
    decreases a - i
  {
    if i < a {
      assert Lex(s, i, Plain) == Token(1, Plain, false);
      SkipSpaces(s, i + 1, a, b);
    }
  }

  lemma {:induction false} TrimStartIsSlice(s: string) returns (k: nat)
    ensures k <= |s| && TrimStart(s) == s[k..] && forall j :: 0 <= j < k ==> IsSpace(s[j])
  {
    if s != "" && IsSpace(s[0]) {
      k := TrimStartIsSlice(s[1..]);
      k := k + 1;
    } else {
      k := 0;
    }
  }

  lemma {:induction false} TrimEndIsSlice(s: string)
    ensures forall j :: |TrimEnd(s)| <= j < |s| ==> IsSpace(s[j])
  {
    if s != "" && IsSpace(s[|s| - 1]) {
      TrimEndIsSlice(s[..|s| - 1]);
    }
  }

  /** Trimming a slice is taking a smaller slice between white space. */
  lemma TrimOfSlice(s: string, a: nat, b: nat) returns (a': nat, e: nat)
    requires a <= b <= |s|
    ensures a <= a' <= e <= b && Trim(s[a..b]) == s[a'..e]
    ensures forall k :: a <= k < a' || e <= k < b ==> IsSpace(s[k])
  {
    var p := s[a..b];
    var k := TrimStartIsSlice(p);
    TrimEndIsSlice(p[k..]);
    a' := a + k;
    e := a' + |TrimEnd(p[k..])|;
    assert p[k..] == s[a'..b];
    assert forall j :: a' <= j < b ==> s[j] == p[k..][j - a'];
    assert forall j :: a <= j < a' ==> s[j] == p[j - a];
  }

  /** A text that, once trimmed, splits into itself. */
  ghost predicate Stable(p: string) { Pieces(Trim(p), 0, Plain, "") == [Trim(p)] }

  /** A trimmed piece, split again, is itself. */
  lemma PieceIsStable(s: string, a: nat, b: nat)
    requires a <= b <= |s| && Uncut(s, a, Plain, b) && (b < |s| ==> s[b] == ';')
    ensures Stable(s[a..b])
  {
    var a', e := TrimOfSlice(s, a, b);
    SkipSpaces(s, a, a', b);
    SliceIsOnePiece(s, a', e, b, a', Plain, Scan(s[a'..e], 0, 0, Plain));
    PiecesAreScan(s[a'..e]);
  }

  /** One more token of an uncut run. */
  lemma {:induction false} Advance(s: string, i: nat, m: Mode, j: nat, n: Mode)
    requires i <= j < |s| && ValidMode(m) && ValidMode(n)
    requires Uncut(s, i, m, j) && ModeAt(s, i, m, j) == Some(n) && !Lex(s, j, n).cut
    ensures Uncut(s, i, m, j + Lex(s, j, n).size)
    ensures ModeAt(s, i, m, j + Lex(s, j, n).size) == Some(Lex(s, j, n).mode)
    decreases |s| - i
  {
    if i < j {
      var t := Lex(s, i, m);
      Advance(s, i + t.size, t.mode, j, n);
    }
  }

  /** Every piece of the scan is stable. */
  lemma {:induction false} ScannedAreStable(s: string, start: nat, i: nat, m: Mode, ps: seq<string>)
    requires start <= i <= |s| && ValidMode(m) && Uncut(s, start, Plain, i) && ModeAt(s, start, Plain, i) == Some(m)
    requires ps == Scan(s, start, i, m)
    ensures forall k :: 0 <= k < |ps| ==> Stable(ps[k])
    decreases |s| - i
  {
    hide Lex;
    if i == |s| {
      PieceIsStable(s, start, i);
    } else {
      var t := Lex(s, i, m);
      ScanStep(s, start, i, m);
      if t.cut {
        PieceIsStable(s, start, i);
        ScannedAreStable(s, i + 1, i + 1, Plain, Scan(s, i + 1, i + 1, Plain));
      } else {
        Advance(s, start, Plain, i, m);
        ScannedAreStable(s, start, i + t.size, t.mode, ps);
      }
    }
  }

  lemma {:induction false} TrimmedAreFromPieces(ps: seq<string>)
    ensures forall t :: t in Trimmed(ps) ==> t != "" && exists p :: p in ps && t == Trim(p)
  {
    if ps != [] {
      TrimmedAreFromPieces(ps[..|ps| - 1]);
    }
  }

  lemma {:induction false} KeptAreFromStatements(ts: seq<string>)
    ensures forall t :: t in Kept(ts) ==> t in ts && !CommentOnly(t)
  {
    if ts != [] {
      KeptAreFromStatements(ts[..|ts| - 1]);
    }
  }

  /** Splitting any returned statement again yields exactly that statement. */
  lemma StatementsAreStable(s: string, t: string)
    requires t in Statements(s)
    ensures Statements(t) == [t]
  {
    PiecesAreScan(s);
    ScannedAreStable(s, 0, 0, Plain, Scan(s, 0, 0, Plain));
    var ps := Pieces(s, 0, Plain, "");
    TrimmedAreFromPieces(ps);
    KeptAreFromStatements(Trimmed(ps));
    var p :| p in ps && t == Trim(p);
    TrimTwice(p);
    SingleStatement(t);
  }

  lemma TrimTwice(p: string)
    ensures Trim(Trim(p)) == Trim(p)
  {
    var a, e := TrimOfSlice(p, 0, |p|);
    assert p[0..|p|] == p;
    if Trim(p) != "" {
      TrimEnds(p);
      TrimKeeps(Trim(p));
    }
  }

  lemma TrimEnds(p: string)
    requires Trim(p) != ""
    ensures !IsSpace(Trim(p)[0]) && !IsSpace(Trim(p)[|Trim(p)| - 1])
  {
    assert Trim(p)[0] == TrimStart(p)[0];
  }

  lemma SingleStatement(t: string)
    requires Pieces(t, 0, Plain, "") == [t] && Trim(t) == t && t != "" && !CommentOnly(t)
    ensures Statements(t) == [t]
  {
    assert [t][..0] == [];
    assert Trimmed([t]) == [t];
    assert Kept([t]) == [t];
  }
}
