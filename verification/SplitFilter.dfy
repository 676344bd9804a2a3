/**
 * What the splitter's last filter drops. It is meant to drop statements that are pure
 * comments and white space; its pattern lets one block comment stretch to any later
 * closing mark, so code between two block comments goes with them.
 */
module SplitFilter {
  import opened Options
  import opened DecimalStrings
  import opened SplitStatements

  // ----- the pattern, without the stretching -----

  /** White space or (part of) a line comment. */
  predicate LightUnit(s: string) {
    || (|s| == 1 && IsSpace(s[0]))
    || (|s| >= 2 && s[..2] == "--" && forall k :: 2 <= k < |s| ==> s[k] != '\n')
  }

  predicate Light(s: string)
    decreases |s|
  {
    s == "" || exists k :: 0 < k <= |s| && LightUnit(s[..k]) && Light(s[k..])
  }

  /** One stretch from an opening mark to a later closing mark, white space and line comments around it. */
  predicate Stretch(s: string, p: nat, q: nat) {
    p + 4 <= q <= |s| && Light(s[..p]) && s[p..p + 2] == "/*" && s[q - 2..q] == "*/" && Light(s[q..])
  }

  lemma LightCons(u: string, rest: string)
    requires LightUnit(u) && Light(rest)
    ensures Light(u + rest)
  {
    assert (u + rest)[..|u|] == u && (u + rest)[|u|..] == rest;
  }

  lemma CommentCons(u: string, rest: string)
    requires Unit(u) && CommentOnly(rest)
    ensures CommentOnly(u + rest)
  {
    assert (u + rest)[..|u|] == u && (u + rest)[|u|..] == rest;
  }

  lemma DropDrop(s: string, k: nat, p: nat)
    requires k + p <= |s|
    ensures s[k..][p..] == s[k + p..] && s[k..][..p] == s[k..k + p]
  {}

  lemma DropTake(s: string, p: nat, k: nat)
    requires k <= p <= |s|
    ensures s[..p][..k] == s[..k] && s[..p][k..] == s[k..p]
  {}

  /** White space and line comments in front change nothing. */
  lemma {:induction false} LightThenComment(s: string, p: nat)
    requires p <= |s| && Light(s[..p]) && CommentOnly(s[p..])
    ensures CommentOnly(s)
    decreases p
  {
    if p == 0 {
      assert s[0..] == s;
    } else {
      var k :| 0 < k <= |s[..p]| && LightUnit(s[..p][..k]) && Light(s[..p][k..]);
      DropTake(s, p, k);
      DropDrop(s, k, p - k);
      LightThenComment(s[k..], p - k);
    }
  }

  lemma LightIsComment(x: string)
    requires Light(x)
    ensures CommentOnly(x)
  {
    assert x[..|x|] == x && x[|x|..] == "";
    LightThenComment(x, |x|);
  }

  lemma BlockIsUnit(s: string, p: nat, q: nat)
    requires Stretch(s, p, q)
    ensures Unit(s[p..q]) && s[p..q] != "" && s[p..] == s[p..q] + s[q..]
  {
    assert s[p..q][..2] == s[p..p + 2] && s[p..q][q - p - 2..] == s[q - 2..q];
  }

  lemma StretchIsComment(s: string, p: nat, q: nat)
    requires Stretch(s, p, q)
    ensures CommentOnly(s)
  {
    LightIsComment(s[q..]);
    BlockIsUnit(s, p, q);
    CommentCons(s[p..q], s[q..]);
    LightThenComment(s, p);
  }

  lemma SliceAfter(s: string, k: nat, x: nat, y: nat)
    requires x <= y && k + y <= |s|
    ensures s[k..][x..y] == s[k + x..k + y]
  {
    assert forall j :: 0 <= j < y - x ==> s[k..][x..y][j] == s[k + x..k + y][j];
  }

  /** A stretch after a light unit is a stretch of the whole. */
  lemma ShiftStretch(s: string, k: nat, p: nat, q: nat)
    requires 0 < k <= |s| && LightUnit(s[..k]) && Stretch(s[k..], p, q)
    ensures Stretch(s, k + p, k + q)
  {
    var rest := s[k..];
    LightCons(s[..k], rest[..p]);
    assert s[..k] + rest[..p] == s[..k + p];
    SliceAfter(s, k, p, p + 2);
    SliceAfter(s, k, q - 2, q);
    DropDrop(s, k, q);
  }

  /** A stretch after a block unit is one longer stretch. */
  lemma MergeStretch(s: string, k: nat, p: nat, q: nat)
    requires 4 <= k <= |s| && s[..2] == "/*" && Stretch(s[k..], p, q)
    ensures Stretch(s, 0, k + q)
  {
    var rest := s[k..];
    assert s[..0] == "" && s[0..2] == s[..2];
    SliceAfter(s, k, q - 2, q);
    DropDrop(s, k, q);
  }

  lemma {:induction false} CommentHasForm(s: string)
    requires CommentOnly(s)
    ensures Light(s) || exists p, q :: Stretch(s, p, q)
    decreases |s|
  {
    if s != "" {
      var k :| 0 < k <= |s| && Unit(s[..k]) && CommentOnly(s[k..]);
      CommentHasForm(s[k..]);
      FirstUnit(s, k);
    }
  }

  lemma FirstUnit(s: string, k: nat)
    requires 0 < k <= |s| && Unit(s[..k])
    requires Light(s[k..]) || exists p, q :: Stretch(s[k..], p, q)
    ensures Light(s) || exists p, q :: Stretch(s, p, q)
  {
    if LightUnit(s[..k]) {
      if Light(s[k..]) {
        LightCons(s[..k], s[k..]);
        assert s == s[..k] + s[k..];
      } else {
        var p, q :| Stretch(s[k..], p, q);
        ShiftStretch(s, k, p, q);
      }
    } else {
      assert s[..k][..2] == s[..2] && s[..k][k - 2..] == s[k - 2..k];
      if Light(s[k..]) {
        assert s[..0] == "" && s[0..2] == s[..2];
        assert Stretch(s, 0, k);
      } else {
        var p, q :| Stretch(s[k..], p, q);
        MergeStretch(s, k, p, q);
      }
    }
  }

  /**
   * Exactly what is dropped: white space and line comments alone, or those around one stretch
   * that runs from an opening mark to some later closing mark, whatever lies between.
   */
  lemma FilterDropsExactly(s: string)
    ensures CommentOnly(s) <==> Light(s) || exists p, q :: Stretch(s, p, q)
  {
    if CommentOnly(s) {
      CommentHasForm(s);
    } else if Light(s) {
      LightIsComment(s);
    } else if exists p, q :: Stretch(s, p, q) {
      var p, q :| Stretch(s, p, q);
      StretchIsComment(s, p, q);
    }
  }

  /** Whatever stands between two block comments is dropped with them. */
  lemma CodeBetweenBlocksIsDropped(code: string)
    ensures CommentOnly("/**/" + code + "/**/")
  {
    var s := "/**/" + code + "/**/";
    assert s[..0] == "" && s[|s|..] == "" && s[0..2] == "/*" && s[|s| - 2..|s|] == "*/";
    StretchIsComment(s, 0, |s|);
  }

  // ----- against the automaton -----

  /** The automaton from (i, m) meets only comments and white space. */
  predicate CodeFree(s: string, i: nat, m: Mode)
    requires i <= |s| && ValidMode(m)
    decreases |s| - i
  {
    i == |s| ||
    (var t := Lex(s, i, m);
     && (m.LineComment? || m.BlockComment? || (m.Plain? && (t.mode.LineComment? || t.mode.BlockComment? || IsSpace(s[i]))))
     && CodeFree(s, i + t.size, t.mode))
  }

  /** Where the automaton first enters a block comment from (i, m). */
  function FirstBlock(s: string, i: nat, m: Mode): (p: Option<nat>)
    requires i <= |s| && ValidMode(m)
    ensures p.Some? ==> i <= p.value && Pair(s, p.value, '/', '*')
    decreases |s| - i
  {
    if i == |s| then None
    else if m.Plain? && Lex(s, i, m).mode.BlockComment? then Some(i)
    else FirstBlock(s, i + Lex(s, i, m).size, Lex(s, i, m).mode)
  }

  /** The mode the text ends in. */
  function EndMode(s: string, i: nat, m: Mode): Mode
    requires i <= |s| && ValidMode(m)
    decreases |s| - i
  {
    if i == |s| then m else EndMode(s, i + Lex(s, i, m).size, Lex(s, i, m).mode)
  }

  /** The text ends inside a block comment. */
  predicate OpenAtEnd(s: string) { EndMode(s, 0, Plain).BlockComment? }

  /** The only block comment is the three characters of an opening and a closing mark that share a star. */
  predicate OnlyShort(s: string, i: nat)
    requires i <= |s|
  {
    var p := FirstBlock(s, i, Plain);
    p.Some? && Pair(s, p.value + 1, '*', '/') && FirstBlock(s, p.value + 3, Plain).None?
  }

  ghost predicate HasStretch(s: string) { exists p: nat, q: nat :: Stretch(s, p, q) }

  /** A light unit at a position: one space, or dashes up to before the line's end. */
  lemma LightUnitAt(s: string, k: nat, n: nat)
    requires k < |s| && 0 < n <= |s[k..]| && LightUnit(s[k..][..n])
    ensures k + n <= |s| && s[k..][n..] == s[k + n..]
    ensures (n == 1 && IsSpace(s[k])) || (n >= 2 && Pair(s, k, '-', '-') && forall j :: k <= j < k + n ==> s[j] != '\n')
  {
    var u := s[k..][..n];
    assert forall j :: 0 <= j < n ==> u[j] == s[k + j];
    if |u| >= 2 {
      assert u[..2][0] == s[k] && u[..2][1] == s[k + 1];
      forall j | k <= j < k + n ensures s[j] != '\n' {
        assert u[j - k] == s[j];
      }
    }
  }

  /** The automaton meets neither code nor a block comment from (i, m) on. */
  predicate Quiet(s: string, i: nat, m: Mode)
    requires i <= |s| && ValidMode(m)
  {
    CodeFree(s, i, m) && FirstBlock(s, i, m).None? && !EndMode(s, i, m).BlockComment?
  }

  lemma QuietEnd(s: string)
    ensures Quiet(s, |s|, Plain) && Quiet(s, |s|, LineComment)
  {}

  lemma QuietInLine(s: string, i: nat)
    requires i < |s| && Quiet(s, i + 1, if s[i] == '\n' then Plain else LineComment)
    ensures Quiet(s, i, LineComment)
  {
    assert Lex(s, i, LineComment) == Token(1, if s[i] == '\n' then Plain else LineComment, false);
  }

  /** One space, or the first dash of a line comment. */
  lemma QuietStep(s: string, i: nat)
    requires i < |s|
    requires if Pair(s, i, '-', '-') then Quiet(s, i + 1, LineComment) else IsSpace(s[i]) && Quiet(s, i + 1, Plain)
    ensures Quiet(s, i, Plain)
  {
    assert Lex(s, i, Plain) == Token(1, if Pair(s, i, '-', '-') then LineComment else Plain, false);
  }

  /** The first unit of light text. */
  lemma FirstLight(s: string, i: nat) returns (n: nat)
    requires i < |s| && Light(s[i..])
    ensures 0 < n && i + n <= |s| && Light(s[i + n..])
    ensures (n == 1 && IsSpace(s[i])) || (n >= 2 && Pair(s, i, '-', '-') && forall j :: i <= j < i + n ==> s[j] != '\n')
  {
    n :| 0 < n <= |s[i..]| && LightUnit(s[i..][..n]) && Light(s[i..][n..]);
    LightUnitAt(s, i, n);
  }

  /** Inside a line comment, up to a position from which the text is light. */
  lemma {:induction false} LightInLine(s: string, i: nat, k: nat)
    requires i <= k <= |s| && Light(s[k..]) && forall j :: i <= j < k ==> s[j] != '\n'
    ensures Quiet(s, i, LineComment)
    decreases |s| - i, k == i
  {
    hide Light, Quiet;
    if i < k {
      LightInLine(s, i + 1, k);
      QuietInLine(s, i);
    } else if k < |s| {
      var n := FirstLight(s, k);
      if s[k] == '\n' {
        LightIsFree(s, k + 1);
        QuietInLine(s, k);
      } else {
        LightInLine(s, i, k + n);
      }
    } else {
      QuietEnd(s);
    }
  }

  /** In light text the automaton meets neither code nor a block comment. */
  lemma {:induction false} LightIsFree(s: string, i: nat)
    requires i <= |s| && Light(s[i..])
    ensures Quiet(s, i, Plain)
    decreases |s| - i, 2
  {
    hide Light, Quiet;
    if i < |s| {
      var n := FirstLight(s, i);
      if n == 1 && IsSpace(s[i]) {
        LightIsFree(s, i + 1);
      } else {
        LightInLine(s, i + 1, i + n);
      }
      QuietStep(s, i);
    } else {
      QuietEnd(s);
    }
  }

  /** A closing mark in code-free text leaves the automaton outside blocks, and light text after it keeps it there. */
  lemma {:induction false} LightAfterClose(s: string, i: nat, m: Mode, x: nat)
    requires i <= x && Pair(s, x, '*', '/') && Light(s[x + 2..])
    requires m.Plain? || m.LineComment? || m.BlockComment?
    requires CodeFree(s, i, m)
    ensures !EndMode(s, i, m).BlockComment?
    decreases |s| - i
  {
    if i < x {
      var t := Lex(s, i, m);
      assert t.size == 1 || (m.BlockComment? && Pair(s, i, '*', '/'));
      LightAfterClose(s, i + t.size, t.mode, x);
    } else if m.LineComment? {
      LightInLine(s, x + 2, x + 2);
      assert EndMode(s, x, m) == EndMode(s, x + 1, m) == EndMode(s, x + 2, m);
    } else {
      LightIsFree(s, x + 2);
    }
  }

  /** Code-free text that ends inside a block comment is kept. */
  lemma OpenIsKept(s: string)
    requires CodeFree(s, 0, Plain) && OpenAtEnd(s)
    ensures !CommentOnly(s)
  {
    FilterDropsExactly(s);
    assert s[0..] == s;
    if Light(s) {
      LightIsFree(s, 0);
    } else if HasStretch(s) {
      var p: nat, q: nat :| Stretch(s, p, q);
      assert s[q - 2..q][0] == s[q - 2] && s[q - 2..q][1] == s[q - 1];
      LightAfterClose(s, 0, Plain, q - 2);
    }
  }

  /** Where the line comment that covers position i ends. */
  lemma {:induction false} LineEnds(s: string, i: nat) returns (k: nat)
    requires i <= |s| && CodeFree(s, i, LineComment)
    ensures i <= k <= |s| && (forall j :: i <= j < k ==> s[j] != '\n')
    ensures k == |s| ==> FirstBlock(s, i, LineComment).None?
    ensures k < |s| ==>
      && s[k] == '\n' && CodeFree(s, k + 1, Plain)
      && FirstBlock(s, i, LineComment) == FirstBlock(s, k + 1, Plain) && EndMode(s, i, LineComment) == EndMode(s, k + 1, Plain)
    decreases |s| - i
  {
    if i == |s| || s[i] == '\n' {
      k := i;
    } else {
      k := LineEnds(s, i + 1);
    }
  }

  /** Where the block comment that covers position i ends, if it does. */
  lemma {:induction false} BlockEnds(s: string, i: nat) returns (e: nat)
    requires i <= |s| && CodeFree(s, i, BlockComment) && !EndMode(s, i, BlockComment).BlockComment?
    ensures i + 2 <= e <= |s| && Pair(s, e - 2, '*', '/')
    ensures CodeFree(s, e, Plain) && EndMode(s, e, Plain) == EndMode(s, i, BlockComment)
    decreases |s| - i
  {
    if Pair(s, i, '*', '/') {
      e := i + 2;
    } else {
      e := BlockEnds(s, i + 1);
    }
  }

  /** Light text up to p, an opening mark there, and a closing mark before e with light text after it. */
  predicate Spans(s: string, i: nat, p: nat, e: nat) {
    && i <= p && p + 3 <= e <= |s| && Pair(s, p, '/', '*') && Pair(s, e - 2, '*', '/')
    && Light(s[i..p]) && Light(s[e..])
  }

  lemma {:induction false} LightAppend(u: string, rest: string)
    requires Light(u) && Light(rest)
    ensures Light(u + rest)
    decreases |u|
  {
    if u == "" {
      assert u + rest == rest;
    } else {
      var k :| 0 < k <= |u| && LightUnit(u[..k]) && Light(u[k..]);
      hide Light, LightUnit;
      LightAppend(u[k..], rest);
      LightCons(u[..k], u[k..] + rest);
      AppendParts(u, k, rest);
    }
  }

  lemma AppendParts(u: string, k: nat, rest: string)
    requires k <= |u|
    ensures u[..k] + (u[k..] + rest) == u + rest
  {}

  /** A line comment, with or without its line's end, is light. */
  lemma LineIsLight(s: string, i: nat, k: nat)
    requires Pair(s, i, '-', '-') && i + 2 <= k <= |s| && (forall j :: i <= j < k ==> s[j] != '\n')
    ensures Light(s[i..k]) && (k < |s| && s[k] == '\n' ==> Light(s[i..k + 1]))
  {
    var u := s[i..k];
    assert LightUnit(u) by {
      assert u[..2] == "--";
    }
    hide LightUnit;
    LightCons(u, "");
    assert u + "" == u;
    if k < |s| && s[k] == '\n' {
      SpaceIsLight('\n');
      LightAppend(u, "\n");
      assert u + "\n" == s[i..k + 1];
    }
  }

  lemma SpaceIsLight(c: char)
    requires IsSpace(c)
    ensures Light([c])
  {
    LightCons([c], "");
    assert [c] + "" == [c];
  }

  /** The form of code-free text: light text, or a span, a short one only if there is no other block. */
  predicate FormOf(s: string, i: nat, e: nat)
    requires i <= |s|
  {
    match FirstBlock(s, i, Plain)
    case None => Light(s[i..])
    case Some(p) => Spans(s, i, p, e) && (e < p + 4 ==> OnlyShort(s, i))
  }

  /** The form of what follows light text is the form of the whole. */
  lemma FormEarlier(s: string, i: nat, k: nat, e: nat)
    requires i <= k <= |s| && Light(s[i..k]) && FormOf(s, k, e)
    requires FirstBlock(s, i, Plain) == FirstBlock(s, k, Plain)
    ensures FormOf(s, i, e)
  {
    hide Light, FirstBlock;
    match FirstBlock(s, k, Plain)
    case None =>
      LightAppend(s[i..k], s[k..]);
      assert s[i..] == s[i..k] + s[k..];
    case Some(p) =>
      LightAppend(s[i..k], s[k..p]);
      assert s[i..p] == s[i..k] + s[k..p];
  }

  /** A block comment in front of a form. */
  lemma BlockForm(s: string, i: nat, end: nat, e: nat)
    requires Pair(s, i, '/', '*') && i + 3 <= end <= |s| && Pair(s, end - 2, '*', '/') && FormOf(s, end, e)
    ensures FormOf(s, i, if FirstBlock(s, end, Plain).None? then end else e)
  {
    assert FirstBlock(s, i, Plain) == Some(i);
    hide Light, FirstBlock;
    EmptyIsLight();
    assert s[i..i] == "";
  }

  lemma EmptyIsLight()
    ensures Light("")
  {}

  /** Where the light text in front of position i goes on: past a line comment, or past a space. */
  lemma LightForm(s: string, i: nat) returns (k: nat)
    requires i < |s| && CodeFree(s, i, Plain) && !Pair(s, i, '/', '*')
    ensures i < k <= |s| && Light(s[i..k]) && CodeFree(s, k, Plain)
    ensures FirstBlock(s, i, Plain) == FirstBlock(s, k, Plain)
    ensures k < |s| ==> EndMode(s, i, Plain) == EndMode(s, k, Plain)
  {
    if Pair(s, i, '-', '-') {
      k := LineEnds(s, i + 1);
      LineIsLight(s, i, k);
      if k < |s| {
        k := k + 1;
      }
    } else {
      k := i + 1;
      SpaceIsLight(s[i]);
      assert s[i..i + 1] == [s[i]];
    }
  }

  /** Code-free text that ends outside blocks: light, or one span from its first block comment to its last. */
  lemma {:induction false} FreeForm(s: string, i: nat) returns (e: nat)
    requires i <= |s| && CodeFree(s, i, Plain) && !EndMode(s, i, Plain).BlockComment?
    ensures FormOf(s, i, e)
    decreases |s| - i
  {
    e := |s|;
    if i == |s| {
      EmptyIsLight();
    } else if Pair(s, i, '/', '*') {
      var end := BlockEnds(s, i + 1);
      hide FormOf, CodeFree, EndMode, FirstBlock;
      e := FreeForm(s, end);
      BlockForm(s, i, end, e);
      e := if FirstBlock(s, end, Plain).None? then end else e;
    } else {
      var k := LightForm(s, i);
      assert k == |s| ==> !EndMode(s, k, Plain).BlockComment?;
      hide FormOf, CodeFree, EndMode, FirstBlock, Light;
      e := FreeForm(s, k);
      FormEarlier(s, i, k, e);
    }
  }

  /**
   * Code-free text that ends outside blocks is dropped, unless its only block comment is too short for
   * the pattern.
   */
  lemma FreeIsDropped(s: string)
    requires CodeFree(s, 0, Plain) && !OpenAtEnd(s) && !OnlyShort(s, 0)
    ensures CommentOnly(s)
  {
    var e := FreeForm(s, 0);
    hide CommentOnly, Light, EndMode, CodeFree, FirstBlock;
    FilterDropsExactly(s);
    match FirstBlock(s, 0, Plain)
    case None => assert s[0..] == s;
    case Some(p) =>
      SpanIsStretch(s, p, e);
  }

  lemma SpanIsStretch(s: string, p: nat, e: nat)
    requires Spans(s, 0, p, e) && e >= p + 4
    ensures Stretch(s, p, e)
  {
    hide Light;
    assert s[0..p] == s[..p] && s[p..p + 2] == "/*" && s[e - 2..e] == "*/";
  }

  /**
   * The filter against the automaton, on every text. Text without code is dropped exactly when it
   * ends outside a block comment and, if its only block comment is the short one, has a stretch all
   * the same; text with code is dropped exactly when it has a stretch.
   */
  lemma FilterAgainstAutomaton(s: string)
    ensures CommentOnly(s) <==>
      if CodeFree(s, 0, Plain) then !OpenAtEnd(s) && (OnlyShort(s, 0) ==> HasStretch(s)) else HasStretch(s)
  {
    FilterDropsExactly(s);
    assert s[0..] == s;
    if Light(s) {
      LightIsFree(s, 0);
    }
    if CodeFree(s, 0, Plain) && OpenAtEnd(s) {
      OpenIsKept(s);
    } else if CodeFree(s, 0, Plain) && !OnlyShort(s, 0) {
      FreeIsDropped(s);
    }
  }

  ghost predicate NoBlocks(s: string) { forall k :: !Pair(s, k, '/', '*') }

  /** Without an opening mark the automaton never enters a block comment. */
  lemma {:induction false} NeverInBlock(s: string, i: nat, m: Mode)
    requires NoBlocks(s) && i <= |s| && ValidMode(m) && !m.BlockComment?
    ensures !EndMode(s, i, m).BlockComment?
    decreases |s| - i
  {
    if i < |s| {
      NeverInBlock(s, i + Lex(s, i, m).size, Lex(s, i, m).mode);
    }
  }

  /**
   * Without an opening mark of a block comment the filter drops exactly the texts in which the automaton
   * meets no code.
   */
  lemma FilterIsExactWithoutBlocks(s: string)
    requires NoBlocks(s)
    ensures CommentOnly(s) <==> CodeFree(s, 0, Plain)
  {
    FilterAgainstAutomaton(s);
    NeverInBlock(s, 0, Plain);
    if HasStretch(s) {
      var p: nat, q: nat :| Stretch(s, p, q);
      assert s[p..p + 2][0] == s[p] && s[p..p + 2][1] == s[p + 1];
      assert Pair(s, p, '/', '*');
    }
  }

  /** The short block comment alone: no code to the splitter, no comment to the filter. */
  lemma ShortIsKept()
    ensures CodeFree("/*/", 0, Plain) && OnlyShort("/*/", 0) && !CommentOnly("/*/")
  {
    var s := "/*/";
    FilterAgainstAutomaton(s);
    assert Pair(s, 0, '/', '*') && Pair(s, 1, '*', '/');
    assert CodeFree(s, 3, Plain) && FirstBlock(s, 3, Plain).None?;
    assert CodeFree(s, 1, BlockComment);
  }
}
