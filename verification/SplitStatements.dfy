/**
 * The migration runner's statement splitter: a hand-written lexer over four flags and a
 * dollar tag, proved against a six-state automaton.
 */
module SplitStatements {
  import opened Options
  import opened DecimalStrings

  // ----- the automaton -----

  datatype Mode = Plain | SingleQuoted | DoubleQuoted | LineComment | BlockComment | Dollar(tag: string)

  /** What the automaton takes at one position: how many characters, the mode after them, and whether they cut. */
  datatype Token = Token(size: nat, mode: Mode, cut: bool)

  predicate IsNameChar(c: char) { 'A' <= c <= 'Z' || 'a' <= c <= 'z' || c == '_' }

  /** A dollar tag: `$name$`, the name possibly empty, digits not allowed. */
  predicate IsTag(tag: string) {
    && |tag| >= 2 && tag[0] == '$' && tag[|tag| - 1] == '$'
    && forall k :: 0 < k < |tag| - 1 ==> IsNameChar(tag[k])
  }

  predicate ValidMode(m: Mode) { m.Dollar? ==> IsTag(m.tag) }

  function NameEnd(s: string, i: nat): (e: nat)
    requires i <= |s|
    ensures i <= e <= |s| && (forall k :: i <= k < e ==> IsNameChar(s[k])) && (e < |s| ==> !IsNameChar(s[e]))
    decreases |s| - i
  {
    if i < |s| && IsNameChar(s[i]) then NameEnd(s, i + 1) else i
  }

  /** The dollar tag that opens at position i, if any. */
  function TagAt(s: string, i: nat): (tag: Option<string>)
    requires i < |s| && s[i] == '$'
    ensures tag.Some? ==> IsTag(tag.value) && i + |tag.value| <= |s| && s[i..i + |tag.value|] == tag.value
  {
    var e := NameEnd(s, i + 1);
    if e < |s| && s[e] == '$' then Some(s[i..e + 1]) else None
  }

  predicate StartsWith(s: string, prefix: string, i: nat) {
    i + |prefix| <= |s| && s[i..i + |prefix|] == prefix
  }

  predicate Pair(s: string, i: nat, a: char, b: char) {
    i + 1 < |s| && s[i] == a && s[i + 1] == b
  }

  function Lex(s: string, i: nat, m: Mode): (t: Token)
    requires i < |s| && ValidMode(m)
    ensures t.size >= 1 && i + t.size <= |s| && ValidMode(t.mode)
    ensures t.cut <==> m == Plain && s[i] == ';'
    ensures t.cut ==> t == Token(1, Plain, true)
  {
    match m
    case LineComment => Token(1, if s[i] == '\n' then Plain else LineComment, false)
    case BlockComment => if Pair(s, i, '*', '/') then Token(2, Plain, false) else Token(1, BlockComment, false)
    case SingleQuoted =>
      if Pair(s, i, '\'', '\'') then Token(2, SingleQuoted, false)
      else Token(1, if s[i] == '\'' then Plain else SingleQuoted, false)
    case DoubleQuoted => Token(1, if s[i] == '"' then Plain else DoubleQuoted, false)
    case Dollar(tag) => if StartsWith(s, tag, i) then Token(|tag|, Plain, false) else Token(1, m, false)
    case Plain =>
      if Pair(s, i, '-', '-') then Token(1, LineComment, false)
      else if Pair(s, i, '/', '*') then Token(1, BlockComment, false)
      else if s[i] == '\'' then Token(1, SingleQuoted, false)
      else if s[i] == '"' then Token(1, DoubleQuoted, false)
      else if s[i] == '$' && TagAt(s, i).Some? then Token(|TagAt(s, i).value|, Dollar(TagAt(s, i).value), false)
      else Token(1, Plain, s[i] == ';')
  }

  /** The untrimmed pieces of what is left, given what the current piece already holds. */
  function Pieces(s: string, i: nat, m: Mode, current: string): (ps: seq<string>)
    requires i <= |s| && ValidMode(m)
    ensures ps != []
    decreases |s| - i
  {
    if i == |s| then [current]
    else
      var t := Lex(s, i, m);
      if t.cut then [current] + Pieces(s, i + 1, Plain, "")
      else Pieces(s, i + t.size, t.mode, current + s[i..i + t.size])
  }

  /** Trimmed pieces, empty ones dropped. */
  function Trimmed(ps: seq<string>): seq<string> {
    if ps == [] then []
    else Trimmed(ps[..|ps| - 1]) + if Trim(ps[|ps| - 1]) == "" then [] else [Trim(ps[|ps| - 1])]
  }

  // ----- the comment filter -----

  /** What one step of the filter's pattern can match. */
  predicate Unit(s: string) {
    || (|s| == 1 && IsSpace(s[0]))
    || (|s| >= 2 && s[..2] == "--" && forall k :: 2 <= k < |s| ==> s[k] != '\n')
    || (|s| >= 4 && s[..2] == "/*" && s[|s| - 2..] == "*/")
  }

  /** The filter's pattern: a sequence of units. */
  predicate CommentOnly(s: string)
    decreases |s|
  {
    s == "" || exists k :: 0 < k <= |s| && Unit(s[..k]) && CommentOnly(s[k..])
  }

  function Kept(statements: seq<string>): seq<string> {
    if statements == [] then []
    else
      var last := statements[|statements| - 1];
      Kept(statements[..|statements| - 1]) + if CommentOnly(last) then [] else [last]
  }

  function Statements(s: string): seq<string> { Kept(Trimmed(Pieces(s, 0, Plain, ""))) }

  // ----- the lexer -----

  /** The lexer's variables. */
  datatype Flags = Flags(inSingle: bool, inDouble: bool, inLineComment: bool, inBlockComment: bool,
                         dollarTag: Option<string>) {
    function Up(): nat {
      (if inSingle then 1 else 0) + (if inDouble then 1 else 0) + (if inLineComment then 1 else 0)
      + (if inBlockComment then 1 else 0) + (if dollarTag.Some? then 1 else 0)
    }
  }

  /** The flags of a mode. */
  function FlagsOf(m: Mode): (f: Flags)
    ensures f.Up() <= 1 && (f.Up() == 0 <==> m == Plain)
  {
    match m
    case Plain => Flags(false, false, false, false, None)
    case SingleQuoted => Flags(true, false, false, false, None)
    case DoubleQuoted => Flags(false, true, false, false, None)
    case LineComment => Flags(false, false, true, false, None)
    case BlockComment => Flags(false, false, false, true, None)
    case Dollar(t) => Flags(false, false, false, false, Some(t))
  }

  /** The modes the automaton reads its tokens in. */
  function Modes(s: string, i: nat, m: Mode): seq<Mode>
    requires i <= |s| && ValidMode(m)
    decreases |s| - i
  {
    if i == |s| then [] else [m] + Modes(s, i + Lex(s, i, m).size, Lex(s, i, m).mode)
  }

  /** One pass of the loop reads one token. */
  lemma ModesStep(s: string, i: nat, m: Mode, past: seq<Mode>)
    requires i < |s| && ValidMode(m)
    ensures past + Modes(s, i, m) == past + [m] + Modes(s, i + Lex(s, i, m).size, Lex(s, i, m).mode)
  {}

  lemma NoMoreModes(s: string, m: Mode, past: seq<Mode>)
    requires ValidMode(m)
    ensures past + Modes(s, |s|, m) == past
  {}

  lemma TrimmedNone()
    ensures Trimmed([]) == []
  {}

  lemma TrimmedAppend(ps: seq<string>, p: string)
    ensures Trimmed(ps + [p]) == Trimmed(ps) + if Trim(p) == "" then [] else [Trim(p)]
  {
    assert (ps + [p])[..|ps|] == ps;
  }

  /** A cut closes the current piece. */
  lemma CutStep(s: string, i: nat, m: Mode, current: string)
    requires i < |s| && ValidMode(m) && Lex(s, i, m).cut
    ensures Pieces(s, i, m, current) == [current] + Pieces(s, i + 1, Plain, "")
  {}

  /** Any other token moves it along. */
  lemma GoStep(s: string, i: nat, m: Mode, current: string)
    requires i < |s| && ValidMode(m) && !Lex(s, i, m).cut
    ensures var t := Lex(s, i, m); Pieces(s, i, m, current) == Pieces(s, i + t.size, t.mode, current + s[i..i + t.size])
  {}

  lemma LastStep(s: string, m: Mode, current: string)
    requires ValidMode(m)
    ensures Pieces(s, |s|, m, current) == [current]
  {}

  lemma Regroup(a: seq<string>, b: seq<string>, c: seq<string>)
    ensures a + (b + c) == (a + b) + c
  {}

  /** What the branches append, as slices of the text. */
  lemma SliceOfTwo(s: string, i: nat, before: string)
    requires i < |s|
    ensures before + [s[i]] == before + s[i..i + 1]
    ensures i + 1 < |s| ==> before + [s[i]] + [s[i + 1]] == before + s[i..i + 2]
  {}

  /** The statements are the kept pieces of the automaton. */
  method Split(sql: string) returns (statements: seq<string>)
    ensures statements == Statements(sql)
  {
    var found, flags := SplitTrimmed(sql);
    statements := KeepStatements(found);
  }

  /**
   * The scan: trimmed pieces between cuts. `flags` is what each pass of the loop finds in the
   * lexer's variables: the flags of the automaton's modes, so at most one is ever up.
   */
  method SplitTrimmed(sql: string) returns (found: seq<string>, ghost flags: seq<Flags>)
    ensures found == Trimmed(Pieces(sql, 0, Plain, ""))
    ensures |flags| == |Modes(sql, 0, Plain)|
    ensures forall k :: 0 <= k < |flags| ==> flags[k] == FlagsOf(Modes(sql, 0, Plain)[k]) && flags[k].Up() <= 1
  {
    TrimmedNone();
    hide Pieces, Trimmed, Trim, TagAt, NameEnd, Modes;
    var current := "";
    found := [];
    var inSingle, inDouble, inLineComment, inBlockComment := false, false, false, false;
    var dollarTag: Option<string> := None;
    ghost var m, done: seq<string> := Plain, [];
    ghost var modes: seq<Mode> := [];
    flags := [];
    var i := 0;
    while i < |sql|
      invariant i <= |sql| && ValidMode(m)
      invariant Flags(inSingle, inDouble, inLineComment, inBlockComment, dollarTag) == FlagsOf(m)
      invariant modes + Modes(sql, i, m) == Modes(sql, 0, Plain)
      invariant |flags| == |modes| && forall k :: 0 <= k < |flags| ==> flags[k] == FlagsOf(modes[k])
      invariant done + Pieces(sql, i, m, current) == Pieces(sql, 0, Plain, "")
      invariant found == Trimmed(done)
    {
      var ch := sql[i];
      var next := if i + 1 < |sql| then [sql[i + 1]] else "";
      ghost var t := Lex(sql, i, m);
      ghost var from := i;
      ghost var before, earlier := current, done;
      flags := flags + [Flags(inSingle, inDouble, inLineComment, inBlockComment, dollarTag)];
      ModesStep(sql, i, m, modes);
      modes := modes + [m];
      SliceOfTwo(sql, i, before);
      if inLineComment {
        current := current + [ch];
        if ch == '\n' { inLineComment := false; }
      } else if inBlockComment {
        current := current + [ch];
        if ch == '*' && next == "/" {
          current := current + next;
          i := i + 1;
          inBlockComment := false;
        }
      } else if inSingle {
        current := current + [ch];
        if ch == '\'' {
          if next == "'" {
            current := current + next;
            i := i + 1;
          } else {
            inSingle := false;
          }
        }
      } else if inDouble {
        current := current + [ch];
        if ch == '"' { inDouble := false; }
      } else if dollarTag.Some? {
        if StartsWith(sql, dollarTag.value, i) {
          current := current + dollarTag.value;
          i := i + |dollarTag.value| - 1;
          dollarTag := None;
        } else {
          current := current + [ch];
        }
      } else if ch == '-' && next == "-" {
        inLineComment := true;
        current := current + [ch];
      } else if ch == '/' && next == "*" {
        inBlockComment := true;
        current := current + [ch];
      } else if ch == '\'' {
        inSingle := true;
        current := current + [ch];
      } else if ch == '"' {
        inDouble := true;
        current := current + [ch];
      } else if ch == '$' && TagAt(sql, i).Some? {
        dollarTag := TagAt(sql, i);
        current := current + dollarTag.value;
        i := i + |dollarTag.value| - 1;
      } else if ch == ';' {
        TrimmedAppend(done, current);
        done := done + [current];
        if Trim(current) != "" {
          found := found + [Trim(current)];
        }
        current := "";
      } else {
        current := current + [ch];
      }
      i := i + 1;
      assert i == from + t.size;
      if t.cut {
        CutStep(sql, from, m, before);
        Regroup(earlier, [before], Pieces(sql, i, Plain, ""));
      } else {
        GoStep(sql, from, m, before);
        assert current == before + sql[from..i];
      }
      m := t.mode;
    }
    NoMoreModes(sql, m, modes);
    LastStep(sql, m, current);
    TrimmedAppend(done, current);
    if Trim(current) != "" {
      found := found + [Trim(current)];
    }
  }

  /** Drop statements that are pure comments and white space. */
  method KeepStatements(found: seq<string>) returns (kept: seq<string>)
    ensures kept == Kept(found)
  {
    kept := [];
    for k := 0 to |found|
      invariant kept == Kept(found[..k])
    {
      assert found[..k + 1][..k] == found[..k];
      if !CommentOnly(found[k]) {
        kept := kept + [found[k]];
      }
    }
    assert found[..|found|] == found;
  }
}
