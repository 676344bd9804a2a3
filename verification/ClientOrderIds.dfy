/**
 * Deterministic client order ids: what `Cid` triples print to, and why the triple can
 * always be read back. The digest of a long scope is any hyphen-free text that is long enough.
 */
module ClientOrderIds {
  import opened Options
  import opened OrderState

  const MAX_LENGTH: nat := 36
  const LEVEL_WIDTH: nat := 2
  const BOT_KEY_WIDTH: nat := 30
  const MAX_LEVELS: nat := 36 * 36
  const MAX_GENERATION: nat := 36 * 36 * 36 - 1

  // ----- base 36 -----

  predicate IsBase36(c: char) { '0' <= c <= '9' || 'a' <= c <= 'z' }

  function DigitOf(d: nat): (c: char)
    requires d < 36
    ensures IsBase36(c) && ValueOf(c) == d
  {
    if d < 10 then ('0' as nat + d) as char else ('a' as nat + (d - 10)) as char
  }

  function ValueOf(c: char): nat
    requires IsBase36(c)
  {
    if '0' <= c <= '9' then c as nat - '0' as nat else c as nat - 'a' as nat + 10
  }

  predicate AllBase36(s: string) { forall k :: 0 <= k < |s| ==> IsBase36(s[k]) }

  /** `n.toString(36)`. */
  function Print36(n: nat): (s: string)
    ensures s != "" && AllBase36(s)
  {
    if n < 36 then [DigitOf(n)] else Print36(n / 36) + [DigitOf(n % 36)]
  }

  /** `parseInt(s, 36)`. */
  function Read36(s: string): nat
    requires AllBase36(s)
  {
    if s == "" then 0 else Read36(s[..|s| - 1]) * 36 + ValueOf(s[|s| - 1])
  }

  lemma {:induction false} Print36Reads(n: nat)
    ensures Read36(Print36(n)) == n
  {
    if n >= 36 {
      Print36Reads(n / 36);
      assert Print36(n)[..|Print36(n)| - 1] == Print36(n / 36);
    } else {
      assert Print36(n)[..0] == "";
    }
  }

  /** Generations take at most three digits, levels at most two. */
  lemma Print36Width(n: nat)
    ensures n < 36 ==> |Print36(n)| == 1
    ensures 36 <= n < 36 * 36 ==> |Print36(n)| == 2
    ensures 36 * 36 <= n < 36 * 36 * 36 ==> |Print36(n)| == 3
  {}

  /** `padStart(2, "0")` of a level index. */
  function LevelText(level: nat): (s: string)
    requires level < MAX_LEVELS
    ensures |s| == LEVEL_WIDTH && AllBase36(s)
  {
    Print36Width(level);
    if level < 36 then "0" + Print36(level) else Print36(level)
  }

  lemma LevelReads(level: nat)
    requires level < MAX_LEVELS
    ensures Read36(LevelText(level)) == level
  {
    Print36Reads(level);
    var s := LevelText(level);
    if level < 36 {
      var d := [DigitOf(level)];
      assert Print36(level) == d && s == "0" + d;
      assert s[..1] == "0" && "0"[..0] == "" && d[..0] == "";
    }
  }

  // ----- the generator -----

  predicate HyphenFree(s: string) { forall k :: 0 <= k < |s| ==> s[k] != '-' }

  predicate IsAlphanumeric(c: char) { '0' <= c <= '9' || 'a' <= c <= 'z' || 'A' <= c <= 'Z' }

  /** The exchange contract: 1 to 36 alphanumerics and hyphens, no hyphen first. */
  predicate IsAccepted(id: string) {
    && 0 < |id| <= MAX_LENGTH && IsAlphanumeric(id[0])
    && forall k :: 0 <= k < |id| ==> IsAlphanumeric(id[k]) || id[k] == '-'
  }

  /** The scope without hyphens and slashes. */
  function Compact(scope: string): (s: string)
    ensures HyphenFree(s)
  {
    if scope == "" then ""
    else Compact(scope[..|scope| - 1]) + if scope[|scope| - 1] in "-/" then "" else [scope[|scope| - 1]]
  }

  datatype Generator = Generator(compact: string, digest: string) {

    ghost predicate Valid() { HyphenFree(compact) && HyphenFree(digest) && |digest| >= BOT_KEY_WIDTH }

    function BotKeyFor(width: nat): (key: string)
      requires Valid() && width <= BOT_KEY_WIDTH
      ensures HyphenFree(key) && |key| <= width
    {
      if |compact| <= width then compact else digest[..width]
    }

    function Suffix(gen: nat): string { if gen == 0 then "" else "-" + Print36(gen) }

    /** None where the source throws: out of range, or outside the exchange contract. */
    function Generate(level: nat, side: Side, gen: nat): Option<string>
      requires Valid()
    {
      if level >= MAX_LEVELS || gen > MAX_GENERATION then None
      else
        Print36Width(gen);
        var id := BotKeyFor(BOT_KEY_WIDTH - |Suffix(gen)|) + "-" + SlotText(LevelText(level), side, Suffix(gen));
        if IsAccepted(id) then Some(id) else None
    }
  }

  function SideText(side: Side): string { if side == Buy then "B" else "S" }

  /** Everything after the bot key. */
  function SlotText(level: string, side: Side, suffix: string): string { level + "-" + SideText(side) + suffix }

  /** A generator for a bot, optionally inside one run; `digest` is the hex digest of the scope. */
  function GeneratorFor(scope: string, digest: string): (g: Generator)
    requires HyphenFree(digest) && |digest| >= BOT_KEY_WIDTH
    ensures g.Valid()
  {
    Generator(Compact(scope), digest)
  }

  // ----- reading an id back -----

  function FirstHyphen(s: string): (k: nat)
    ensures k <= |s| && (k < |s| ==> s[k] == '-') && forall j :: 0 <= j < k ==> s[j] != '-'
  {
    if s == "" || s[0] == '-' then 0 else 1 + FirstHyphen(s[1..])
  }

  /** Level, side and generation, read from what follows the bot key. */
  function Decode(id: string): Option<Cid> {
    var k := FirstHyphen(id);
    if k == |id| then None else ReadSlot(id[k + 1..])
  }

  function ReadSlot(rest: string): Option<Cid> {
    if |rest| < 4 then None
    else
      var level, side, suffix := rest[..2], rest[3], rest[4..];
      if !AllBase36(level) || side !in "BS" then None
      else if suffix == "" then Some(Cid(Read36(level), if side == 'B' then Buy else Sell, 0))
      else if suffix[0] != '-' || !AllBase36(suffix[1..]) then None
      else Some(Cid(Read36(level), if side == 'B' then Buy else Sell, Read36(suffix[1..])))
  }

  lemma HyphenAfterKey(key: string, rest: string)
    requires HyphenFree(key)
    ensures FirstHyphen(key + "-" + rest) == |key|
  {
    var s := key + "-" + rest;
    assert s[|key|] == '-';
    assert forall j :: 0 <= j < |key| ==> s[j] == key[j];
  }

  lemma DecodesParts(key: string, level: string, side: Side, suffix: string)
    requires HyphenFree(key) && |level| == LEVEL_WIDTH && AllBase36(level)
    requires suffix == "" || (suffix[0] == '-' && AllBase36(suffix[1..]))
    ensures Decode(key + "-" + SlotText(level, side, suffix))
         == Some(Cid(Read36(level), side, if suffix == "" then 0 else Read36(suffix[1..])))
  {
    var rest := SlotText(level, side, suffix);
    HyphenAfterKey(key, rest);
    assert (key + "-" + rest)[|key| + 1..] == rest;
    SlotReads(level, side, suffix);
  }

  lemma SlotReads(level: string, side: Side, suffix: string)
    requires |level| == LEVEL_WIDTH && AllBase36(level)
    requires suffix == "" || (suffix[0] == '-' && AllBase36(suffix[1..]))
    ensures ReadSlot(SlotText(level, side, suffix))
         == Some(Cid(Read36(level), side, if suffix == "" then 0 else Read36(suffix[1..])))
  {
    var rest := SlotText(level, side, suffix);
    assert rest[..2] == level && rest[3] == SideText(side)[0] && rest[4..] == suffix;
  }

  /**
   * The triple is recoverable from the printed id, whatever the bot key: distinct slots,
   * sides or generations of one generator never share an id, and every id it gives is at
   * most 36 characters.
   */
  lemma Recoverable(g: Generator, level: nat, side: Side, gen: nat)
    requires g.Valid()
    ensures g.Generate(level, side, gen).Some? ==>
      && |g.Generate(level, side, gen).value| <= MAX_LENGTH
      && Decode(g.Generate(level, side, gen).value) == Some(Cid(level, side, gen))
  {
    if g.Generate(level, side, gen).Some? {
      Print36Width(gen);
      Print36Reads(gen);
      LevelReads(level);
      var suffix := g.Suffix(gen);
      assert gen > 0 ==> suffix[1..] == Print36(gen);
      DecodesParts(g.BotKeyFor(BOT_KEY_WIDTH - |suffix|), LevelText(level), side, suffix);
    }
  }

  lemma IdsAreDistinct(g: Generator, a: Cid, b: Cid)
    requires g.Valid() && a != b
    requires g.Generate(a.level, a.side, a.gen).Some?
    ensures g.Generate(a.level, a.side, a.gen) != g.Generate(b.level, b.side, b.gen)
  {
    Recoverable(g, a.level, a.side, a.gen);
    Recoverable(g, b.level, b.side, b.gen);
  }

  /** Exactly which triples get an id: those in range, when the bot key is a non-empty alphanumeric text. */
  lemma AlphanumericKeysAreAccepted(g: Generator, level: nat, side: Side, gen: nat)
    requires g.Valid() && level < MAX_LEVELS && gen <= MAX_GENERATION
    ensures var width := BOT_KEY_WIDTH - |g.Suffix(gen)|;
      width >= 0 && (g.Generate(level, side, gen).Some? <==>
        g.BotKeyFor(width) != "" && forall k :: 0 <= k < |g.BotKeyFor(width)| ==> IsAlphanumeric(g.BotKeyFor(width)[k]))
  {
    Print36Width(gen);
    var key := g.BotKeyFor(BOT_KEY_WIDTH - |g.Suffix(gen)|);
    var rest := SlotText(LevelText(level), side, g.Suffix(gen));
    var id := key + "-" + rest;
    assert forall k :: 0 <= k < |rest| ==> IsAlphanumeric(rest[k]) || rest[k] == '-';
    assert forall k :: 0 <= k < |key| ==> id[k] == key[k];
  }

  // ----- from a bot and its run -----

  predicate IsSeparator(c: char) { c in "-/" }

  ghost predicate AllAlphanumeric(s: string) { forall k :: 0 <= k < |s| ==> IsAlphanumeric(s[k]) }

  ghost predicate OnlyPlain(scope: string) {
    forall k :: 0 <= k < |scope| ==> IsAlphanumeric(scope[k]) || IsSeparator(scope[k])
  }

  /** The scope has only alphanumerics, hyphens and slashes, and not only the latter two. */
  ghost predicate PlainScope(scope: string) {
    OnlyPlain(scope) && exists k :: 0 <= k < |scope| && !IsSeparator(scope[k])
  }

  lemma OneMoreChar(s: string, c: char)
    ensures OnlyPlain(s + [c]) <==> OnlyPlain(s) && (IsAlphanumeric(c) || IsSeparator(c))
    ensures AllAlphanumeric(s + [c]) <==> AllAlphanumeric(s) && IsAlphanumeric(c)
  {
    assert (s + [c])[|s|] == c && forall k :: 0 <= k < |s| ==> (s + [c])[k] == s[k];
  }

  lemma {:induction false} CompactChars(scope: string)
    ensures Compact(scope) == "" <==> forall k :: 0 <= k < |scope| ==> IsSeparator(scope[k])
    ensures AllAlphanumeric(Compact(scope)) <==> OnlyPlain(scope)
  {
    if scope != "" {
      var n := |scope| - 1;
      CompactChars(scope[..n]);
      assert scope == scope[..n] + [scope[n]];
      OneMoreChar(scope[..n], scope[n]);
      OneMoreChar(Compact(scope[..n]), scope[n]);
      assert Compact(scope[..n]) + "" == Compact(scope[..n]);
      assert Compact(scope) == if IsSeparator(scope[n]) then Compact(scope[..n]) else Compact(scope[..n]) + [scope[n]];
    }
  }

  lemma PlainCompact(scope: string)
    ensures Compact(scope) != "" && AllAlphanumeric(Compact(scope)) <==> PlainScope(scope)
  {
    CompactChars(scope);
  }

  /** An alphanumeric digest, such as the hex digest the source takes. */
  ghost predicate GoodDigest(digest: string) {
    HyphenFree(digest) && |digest| >= BOT_KEY_WIDTH && AllAlphanumeric(digest)
  }

  /** Every triple in range gets an id. */
  ghost predicate AlwaysGenerates(g: Generator)
    requires g.Valid()
  {
    forall level: nat, side: Side, gen: nat :: level < MAX_LEVELS && gen <= MAX_GENERATION ==> g.Generate(level, side, gen).Some?
  }

  /**
   * The check behind the construction never fires, for any level, side and generation in range, if
   * and only if the scope is long enough to be hashed whatever the generation, or has nothing but
   * alphanumerics, hyphens and slashes and at least one of the first.
   */
  lemma CheckNeverFiresExactly(scope: string, digest: string)
    requires GoodDigest(digest)
    ensures AlwaysGenerates(GeneratorFor(scope, digest)) <==> |Compact(scope)| > BOT_KEY_WIDTH || PlainScope(scope)
  {
    var g := GeneratorFor(scope, digest);
    PlainCompact(scope);
    if |Compact(scope)| > BOT_KEY_WIDTH || PlainScope(scope) {
      forall level: nat, side: Side, gen: nat | level < MAX_LEVELS && gen <= MAX_GENERATION
        ensures g.Generate(level, side, gen).Some?
      {
        AlphanumericKeysAreAccepted(g, level, side, gen);
        Print36Width(gen);
      }
    } else {
      AlphanumericKeysAreAccepted(g, 0, Buy, 0);
      assert g.Suffix(0) == "" && g.BotKeyFor(BOT_KEY_WIDTH) == Compact(scope);
    }
  }

  /**
   * Ids of two bots or runs with short scopes: the same for a level, side and generation if and only
   * if the scopes are the same but for hyphens and slashes.
   */
  lemma ShortScopesShareIdsExactly(a: string, b: string, digestA: string, digestB: string, level: nat, side: Side,
                                   gen: nat)
    requires GoodDigest(digestA) && GoodDigest(digestB) && PlainScope(a) && PlainScope(b)
    requires level < MAX_LEVELS && gen <= MAX_GENERATION
    requires |Compact(a)| <= BOT_KEY_WIDTH - 4 && |Compact(b)| <= BOT_KEY_WIDTH - 4
    ensures GeneratorFor(a, digestA).Generate(level, side, gen) == GeneratorFor(b, digestB).Generate(level, side, gen)
         <==> Compact(a) == Compact(b)
  {
    CheckNeverFiresExactly(a, digestA);
    CheckNeverFiresExactly(b, digestB);
    Print36Width(gen);
    var g := GeneratorFor(a, digestA);
    var rest := SlotText(LevelText(level), side, g.Suffix(gen));
    SameTail(Compact(a), Compact(b), "-" + rest);
    assert Compact(a) + "-" + rest == Compact(a) + ("-" + rest) && Compact(b) + "-" + rest == Compact(b) + ("-" + rest);
  }

  lemma SameTail(x: string, y: string, tail: string)
    ensures x + tail == y + tail <==> x == y
  {
    if x + tail == y + tail {
      assert |x| == |y|;
      assert x == (x + tail)[..|x|] == (y + tail)[..|y|] == y;
    }
  }

  /** Two runs of one bot that share every id: their run ids differ by a hyphen. */
  lemma RunsShareIds(digestA: string, digestB: string, level: nat, side: Side, gen: nat)
    requires GoodDigest(digestA) && GoodDigest(digestB) && level < MAX_LEVELS && gen <= MAX_GENERATION
    ensures var id := GeneratorFor("b/r-1", digestA).Generate(level, side, gen);
      id.Some? && id == GeneratorFor("b/r1", digestB).Generate(level, side, gen)
  {
    RunScopes();
    hide Compact, GoodDigest, PlainScope;
    CheckNeverFiresExactly("b/r-1", digestA);
    ShortScopesShareIdsExactly("b/r-1", "b/r1", digestA, digestB, level, side, gen);
  }

  lemma RunScopes()
    ensures Compact("b/r-1") == Compact("b/r1") == "br1" && PlainScope("b/r-1") && PlainScope("b/r1")
  {
    assert "b/r-1"[..4] == "b/r-" && "b/r-"[..3] == "b/r" && "b/r"[..2] == "b/" && "b/"[..1] == "b" && "b"[..0] == "";
    assert "b/r1"[..3] == "b/r";
    assert Compact("b/r") == "br" && Compact("b/r-1") == "br1" && Compact("b/r1") == "br1";
    PlainCompact("b/r-1");
    PlainCompact("b/r1");
  }
}
