/** Decimal digits, printed and read back: the integers behind the price strings. */
module DecimalStrings {
  import opened Options

  predicate IsDigit(c: char) { '0' <= c <= '9' }

  function DigitValue(c: char): nat
    requires IsDigit(c)
  {
    c as nat - '0' as nat
  }

  function DigitChar(d: nat): (c: char)
    requires d < 10
    ensures IsDigit(c) && DigitValue(c) == d
  {
    (('0' as nat) + d) as char
  }

  predicate AllDigits(s: string) { forall k :: 0 <= k < |s| ==> IsDigit(s[k]) }

  /** The number a digit string stands for. */
  function NatOf(s: string): nat
    requires AllDigits(s)
  {
    if s == "" then 0 else NatOf(s[..|s| - 1]) * 10 + DigitValue(s[|s| - 1])
  }

  /** Decimal digits of n, no leading zero. */
  function Print(n: nat): (s: string)
    ensures s != "" && AllDigits(s)
  {
    if n < 10 then [DigitChar(n)] else Print(n / 10) + [DigitChar(n % 10)]
  }

  lemma {:induction false} PrintReads(n: nat)
    ensures NatOf(Print(n)) == n
  {
    if n >= 10 {
      PrintReads(n / 10);
      assert Print(n)[..|Print(n)| - 1] == Print(n / 10);
    } else {
      assert Print(n)[..0] == "";
    }
  }

  function Zeros(n: nat): (s: string)
    ensures |s| == n && AllDigits(s)
  {
    if n == 0 then "" else Zeros(n - 1) + "0"
  }

  /** `padStart(width, "0")`. */
  function Pad(s: string, width: nat): (r: string)
    requires AllDigits(s)
    ensures AllDigits(r) && |r| == if |s| >= width then |s| else width
  {
    if |s| >= width then s else Zeros(width - |s|) + s
  }

  lemma {:induction false} ZerosVanish(n: nat, s: string)
    requires AllDigits(s)
    ensures NatOf(Zeros(n) + s) == NatOf(s)
  {
    if s != "" {
      assert (Zeros(n) + s)[..n + |s| - 1] == Zeros(n) + s[..|s| - 1];
      ZerosVanish(n, s[..|s| - 1]);
    } else if n > 0 {
      assert Zeros(n) + s == Zeros(n) && Zeros(n)[..n - 1] == Zeros(n - 1);
      ZerosVanish(n - 1, "");
      assert Zeros(n - 1) + "" == Zeros(n - 1);
    } else {
      assert Zeros(0) + s == "";
    }
  }

  lemma PadReads(s: string, width: nat)
    requires AllDigits(s)
    ensures NatOf(Pad(s, width)) == NatOf(s)
  {
    if |s| < width {
      ZerosVanish(width - |s|, s);
    }
  }

  /** Leading zeros dropped, the last digit kept. */
  function StripZeros(s: string): string
  {
    if |s| > 1 && s[0] == '0' && IsDigit(s[1]) then StripZeros(s[1..]) else s
  }

  /** Dropping leading zeros does not change the number. */
  lemma {:induction false} StripReads(s: string)
    requires AllDigits(s)
    ensures AllDigits(StripZeros(s)) && NatOf(StripZeros(s)) == NatOf(s)
  {
    if |s| > 1 && s[0] == '0' {
      StripReads(s[1..]);
      assert Zeros(0) == "" && Zeros(1) == Zeros(0) + "0" && s == Zeros(1) + s[1..];
      ZerosVanish(1, s[1..]);
    }
  }

  /** JavaScript's white space and line terminators. */
  predicate IsSpace(c: char) {
    c in {'\t', '\n', '\U{000B}', '\U{000C}', '\r', ' ', '\U{00A0}', '\U{1680}', '\U{2028}', '\U{2029}',
          '\U{202F}', '\U{205F}', '\U{3000}', '\U{FEFF}'}
    || '\U{2000}' <= c <= '\U{200A}'
  }

  function TrimStart(s: string): (r: string)
    ensures |r| <= |s| && (r != "" ==> !IsSpace(r[0]))
  {
    if s != "" && IsSpace(s[0]) then TrimStart(s[1..]) else s
  }

  function TrimEnd(s: string): (r: string)
    ensures |r| <= |s| && r == s[..|r|] && (r != "" ==> !IsSpace(r[|r| - 1]))
  {
    if s != "" && IsSpace(s[|s| - 1]) then TrimEnd(s[..|s| - 1]) else s
  }

  function Trim(s: string): string { TrimEnd(TrimStart(s)) }

  lemma TrimKeeps(s: string)
    requires s == "" || (!IsSpace(s[0]) && !IsSpace(s[|s| - 1]))
    ensures Trim(s) == s
  {}

  /** Position of the first point, or the length when there is none. */
  function PointAt(s: string): (k: nat)
    ensures k <= |s| && (k < |s| ==> s[k] == '.') && forall j :: 0 <= j < k ==> s[j] != '.'
  {
    if s == "" then 0 else if s[0] == '.' then 0 else 1 + PointAt(s[1..])
  }

  datatype Decimal = Decimal(intValue: nat, scale: nat)

  /** A strict decimal: digits, and at most one point with digits on both sides. */
  function Parse(raw: string): Option<Decimal> {
    var t := Trim(raw);
    var k := PointAt(t);
    if k == 0 || !AllDigits(t[..k]) then None
    else if k == |t| then Some(Decimal(Digits(t[..k]), 0))
    else
      var frac := t[k + 1..];
      if frac == "" || !AllDigits(frac) then None
      else Some(Decimal(Digits(t[..k] + frac), |frac|))
  }

  function Digits(s: string): nat
    requires AllDigits(s)
  {
    StripReads(s);
    NatOf(StripZeros(s))
  }

  /** `formatScaled` of a value that is never negative: the prices it prints. */
  function FormatScaled(value: nat, scale: nat): string {
    if scale == 0 then Print(value)
    else
      var digits := Pad(Print(value), scale + 1);
      digits[..|digits| - scale] + "." + digits[|digits| - scale..]
  }

  lemma PointAfter(a: string, b: string)
    requires AllDigits(a)
    ensures PointAt(a + "." + b) == |a|
  {
    var s := a + "." + b;
    assert s[|a|] == '.';
    assert forall j :: 0 <= j < |a| ==> s[j] == a[j];
  }

  lemma NoPoint(a: string)
    requires AllDigits(a)
    ensures PointAt(a) == |a|
  {}

  lemma ParseWhole(whole: string)
    requires whole != "" && AllDigits(whole)
    ensures Parse(whole) == Some(Decimal(NatOf(whole), 0))
  {
    TrimKeeps(whole);
    NoPoint(whole);
    assert whole[..|whole|] == whole;
    StripReads(whole);
  }

  lemma ParseParts(whole: string, frac: string)
    requires whole != "" && frac != "" && AllDigits(whole) && AllDigits(frac)
    ensures Parse(whole + "." + frac) == Some(Decimal(NatOf(whole + frac), |frac|))
  {
    var s, k := whole + "." + frac, |whole|;
    TrimKeeps(s);
    PointAfter(whole, frac);
    assert s[..k] == whole && s[k + 1..] == frac;
    StripReads(whole + frac);
  }

  /** Printing at a scale and reading back gives the same number at that scale. */
  lemma FormatParses(value: nat, scale: nat)
    ensures Parse(FormatScaled(value, scale)) == Some(Decimal(value, scale))
  {
    hide Parse, Print, Pad, NatOf;
    PrintReads(value);
    if scale == 0 {
      ParseWhole(Print(value));
    } else {
      var digits := Pad(Print(value), scale + 1);
      PadReads(Print(value), scale + 1);
      var k := |digits| - scale;
      assert digits[..k] + digits[k..] == digits;
      ParseParts(digits[..k], digits[k..]);
    }
  }
}
