/** Character and string helpers the tools and io.cpp rely on: C `tolower`,
    `std::string::rfind`, boost's space tokenizer, `atoi` and caffe's `format_int`. */
module Text {
  import opened Wrappers

  predicate IsUpper(c: char)
  {
    'A' <= c <= 'Z'
  }

  predicate IsDigit(c: char)
  {
    '0' <= c <= '9'
  }

  /** The characters C `isspace` accepts in the "C" locale. */
  predicate IsSpace(c: char)
  {
    c == ' ' || c == '\t' || c == '\n' || c == '\U{B}' || c == '\U{C}' || c == '\r'
  }

  /** C `tolower` in the "C" locale: only 'A'..'Z' change. */
  function LowerChar(c: char): char
  {
    if IsUpper(c) then (c as int + 32) as char else c
  }

  /** `std::transform(s.begin(), s.end(), s.begin(), ::tolower)`. */
  function ToLower(s: string): (r: string)
    ensures |r| == |s|
    ensures forall i :: 0 <= i < |r| ==> !IsUpper(r[i])
    ensures forall i :: 0 <= i < |s| && !IsUpper(s[i]) ==> r[i] == s[i]
    ensures forall i :: 0 <= i < |s| && IsUpper(s[i]) ==> r[i] as int == s[i] as int + 32
  {
    seq(|s|, i requires 0 <= i < |s| => LowerChar(s[i]))
  }

  /** Lowering twice is lowering once, so comparing lowered strings is an equivalence. */
  lemma ToLowerIdempotent(s: string)
    ensures ToLower(ToLower(s)) == ToLower(s)
  {
    var t := ToLower(s);
    assert forall i :: 0 <= i < |t| ==> ToLower(t)[i] == t[i];
  }

  /** `s.rfind(c)`: the last position holding c, or None for npos. */
  function LastIndexOf(s: string, c: char): (r: Option<nat>)
    ensures r.Some? ==> r.value < |s| && s[r.value] == c && c !in s[r.value + 1..]
    ensures r.None? <==> c !in s
  {
    if |s| == 0 then None
    else if s[|s| - 1] == c then Some(|s| - 1)
    else
      var r := LastIndexOf(s[..|s| - 1], c);
      assert s == s[..|s| - 1] + [s[|s| - 1]];
      if r.Some? then
        assert s[r.value + 1..] == s[..|s| - 1][r.value + 1..] + [s[|s| - 1]];
        r
      else r
  }

  // ---------------------------------------------------------------- tokenizer

  /** Length of the leading run of non-space characters. */
  function RunLength(s: string): (k: nat)
    ensures k <= |s|
    ensures ' ' !in s[..k]
    ensures k < |s| ==> s[k] == ' '
  {
    if |s| == 0 || s[0] == ' ' then 0
    else
      var k := RunLength(s[1..]);
      assert s[..k + 1] == [s[0]] + s[1..][..k];
      k + 1
  }

  /** The string with every ' ' removed. */
  function NoSpaces(s: string): string
  {
    if |s| == 0 then [] else (if s[0] == ' ' then [] else [s[0]]) + NoSpaces(s[1..])
  }

  function Concat(parts: seq<string>): string
  {
    if |parts| == 0 then [] else parts[0] + Concat(parts[1..])
  }

  predicate GoodTokens(tokens: seq<string>)
  {
    forall i :: 0 <= i < |tokens| ==> tokens[i] != [] && ' ' !in tokens[i]
  }

  /** boost::tokenizer with char_separator(" "): split on ' ' and drop empty tokens. */
  function Tokens(s: string): (r: seq<string>)
    decreases |s|
  {
    if |s| == 0 then []
    else if s[0] == ' ' then Tokens(s[1..])
    else
      var k := RunLength(s);
      [s[..k]] + Tokens(s[k..])
  }

  lemma NoSpacesAppend(a: string, b: string)
    ensures NoSpaces(a + b) == NoSpaces(a) + NoSpaces(b)
  {
    if |a| > 0 {
      assert (a + b)[1..] == a[1..] + b;
      NoSpacesAppend(a[1..], b);
    } else {
      assert a + b == b;
    }
  }

  lemma NoSpacesOfSpaceFree(a: string)
    requires ' ' !in a
    ensures NoSpaces(a) == a
  {
    if |a| > 0 {
      assert ' ' !in a[1..];
      NoSpacesOfSpaceFree(a[1..]);
    }
  }

  /** Every token is non-empty and space-free, and the tokens together hold exactly
      the line's non-space characters in order. */
  lemma {:induction false} TokensSplit(s: string)
    ensures GoodTokens(Tokens(s))
    ensures Concat(Tokens(s)) == NoSpaces(s)
    decreases |s|
  {
    if |s| == 0 {
    } else if s[0] == ' ' {
      TokensSplit(s[1..]);
    } else {
      var k := RunLength(s);
      TokensSplit(s[k..]);
      var rest := Tokens(s[k..]);
      assert Tokens(s) == [s[..k]] + rest;
      assert ([s[..k]] + rest)[1..] == rest;
      assert s == s[..k] + s[k..];
      NoSpacesAppend(s[..k], s[k..]);
      NoSpacesOfSpaceFree(s[..k]);
    }
  }

  // ---------------------------------------------------------------- decimals

  function Digit(d: nat): (c: char)
    requires d < 10
    ensures IsDigit(c)
  {
    ('0' as int + d) as char
  }

  function DigitValue(c: char): nat
    requires IsDigit(c)
  {
    c as int - '0' as int
  }

  predicate AllDigits(s: string)
  {
    forall i :: 0 <= i < |s| ==> IsDigit(s[i])
  }

  /** Shortest decimal spelling of n. */
  function Decimal(n: nat): (s: string)
    ensures 0 < |s| && AllDigits(s)
  {
    if n < 10 then [Digit(n)] else Decimal(n / 10) + [Digit(n % 10)]
  }

  /** Value of a string of decimal digits, most significant first. */
  function ParseDecimal(s: string): nat
    requires AllDigits(s)
  {
    if |s| == 0 then 0 else ParseDecimal(s[..|s| - 1]) * 10 + DigitValue(s[|s| - 1])
  }

  lemma {:induction false} ParseDecimalRoundTrip(n: nat)
    ensures ParseDecimal(Decimal(n)) == n
  {
    if n >= 10 {
      var s := Decimal(n);
      assert s[..|s| - 1] == Decimal(n / 10);
      ParseDecimalRoundTrip(n / 10);
    }
  }

  function Zeros(k: nat): (s: string)
    ensures |s| == k && AllDigits(s)
  {
    seq(k, i => '0')
  }

  lemma {:induction false} LeadingZeros(k: nat, d: string)
    requires AllDigits(d)
    ensures AllDigits(Zeros(k) + d)
    ensures ParseDecimal(Zeros(k) + d) == ParseDecimal(d)
    decreases |d|
  {
    if |d| == 0 {
      assert Zeros(k) + d == Zeros(k);
      ZerosParse(k);
    } else {
      assert (Zeros(k) + d)[..|Zeros(k) + d| - 1] == Zeros(k) + d[..|d| - 1];
      LeadingZeros(k, d[..|d| - 1]);
    }
  }

  lemma {:induction false} ZerosParse(k: nat)
    ensures ParseDecimal(Zeros(k)) == 0
  {
    if k > 0 {
      assert Zeros(k)[..k - 1] == Zeros(k - 1);
      ZerosParse(k - 1);
    }
  }

  /** caffe::format_int(n, width): n in decimal, left-padded with '0' to `width`
      characters (std::setw with std::setfill('0')). Callers pass only n >= 0. */
  function FormatInt(n: nat, width: nat): (s: string)
    ensures AllDigits(s)
    ensures |s| == if |Decimal(n)| < width then width else |Decimal(n)|
  {
    var d := Decimal(n);
    if |d| < width then Zeros(width - |d|) + d else d
  }

  /** Reading a formatted key back gives the number: the key is the number. */
  lemma FormatIntRoundTrip(n: nat, width: nat)
    ensures ParseDecimal(FormatInt(n, width)) == n
  {
    var d := Decimal(n);
    ParseDecimalRoundTrip(n);
    if |d| < width {
      LeadingZeros(width - |d|, d);
    }
  }

  /** Distinct numbers get distinct keys. */
  lemma FormatIntInjective(m: nat, n: nat, width: nat)
    requires m != n
    ensures FormatInt(m, width) != FormatInt(n, width)
  {
    FormatIntRoundTrip(m, width);
    FormatIntRoundTrip(n, width);
  }

  // ---------------------------------------------------------------- atoi

  /** Leading run of decimal digits. */
  function DigitPrefix(s: string): (d: string)
    ensures AllDigits(d) && |d| <= |s| && d == s[..|d|]
    ensures |d| < |s| ==> !IsDigit(s[|d|])
  {
    if |s| == 0 || !IsDigit(s[0]) then []
    else
      var d := DigitPrefix(s[1..]);
      [s[0]] + d
  }

  function SkipSpace(s: string): (t: string)
    ensures |t| <= |s| && t == s[|s| - |t|..]
    ensures |t| > 0 ==> !IsSpace(t[0])
  {
    if |s| > 0 && IsSpace(s[0]) then SkipSpace(s[1..]) else s
  }

  /** C `atoi`: skip white space, read an optional sign, then the digits up to the
      first non-digit; no digits read gives 0. */
  function Atoi(s: string): int
  {
    var t := SkipSpace(s);
    if |t| > 0 && t[0] == '-' then -(ParseDecimal(DigitPrefix(t[1..])) as int)
    else if |t| > 0 && t[0] == '+' then ParseDecimal(DigitPrefix(t[1..]))
    else ParseDecimal(DigitPrefix(t))
  }

  lemma DigitPrefixAll(s: string)
    requires AllDigits(s)
    ensures DigitPrefix(s) == s
  {
    if |s| > 0 {
      DigitPrefixAll(s[1..]);
    }
  }

  /** `atoi` reads back every integer written in decimal with an optional '-'. */
  lemma AtoiRoundTrip(n: int)
    ensures n >= 0 ==> Atoi(Decimal(n)) == n
    ensures n < 0 ==> Atoi("-" + Decimal(-n)) == n
  {
    if n >= 0 {
      var d := Decimal(n);
      assert SkipSpace(d) == d;
      DigitPrefixAll(d);
      ParseDecimalRoundTrip(n);
    } else {
      var d := Decimal(-n);
      var t := "-" + d;
      assert SkipSpace(t) == t;
      assert t[1..] == d;
      DigitPrefixAll(d);
      ParseDecimalRoundTrip(-n);
    }
  }
}
