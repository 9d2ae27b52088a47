/** The string operations of JavaScript that the modelled code relies on:
    whitespace trimming, splitting on one separator, integer-to-string
    conversion, `parseInt` and `Number` on strings. */
module JsText {
  import opened JsValue

  /** WhiteSpace and LineTerminator code points of ECMAScript (what `trim`
      and `parseInt` skip). */
  predicate IsWhitespace(c: char) {
    c == '\t' || c == '\n' || c == '\U{000B}' || c == '\U{000C}' || c == '\r' || c == ' '
    || c == '\U{00A0}' || c == '\U{1680}' || ('\U{2000}' <= c <= '\U{200A}')
    || c == '\U{2028}' || c == '\U{2029}' || c == '\U{202F}' || c == '\U{205F}'
    || c == '\U{3000}' || c == '\U{FEFF}'
  }

  predicate AllWhitespace(s: string) {
    forall i :: 0 <= i < |s| ==> IsWhitespace(s[i])
  }

  /** `s.trimStart()`: a suffix of `s` after a run of whitespace. */
  function TrimStart(s: string): (r: string)
    ensures |r| <= |s| && r == s[|s| - |r|..]
    ensures AllWhitespace(s[..|s| - |r|])
    ensures r == [] || !IsWhitespace(r[0])
  {
    if |s| > 0 && IsWhitespace(s[0]) then
      var r := TrimStart(s[1..]);
      assert s[..|s| - |r|] == [s[0]] + s[1..][..|s| - 1 - |r|];
      r
    else s
  }

  /** `s.trimEnd()`: a prefix of `s` before a run of whitespace. */
  function TrimEnd(s: string): (r: string)
    ensures |r| <= |s| && r == s[..|r|]
    ensures AllWhitespace(s[|r|..])
    ensures r == [] || !IsWhitespace(r[|r| - 1])
  {
    if |s| > 0 && IsWhitespace(s[|s| - 1]) then
      var r := TrimEnd(s[..|s| - 1]);
      assert s[|r|..] == s[..|s| - 1][|r|..] + [s[|s| - 1]];
      r
    else s
  }

  /** `s.trim()`: the result neither starts nor ends with whitespace. */
  function Trim(s: string): (r: string)
    ensures |r| <= |s|
    ensures r == [] || (!IsWhitespace(r[0]) && !IsWhitespace(r[|r| - 1]))
  {
    TrimEnd(TrimStart(s))
  }

  /** What `trim` removes is whitespace on both sides of its result. */
  lemma TrimIsInfix(s: string)
    ensures var r := Trim(s);
            exists i :: 0 <= i <= |s| - |r| && s[i..i + |r|] == r
                        && AllWhitespace(s[..i]) && AllWhitespace(s[i + |r|..])
  {
    var t := TrimStart(s);
    var r := TrimEnd(t);
    var i := |s| - |t|;
    assert s[i..i + |r|] == r;
    assert s[i + |r|..] == t[|r|..];
  }

  lemma {:induction false} TrimNoWhitespace(s: string)
    requires forall i :: 0 <= i < |s| ==> !IsWhitespace(s[i])
    ensures Trim(s) == s
  {
    if |s| > 0 {
      assert !IsWhitespace(s[0]) && !IsWhitespace(s[|s| - 1]);
    }
  }

  // ---------------------------------------------------------------------
  // Searching, splitting, joining

  /** Index of the first occurrence of `c`. */
  function IndexOf(s: string, c: char): (r: Option<nat>)
    ensures r.None? <==> c !in s
    ensures r.Some? ==> r.value < |s| && s[r.value] == c && c !in s[..r.value]
  {
    if |s| == 0 then None
    else if s[0] == c then Some(0)
    else
      match IndexOf(s[1..], c)
      case None => None
      case Some(i) =>
        assert s[..i + 1] == [s[0]] + s[1..][..i];
        Some(i + 1)
  }

  /** `parts.join(sep)` */
  function Join(parts: seq<string>, sep: char): string {
    if |parts| == 0 then ""
    else if |parts| == 1 then parts[0]
    else parts[0] + [sep] + Join(parts[1..], sep)
  }

  /** Joining the first `k` parts gives a prefix of joining them all. */
  lemma {:induction false} JoinPrefix(parts: seq<string>, k: nat, sep: char)
    requires k <= |parts|
    ensures Join(parts[..k], sep) <= Join(parts, sep)
  {
    if k == |parts| {
      assert parts[..k] == parts;
    } else if k == 1 {
      assert parts[..k] == [parts[0]];
    } else if k > 1 {
      var head := parts[0] + [sep];
      JoinPrefix(parts[1..], k - 1, sep);
      assert parts[..k][1..] == parts[1..][..k - 1];
      assert Join(parts[..k], sep) == head + Join(parts[1..][..k - 1], sep);
      assert Join(parts, sep) == head + Join(parts[1..], sep);
    }
  }

  /** `s.split(sep)` for a one-character separator: at least one part, no
      part contains the separator, and joining the parts with it gives `s`
      back. */
  function Split(s: string, sep: char): (parts: seq<string>)
    ensures |parts| >= 1
    ensures forall i :: 0 <= i < |parts| ==> sep !in parts[i]
    ensures Join(parts, sep) == s
    decreases |s|
  {
    match IndexOf(s, sep)
    case None => [s]
    case Some(i) =>
      var rest := Split(s[i + 1..], sep);
      var parts := [s[..i]] + rest;
      assert parts[1..] == rest;
      assert s == s[..i] + [sep] + s[i + 1..];
      parts
  }

  /** Where the first separator is, the first part ends and the rest is
      split on. */
  lemma SplitAt(s: string, c: char, i: nat)
    requires i < |s| && s[i] == c && c !in s[..i]
    ensures Split(s, c) == [s[..i]] + Split(s[i + 1..], c)
    ensures Split(s, c)[0] == s[..i]
  {
    assert s[i] in s;
  }

  /** Without the separator there is one part, the whole string. */
  lemma SplitNone(s: string, c: char)
    requires c !in s
    ensures Split(s, c) == [s]
  {
  }

  /** Number of occurrences of `c` in `s`. */
  function Occurrences(s: string, c: char): nat {
    if |s| == 0 then 0 else (if s[0] == c then 1 else 0) + Occurrences(s[1..], c)
  }

  lemma {:induction false} OccurrencesAppend(a: string, b: string, c: char)
    ensures Occurrences(a + b, c) == Occurrences(a, c) + Occurrences(b, c)
  {
    if |a| > 0 {
      assert (a + b)[1..] == a[1..] + b;
      OccurrencesAppend(a[1..], b, c);
    } else {
      assert a + b == b;
    }
  }

  lemma {:induction false} OccurrencesAbsent(s: string, c: char)
    requires c !in s
    ensures Occurrences(s, c) == 0
  {
    if |s| > 0 {
      assert c !in s[1..] by {
        forall j | 0 <= j < |s[1..]| ensures s[1..][j] != c { assert s[1..][j] == s[j + 1]; }
      }
      OccurrencesAbsent(s[1..], c);
    }
  }

  /** Splitting on `c` gives one part more than there are `c`s. */
  lemma {:induction false} SplitCount(s: string, c: char)
    ensures |Split(s, c)| == Occurrences(s, c) + 1
    decreases |s|
  {
    match IndexOf(s, c)
    case None =>
      OccurrencesAbsent(s, c);
    case Some(i) =>
      SplitCount(s[i + 1..], c);
      assert s == s[..i] + ([c] + s[i + 1..]);
      OccurrencesAppend(s[..i], [c] + s[i + 1..], c);
      OccurrencesAppend([c], s[i + 1..], c);
      OccurrencesAbsent(s[..i], c);
      assert Occurrences([c], c) == 1 by { assert [c][1..] == []; }
  }

  /** The first part of a split is the longest prefix free of the separator. */
  lemma SplitFirst(s: string, c: char)
    ensures var f := Split(s, c)[0];
            f == s[..|f|] && c !in f && (|f| < |s| ==> s[|f|] == c)
  {
  }

  predicate OccursAt(s: string, pat: string, i: int)
    requires 0 <= i <= |s| - |pat|
  {
    s[i..i + |pat|] == pat
  }

  /** `s.includes(pat)`: `pat` occurs in `s` at some position. */
  function Includes(s: string, pat: string): (r: bool)
    ensures r <==> exists i :: 0 <= i <= |s| - |pat| && OccursAt(s, pat, i)
  {
    if |s| < |pat| then false
    else if s[..|pat|] == pat then
      assert OccursAt(s, pat, 0);
      true
    else
      var r := Includes(s[1..], pat);
      assert !OccursAt(s, pat, 0);
      forall i | 1 <= i <= |s| - |pat| ensures OccursAt(s, pat, i) <==> OccursAt(s[1..], pat, i - 1) {
        var a, b := s[i..i + |pat|], s[1..][i - 1..i - 1 + |pat|];
        assert |a| == |b|;
        forall j | 0 <= j < |a| ensures a[j] == b[j] { }
      }
      if r then
        var i' :| 0 <= i' <= |s| - 1 - |pat| && OccursAt(s[1..], pat, i');
        assert OccursAt(s, pat, i' + 1);
        r
      else
        r
  }

  // ---------------------------------------------------------------------
  // Decimal numerals

  predicate IsDigit(c: char) { '0' <= c <= '9' }

  predicate AllDigits(s: string) {
    forall i :: 0 <= i < |s| ==> IsDigit(s[i])
  }

  function DigitChar(d: nat): (c: char)
    requires d < 10
    ensures IsDigit(c)
  {
    ('0' as int + d) as char
  }

  function DigitValue(c: char): (d: nat)
    requires IsDigit(c)
    ensures d < 10
  {
    c as int - '0' as int
  }

  /** `String(n)` for a non-negative integer: decimal digits, no leading zero. */
  function NatToString(n: nat): (s: string)
    ensures |s| >= 1 && AllDigits(s)
    ensures |s| > 1 ==> s[0] != '0'
  {
    if n < 10 then [DigitChar(n)]
    else NatToString(n / 10) + [DigitChar(n % 10)]
  }

  /** `String(i)` for an integer. */
  function IntToString(i: int): (s: string)
    ensures |s| >= 1
    ensures i >= 0 ==> s == NatToString(i)
    ensures i < 0 ==> s == "-" + NatToString(-i)
  {
    if i < 0 then "-" + NatToString(-i) else NatToString(i)
  }

  /** The value of a string of decimal digits (the empty string has value 0). */
  function DecimalValue(s: string): nat
    requires AllDigits(s)
  {
    if |s| == 0 then 0 else DecimalValue(s[..|s| - 1]) * 10 + DigitValue(s[|s| - 1])
  }

  lemma {:induction false} DecimalRoundTrip(n: nat)
    ensures DecimalValue(NatToString(n)) == n
  {
    if n >= 10 {
      var s := NatToString(n);
      assert s[..|s| - 1] == NatToString(n / 10);
      DecimalRoundTrip(n / 10);
    }
  }

  /** Distinct numbers have distinct numerals. */
  lemma NatToStringInjective(m: nat, n: nat)
    requires NatToString(m) == NatToString(n)
    ensures m == n
  {
    DecimalRoundTrip(m);
    DecimalRoundTrip(n);
  }

  /** A non-empty string of decimal digits, read as a number. */
  function ParseDecimal(s: string): (r: Option<nat>)
    ensures r.Some? <==> s != [] && AllDigits(s)
  {
    if s != [] && AllDigits(s) then Some(DecimalValue(s)) else None
  }

  lemma ParseDecimalRoundTrip(n: nat)
    ensures ParseDecimal(NatToString(n)) == Some(n)
  {
    DecimalRoundTrip(n);
  }

  // ---------------------------------------------------------------------
  // parseInt

  predicate IsHexDigit(c: char) {
    IsDigit(c) || ('a' <= c <= 'f') || ('A' <= c <= 'F')
  }

  function HexDigitValue(c: char): (d: nat)
    requires IsHexDigit(c)
    ensures d < 16
  {
    if IsDigit(c) then DigitValue(c)
    else if 'a' <= c <= 'f' then c as int - 'a' as int + 10
    else c as int - 'A' as int + 10
  }

  function HexValue(s: string): nat
    requires forall i :: 0 <= i < |s| ==> IsHexDigit(s[i])
  {
    if |s| == 0 then 0 else HexValue(s[..|s| - 1]) * 16 + HexDigitValue(s[|s| - 1])
  }

  /** The longest prefix of `s` made of decimal digits. */
  function DigitPrefix(s: string): (p: string)
    ensures |p| <= |s| && p == s[..|p|] && AllDigits(p)
    ensures |p| < |s| ==> !IsDigit(s[|p|])
  {
    if |s| > 0 && IsDigit(s[0]) then
      var p := [s[0]] + DigitPrefix(s[1..]);
      assert s[..|p|] == [s[0]] + s[1..][..|p| - 1];
      p
    else []
  }

  /** The longest prefix of `s` made of hexadecimal digits. */
  function HexPrefix(s: string): (p: string)
    ensures |p| <= |s| && p == s[..|p|] && forall i :: 0 <= i < |p| ==> IsHexDigit(p[i])
    ensures |p| < |s| ==> !IsHexDigit(s[|p|])
  {
    if |s| > 0 && IsHexDigit(s[0]) then
      var p := [s[0]] + HexPrefix(s[1..]);
      assert s[..|p|] == [s[0]] + s[1..][..|p| - 1];
      p
    else []
  }

  lemma {:induction false} DigitPrefixAll(s: string)
    requires AllDigits(s)
    ensures DigitPrefix(s) == s
  {
    if |s| > 0 {
      DigitPrefixAll(s[1..]);
      assert s == [s[0]] + s[1..];
    }
  }

  /** `parseInt(s)` without a radix: leading whitespace is skipped, then an
      optional sign; a "0x"/"0X" prefix selects base 16; then the longest run
      of digits is read and the rest ignored. None stands for NaN (no digit). */
  function ParseInt(s: string): (r: Option<int>)
    ensures r.Some? ==> exists i :: 0 <= i < |s| && IsHexDigit(s[i])
  {
    var t := TrimStart(s);
    var neg := |t| > 0 && t[0] == '-';
    var u := if |t| > 0 && (t[0] == '-' || t[0] == '+') then t[1..] else t;
    var sign := if neg then -1 else 1;
    if |u| >= 2 && u[0] == '0' && (u[1] == 'x' || u[1] == 'X') then
      var d := HexPrefix(u[2..]);
      if d == [] then None
      else
        assert IsHexDigit(s[|s| - |u| + 2]) by { assert s[|s| - |u| + 2] == u[2..][0]; }
        Some(sign * HexValue(d))
    else
      var d := DigitPrefix(u);
      if d == [] then None
      else
        assert IsHexDigit(s[|s| - |u|]) by { assert s[|s| - |u|] == u[0]; }
        Some(sign * DecimalValue(d))
  }

  /** What `String(i)` writes, `parseInt` reads back. */
  lemma ParseIntRoundTrip(i: int)
    ensures ParseInt(IntToString(i)) == Some(i)
  {
    var s := IntToString(i);
    var n: nat := if i < 0 then -i else i;
    var digits := NatToString(n);
    assert !IsWhitespace(s[0]);
    assert TrimStart(s) == s;
    var u := if i < 0 then s[1..] else s;
    assert u == digits;
    assert !(|u| >= 2 && u[0] == '0');
    DigitPrefixAll(digits);
    DecimalRoundTrip(n);
  }

  // ---------------------------------------------------------------------
  // Number()

  /** `Number(s)` for a string, restricted to integer literals: the trimmed
      text empty gives 0, an optionally signed run of decimal digits gives its
      value, and anything else gives NaN. */
  function StringToNumber(s: string): (r: Value)
    ensures r.Num? || r.NaN?
    ensures Trim(s) == "" ==> r == Num(0)
  {
    SignedDecimal(Trim(s))
  }

  /** The numeric value of already trimmed text. */
  function SignedDecimal(t: string): (r: Value)
    ensures r.Num? || r.NaN?
    ensures t == "" ==> r == Num(0)
  {
    if t == [] then Num(0)
    else if t[0] == '-' then
      (match ParseDecimal(t[1..]) case Some(n) => Num(-(n as int)) case None => NaN)
    else if t[0] == '+' then
      (match ParseDecimal(t[1..]) case Some(n) => Num(n) case None => NaN)
    else
      (match ParseDecimal(t) case Some(n) => Num(n) case None => NaN)
  }

  /** `Number(v)` (ToNumber). Arrays and objects, which go through their
      string form in JavaScript, give NaN here. */
  function ToNumber(v: Value): (r: Value)
    ensures r.Num? || r.NaN?
    ensures v.Num? ==> r == v
  {
    match v
    case Undefined => NaN
    case Null => Num(0)
    case Bool(b) => Num(if b then 1 else 0)
    case Num(n) => v
    case NaN => NaN
    case Str(s) => StringToNumber(s)
    case Arr(_) => NaN
    case Obj(_) => NaN
  }

  lemma IntToStringNoWhitespace(i: int)
    ensures forall j :: 0 <= j < |IntToString(i)| ==> !IsWhitespace(IntToString(i)[j])
  {
    var s := IntToString(i);
    var n: nat := if i < 0 then -i else i;
    forall j | 0 <= j < |s| ensures !IsWhitespace(s[j]) {
      if i < 0 && j > 0 { assert s[j] == NatToString(n)[j - 1]; }
    }
  }

  /** `Number(String(i)) === i`. */
  lemma NumberRoundTrip(i: int)
    ensures ToNumber(Str(IntToString(i))) == Num(i)
  {
    var s := IntToString(i);
    ToNumberOfString(s);
    IntToStringNoWhitespace(i);
    TrimNoWhitespace(s);
    assert StringToNumber(s) == SignedDecimal(s);
    SignedDecimalRoundTrip(i);
  }

  lemma ToNumberOfString(s: string)
    ensures ToNumber(Str(s)) == StringToNumber(s)
  {
  }

  lemma SignedDecimalRoundTrip(i: int)
    ensures SignedDecimal(IntToString(i)) == Num(i)
  {
    var s := IntToString(i);
    if i < 0 {
      var n: nat := -i;
      ParseDecimalRoundTrip(n);
      assert s[0] == '-' && s[1..] == NatToString(n);
    } else {
      ParseDecimalRoundTrip(i);
      assert IsDigit(s[0]);
    }
  }
}
