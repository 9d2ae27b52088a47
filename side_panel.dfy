/** The computations of the debug side panel, src/components/SidePanel.jsx:
    the elapsed-time display, the JSON fallback text and the fingerprint
    field count. */
module SidePanel {
  import opened JsValue
  import opened JsText

  const NoData := "No data available"

  /** `formatJson(data)`: the placeholder for falsy data, else the JSON
      text of the data (an input). */
  function FormatJson(data: Value, json: string): (r: string)
    ensures !Truthy(data) ==> r == NoData
    ensures Truthy(data) ==> r == json
  {
    if !Truthy(data) then NoData else json
  }

  /** JavaScript's `%`, whose result takes the sign of the dividend. */
  function JsRem(a: int, b: int): (r: int)
    requires b > 0
    ensures -b < r < b
    ensures a >= 0 ==> 0 <= r && r == a % b
    ensures a < 0 ==> r <= 0 && -r == (-a) % b
  {
    if a >= 0 then a % b else -((-a) % b)
  }

  /** `Math.floor(seconds / 60)` and `seconds % 60`. */
  function DurationParts(seconds: int): (r: (int, int))
    ensures seconds >= 0 ==> r.0 >= 0 && 0 <= r.1 < 60 && r.0 * 60 + r.1 == seconds
    ensures seconds < 0 ==> r.0 < 0 && -60 < r.1 <= 0
  {
    (seconds / 60, JsRem(seconds, 60))
  }

  /** `formatDuration(seconds)`: "{mins}m {secs}s" from one minute on,
      "{secs}s" before. */
  function FormatDuration(seconds: int): (text: string)
    ensures |text| >= 2 && text[|text| - 1] == 's'
    ensures seconds >= 60 ==> text == IntToString(seconds / 60) + "m " + IntToString(seconds % 60) + "s"
    ensures 0 <= seconds < 60 ==> text == IntToString(seconds) + "s"
    ensures seconds < 0 ==> text == IntToString(DurationParts(seconds).1) + "s"
  {
    ShowParts(DurationParts(seconds))
  }

  /** The display of a minutes and seconds pair. */
  function ShowParts(parts: (int, int)): (text: string)
    ensures |text| >= 2 && text[|text| - 1] == 's'
  {
    if parts.0 > 0 then IntToString(parts.0) + "m " + IntToString(parts.1) + "s"
    else IntToString(parts.1) + "s"
  }

  /** The display holds the letter m exactly when it shows minutes, which
      is what reading it back splits on. */
  lemma MinutesMarker(parts: (int, int))
    ensures 'm' in ShowParts(parts) <==> parts.0 > 0
  {
    NoLetterInSigned(parts.0, 'm');
    NoLetterInSigned(parts.1, 'm');
    if parts.0 > 0 {
      var t := ShowParts(parts);
      assert t[|IntToString(parts.0)|] == 'm';
    } else {
      NotInConcat(IntToString(parts.1), "s", 'm');
    }
  }

  /** The numeral of an integer holds no letter. */
  lemma NoLetterInSigned(i: int, c: char)
    requires !IsDigit(c) && c != '-'
    ensures c !in IntToString(i)
  {
    if i < 0 {
      NoLetterInDigits(NatToString(-i), c);
    } else {
      NoLetterInDigits(NatToString(i), c);
    }
  }

  /** Reads a duration display back: "{m}m {s}s" or "{s}s" with decimal
      numerals. */
  function ParseDuration(text: string): (r: Option<int>)
  {
    if |text| == 0 || text[|text| - 1] != 's' then None
    else ParseParts(text[..|text| - 1], Split(text[..|text| - 1], 'm'))
  }

  /** The display without its final "s", split at the letter m. */
  function ParseParts(body: string, parts: seq<string>): (r: Option<int>)
  {
    if |parts| == 1 then ParseDecimal(body)
    else if |parts| == 2 && |parts[1]| > 0 && parts[1][0] == ' ' then
      match (ParseDecimal(parts[0]), ParseDecimal(parts[1][1..]))
      case (Some(m), Some(s)) => Some(m * 60 + s)
      case _ => None
    else None
  }

  /** Every non-negative duration can be read back from its display, so
      distinct durations never look alike. */
  lemma DurationRoundTrip(seconds: int)
    requires seconds >= 0
    ensures ParseDuration(FormatDuration(seconds)) == Some(seconds)
  {
    var parts := DurationParts(seconds);
    PartsRoundTrip(parts.0, parts.1);
  }

  /** A pair with seconds under a minute reads back as its total. */
  lemma PartsRoundTrip(mins: int, secs: int)
    requires mins >= 0 && 0 <= secs < 60
    ensures ParseDuration(ShowParts((mins, secs))) == Some(mins * 60 + secs)
  {
    var ss := NatToString(secs);
    DecimalRoundTrip(secs);
    if mins > 0 {
      var ms := NatToString(mins);
      DecimalRoundTrip(mins);
      MinutesForm(ms, ss);
    } else {
      SecondsForm(ss);
    }
  }

  /** "{m}m {s}s" reads back as m minutes and s seconds. */
  lemma MinutesForm(ms: string, ss: string)
    requires ms != [] && AllDigits(ms) && ss != [] && AllDigits(ss)
    ensures ParseDuration(ms + "m " + ss + "s")
            == Some(DecimalValue(ms) * 60 + DecimalValue(ss))
  {
    var text := ms + "m " + ss + "s";
    var body := ms + "m " + ss;
    assert text[..|text| - 1] == body;
    assert ParseDuration(text) == ParseParts(body, Split(body, 'm'));
    SplitMinutes(ms, ss);
    MinutesParts(body, ms, ss);
  }

  /** Two parts, the second after a space, read as minutes and seconds. */
  lemma MinutesParts(body: string, ms: string, ss: string)
    requires ms != [] && AllDigits(ms) && ss != [] && AllDigits(ss)
    ensures ParseParts(body, [ms, " " + ss]) == Some(DecimalValue(ms) * 60 + DecimalValue(ss))
  {
    assert (" " + ss)[1..] == ss;
    ParseDecimalDigits(ms);
    ParseDecimalDigits(ss);
  }

  /** The minutes display splits at its one letter m. */
  lemma SplitMinutes(ms: string, ss: string)
    requires AllDigits(ms) && AllDigits(ss)
    ensures Split(ms + "m " + ss, 'm') == [ms, " " + ss]
  {
    var body := ms + "m " + ss;
    var rest := " " + ss;
    assert body == ms + ("m" + rest);
    NoLetterInDigits(ms, 'm');
    NoLetterInDigits(ss, 'm');
    NotInConcat(" ", ss, 'm');
    SplitPast(ms, rest, 'm');
    SplitNone(rest, 'm');
  }

  /** "{s}s" reads back as s seconds. */
  lemma SecondsForm(ss: string)
    requires ss != [] && AllDigits(ss)
    ensures ParseDuration(ss + "s") == Some(DecimalValue(ss))
  {
    var text := ss + "s";
    assert text[..|text| - 1] == ss;
    NoLetterInDigits(ss, 'm');
    SplitNone(ss, 'm');
    ParseDecimalDigits(ss);
  }

  /** A non-empty string of digits parses to its value. */
  lemma ParseDecimalDigits(s: string)
    requires s != [] && AllDigits(s)
    ensures ParseDecimal(s) == Some(DecimalValue(s))
  {
  }

  /** Splitting `a + [c] + b` with `c` not in `a` gives `a`, then the parts
      of `b`. */
  lemma SplitPast(a: string, b: string, c: char)
    requires c !in a
    ensures Split(a + ([c] + b), c) == [a] + Split(b, c)
  {
    var s := a + ([c] + b);
    assert s[..|a|] == a;
    assert s[|a| + 1..] == b;
    SplitAt(s, c, |a|);
  }

  lemma NotInConcat(a: string, b: string, c: char)
    requires c !in a && c !in b
    ensures c !in a + b
  {
  }

  /** A string of digits holds no letter. */
  lemma NoLetterInDigits(s: string, c: char)
    requires AllDigits(s) && !IsDigit(c)
    ensures c !in s
  {
  }

  /** Elapsed whole seconds, `Math.floor((now - startTime) / 1000)`. */
  function SessionSeconds(now: int, startTime: int): (s: int)
    ensures s * 1000 <= now - startTime < s * 1000 + 1000
    ensures now >= startTime ==> s >= 0
  {
    (now - startTime) / 1000
  }

  /** The sum of the key counts of the three sections, each counting as
      empty when absent. */
  function FingerprintFields(fingerprints: Value): (n: nat)
    requires Readable(fingerprints)
    ensures n == CountIfTruthy(Prop(fingerprints, "device")) + CountIfTruthy(Prop(fingerprints, "behavior"))
                 + CountIfTruthy(Prop(fingerprints, "network"))
  {
    CountFormsAgree(Prop(fingerprints, "device"));
    CountFormsAgree(Prop(fingerprints, "behavior"));
    CountFormsAgree(Prop(fingerprints, "network"));
    CountOrEmpty(Prop(fingerprints, "device")) + CountOrEmpty(Prop(fingerprints, "behavior"))
    + CountOrEmpty(Prop(fingerprints, "network"))
  }

  /** The count shown on the fingerprints tab. */
  function FingerprintCountLabel(fingerprints: Value): (text: string)
    ensures !Truthy(fingerprints) ==> text == "0 fields"
    ensures Truthy(fingerprints) ==> text == IntToString(FingerprintFields(fingerprints)) + " fields"
  {
    if Truthy(fingerprints) then IntToString(FingerprintFields(fingerprints)) + " fields" else "0 fields"
  }
}
