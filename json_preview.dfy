/** The preview box of src/components/JsonPreview.jsx: the JSON text of the
    data, cut to its first `maxLines` lines, with a count of what was cut.
    The JSON text itself (`JSON.stringify(data, null, 2)`) is an input. */
module JsonPreview {
  import opened JsValue
  import opened JsText

  const DefaultMaxLines := 4
  const NoData := "No data available"

  /** `lines.slice(0, end)`: a negative end counts back from the end. */
  function SliceEnd(n: nat, end: int): (k: nat)
    ensures k <= n
    ensures 0 <= end ==> k == if end < n then end else n
    ensures end < 0 ==> k == if n + end > 0 then n + end else 0
  {
    if end < 0 then (if n + end > 0 then n + end else 0)
    else if end < n then end else n
  }

  datatype Preview =
    | Placeholder(text: string)
    | Shown(fieldCount: nat, fieldLabel: string, isLarge: bool, previewLines: seq<string>, hiddenLines: int,
            indicator: Option<string>)

  /** `typeof data === "object" ? Object.keys(data).length : 0` for truthy
      data: arrays and objects count their keys, other values none. */
  function FieldCount(data: Value): (n: nat)
    requires Truthy(data)
    ensures data.Obj? ==> n == |data.fields|
    ensures data.Arr? ==> n == |data.items|
    ensures !data.Obj? && !data.Arr? ==> n == 0
  {
    if data.Obj? || data.Arr? then KeyCount(data) else 0
  }

  /** The component's computation, for the JSON text `json` of `data`. */
  function Render(data: Value, json: string, maxLines: int): (r: Preview)
    ensures r.Placeholder? <==> !Truthy(data)
    ensures r.Placeholder? ==> r.text == NoData
    ensures r.Shown? ==>
              var lines := Split(json, '\n');
              (r.isLarge <==> |lines| > maxLines) &&
              r.previewLines <= lines &&
              (0 <= maxLines ==> |r.previewLines| == if r.isLarge then maxLines else |lines|) &&
              r.hiddenLines == (if r.isLarge then |lines| - maxLines else 0) &&
              r.fieldCount == FieldCount(data) && r.fieldLabel == FieldLabel(data) &&
              (r.indicator.Some? <==> r.isLarge) &&
              (r.indicator.Some? ==> |r.indicator.value| > 0 && r.indicator.value[0] == '\n')
  {
    if !Truthy(data) then Placeholder(NoData)
    else
      var lines := Split(json, '\n');
      var isLarge := |lines| > maxLines;
      var previewLines := if isLarge then lines[..SliceEnd(|lines|, maxLines)] else lines;
      var hiddenLines := if isLarge then |lines| - maxLines else 0;
      Shown(FieldCount(data), FieldLabel(data), isLarge, previewLines, hiddenLines, Indicator(hiddenLines))
  }

  /** Shown and hidden lines add up to all lines (for a non-negative limit)
      and a large preview hides at least one line. */
  lemma LinesAccountedFor(data: Value, json: string, maxLines: int)
    requires Truthy(data) && 0 <= maxLines
    ensures var r := Render(data, json, maxLines);
            |r.previewLines| + r.hiddenLines == |Split(json, '\n')| &&
            (r.isLarge <==> r.hiddenLines > 0)
  {
  }

  /** The displayed text, `previewLines.join("\n")`, is a prefix of the JSON
      text, and all of it when nothing is hidden. */
  lemma PreviewIsPrefix(data: Value, json: string, maxLines: int)
    requires Truthy(data)
    ensures var r := Render(data, json, maxLines);
            Join(r.previewLines, '\n') <= json &&
            (!r.isLarge ==> Join(r.previewLines, '\n') == json)
  {
    var lines := Split(json, '\n');
    var r := Render(data, json, maxLines);
    JoinPrefix(lines, |r.previewLines|, '\n');
    assert lines[..|r.previewLines|] == r.previewLines;
  }

  /** The header's label: the field count's numeral, then " fields". */
  function FieldLabel(data: Value): (caption: string)
    requires Truthy(data)
    ensures |caption| > 7 && caption[|caption| - 7..] == " fields"
    ensures ParseDecimal(caption[..|caption| - 7]) == Some(FieldCount(data))
  {
    var n := FieldCount(data);
    var caption := IntToString(n) + " fields";
    assert caption[|caption| - 7..] == " fields";
    assert caption[..|caption| - 7] == NatToString(n);
    ParseDecimalRoundTrip(n);
    caption
  }

  /** The truncation indicator as the JSX text writes it: JSX text does not
      interpret escapes, so `\n` is shown as a backslash and an `n`. */
  function IndicatorAsWritten(hiddenLines: int): (t: Option<string>)
    ensures t.Some? <==> hiddenLines > 0
  {
    if hiddenLines > 0 then Some("\\n... " + IntToString(hiddenLines) + " more lines") else None
  }

  /** The indicator evidently intended: a line break, then the count. */
  function Indicator(hiddenLines: int): (t: Option<string>)
    ensures t.Some? <==> hiddenLines > 0
    ensures t.Some? ==> |t.value| > 0 && t.value[0] == '\n' && '\\' !in t.value
  {
    if hiddenLines > 0 then Some("\n... " + IntToString(hiddenLines) + " more lines") else None
  }

  /** The indicator as written starts with a literal backslash, never with a
      line break. */
  lemma IndicatorShowsBackslash(hiddenLines: int)
    requires hiddenLines > 0
    ensures IndicatorAsWritten(hiddenLines).value[..2] == "\\n"
    ensures IndicatorAsWritten(hiddenLines) != Indicator(hiddenLines)
  {
    assert IndicatorAsWritten(hiddenLines).value[0] == '\\';
  }

  /** Example: eleven lines under the default limit of four show four and
      hide seven. */
  lemma ElevenLines(data: Value, json: string)
    requires Truthy(data) && |Split(json, '\n')| == 11
    ensures var r := Render(data, json, DefaultMaxLines);
            r.isLarge && |r.previewLines| == 4 && r.hiddenLines == 7
  {
  }
}
