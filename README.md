# Anti-fraud SDK demo: a Dafny model of its own logic

The repository is a demo of an anti-fraud SDK. An Express server
(`index.js`) asks the SDK to verify each request and turns the SDK's
verdict into an HTTP reply. A React front end collects a browser
fingerprint (`src/utils/fingerprintCollector.js`) and shows requests,
responses and fingerprints in a debug panel (`src/App.jsx`,
`src/components/*.jsx`). The risk decisions themselves live in the SDK.
What the repository owns is a set of small pieces of logic, and this
project models them and proves their properties:

- **Server** (`server.dfy`):
  - the client-address middleware, a first-truthy-wins chain of seven sources;
  - the `isLocalhost` test;
  - the six per-endpoint policies, which map an SDK verdict (`ALLOW`, `REVIEW` or `DENY`, plus a risk score) to an HTTP status and a body;
  - the fingerprint endpoint, with its validation, the enhanced record and the field-count summary.
- **Fingerprint collector** (`fingerprint_collector.dfy`): a class over a
  `LocalStorage` object (a `map<string, string>`, plus a flag for storage
  that throws on every access). It covers:
  - getting or creating the session id;
  - counter reads that fall back to a default;
  - the five interaction counters, updated by event listeners;
  - the one-time session-start marker;
  - the behaviour, network and complete records;
  - the single shared instance.
- **Debug UI**:
  - the JSON preview's line truncation (`json_preview.dfy`);
  - the side panel's duration display and field count (`side_panel.dfy`);
  - the collapsible JSON tree: its expanded-id set, the 50-character truncation, the collapse depth and the empty containers (`custom_json_view.dfy`);
  - the App component's panel and session-data transitions, as a class (`app.dfy`);
  - the use-case form's initial values, change handler and number conversion (`use_case_card.dfy`).
- **End to end** (`end_to_end.dfy`): when the collector's complete record
  reaches `/api/fingerprint` unchanged, the server's summary equals the
  panel's count plus the four server fields (serialisation is left out; see
  below).
- **JavaScript semantics** (`js_value.dfy`, `js_text.dfy`): the parts of
  JavaScript these files rely on, written out explicitly:
  - values, truthiness, `||` and destructuring defaults;
  - property reads, including the throw on `null`/`undefined`;
  - objects as ordered key lists, including spread and `Object.keys`;
  - `trim`, `split` and `join`;
  - `String(int)`, `parseInt` and `Number` on integer text.

Clock readings, random id fragments and the SDK's verdict are parameters.
The browser's own readings (navigator, screen, canvas, WebGL,
`performance.now()`, page URL and title) are opaque values passed in. The
text of `JSON.stringify(data, null, 2)` is also an input.

## Model

| member | source | states |
|---|---|---|
| Server.FirstTruthyIndex | index.js:24-31 | the chosen position: every earlier source is falsy, and the chosen one is truthy unless it is the last |
| Server.ForwardedFirst | index.js:25 | present exactly when the `x-forwarded-for` header is; the entry it yields holds no comma and has no whitespace at either end |
| Server.OrStr | index.js:24-31 | `a \|\| b` on optional strings: truthy exactly when either side is, and one of the two |
| Server.ResolveClientIp | index.js:24-31 | the resolved address is one of the seven sources, and it is truthy exactly when some source is |
| Server.ResolveIsFirstTruthy | index.js:24-31 | the middleware's `||` chain yields the first truthy of the seven sources, in their fixed order, with `req.ip` as the last resort |
| Server.ForwardedForWins | index.js:25 | whenever the first comma-separated entry of `x-forwarded-for`, trimmed, is non-empty, it is the client address |
| Server.ForwardedForExample | index.js:25 | "1.2.3.4, 5.6.7.8" resolves to "1.2.3.4" |
| Server.WithClientIp | index.js:24-33 | the middleware sets `realIp` to the resolved address and changes nothing else in the request |
| Server.IsLocalhost | index.js:71-74 | true exactly when the address is "127.0.0.1", is "::1", or contains "localhost" somewhere |
| Server.VerifyIp | index.js:64-90 | DENY gives 403 and success false; REVIEW gives 202 with success still true; the rest give 200. The body carries the verdict and the detected addresses |
| Server.Demo | index.js:191-229 | the same three-way status rule; the three no-cache headers are sent on every path; the body carries the request info |
| Server.Ecommerce | index.js:237-268 | DENY gives 403 whatever the score. Otherwise a score over 70 gives 202 with requiresAuth and no success, and a score of 70 or less gives 200 with an order id. Amount defaults to 100 and product to "Produto Demo" |
| Server.Banking | index.js:277-308 | always 200 and success. A score over 80 gives "pending_approval" and no transaction id; otherwise a transaction id is issued. Amount and recipient default to 1000 and "Conta Demo" |
| Server.BankingIgnoresDeny | index.js:293-308 | a DENY verdict with a score of 80 or less still gets a transaction id |
| Server.Gaming | index.js:317-339 | always 200 and success; a score over 60 adds the warning and requiresPhoneVerification; credits default to 100 |
| Server.Login | index.js:344-366 | a score over 70 gives no success, requires2FA and no token. Otherwise a token is issued, with riskLevel "low" exactly when the score is under 30 and "medium" otherwise; username defaults to "demo@example.com" |
| Server.OrderId | index.js:370-377 | order ids start with "ORD_" |
| Server.Token | index.js:379-386 | tokens start with "TKN_" |
| Server.Spread | index.js:121 | spreading an object gives its own properties; an array or string gives one property per element or character |
| Server.ServerInfo | index.js:109-118 | the server block always has four keys |
| Server.Enhance | index.js:120-124 | the enhanced record is an object holding every key of the spread original, with at most two keys more |
| Server.EnhanceLookup | index.js:120-124 | the enhanced record maps `server` to the server block and `processed` to true; every other key keeps the original's value |
| Server.EnhancedKeepsOriginal | index.js:120-124 | for an object fingerprint, each property other than `server` and `processed` is unchanged |
| Server.Summarize | index.js:145-164 | each section count is the key count of that section, 0 when it is falsy; serverFields is 4; totalFields is their sum |
| Server.Fingerprint | index.js:94-177 | a body that cannot be destructured gives 500 with the error text. A falsy fingerprint gives 400 and "Fingerprint data is required". Otherwise 200 with the original, the enhanced record and its summary |
| FingerprintCollector.LocalStorage.SetItem | src/utils/fingerprintCollector.js:24 | stores the value under the key, leaving every other key as it was |
| FingerprintCollector.GetItem | src/utils/fingerprintCollector.js:21 | present exactly for stored keys, with the stored text |
| FingerprintCollector.NullIsNaN | src/utils/fingerprintCollector.js:227 | `parseInt` of a missing item (the text "null") is NaN |
| FingerprintCollector.StoredValue | src/utils/fingerprintCollector.js:225-231 | the parsed integer. The default when storage throws, the key is absent, the text does not parse, or it parses as 0 |
| FingerprintCollector.StoredValueReadBack | src/utils/fingerprintCollector.js:225-231 | a number written with `toString` reads back as itself, except that 0 reads back as the default |
| FingerprintCollector.CounterReadBack | src/utils/fingerprintCollector.js:247-251 | with default 0, every written counter reads back exactly |
| FingerprintCollector.GenerateSessionId | src/utils/fingerprintCollector.js:233-237 | generated ids start with "session_" |
| FingerprintCollector.SessionOutcome | src/utils/fingerprintCollector.js:19-31 | when storage throws, the generated id is returned and nothing is stored. A stored non-empty id is returned and storage is unchanged. Otherwise the generated id is stored and returned |
| FingerprintCollector.SessionIdStable | src/utils/fingerprintCollector.js:19-31 | asking again after a first call on working storage returns the same id and leaves storage unchanged, whatever new id would have been generated |
| FingerprintCollector.BrowserFingerprintCollector.constructor | src/utils/fingerprintCollector.js:3-6 | the fingerprint starts empty; the session id and the storage are what get-or-create gives |
| FingerprintCollector.BrowserFingerprintCollector.GetOrCreateSessionId | src/utils/fingerprintCollector.js:19-31 | the returned id and the new storage are the get-or-create outcome; the id is never empty |
| FingerprintCollector.BrowserFingerprintCollector.GetStoredValue | src/utils/fingerprintCollector.js:225-231 | over the collector's own storage: the default when storage throws or the key is absent; the parsed value when it parses to a non-zero integer; the default when it does not parse or parses to 0 |
| FingerprintCollector.CounterKey | src/utils/fingerprintCollector.js:247-279 | no counter key collides with `sessionStart` or the session-id key |
| FingerprintCollector.CounterKeysDistinct | src/utils/fingerprintCollector.js:247-279 | the five event kinds write five different keys |
| FingerprintCollector.Step | src/utils/fingerprintCollector.js:248-279 | one event raises its own counter by one and leaves the other four unchanged |
| FingerprintCollector.RunCounts | src/utils/fingerprintCollector.js:247-279 | after any sequence of events, each counter is its start plus the number of events of its kind |
| FingerprintCollector.RunMonotonic | src/utils/fingerprintCollector.js:247-279 | counters never decrease |
| FingerprintCollector.CountersFrom | src/utils/fingerprintCollector.js:247-275 | builds the five counters from one value per event kind |
| FingerprintCollector.LoadCounters | src/utils/fingerprintCollector.js:247-275 | each counter starts from its stored value, or 0 when that is absent, unparsable or zero |
| FingerprintCollector.MarkSessionStart | src/utils/fingerprintCollector.js:242-244 | afterwards a non-empty session start is stored. An existing truthy one is left alone, and no other key changes |
| FingerprintCollector.MarkIdempotent | src/utils/fingerprintCollector.js:242-244 | initialising again, at any later time, leaves the marker unchanged |
| FingerprintCollector.MarkKeepsCounters | src/utils/fingerprintCollector.js:242-275 | writing the marker does not change the counters read from storage |
| FingerprintCollector.BrowserFingerprintCollector.InitBehaviorTracking | src/utils/fingerprintCollector.js:240-280 | over working storage, writes the marker, loads the counters and starts tracking. Over throwing storage it changes nothing. The collector stays Valid, meaning the stored counters equal the in-memory ones |
| FingerprintCollector.BrowserFingerprintCollector.OnEvent | src/utils/fingerprintCollector.js:248-279 | while tracking, an event advances its counter and writes exactly that counter back. Before tracking it changes nothing. The collector stays Valid |
| FingerprintCollector.BrowserFingerprintCollector.TrackedCountsReported | src/utils/fingerprintCollector.js:94-98 | while tracking, the behaviour record reports exactly the counters the listeners hold |
| FingerprintCollector.BrowserFingerprintCollector.CollectBehaviorFingerprint | src/utils/fingerprintCollector.js:92-109 | each counter is the stored value with default 0; sessionDuration is now minus the stored start, where the default start is now |
| FingerprintCollector.SessionDuration | src/utils/fingerprintCollector.js:99-100 | with a stored non-zero start, the duration is the elapsed time; with no start, or over throwing storage, it is 0 |
| FingerprintCollector.BehaviorValue | src/utils/fingerprintCollector.js:93-106 | the behaviour object has exactly the eleven keys, in source order |
| FingerprintCollector.ConnectionField | src/utils/fingerprintCollector.js:209-223 | the connection API's value when it exists and is truthy, the fixed default otherwise |
| FingerprintCollector.CollectNetworkFingerprint | src/utils/fingerprintCollector.js:112-121 | ip is always "detected_by_server". Each of type, effective type, downlink and rtt is the browser's reading when the connection API exists and the reading is truthy. Otherwise type and effective type are "unknown" and downlink and rtt are 0 |
| FingerprintCollector.NetworkDefined | src/utils/fingerprintCollector.js:112-121 | no field of the network record is undefined, so none is dropped when the record is serialised |
| FingerprintCollector.NetworkValue | src/utils/fingerprintCollector.js:113-120 | the network object has exactly its six keys |
| FingerprintCollector.CompleteValue | src/utils/fingerprintCollector.js:125-132 | the complete object has exactly its six keys |
| FingerprintCollector.CompleteSections | src/utils/fingerprintCollector.js:125-132 | reading back sessionId, device, behavior and network gives the parts the record was built from |
| FingerprintCollector.BrowserFingerprintCollector.CollectCompleteFingerprint | src/utils/fingerprintCollector.js:124-133 | userId defaults to null; the session id is the collector's persisted one; the sections are the collected ones |
| FingerprintCollector.CollectorRegistry.GetInstance | src/utils/fingerprintCollector.js:11-16 | the first call builds a new collector over the given storage, with tracking off, an empty fingerprint, and its session id and storage given by get-or-create; every later call returns that object and leaves storage alone. Either way the registry stays valid and the collector returned is valid |
| FingerprintCollector.SameInstance | src/utils/fingerprintCollector.js:11-16 | two calls return the same object |
| JsonPreview.SliceEnd | src/components/JsonPreview.jsx:19 | `slice(0, end)` keeps `min(end, n)` items, counting a negative end back from the end |
| JsonPreview.FieldCount | src/components/JsonPreview.jsx:31 | objects and arrays count their keys; other data counts 0 |
| JsonPreview.FieldLabel | src/components/JsonPreview.jsx:31 | the header label ends in " fields", and the text before it reads back as the field count |
| JsonPreview.Render | src/components/JsonPreview.jsx:5-20 | falsy data gives the placeholder. Otherwise isLarge holds exactly when there are more lines than maxLines; the preview is a prefix of the lines of length min(lines, maxLines); hidden is lines minus maxLines when large and 0 otherwise; the header label is the field label; the indicator appears exactly when large. It is the corrected indicator, which starts with a line break; the source shows a backslash there (see "## Findings") |
| JsonPreview.LinesAccountedFor | src/components/JsonPreview.jsx:18-20 | preview plus hidden is the line count, and the preview is large exactly when something is hidden |
| JsonPreview.PreviewIsPrefix | src/components/JsonPreview.jsx:44 | the joined preview is a prefix of the JSON text, and is all of it when nothing is hidden |
| JsonPreview.ElevenLines | src/components/JsonPreview.jsx:5 | eleven lines under the default limit show four and hide seven |
| JsonPreview.IndicatorAsWritten | src/components/JsonPreview.jsx:45-49 | an indicator appears exactly when lines are hidden |
| JsonPreview.IndicatorShowsBackslash | src/components/JsonPreview.jsx:47 | the indicator as written starts with a backslash and an `n`, never with a line break |
| JsonPreview.Indicator | src/components/JsonPreview.jsx:45-49 | the intended indicator appears exactly when lines are hidden, starts with a line break and has no backslash |
| SidePanel.FormatJson | src/components/SidePanel.jsx:39-42 | falsy data gives "No data available"; otherwise the JSON text |
| SidePanel.DurationParts | src/components/SidePanel.jsx:45-46 | for s ≥ 0: mins ≥ 0, 0 ≤ secs < 60 and mins·60 + secs = s. For s < 0, JavaScript's `%` gives secs in (-60, 0] |
| SidePanel.JsRem | src/components/SidePanel.jsx:46 | JavaScript's `%`: smaller than the divisor in magnitude, with the dividend's sign; it is the Euclidean remainder for a non-negative dividend, and its negation for a negative one |
| SidePanel.FormatDuration | src/components/SidePanel.jsx:44-48 | from 60 seconds on, the display is "{s / 60}m {s % 60}s"; below 60 it is the seconds followed by "s" (for a negative duration, the JavaScript remainder followed by "s"); it always ends in "s" |
| SidePanel.ShowParts | src/components/SidePanel.jsx:47 | the display of a minutes and seconds pair always ends in "s" |
| SidePanel.MinutesMarker | src/components/SidePanel.jsx:47 | the display contains the letter m exactly when the minute count is positive |
| SidePanel.DurationRoundTrip | src/components/SidePanel.jsx:44-48 | every non-negative duration is read back from its "{m}m {s}s" or "{s}s" display, so different durations never display alike |
| SidePanel.SessionSeconds | src/components/SidePanel.jsx:28-31 | the whole seconds elapsed: s·1000 ≤ now − start < s·1000 + 1000 |
| SidePanel.FingerprintFields | src/components/SidePanel.jsx:90-97 | the key counts of device, behavior and network added up, each counting 0 when absent |
| SidePanel.FingerprintCountLabel | src/components/SidePanel.jsx:89-98 | "0 fields" with no fingerprint; otherwise the sum followed by " fields" |
| CustomJsonView.Toggled | src/components/CustomJsonView.jsx:7-15 | the key's membership flips and every other key keeps its membership |
| CustomJsonView.ToggleTwice | src/components/CustomJsonView.jsx:7-15 | toggling the same key twice restores the set |
| CustomJsonView.TogglesCommute | src/components/CustomJsonView.jsx:7-15 | toggles of two keys give the same set in either order |
| CustomJsonView.JsonViewState.constructor | src/components/CustomJsonView.jsx:5 | nothing is expanded at first |
| CustomJsonView.JsonViewState.ToggleKey | src/components/CustomJsonView.jsx:7-15 | the expanded set becomes the toggled old set |
| CustomJsonView.Truncate | src/components/CustomJsonView.jsx:35-36 | strings of 50 characters or fewer are unchanged. Longer ones become their first 50 characters followed by "..." |
| CustomJsonView.TruncateIdempotent | src/components/CustomJsonView.jsx:35-36 | a shown string is at most 53 characters, starts like the original, and truncating it again changes nothing |
| CustomJsonView.Render | src/components/CustomJsonView.jsx:17-111 | a toggle exists exactly for non-empty arrays and objects. Empty ones draw "[]" and "{}", null draws null, and strings are quoted and truncated. A container's id is `level-key`, its size label is its key count, and it is open exactly when its id is expanded or level < collapsed. An open container's children are rendered at level + 1 under `key-index` or `key-objKey` |
| CustomJsonView.ToggleId | src/components/CustomJsonView.jsx:17 | the id is the level's numeral and a dash followed by the key, so the key can be read back from its end |
| CustomJsonView.IsOpen | src/components/CustomJsonView.jsx:17-18 | a node above the collapse depth, or whose id was expanded, is open; with nothing expanded, open exactly above the collapse depth |
| CustomJsonView.JsonView | src/components/CustomJsonView.jsx:116 | the root is rendered under the key "root": its toggle id is `${currentLevel}-root`, and it is open exactly when that id is expanded or the level is above the collapse depth |
| CustomJsonView.ArrayEntries | src/components/CustomJsonView.jsx:62-67 | one row per element |
| CustomJsonView.ObjectEntries | src/components/CustomJsonView.jsx:99-104 | one row per key |
| CustomJsonView.ToggleOpens | src/components/CustomJsonView.jsx:50-60 | toggling a closed container's own id opens it, and toggling again closes it |
| CustomJsonView.CollapsedDepth | src/components/CustomJsonView.jsx:17-111 | with nothing expanded, at most `collapsed − level` nested containers are open |
| CustomJsonView.DefaultShowsOneLevel | src/components/CustomJsonView.jsx:4 | with the default props and nothing expanded, only the root level is open |
| CustomJsonView.SharedToggleId | src/components/CustomJsonView.jsx:18-102 | two different nodes at the same level can share one toggle id, because keys may contain "-"; expanding one then expands both |
| App.PanelToggled | src/App.jsx:66-68 | visibility flips and the tab stays |
| App.ToggleTwice | src/App.jsx:66-68 | toggling twice restores the panel |
| App.PanelClosed | src/App.jsx:70-72 | the panel is hidden and the tab stays |
| App.PanelWithTab | src/App.jsx:74-76 | only the tab changes |
| App.CloseAndTabIdempotent | src/App.jsx:66-76 | closing twice, or closing after a toggle, is the same as closing once; choosing a tab twice is the same as once |
| App.TargetTab | src/App.jsx:52 | "fingerprints" exactly for the fingerprint endpoint, "responses" for every other |
| App.AppSessionId | src/App.jsx:28-30 | the id starts with "session_" and ends with the random fragment |
| App.AppState.constructor | src/App.jsx:8-21 | a new collector over the browser's storage; the panel hidden on the fingerprints tab; the session data empty, started now |
| App.AppState.Mount | src/App.jsx:23-34 | tracking starts and the session id is recorded. When storage throws, the model returns with the session data unchanged (the source throws out of the effect; see "## Left out") |
| App.AppState.HandleApiCall | src/App.jsx:36-58 | the responses become exactly the one new call and the rest of the session data is unchanged. The panel becomes visible on the endpoint's tab |
| App.AppState.CollectFingerprints | src/App.jsx:60-64 | the collector's complete record for "demo-user" is returned and stored as the fingerprints; nothing else changes |
| App.AppState.CollectedRecordSession | src/App.jsx:60-64 | the stored record carries the collector's session id and the device reading |
| App.AppState.TogglePanel | src/App.jsx:66-68 | the panel is toggled; the session data is unchanged |
| App.AppState.ClosePanel | src/App.jsx:70-72 | the panel is closed; the session data is unchanged |
| App.AppState.SetActiveTab | src/App.jsx:74-76 | the tab is set; the session data is unchanged |
| App.CallToggleTab | src/App.jsx:36-76 | a call, then a toggle, then a tab change: one recorded call, and the panel hidden on the chosen tab |
| UseCaseCard.InitialValues | src/components/UseCaseCard.jsx:15-20 | the initial values have one key per input id, and no other keys |
| UseCaseCard.LastWithId | src/components/UseCaseCard.jsx:16-19 | the last input with the id, absent exactly when no input has it |
| UseCaseCard.InitialLookup | src/components/UseCaseCard.jsx:15-20 | each id starts with the last such input's default, or "" when that default is falsy; other keys are absent |
| UseCaseCard.InitialDistinct | src/components/UseCaseCard.jsx:15-20 | with distinct ids, each input's id maps to its own default, or "" |
| UseCaseCard.InputChanged | src/components/UseCaseCard.jsx:22-24 | the key set grows only by a new id |
| UseCaseCard.InputChangedLookup | src/components/UseCaseCard.jsx:22-24 | the changed field holds the new text and every other field is unchanged |
| UseCaseCard.UseCaseCardState.constructor | src/components/UseCaseCard.jsx:15-20 | the state starts at the initial values |
| UseCaseCard.UseCaseCardState.HandleInputChange | src/components/UseCaseCard.jsx:22-24 | the state becomes the changed values |
| UseCaseCard.UseCaseCardState.HandleTest | src/components/UseCaseCard.jsx:26-35 | the loop over the inputs produces the converted copy, and the component's own values are not modified |
| UseCaseCard.ConvertOneLookup | src/components/UseCaseCard.jsx:29-32 | one step changes at most the field its input names, and only for a number input holding a truthy value |
| UseCaseCard.ConvertOne | src/components/UseCaseCard.jsx:29-32 | one conversion step keeps the key list as it was: only a present, truthy field is overwritten |
| UseCaseCard.TestData | src/components/UseCaseCard.jsx:26-33 | after the loop over any inputs, the data has exactly the keys of the copied values, in the same order |
| UseCaseCard.TestLookup | src/components/UseCaseCard.jsx:26-34 | a field named by some number input and holding a truthy value becomes `Number(value)`; every other field is passed through unchanged |
| EndToEnd.CompleteFieldCount | src/components/SidePanel.jsx:89-98 | a complete record counts its device keys plus 17 (11 behaviour keys and 6 network keys) |
| EndToEnd.ServerTotalMatchesPanel | index.js:156-164 | the server's totalFields is the panel's count plus 4 |
| EndToEnd.PostedRecord | index.js:98 | the posted body holds the record under `fingerprint`, delivered unchanged |
| EndToEnd.PostCompleteRecord | index.js:94-168 | posting a complete record gives 200; the total is the device keys plus 21; the enhanced record carries the collector's session id |
| JsValue.Or | src/components/UseCaseCard.jsx:18 | `a \|\| b` is truthy exactly when either is, and is one of them |
| JsValue.Truthy | src/components/UseCaseCard.jsx:30 | falsy exactly for undefined, null, false, 0, NaN and the empty string |
| JsValue.Readable | index.js:98 | only undefined and null cannot be read from, and every truthy value can |
| JsValue.Default | index.js:238 | a default replaces only undefined |
| JsValue.Lookup | index.js:98 | a property is found exactly when its key is among the object's keys |
| JsValue.Put | index.js:120-124 | an existing key keeps its position; a new key goes last |
| JsValue.PutLookup | index.js:120-124 | after a put, the key holds the new value and every other key its old one |
| JsValue.PutKeepsDistinct | index.js:120-124 | a put keeps keys distinct |
| JsValue.Prop | index.js:98 | a property read gives the stored value, or undefined for a missing key or a non-object |
| JsValue.CountIfTruthy | index.js:146-148 | 0 for falsy values; the property count for objects |
| JsValue.KeyCount | index.js:146-148 | `Object.keys(v).length`: the property count of an object, the element count of an array, the character count of a string, and 0 for numbers and booleans |
| JsValue.CountFormsAgree | src/components/SidePanel.jsx:92-96 | `Object.keys(v \|\| {}).length` equals the server's `v ? Object.keys(v).length : 0` |
| JsText.Trim | index.js:25 | the result has no whitespace at either end |
| JsText.TrimStart | index.js:25 | a suffix of the text; what it drops is whitespace; it starts with no whitespace |
| JsText.TrimEnd | index.js:25 | a prefix of the text; what it drops is whitespace; it ends with no whitespace |
| JsText.TrimIsInfix | index.js:25 | the trimmed text is the original with whitespace runs removed from both ends |
| JsText.TrimNoWhitespace | index.js:25 | text without whitespace is unchanged by trimming |
| JsText.IndexOf | index.js:25 | the first occurrence, and none exactly when the character is absent |
| JsText.Split | src/components/JsonPreview.jsx:17 | at least one part; no part contains the separator; joining the parts gives the text back |
| JsText.SplitAt | index.js:25 | the first part ends at the first separator |
| JsText.SplitCount | src/components/JsonPreview.jsx:17 | the number of parts is the number of separators plus one |
| JsText.SplitFirst | index.js:25 | the first part is the longest prefix without the separator |
| JsText.JoinPrefix | src/components/JsonPreview.jsx:44 | joining the first k parts gives a prefix of joining them all |
| JsText.Includes | index.js:74 | `includes` holds exactly when the pattern occurs at some position |
| JsText.IntToString | src/utils/fingerprintCollector.js:250 | `String(i)` is the digits of \|i\|, with a minus sign for negatives |
| JsText.NatToStringInjective | src/components/SidePanel.jsx:47 | different numbers have different numerals |
| JsText.ParseIntRoundTrip | src/utils/fingerprintCollector.js:247-250 | `parseInt` reads back what `toString` writes |
| JsText.NumberRoundTrip | src/components/UseCaseCard.jsx:31 | `Number` reads back what `String` writes |
| JsText.ToNumber | src/components/UseCaseCard.jsx:31 | the result is a number or NaN, and numbers are unchanged |
| JsText.StringToNumber | src/components/UseCaseCard.jsx:31 | `Number` of text is a number or NaN, and blank text gives 0 |
| JsText.ParseInt | src/utils/fingerprintCollector.js:227 | a result needs a digit in the text; ParseIntRoundTrip states what is read back |

## Left out

- The SDK (`sdk-antifraud-core`) is not part of this model. Its verifier and middlewares are foreign code, and their verdict is an input.
- Express wiring, static files, `app.listen`, `/api/ip-debug` (an outside HTTP call), `/api/test-connection` and all console logging are I/O.
- `Date.now()`, `new Date().toISOString()` and `Math.random()` are parameters.
- Browser readings are opaque values handed in. This covers navigator, screen, window, timezone, `performance`, canvas, WebGL, `document.referrer`, the URL and the title.
- Event-listener registration, the event loop, `setInterval` timers and `fetch` are left out. Only the effect of one event on the counters is modelled.
- Repeated `initBehaviorTracking` registers duplicate listeners. Each duplicate writes the same storage key, so storage still follows one counter, which is what the model keeps. The in-memory closure copies are not modelled separately.
- Storage that throws only on writes, or only for some keys, is not modelled. The `fails` flag means that every access throws.
- Server.Ecommerce, Server.Banking, Server.Gaming, Server.Login: these require a body that can be destructured. A null or undefined body throws, and Express's default error handler answers it; that handler is not part of this model.
- Server.IsLocalhost: when the address is absent, the source's value is `undefined` (falsy); the model gives `false`.
- Objects are ordered key lists. JavaScript lists integer-like keys first, and that reordering is not modelled. Prototype properties are not modelled either.
- Strings are sequences of code points, not UTF-16 units. For text outside the Basic Multilingual Plane (e.g. emoji) this changes four things the model covers. The key count of a string (JsValue.KeyCount) reaches Server.Summarize and JsonPreview.FieldCount. Spreading a string (Server.Spread) reaches Server.Enhance for a string fingerprint. And in the 50-character truncation (CustomJsonView.Truncate), JavaScript counts the length in code units, and `substring(0, 50)` can split a surrogate pair.
- JsText.ToNumber: covers decimal integer text only. Fractions, exponents, "0x" literals and "Infinity" give NaN here, and arrays give NaN instead of converting through their string form.
- JsText.ParseInt: its own contract says only that a result needs a digit. What it reads is stated by ParseIntRoundTrip, for the numerals `toString` writes.
- Numbers are unbounded integers: floats, `-0` and precision loss are not modelled.
- `JSON.stringify` is not modelled. Its output is an input to JsonPreview and SidePanel.
- EndToEnd.PostedRecord: models the post as delivering the record unchanged. The client sends `JSON.stringify({ fingerprint })`, which drops keys whose value is undefined. A device reading can hold one, e.g. `doNotTrack` in a browser without it. Then the server counts fewer device keys than the panel does, so EndToEnd.PostCompleteRecord's total holds only for records with no undefined values. The network record never has one (FingerprintCollector.NetworkDefined).
- SidePanel.DurationParts: for negative durations only the sign and range of the parts are stated. The source's `Math.floor` and `%` disagree there, so `mins·60 + secs` is not the duration.
- JsonPreview.LinesAccountedFor: holds for a non-negative `maxLines`. With a negative one, `slice` counts back from the end and the sum no longer adds up.
- App.AppState.Mount: `initBehaviorTracking` has no try/catch, so over throwing storage the exception escapes the mount effect and is not handled. The model returns instead, with the session data unchanged, so its state after a failing Mount is not that of a page that had handled the error.
- App.jsx keeps its own session id, built by the mount effect. It differs from the collector's persisted id, and the model keeps the two apart as the source does.
- `useState(new BrowserFingerprintCollector())` builds a new collector on every render and keeps only the first. The model builds it once, in the constructor.
- The rendering of React elements (class names, icons, modals, the clipboard) is not modelled beyond the structure rendered by `renderValue`.

## Findings

| source | as written | input that shows it | evidently intended | confidence | as-written member | corrected member |
|---|---|---|---|---|---|---|
| src/components/JsonPreview.jsx:47 | the indicator text is JSX text `\n... {hiddenLines} more lines`. JSX text does not process escapes, so it shows a backslash and an `n` | any data whose JSON has more than `maxLines` lines, e.g. 11 lines with the default 4: the text reads `\n... 7 more lines` | a line break, then `... 7 more lines` | not executed | JsonPreview.IndicatorAsWritten (with JsonPreview.IndicatorShowsBackslash) | JsonPreview.Indicator (used by JsonPreview.Render) |
