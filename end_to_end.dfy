/** How the pieces fit together: the complete record the browser collector
    builds, the summary the server computes when that record is posted to
    POST /api/fingerprint, and the field count the side panel shows. */
module EndToEnd {
  import opened JsValue
  import opened FingerprintCollector
  import opened Server
  import SidePanel

  /** The behaviour section always has eleven keys and the network section
      six, so a complete record counts seventeen plus the device keys. */
  lemma CompleteFieldCount(c: Complete)
    ensures SidePanel.FingerprintFields(CompleteValue(c)) == CountIfTruthy(c.device) + 17
  {
    CompleteSections(c);
    assert |BehaviorValue(c.behavior).fields| == |Keys(BehaviorValue(c.behavior).fields)|;
    assert |NetworkValue(c.network).fields| == |Keys(NetworkValue(c.network).fields)|;
  }

  /** The server's total is the panel's sum plus the four server keys, for
      any readable fingerprint. */
  lemma ServerTotalMatchesPanel(fingerprint: Value)
    requires Readable(fingerprint)
    ensures Summarize(fingerprint).totalFields == SidePanel.FingerprintFields(fingerprint) + 4
  {
  }

  /** The request the client sends: the record under the key
      `fingerprint`. */
  function PostedRecord(req: Request, c: Complete): (r: Request)
    ensures r.body.Obj? && Prop(r.body, "fingerprint") == CompleteValue(c)
    ensures r.headers == req.headers && r.realIp == req.realIp
  {
    var body := Obj([("fingerprint", CompleteValue(c))]);
    assert Lookup(body.fields, "fingerprint") == Some(CompleteValue(c));
    req.(body := body)
  }

  /** Posting a complete record is accepted, the summary totals the device
      keys plus twenty-one, and the enhanced record carries the collector's
      session id. */
  lemma PostCompleteRecord(req: Request, c: Complete, timestamp: string, errorText: string)
    ensures var r := Server.Fingerprint(PostedRecord(req, c), timestamp, errorText);
            r.code == 200 && r.body.data.Some? &&
            r.body.data.value.summary.totalFields == CountIfTruthy(c.device) + 21 &&
            Lookup(r.body.data.value.enhanced.fields, "sessionId") == Some(Str(c.sessionId))
  {
    var fp := CompleteValue(c);
    CompleteFieldCount(c);
    ServerTotalMatchesPanel(fp);
    CompleteSections(c);
    EnhancedKeepsOriginal(fp, ServerInfo(PostedRecord(req, c), timestamp), "sessionId");
  }
}
