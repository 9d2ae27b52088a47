/** The state of the top-level component, src/App.jsx: the debug panel
    (visible or not, which tab) and the session data shown in it, with the
    handlers that replace them. React's state setters become assignments to
    the fields of one object. */
module App {
  import opened JsValue
  import opened JsText
  import opened FingerprintCollector

  const FingerprintsTab := "fingerprints"
  const ResponsesTab := "responses"
  const DemoUser := "demo-user"

  datatype Panel = Panel(isVisible: bool, activeTab: string)

  /** One recorded API call; `id` is the clock reading, `timestamp` its ISO
      text, both inputs. */
  datatype ApiCall = ApiCall(id: int, endpoint: string, request: Value, response: Value, timestamp: string)

  datatype SessionData = SessionData(
    fingerprints: Value, apiResponses: seq<ApiCall>, sessionId: Option<string>, startTime: int)

  // ---------------------------------------------------------------------
  // Panel transitions

  /** `togglePanel`: visibility flips, the tab stays. */
  function PanelToggled(p: Panel): (r: Panel)
    ensures r.isVisible != p.isVisible && r.activeTab == p.activeTab
  {
    p.(isVisible := !p.isVisible)
  }

  /** `closePanel`: hidden, the tab stays. */
  function PanelClosed(p: Panel): (r: Panel)
    ensures !r.isVisible && r.activeTab == p.activeTab
  {
    p.(isVisible := false)
  }

  /** `setActiveTab(tab)`: only the tab changes. */
  function PanelWithTab(p: Panel, tab: string): (r: Panel)
    ensures r.activeTab == tab && r.isVisible == p.isVisible
  {
    p.(activeTab := tab)
  }

  /** The tab an API call opens: the fingerprints for the fingerprint
      endpoint, the responses for every other. */
  function TargetTab(endpoint: string): (tab: string)
    ensures tab == FingerprintsTab <==> endpoint == "fingerprint"
    ensures tab == FingerprintsTab || tab == ResponsesTab
  {
    if endpoint == "fingerprint" then FingerprintsTab else ResponsesTab
  }

  /** Toggling twice restores the panel. */
  lemma ToggleTwice(p: Panel)
    ensures PanelToggled(PanelToggled(p)) == p
  {
  }

  /** Closing is idempotent, and so is choosing the same tab twice; neither
      depends on whether the panel was visible before. */
  lemma CloseAndTabIdempotent(p: Panel, tab: string)
    ensures PanelClosed(PanelClosed(p)) == PanelClosed(p)
    ensures PanelClosed(PanelToggled(p)) == PanelClosed(p)
    ensures PanelWithTab(PanelWithTab(p, tab), tab) == PanelWithTab(p, tab)
  {
  }

  /** The id the effect logs and stores: "session_", the clock, "_", and
      seven base-36 characters of a random number (an input). */
  function AppSessionId(now: int, random: string): (id: string)
    ensures |id| >= 10 + |random| && id[..8] == "session_" && id[|id| - |random|..] == random
  {
    var id := "session_" + IntToString(now) + "_" + random;
    assert id[..8] == "session_";
    assert id[|id| - |random|..] == random;
    id
  }

  // ---------------------------------------------------------------------
  // The component

  class AppState {
    const collector: BrowserFingerprintCollector
    var debugPanel: Panel
    var sessionData: SessionData

    predicate Valid()
      reads this, collector, collector.store
    {
      collector.Valid()
    }

    /** The first render: a collector over the browser's storage, a hidden
        panel on the fingerprints tab, and empty session data started at
        `now`. */
    constructor(store: LocalStorage, now: int, random: string)
      modifies store
      ensures Valid() && fresh(collector) && collector.store == store
      ensures debugPanel == Panel(false, FingerprintsTab)
      ensures sessionData == SessionData(Null, [], None, now)
    {
      collector := new BrowserFingerprintCollector(store, now, random);
      debugPanel := Panel(false, FingerprintsTab);
      sessionData := SessionData(Null, [], None, now);
    }

    /** The mount effect: start behaviour tracking, then record a session
        id. When tracking throws (storage unavailable) the effect stops
        before the id is set. */
    method Mount(now: int, random: string)
      requires Valid()
      modifies this, collector, collector.store
      ensures Valid() && debugPanel == old(debugPanel)
      ensures collector.store.fails ==> sessionData == old(sessionData)
      ensures !collector.store.fails ==>
                collector.tracking &&
                sessionData == old(sessionData).(sessionId := Some(AppSessionId(now, random)))
    {
      var ok := collector.InitBehaviorTracking(now);
      if ok {
        sessionData := sessionData.(sessionId := Some(AppSessionId(now, random)));
      }
    }

    /** `handleApiCall`: the new call replaces every earlier one, and the
        panel opens on the tab for its endpoint. */
    method HandleApiCall(endpoint: string, request: Value, response: Value, now: int, isoTime: string)
      modifies this
      ensures sessionData == old(sessionData).(apiResponses := [ApiCall(now, endpoint, request, response, isoTime)])
      ensures debugPanel == Panel(true, TargetTab(endpoint))
    {
      var newCall := ApiCall(now, endpoint, request, response, isoTime);
      sessionData := sessionData.(apiResponses := [newCall]);
      debugPanel := Panel(true, TargetTab(endpoint));
    }

    /** `collectFingerprints`: the complete record for the demo user, kept
        in the session data and returned. The browser readings are
        inputs. */
    method CollectFingerprints(device: Value, page: PageInfo, connection: Value, now: int)
      returns (fingerprints: Value)
      modifies this
      ensures fingerprints ==
              CompleteValue(collector.CollectCompleteFingerprint(Str(DemoUser), device, page, connection, now))
      ensures sessionData == old(sessionData).(fingerprints := fingerprints)
      ensures debugPanel == old(debugPanel)
    {
      var c := collector.CollectCompleteFingerprint(Str(DemoUser), device, page, connection, now);
      fingerprints := CompleteValue(c);
      sessionData := sessionData.(fingerprints := fingerprints);
    }

    method TogglePanel()
      modifies this
      ensures debugPanel == PanelToggled(old(debugPanel)) && sessionData == old(sessionData)
    {
      debugPanel := PanelToggled(debugPanel);
    }

    method ClosePanel()
      modifies this
      ensures debugPanel == PanelClosed(old(debugPanel)) && sessionData == old(sessionData)
    {
      debugPanel := PanelClosed(debugPanel);
    }

    method SetActiveTab(tab: string)
      modifies this
      ensures debugPanel == PanelWithTab(old(debugPanel), tab) && sessionData == old(sessionData)
    {
      debugPanel := PanelWithTab(debugPanel, tab);
    }

    /** The record `collectFingerprints` stores carries the collector's
        session id and the device reading. */
    lemma CollectedRecordSession(device: Value, page: PageInfo, connection: Value, now: int)
      ensures var fp := CompleteValue(collector.CollectCompleteFingerprint(Str(DemoUser), device, page, connection, now));
              Prop(fp, "sessionId") == Str(collector.sessionId) && Prop(fp, "device") == device
    {
      CompleteSections(collector.CollectCompleteFingerprint(Str(DemoUser), device, page, connection, now));
    }
  }

  /** A sequence of handler calls: a call, a toggle and a tab change leave
      one recorded call and the panel hidden on the chosen tab. */
  method CallToggleTab(app: AppState, endpoint: string, now: int, iso: string, tab: string)
    modifies app
    ensures |app.sessionData.apiResponses| == 1 && app.sessionData.apiResponses[0].endpoint == endpoint
    ensures app.debugPanel == Panel(false, tab)
  {
    app.HandleApiCall(endpoint, Null, Null, now, iso);
    app.TogglePanel();
    app.SetActiveTab(tab);
  }
}
