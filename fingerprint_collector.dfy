/** The browser-side collector of src/utils/fingerprintCollector.js: a
    session id kept in persistent key/value storage, counter reads that fall
    back to a default, five interaction counters written back on every event,
    a session-start marker set only once, the record it assembles, and the
    process-wide single instance. Time and the random part of an id are
    parameters; the browser's own readings (navigator, screen, canvas, WebGL)
    are opaque values handed in. */
module FingerprintCollector {
  import opened JsValue
  import opened JsText

  // ---------------------------------------------------------------------
  // Persistent storage

  /** `window.localStorage`: string values under string keys. When the
      browser refuses storage (private mode, disabled cookies) every access
      throws; `fails` says whether that is so. */
  class LocalStorage {
    var items: map<string, string>
    const fails: bool

    constructor(initial: map<string, string>, fails: bool)
      ensures items == initial && this.fails == fails
    {
      items := initial;
      this.fails := fails;
    }

    /** `setItem(key, value)` */
    method SetItem(key: string, value: string)
      requires !fails
      modifies this
      ensures items == old(items)[key := value]
    {
      items := items[key := value];
    }
  }

  /** `getItem(key)`, with an absent key as `None` (JavaScript's null). */
  function GetItem(items: map<string, string>, key: string): (r: Option<string>)
    ensures r.Some? <==> key in items
    ensures r.Some? ==> r.value == items[key]
  {
    if key in items then Some(items[key]) else None
  }

  // ---------------------------------------------------------------------
  // getStoredValue

  /** `parseInt(localStorage.getItem(key)) || defaultValue`, and the default
      when storage throws. `parseInt(null)` parses the text "null", which is
      NaN. */
  function StoredValue(items: map<string, string>, fails: bool, key: string, default: int): (r: int)
    ensures fails || key !in items ==> r == default
    ensures !fails && key in items ==>
              var p := ParseInt(items[key]);
              (p.Some? && p.value != 0 ==> r == p.value) &&
              (p.None? || p == Some(0) ==> r == default)
  {
    if fails then default
    else
      var text := if key in items then items[key] else "null";
      var p := ParseInt(text);
      NullIsNaN();
      if p.Some? && p.value != 0 then p.value else default
  }

  /** `parseInt("null")` is NaN: the text holds no digit. */
  lemma NullIsNaN()
    ensures ParseInt("null").None?
  {
    assert forall i :: 0 <= i < |"null"| ==> !IsHexDigit("null"[i]);
  }

  /** A number written with `toString()` reads back as itself, except that
      0 reads back as the default (`0 || d` is `d`). */
  lemma StoredValueReadBack(items: map<string, string>, key: string, n: int, default: int)
    ensures StoredValue(items[key := IntToString(n)], false, key, default) == if n != 0 then n else default
  {
    ParseIntRoundTrip(n);
  }

  /** With a default of 0 every written counter reads back exactly. */
  lemma CounterReadBack(items: map<string, string>, key: string, n: int)
    ensures StoredValue(items[key := IntToString(n)], false, key, 0) == n
  {
    StoredValueReadBack(items, key, n, 0);
  }

  // ---------------------------------------------------------------------
  // Session id

  const SessionIdKey := "antifraud_session_id"

  /** `"session_" + Date.now() + "_" + random`; the clock reading and the
      base-36 random fragment are parameters. */
  function GenerateSessionId(now: int, random: string): (id: string)
    ensures |id| > 8 && id[..8] == "session_"
  {
    "session_" + IntToString(now) + "_" + random
  }

  /** The outcome of `getOrCreateSessionId` on storage `items`: the id it
      returns and the storage afterwards. */
  function SessionOutcome(items: map<string, string>, fails: bool, generated: string): (r: (string, map<string, string>))
    ensures fails ==> r == (generated, items)
    ensures !fails && SessionIdKey in items && items[SessionIdKey] != "" ==> r == (items[SessionIdKey], items)
    ensures !fails && (SessionIdKey !in items || items[SessionIdKey] == "") ==>
              r == (generated, items[SessionIdKey := generated])
  {
    if fails then (generated, items)
    else
      match GetItem(items, SessionIdKey)
      case Some(id) => if id != "" then (id, items) else (generated, items[SessionIdKey := generated])
      case None => (generated, items[SessionIdKey := generated])
  }

  /** Once an id has been handed out from working storage, asking again
      (with any other generated candidate) returns the same id and leaves storage
      as it is. */
  lemma SessionIdStable(items: map<string, string>, generated: string, generated': string)
    requires generated != ""
    ensures var (id, after) := SessionOutcome(items, false, generated);
            SessionOutcome(after, false, generated') == (id, after)
  {
  }

  // ---------------------------------------------------------------------
  // Interaction counters

  datatype EventKind = MouseMove | Click | KeyDown | Scroll | Focus

  /** The storage key each event's counter is written under. */
  function CounterKey(e: EventKind): (key: string)
    ensures key != "sessionStart" && key != SessionIdKey
  {
    match e
    case MouseMove => "mouseMovements"
    case Click => "clicks"
    case KeyDown => "keystrokes"
    case Scroll => "scrollEvents"
    case Focus => "focusEvents"
  }

  lemma CounterKeysDistinct(e: EventKind, e': EventKind)
    ensures CounterKey(e) == CounterKey(e') <==> e == e'
  {
  }

  /** The five closure variables `mouseCount` … `focusCount`. */
  datatype Counters = Counters(mouseMovements: int, clicks: int, keystrokes: int, scrollEvents: int, focusEvents: int)

  function Count(c: Counters, e: EventKind): int {
    match e
    case MouseMove => c.mouseMovements
    case Click => c.clicks
    case KeyDown => c.keystrokes
    case Scroll => c.scrollEvents
    case Focus => c.focusEvents
  }

  /** One listener firing: its own counter goes up by one, the rest stay. */
  function Step(c: Counters, e: EventKind): (c': Counters)
    ensures Count(c', e) == Count(c, e) + 1
    ensures forall e' :: e' != e ==> Count(c', e') == Count(c, e')
  {
    match e
    case MouseMove => c.(mouseMovements := c.mouseMovements + 1)
    case Click => c.(clicks := c.clicks + 1)
    case KeyDown => c.(keystrokes := c.keystrokes + 1)
    case Scroll => c.(scrollEvents := c.scrollEvents + 1)
    case Focus => c.(focusEvents := c.focusEvents + 1)
  }

  /** The counters after a sequence of events, in order. */
  function Run(c: Counters, events: seq<EventKind>): Counters
    decreases |events|
  {
    if |events| == 0 then c else Run(Step(c, events[0]), events[1..])
  }

  /** After any sequence of events, each counter is its start plus the
      number of events of its kind. */
  lemma {:induction false} RunCounts(c: Counters, events: seq<EventKind>, e: EventKind)
    ensures Count(Run(c, events), e) == Count(c, e) + multiset(events)[e]
    decreases |events|
  {
    if |events| > 0 {
      RunCounts(Step(c, events[0]), events[1..], e);
      assert events == [events[0]] + events[1..];
      assert multiset(events) == multiset([events[0]]) + multiset(events[1..]);
    }
  }

  /** Counters never go down. */
  lemma RunMonotonic(c: Counters, events: seq<EventKind>, e: EventKind)
    ensures Count(Run(c, events), e) >= Count(c, e)
  {
    RunCounts(c, events, e);
  }

  lemma CountersEqual(a: Counters, b: Counters)
    requires forall e :: Count(a, e) == Count(b, e)
    ensures a == b
  {
    assert Count(a, MouseMove) == Count(b, MouseMove) && Count(a, Click) == Count(b, Click);
    assert Count(a, KeyDown) == Count(b, KeyDown) && Count(a, Scroll) == Count(b, Scroll);
    assert Count(a, Focus) == Count(b, Focus);
  }

  /** Five counters, one per event kind, as given by `f`. */
  function CountersFrom(f: EventKind -> int): (c: Counters)
    ensures forall e :: Count(c, e) == f(e)
  {
    Counters(f(MouseMove), f(Click), f(KeyDown), f(Scroll), f(Focus))
  }

  /** What `initBehaviorTracking` loads: each counter from storage, 0 when
      absent, unparsable or zero. */
  function LoadCounters(items: map<string, string>): (c: Counters)
    ensures forall e :: Count(c, e) == StoredValue(items, false, CounterKey(e), 0)
  {
    CountersFrom(e => StoredValue(items, false, CounterKey(e), 0))
  }

  /** Storage holds what the counters hold, read the way `getStoredValue`
      reads it. */
  predicate CountersStored(items: map<string, string>, c: Counters) {
    forall e :: StoredValue(items, false, CounterKey(e), 0) == Count(c, e)
  }

  /** The storage after `initBehaviorTracking`'s first statement: the
      session start is written only when none (or an empty one) is stored. */
  function MarkSessionStart(items: map<string, string>, now: int): (r: map<string, string>)
    ensures "sessionStart" in r && r["sessionStart"] != ""
    ensures TruthyStr(GetItem(items, "sessionStart")) ==> r == items
    ensures forall k :: k != "sessionStart" ==> (k in r <==> k in items) && (k in r ==> r[k] == items[k])
  {
    if TruthyStr(GetItem(items, "sessionStart")) then items else items["sessionStart" := IntToString(now)]
  }

  /** Initialising again, at any later time, leaves the marker as it was. */
  lemma MarkIdempotent(items: map<string, string>, now: int, later: int)
    ensures MarkSessionStart(MarkSessionStart(items, now), later) == MarkSessionStart(items, now)
  {
  }

  /** Writing the marker does not disturb the counters read from storage. */
  lemma MarkKeepsCounters(items: map<string, string>, now: int)
    ensures LoadCounters(MarkSessionStart(items, now)) == LoadCounters(items)
    ensures CountersStored(MarkSessionStart(items, now), LoadCounters(items))
  {
    var after := MarkSessionStart(items, now);
    forall e ensures StoredValue(after, false, CounterKey(e), 0) == StoredValue(items, false, CounterKey(e), 0) {
      assert CounterKey(e) in after <==> CounterKey(e) in items;
    }
    CountersEqual(LoadCounters(after), LoadCounters(items));
  }

  // ---------------------------------------------------------------------
  // The records the collector assembles

  /** The environment readings the behaviour record copies verbatim. */
  datatype PageInfo = PageInfo(pageLoadTime: Value, referrer: Value, url: Value, title: Value)

  /** The behaviour record: the five counters as read from storage, the
      session duration, the page readings and the clock. */
  datatype Behavior = Behavior(counts: Counters, sessionDuration: int, page: PageInfo, timestamp: int)

  const BehaviorKeys := ["mouseMovements", "keystrokes", "clicks", "scrollEvents", "focusEvents",
                         "sessionDuration", "pageLoadTime", "referrer", "url", "title", "timestamp"]

  /** The behaviour record as the JavaScript object it is sent as. */
  function BehaviorValue(b: Behavior): (v: Value)
    ensures v.Obj? && Keys(v.fields) == BehaviorKeys
  {
    Obj(Record(BehaviorKeys,
               [Num(b.counts.mouseMovements), Num(b.counts.keystrokes), Num(b.counts.clicks),
                Num(b.counts.scrollEvents), Num(b.counts.focusEvents), Num(b.sessionDuration),
                b.page.pageLoadTime, b.page.referrer, b.page.url, b.page.title, Num(b.timestamp)]))
  }

  /** `navigator.connection?.key || d` */
  function ConnectionField(connection: Value, key: string, d: Value): (r: Value)
    ensures !Readable(connection) ==> r == d
    ensures Readable(connection) && Truthy(Prop(connection, key)) ==> r == Prop(connection, key)
    ensures Readable(connection) && !Truthy(Prop(connection, key)) ==> r == d
  {
    if Readable(connection) then Or(Prop(connection, key), d) else d
  }

  datatype Network = Network(ip: string, connectionType: Value, effectiveType: Value,
                             downlink: Value, rtt: Value, timestamp: int)

  const NetworkKeys := ["ip", "connectionType", "effectiveType", "downlink", "rtt", "timestamp"]

  function NetworkValue(n: Network): (v: Value)
    ensures v.Obj? && Keys(v.fields) == NetworkKeys
  {
    Obj(Record(NetworkKeys,
               [Str(n.ip), n.connectionType, n.effectiveType, n.downlink, n.rtt, Num(n.timestamp)]))
  }

  /** What one connection figure should be: the browser's reading when the
      connection API exists and the reading is truthy, `d` otherwise. */
  predicate ReadingOrDefault(connection: Value, key: string, d: Value, r: Value) {
    if Readable(connection) && Truthy(Prop(connection, key)) then r == Prop(connection, key) else r == d
  }

  /** `collectNetworkFingerprint()` given `navigator.connection`: the
      address is left to the server, and each connection figure is the
      browser's when it has a truthy one and a fixed default otherwise. */
  function CollectNetworkFingerprint(connection: Value, now: int): (n: Network)
    ensures n.ip == "detected_by_server" && n.timestamp == now
    ensures ReadingOrDefault(connection, "type", Str("unknown"), n.connectionType)
    ensures ReadingOrDefault(connection, "effectiveType", Str("unknown"), n.effectiveType)
    ensures ReadingOrDefault(connection, "downlink", Num(0), n.downlink)
    ensures ReadingOrDefault(connection, "rtt", Num(0), n.rtt)
    ensures Truthy(n.connectionType) && Truthy(n.effectiveType)
  {
    Network("detected_by_server",
            ConnectionField(connection, "type", Str("unknown")),
            ConnectionField(connection, "effectiveType", Str("unknown")),
            ConnectionField(connection, "downlink", Num(0)),
            ConnectionField(connection, "rtt", Num(0)),
            now)
  }

  /** No field of the network record is ever undefined: a truthy reading
      is defined, and every default is. So all six keys survive
      `JSON.stringify` when the record is sent. */
  lemma NetworkDefined(connection: Value, now: int)
    ensures var v := NetworkValue(CollectNetworkFingerprint(connection, now));
            forall i :: 0 <= i < |v.fields| ==> v.fields[i].1 != Undefined
  {
    var n := CollectNetworkFingerprint(connection, now);
    var values := [Str(n.ip), n.connectionType, n.effectiveType, n.downlink, n.rtt, Num(n.timestamp)];
    assert forall j :: 0 <= j < |values| ==> values[j] != Undefined;
    var fields := Record(NetworkKeys, values);
    assert NetworkValue(n) == Obj(fields);
    assert forall i :: 0 <= i < |fields| ==> fields[i].1 == values[i];
  }

  /** The complete record. The device part is the browser's own reading. */
  datatype Complete = Complete(userId: Value, sessionId: string, device: Value,
                               behavior: Behavior, network: Network, timestamp: int)

  const CompleteKeys := ["userId", "sessionId", "device", "behavior", "network", "timestamp"]

  function CompleteValue(c: Complete): (v: Value)
    ensures v.Obj? && Keys(v.fields) == CompleteKeys
  {
    Obj(Record(CompleteKeys,
               [c.userId, Str(c.sessionId), c.device, BehaviorValue(c.behavior), NetworkValue(c.network),
                Num(c.timestamp)]))
  }

  /** The sections of a complete record, read back by key. */
  lemma CompleteSections(c: Complete)
    ensures Prop(CompleteValue(c), "sessionId") == Str(c.sessionId)
    ensures Prop(CompleteValue(c), "device") == c.device
    ensures Prop(CompleteValue(c), "behavior") == BehaviorValue(c.behavior)
    ensures Prop(CompleteValue(c), "network") == NetworkValue(c.network)
  {
    var values := [c.userId, Str(c.sessionId), c.device, BehaviorValue(c.behavior), NetworkValue(c.network),
                   Num(c.timestamp)];
    assert Distinct(CompleteKeys);
    RecordLookup(CompleteKeys, values, 1);
    RecordLookup(CompleteKeys, values, 2);
    RecordLookup(CompleteKeys, values, 3);
    RecordLookup(CompleteKeys, values, 4);
  }

  class BrowserFingerprintCollector {
    const store: LocalStorage
    var fingerprint: Value
    var sessionId: string
    /** Whether `initBehaviorTracking` has installed the listeners. */
    var tracking: bool
    var counters: Counters

    /** Listeners exist only over working storage, and while they do each
        stored counter reads as the counter in memory. */
    predicate Valid()
      reads this, store
    {
      sessionId != "" &&
      (tracking ==> !store.fails && CountersStored(store.items, counters))
    }

    /** `new BrowserFingerprintCollector()` */
    constructor(store: LocalStorage, now: int, random: string)
      modifies store
      ensures Valid()
      ensures this.store == store && fingerprint == Obj([]) && !tracking
      ensures (sessionId, store.items) ==
              SessionOutcome(old(store.items), store.fails, GenerateSessionId(now, random))
    {
      this.store := store;
      fingerprint := Obj([]);
      sessionId := "";
      tracking := false;
      counters := Counters(0, 0, 0, 0, 0);
      new;
      sessionId := GetOrCreateSessionId(now, random);
    }

    /** `getOrCreateSessionId()`: a stored non-empty id is kept; otherwise a
        generated one is stored; when storage throws the generated one is returned and
        nothing is stored. */
    method GetOrCreateSessionId(now: int, random: string) returns (id: string)
      modifies store
      ensures (id, store.items) == SessionOutcome(old(store.items), store.fails, GenerateSessionId(now, random))
      ensures id != ""
    {
      var generated := GenerateSessionId(now, random);
      if store.fails {
        return generated;
      }
      var stored := GetItem(store.items, SessionIdKey);
      if stored.Some? && stored.value != "" {
        id := stored.value;
      } else {
        id := generated;
        store.SetItem(SessionIdKey, id);
      }
    }

    /** `getStoredValue(key, defaultValue)` */
    function GetStoredValue(key: string, default: int): (r: int)
      reads store
      ensures store.fails || key !in store.items ==> r == default
      ensures !store.fails && key in store.items ==>
                var p := ParseInt(store.items[key]);
                (p.Some? && p.value != 0 ==> r == p.value) &&
                (p.None? || p == Some(0) ==> r == default)
    {
      StoredValue(store.items, store.fails, key, default)
    }

    /** `collectBehaviorFingerprint()` at clock reading `now`: the five
        stored counters and the time since the stored session start. */
    function CollectBehaviorFingerprint(now: int, page: PageInfo): (b: Behavior)
      reads store
      ensures forall e :: Count(b.counts, e) == StoredValue(store.items, store.fails, CounterKey(e), 0)
      ensures b.sessionDuration == now - StoredValue(store.items, store.fails, "sessionStart", now)
      ensures b.page == page && b.timestamp == now
    {
      var items, fails := store.items, store.fails;
      Behavior(CountersFrom(e => StoredValue(items, fails, CounterKey(e), 0)),
               now - GetStoredValue("sessionStart", now), page, now)
    }

    /** `collectCompleteFingerprint(userId = null)`: the device record is
        the browser's own reading, passed in; the session id is the one the
        collector holds. */
    function CollectCompleteFingerprint(userId: Value, device: Value, page: PageInfo,
                                        connection: Value, now: int): (c: Complete)
      reads this, store
      ensures c.userId == if userId.Undefined? then Null else userId
      ensures c.sessionId == sessionId && c.device == device && c.timestamp == now
      ensures c.behavior == CollectBehaviorFingerprint(now, page)
      ensures c.network == CollectNetworkFingerprint(connection, now)
    {
      Complete(Default(userId, Null), sessionId, device, CollectBehaviorFingerprint(now, page),
               CollectNetworkFingerprint(connection, now), now)
    }

    /** While tracking, the behaviour record reports exactly the counters the
        listeners have counted. */
    lemma TrackedCountsReported(now: int, page: PageInfo)
      requires Valid() && tracking
      ensures CollectBehaviorFingerprint(now, page).counts == counters
    {
      var b := CollectBehaviorFingerprint(now, page);
      forall e ensures Count(b.counts, e) == Count(counters, e) {
        assert Count(b.counts, e) == StoredValue(store.items, false, CounterKey(e), 0);
      }
      CountersEqual(b.counts, counters);
    }

    /** `initBehaviorTracking()` at clock reading `now`. It has no
        try/catch: over failing storage it throws before touching anything,
        reported here as `ok == false`. */
    method InitBehaviorTracking(now: int) returns (ok: bool)
      requires Valid()
      modifies this, store
      ensures Valid()
      ensures ok <==> !store.fails
      ensures !ok ==> store.items == old(store.items) && tracking == old(tracking) && counters == old(counters)
      ensures ok ==> tracking && counters == LoadCounters(old(store.items))
      ensures ok ==> store.items == MarkSessionStart(old(store.items), now)
      ensures sessionId == old(sessionId) && fingerprint == old(fingerprint)
    {
      if store.fails {
        return false;
      }
      if !TruthyStr(GetItem(store.items, "sessionStart")) {
        store.SetItem("sessionStart", IntToString(now));
      }
      counters := LoadCounters(store.items);
      MarkKeepsCounters(old(store.items), now);
      tracking := true;
      ok := true;
    }

    /** One event reaching its listener: the matching counter goes up by one
        and is written back; nothing else changes. Before tracking starts
        there is no listener and the event is lost. */
    method OnEvent(e: EventKind)
      requires Valid()
      modifies this, store
      ensures Valid()
      ensures tracking == old(tracking) && sessionId == old(sessionId) && fingerprint == old(fingerprint)
      ensures !tracking ==> counters == old(counters) && store.items == old(store.items)
      ensures tracking ==> counters == Step(old(counters), e) &&
                           store.items == old(store.items)[CounterKey(e) := IntToString(Count(counters, e))]
    {
      if !tracking {
        return;
      }
      counters := Step(counters, e);
      store.SetItem(CounterKey(e), IntToString(Count(counters, e)));
      forall e' ensures StoredValue(store.items, false, CounterKey(e'), 0) == Count(counters, e') {
        if e' == e {
          CounterReadBack(old(store.items), CounterKey(e), Count(counters, e));
        } else {
          CounterKeysDistinct(e, e');
        }
      }
    }
  }

  /** With a session start written by an earlier `initBehaviorTracking` at
      `start`, the reported duration is the elapsed time; with none (or over
      failing storage) it is 0. */
  lemma SessionDuration(items: map<string, string>, fails: bool, start: int, now: int)
    ensures start != 0 ==>
              now - StoredValue(items["sessionStart" := IntToString(start)], false, "sessionStart", now) == now - start
    ensures "sessionStart" !in items || fails ==> now - StoredValue(items, fails, "sessionStart", now) == 0
  {
    StoredValueReadBack(items, "sessionStart", start, now);
  }

  // ---------------------------------------------------------------------
  // The single instance

  /** The static `instance` slot of the class. */
  class CollectorRegistry {
    var instance: BrowserFingerprintCollector?

    /** The instance, once built, is a valid collector. */
    predicate Valid()
      reads this, if instance != null then {instance, instance.store} else {}
    {
      instance != null ==> instance.Valid()
    }

    constructor()
      ensures instance == null && Valid()
    {
      instance := null;
    }

    /** `getInstance()`: built on first use over the given storage, the same
        object ever after. */
    method GetInstance(store: LocalStorage, now: int, random: string) returns (c: BrowserFingerprintCollector)
      requires Valid()
      modifies this, store
      ensures instance == c && Valid() && c.Valid()
      ensures old(instance) != null ==> c == old(instance) && store.items == old(store.items)
      ensures old(instance) == null ==> fresh(c) && c.store == store && c.Valid()
      ensures old(instance) == null ==>
                !c.tracking && c.fingerprint == Obj([]) &&
                (c.sessionId, store.items) == SessionOutcome(old(store.items), store.fails, GenerateSessionId(now, random))
    {
      if instance == null {
        instance := new BrowserFingerprintCollector(store, now, random);
      }
      c := instance;
    }
  }

  /** Two calls of `getInstance` yield one object. */
  method SameInstance(registry: CollectorRegistry, store: LocalStorage, now: int, random: string)
    returns (first: BrowserFingerprintCollector, second: BrowserFingerprintCollector)
    requires registry.Valid()
    modifies registry, store
    ensures first == second && first.Valid()
  {
    first := registry.GetInstance(store, now, random);
    second := registry.GetInstance(store, now + 1, random + "x");
  }
}
