/** The decision logic of the Express server in index.js: resolving the
    client address, telling whether it is local, and turning a verification
    result (computed by the external anti-fraud SDK, an input here) into the
    HTTP status and JSON envelope of each endpoint. */
module Server {
  import opened JsValue
  import opened JsText

  // ---------------------------------------------------------------------
  // Requests and the client-IP middleware

  /** What the handlers read from an Express request. Header names are
      lower-case, as Node delivers them. `ip` is Express's own `req.ip`;
      `realIp` is what the client-IP middleware stores. */
  datatype Request = Request(
    headers: map<string, string>,
    connectionRemoteAddress: Option<string>,
    socketRemoteAddress: Option<string>,
    ip: Option<string>,
    body: Value,
    realIp: Option<string>)

  function Header(req: Request, name: string): Option<string> {
    if name in req.headers then Some(req.headers[name]) else None
  }

  /** `x-forwarded-for?.split(",")[0]?.trim()` */
  function ForwardedFirst(req: Request): (r: Option<string>)
    ensures r.Some? <==> "x-forwarded-for" in req.headers
    ensures r.Some? ==> ',' !in r.value
    ensures r.Some? && r.value != [] ==> !IsWhitespace(r.value[0]) && !IsWhitespace(r.value[|r.value| - 1])
  {
    match Header(req, "x-forwarded-for")
    case None => None
    case Some(h) =>
      var part := Split(h, ',')[0];
      TrimIsInfix(part);
      Some(Trim(part))
  }

  /** `a || b` on optional strings. */
  function OrStr(a: Option<string>, b: Option<string>): (r: Option<string>)
    ensures TruthyStr(r) <==> TruthyStr(a) || TruthyStr(b)
    ensures r == a || r == b
  {
    if TruthyStr(a) then a else b
  }

  /** The middleware's chain, written as the source writes it. */
  function ResolveClientIp(req: Request): (r: Option<string>)
    ensures r in IpSources(req)
    ensures TruthyStr(r) <==> exists j :: 0 <= j < |IpSources(req)| && TruthyStr(IpSources(req)[j])
  {
    OrStr(ForwardedFirst(req),
    OrStr(Header(req, "x-real-ip"),
    OrStr(Header(req, "cf-connecting-ip"),
    OrStr(Header(req, "x-client-ip"),
    OrStr(req.connectionRemoteAddress,
    OrStr(req.socketRemoteAddress,
          req.ip))))))
  }

  /** The sources of the client address, in the order they are consulted. */
  function IpSources(req: Request): (cs: seq<Option<string>>)
    ensures |cs| == 7
  {
    [ForwardedFirst(req), Header(req, "x-real-ip"), Header(req, "cf-connecting-ip"),
     Header(req, "x-client-ip"), req.connectionRemoteAddress, req.socketRemoteAddress, req.ip]
  }

  /** Position of the first truthy source; the last position when none is. */
  function FirstTruthyIndex(cs: seq<Option<string>>): (k: nat)
    requires |cs| >= 1
    ensures k < |cs|
    ensures forall j :: 0 <= j < k ==> !TruthyStr(cs[j])
    ensures k < |cs| - 1 ==> TruthyStr(cs[k])
  {
    if |cs| == 1 || TruthyStr(cs[0]) then 0 else 1 + FirstTruthyIndex(cs[1..])
  }

  /** The middleware picks the first truthy source, in the fixed order; a
      later source is used only when every earlier one is falsy, and `req.ip`
      is the value of last resort, truthy or not. */
  lemma ResolveIsFirstTruthy(req: Request)
    ensures var cs := IpSources(req);
            ResolveClientIp(req) == cs[FirstTruthyIndex(cs)]
  {
    ChainIsFirstTruthy(ForwardedFirst(req), Header(req, "x-real-ip"), Header(req, "cf-connecting-ip"),
                       Header(req, "x-client-ip"), req.connectionRemoteAddress, req.socketRemoteAddress, req.ip);
  }

  lemma ChainIsFirstTruthy(a0: Option<string>, a1: Option<string>, a2: Option<string>,
                           a3: Option<string>, a4: Option<string>, a5: Option<string>,
                           a6: Option<string>)
    ensures var cs := [a0, a1, a2, a3, a4, a5, a6];
            OrStr(a0, OrStr(a1, OrStr(a2, OrStr(a3, OrStr(a4, OrStr(a5, a6)))))) == cs[FirstTruthyIndex(cs)]
  {
    var cs := [a0, a1, a2, a3, a4, a5, a6];
    var k := FirstTruthyIndex(cs);
    assert cs[0] == a0 && cs[1] == a1 && cs[2] == a2 && cs[3] == a3;
    assert cs[4] == a4 && cs[5] == a5 && cs[6] == a6;
    if k == 0 {
    } else if k == 1 {
      assert !TruthyStr(cs[0]);
    } else if k == 2 {
      assert !TruthyStr(cs[0]) && !TruthyStr(cs[1]);
    } else if k == 3 {
      assert !TruthyStr(cs[0]) && !TruthyStr(cs[1]) && !TruthyStr(cs[2]);
    } else if k == 4 {
      assert !TruthyStr(cs[0]) && !TruthyStr(cs[1]) && !TruthyStr(cs[2]) && !TruthyStr(cs[3]);
    } else if k == 5 {
      assert !TruthyStr(cs[0]) && !TruthyStr(cs[1]) && !TruthyStr(cs[2]) && !TruthyStr(cs[3])
          && !TruthyStr(cs[4]);
    } else {
      assert !TruthyStr(cs[0]) && !TruthyStr(cs[1]) && !TruthyStr(cs[2]) && !TruthyStr(cs[3])
          && !TruthyStr(cs[4]) && !TruthyStr(cs[5]);
    }
  }

  /** The forwarded-for header wins whenever its first entry is non-empty
      after trimming. */
  lemma ForwardedForWins(req: Request)
    requires "x-forwarded-for" in req.headers
    requires Trim(Split(req.headers["x-forwarded-for"], ',')[0]) != ""
    ensures ResolveClientIp(req) == Some(Trim(Split(req.headers["x-forwarded-for"], ',')[0]))
  {
  }

  lemma ForwardedForExample(req: Request)
    requires req.headers == map["x-forwarded-for" := "1.2.3.4, 5.6.7.8"]
    ensures ResolveClientIp(req) == Some("1.2.3.4")
  {
    FirstEntryExample();
    ForwardedForWins(req);
  }

  lemma FirstEntryExample()
    ensures Trim(Split("1.2.3.4, 5.6.7.8", ',')[0]) == "1.2.3.4"
  {
    var h := "1.2.3.4, 5.6.7.8";
    assert h[..7] == "1.2.3.4";
    SplitAt(h, ',', 7);
    AddressUntrimmed();
  }

  lemma AddressUntrimmed()
    ensures Trim("1.2.3.4") == "1.2.3.4"
  {
    TrimNoWhitespace("1.2.3.4");
  }

  /** `app.use((req, res, next) => { req.realIp = ...; next(); })` */
  function WithClientIp(req: Request): (r: Request)
    ensures r.realIp == ResolveClientIp(req)
    ensures r == req.(realIp := r.realIp)
  {
    req.(realIp := ResolveClientIp(req))
  }

  /** `realIp === "127.0.0.1" || realIp === "::1" || realIp?.includes("localhost")`
      (the `undefined` that results for an absent address is taken as false). */
  function IsLocalhost(realIp: Option<string>): (r: bool)
    ensures r <==> (realIp.Some? &&
                    (realIp.value == "127.0.0.1" || realIp.value == "::1" ||
                     exists i :: 0 <= i <= |realIp.value| - 9 && OccursAt(realIp.value, "localhost", i)))
  {
    realIp == Some("127.0.0.1") || realIp == Some("::1") ||
    (realIp.Some? && Includes(realIp.value, "localhost"))
  }

  // ---------------------------------------------------------------------
  // Verification results and replies

  datatype Status = Allow | Review | Deny

  /** What the SDK's middleware attaches to the request. */
  datatype Verification = Verification(status: Status, riskScore: int, reasons: seq<string>)

  datatype Reply<B> = Reply(code: int, headers: seq<(string, string)>, body: B)

  const NoCacheHeaders: seq<(string, string)> :=
    [("Cache-Control", "no-cache, no-store, must-revalidate"), ("Pragma", "no-cache"), ("Expires", "0")]

  function OptionalString(o: Option<string>): Value {
    match o
    case Some(s) => Str(s)
    case None => Undefined
  }

  /** `"ORD_" + Date.now() + "_" + suffix`; the random suffix is a parameter. */
  function OrderId(now: int, suffix: string): (id: string)
    ensures |id| > 4 && id[..4] == "ORD_"
  {
    "ORD_" + IntToString(now) + "_" + suffix
  }

  /** `"TKN_" + Date.now() + "_" + suffix` */
  function Token(now: int, suffix: string): (t: string)
    ensures |t| > 4 && t[..4] == "TKN_"
  {
    "TKN_" + IntToString(now) + "_" + suffix
  }

  // ---------------------------------------------------------------------
  // GET /api/verify-ip

  datatype DetectedIps = DetectedIps(expressIp: Option<string>, realIp: Option<string>, isLocalhost: bool)

  datatype VerifyIpBody = VerifyIpBody(
    success: bool, message: string, verification: Verification,
    detectedIps: DetectedIps, timestamp: string)

  function VerifyIp(req: Request, result: Verification, timestamp: string): (r: Reply<VerifyIpBody>)
    ensures r.code == 403 <==> result.status.Deny?
    ensures r.code == 202 <==> result.status.Review?
    ensures r.code == 200 <==> result.status.Allow?
    ensures r.body.success <==> !result.status.Deny?
    ensures r.headers == []
    ensures r.body.verification == result && r.body.timestamp == timestamp
    ensures r.body.detectedIps == DetectedIps(req.ip, req.realIp, IsLocalhost(req.realIp))
  {
    var response := VerifyIpBody(
      true, "Verificação de IP realizada com middleware", result,
      DetectedIps(req.ip, req.realIp, IsLocalhost(req.realIp)), timestamp);
    if result.status.Deny? then
      Reply(403, [], response.(success := false, message := "IP bloqueado - alto risco detectado"))
    else if result.status.Review? then
      Reply(202, [], response.(message := "IP em análise - risco moderado"))
    else
      Reply(200, [], response)
  }

  // ---------------------------------------------------------------------
  // GET /api/demo

  datatype RequestInfo = RequestInfo(ip: Option<string>, userAgent: Option<string>, language: Option<string>)

  datatype DemoBody = DemoBody(
    success: bool, message: string, verification: Verification,
    timestamp: string, requestInfo: RequestInfo)

  function Demo(req: Request, result: Verification, timestamp: string): (r: Reply<DemoBody>)
    ensures r.code == 403 <==> result.status.Deny?
    ensures r.code == 202 <==> result.status.Review?
    ensures r.code == 200 <==> result.status.Allow?
    ensures r.body.success <==> !result.status.Deny?
    ensures r.headers == NoCacheHeaders
    ensures r.body.verification == result
    ensures r.body.requestInfo ==
      RequestInfo(req.ip, Header(req, "user-agent"), Header(req, "accept-language"))
  {
    var response := DemoBody(
      true, "Verificação avançada concluída", result, timestamp,
      RequestInfo(req.ip, Header(req, "user-agent"), Header(req, "accept-language")));
    if result.status.Deny? then
      Reply(403, NoCacheHeaders,
            response.(success := false, message := "Acesso negado - alto risco detectado"))
    else if result.status.Review? then
      Reply(202, NoCacheHeaders, response.(message := "Acesso em revisão - risco moderado"))
    else
      Reply(200, NoCacheHeaders, response)
  }

  // ---------------------------------------------------------------------
  // POST /api/ecommerce: strict rules

  /** Keys that only some branches send are optional. */
  datatype CheckoutBody = CheckoutBody(
    success: bool, message: string, requiresAuth: Option<bool>, orderId: Option<string>,
    product: Option<Value>, amount: Option<Value>, riskScore: int,
    reasons: Option<seq<string>>, useCase: string)

  const EcommerceUseCase := "E-commerce - Regras Rígidas"

  function Ecommerce(req: Request, result: Verification, now: int, suffix: string): (r: Reply<CheckoutBody>)
    requires Readable(req.body)
    ensures r.code == 403 <==> result.status.Deny?
    ensures r.code == 202 <==> !result.status.Deny? && result.riskScore > 70
    ensures r.code == 200 <==> !result.status.Deny? && result.riskScore <= 70
    ensures r.body.success <==> r.code == 200
    ensures r.body.requiresAuth == (if r.code == 202 then Some(true) else None)
    ensures r.body.reasons == (if r.code == 403 then Some(result.reasons) else None)
    ensures r.body.orderId == (if r.code == 200 then Some(OrderId(now, suffix)) else None)
    ensures r.code == 200 ==>
      r.body.amount == Some(Default(Prop(req.body, "amount"), Num(100))) &&
      r.body.product == Some(Default(Prop(req.body, "product"), Str("Produto Demo")))
    ensures r.code != 200 ==> r.body.amount.None? && r.body.product.None?
    ensures r.body.riskScore == result.riskScore && r.body.useCase == EcommerceUseCase
    ensures r.headers == []
  {
    var amount := Default(Prop(req.body, "amount"), Num(100));
    var product := Default(Prop(req.body, "product"), Str("Produto Demo"));
    if result.status.Deny? then
      Reply(403, [], CheckoutBody(false, "Transação bloqueada por alto risco", None, None,
                                  None, None, result.riskScore, Some(result.reasons), EcommerceUseCase))
    else if result.riskScore > 70 then
      Reply(202, [], CheckoutBody(false, "Verificação adicional necessária", Some(true), None,
                                  None, None, result.riskScore, None, EcommerceUseCase))
    else
      Reply(200, [], CheckoutBody(true, "Compra processada com sucesso", None, Some(OrderId(now, suffix)),
                                  Some(product), Some(amount), result.riskScore, None, EcommerceUseCase))
  }

  // ---------------------------------------------------------------------
  // POST /api/banking: lenient rules

  datatype TransferBody = TransferBody(
    success: bool, message: string, status: Option<string>, transactionId: Option<string>,
    amount: Value, recipient: Value, riskScore: int, useCase: string)

  const BankingUseCase := "Banking - Regras Flexíveis"

  /** Never blocks: the score alone decides between manual approval and an
      immediate transaction, even when the SDK says DENY (which is only logged). */
  function Banking(req: Request, result: Verification, now: int, suffix: string): (r: Reply<TransferBody>)
    requires Readable(req.body)
    ensures r.code == 200 && r.body.success && r.headers == []
    ensures r.body.status == (if result.riskScore > 80 then Some("pending_approval") else None)
    ensures r.body.transactionId ==
      (if result.riskScore > 80 then None else Some(OrderId(now, suffix)))
    ensures r.body.amount == Default(Prop(req.body, "amount"), Num(1000))
    ensures r.body.recipient == Default(Prop(req.body, "recipient"), Str("Conta Demo"))
    ensures r.body.riskScore == result.riskScore && r.body.useCase == BankingUseCase
  {
    var amount := Default(Prop(req.body, "amount"), Num(1000));
    var recipient := Default(Prop(req.body, "recipient"), Str("Conta Demo"));
    if result.riskScore > 80 then
      Reply(200, [], TransferBody(true, "Transferência em análise manual", Some("pending_approval"), None,
                                  amount, recipient, result.riskScore, BankingUseCase))
    else
      Reply(200, [], TransferBody(true, "Transferência processada", None, Some(OrderId(now, suffix)),
                                  amount, recipient, result.riskScore, BankingUseCase))
  }

  /** A DENY verdict with a score of at most 80 still gets a transaction. */
  lemma BankingIgnoresDeny(req: Request, result: Verification, now: int, suffix: string)
    requires Readable(req.body)
    requires result.status.Deny? && result.riskScore <= 80
    ensures Banking(req, result, now, suffix).body.transactionId.Some?
  {
  }

  // ---------------------------------------------------------------------
  // POST /api/gaming: advisory rules

  datatype CreditsBody = CreditsBody(
    success: bool, message: string, warning: Option<string>,
    requiresPhoneVerification: Option<bool>, credits: Value, riskScore: int, useCase: string)

  const GamingUseCase := "Gaming - Regras Personalizadas"

  function Gaming(req: Request, result: Verification): (r: Reply<CreditsBody>)
    requires Readable(req.body)
    ensures r.code == 200 && r.body.success && r.headers == []
    ensures r.body.requiresPhoneVerification == (if result.riskScore > 60 then Some(true) else None)
    ensures r.body.warning.Some? <==> result.riskScore > 60
    ensures r.body.credits == Default(Prop(req.body, "credits"), Num(100))
    ensures r.body.riskScore == result.riskScore && r.body.useCase == GamingUseCase
  {
    var credits := Default(Prop(req.body, "credits"), Num(100));
    if result.riskScore > 60 then
      Reply(200, [], CreditsBody(true, "Compra realizada com alerta de segurança",
                                 Some("Conta suspeita detectada"), Some(true),
                                 credits, result.riskScore, GamingUseCase))
    else
      Reply(200, [], CreditsBody(true, "Créditos adquiridos com sucesso", None, None,
                                 credits, result.riskScore, GamingUseCase))
  }

  // ---------------------------------------------------------------------
  // POST /api/login: risk-based second factor

  datatype LoginBody = LoginBody(
    success: bool, message: string, requires2FA: Option<bool>, token: Option<string>,
    username: Value, riskLevel: Option<string>, riskScore: int, useCase: string)

  const LoginUseCase := "Login - Verificação de IP"

  function Login(req: Request, result: Verification, now: int, suffix: string): (r: Reply<LoginBody>)
    requires Readable(req.body)
    ensures r.code == 200 && r.headers == []
    ensures r.body.success <==> result.riskScore <= 70
    ensures r.body.requires2FA == (if result.riskScore > 70 then Some(true) else None)
    ensures r.body.token == (if result.riskScore > 70 then None else Some(Token(now, suffix)))
    ensures r.body.riskLevel == Some("low") <==> result.riskScore < 30
    ensures r.body.riskLevel == Some("medium") <==> 30 <= result.riskScore <= 70
    ensures r.body.riskLevel.None? <==> result.riskScore > 70
    ensures r.body.username == Default(Prop(req.body, "username"), Str("demo@example.com"))
    ensures r.body.riskScore == result.riskScore && r.body.useCase == LoginUseCase
  {
    var username := Default(Prop(req.body, "username"), Str("demo@example.com"));
    if result.riskScore > 70 then
      Reply(200, [], LoginBody(false, "Verificação adicional necessária", Some(true), None,
                               username, None, result.riskScore, LoginUseCase))
    else
      Reply(200, [], LoginBody(true, "Login realizado com sucesso", None, Some(Token(now, suffix)),
                               username, Some(if result.riskScore < 30 then "low" else "medium"),
                               result.riskScore, LoginUseCase))
  }

  // ---------------------------------------------------------------------
  // POST /api/fingerprint

  /** `{ ...v }`: an object's own properties; one property per element of an
      array and per character of a string, keyed by index; nothing for the
      other primitives. */
  function Spread(v: Value): (r: seq<(string, Value)>)
    ensures v.Obj? ==> r == v.fields
    ensures v.Arr? ==> |r| == |v.items|
    ensures v.Str? ==> |r| == |v.s|
  {
    match v
    case Obj(fields) => fields
    case Arr(items) => seq(|items|, i requires 0 <= i < |items| => (NatToString(i), items[i]))
    case Str(s) => seq(|s|, i requires 0 <= i < |s| => (NatToString(i), Str([s[i]])))
    case _ => []
  }

  /** The server's own record; it always has these four keys, whether or not
      their values are defined. */
  function ServerInfo(req: Request, timestamp: string): (info: Value)
    ensures info.Obj? && |info.fields| == 4
  {
    Obj([("serverTimestamp", Str(timestamp)),
         ("userAgent", OptionalString(Header(req, "user-agent"))),
         ("ip", OptionalString(req.realIp)),
         ("headers", Obj([("x-forwarded-for", OptionalString(Header(req, "x-forwarded-for"))),
                          ("x-real-ip", OptionalString(Header(req, "x-real-ip"))),
                          ("cf-connecting-ip", OptionalString(Header(req, "cf-connecting-ip")))]))])
  }

  datatype Summary = Summary(
    deviceFields: nat, behaviorFields: nat, networkFields: nat, serverFields: nat, totalFields: nat)

  datatype FingerprintData = FingerprintData(original: Value, enhanced: Value, summary: Summary)

  datatype FingerprintBody = FingerprintBody(
    success: bool, message: Option<string>, error: Option<string>,
    data: Option<FingerprintData>, timestamp: string)

  /** `{ ...fingerprint, server: serverInfo, processed: true }` */
  function Enhance(fingerprint: Value, info: Value): (e: Value)
    ensures e.Obj?
    ensures Keys(Spread(fingerprint)) <= Keys(e.fields)
    ensures |Spread(fingerprint)| <= |e.fields| <= |Spread(fingerprint)| + 2
  {
    Obj(Put(Put(Spread(fingerprint), "server", info), "processed", Bool(true)))
  }

  /** The enhanced record carries the server block and the processed flag,
      and every other key of the spread original with its value. */
  lemma EnhanceLookup(fingerprint: Value, info: Value, k: string)
    ensures Lookup(Enhance(fingerprint, info).fields, "server") == Some(info)
    ensures Lookup(Enhance(fingerprint, info).fields, "processed") == Some(Bool(true))
    ensures k != "server" && k != "processed" ==>
              Lookup(Enhance(fingerprint, info).fields, k) == Lookup(Spread(fingerprint), k)
  {
    var once := Put(Spread(fingerprint), "server", info);
    PutLookup(Spread(fingerprint), "server", info, k);
    PutLookup(once, "processed", Bool(true), k);
    PutLookup(once, "processed", Bool(true), "server");
  }

  /** Key counts of the three sections plus the server's four. */
  function Summarize(fingerprint: Value): (s: Summary)
    requires Readable(fingerprint)
    ensures s.serverFields == 4
    ensures s.totalFields == s.deviceFields + s.behaviorFields + s.networkFields + 4
    ensures s.deviceFields == CountIfTruthy(Prop(fingerprint, "device"))
    ensures s.behaviorFields == CountIfTruthy(Prop(fingerprint, "behavior"))
    ensures s.networkFields == CountIfTruthy(Prop(fingerprint, "network"))
  {
    var d := CountIfTruthy(Prop(fingerprint, "device"));
    var b := CountIfTruthy(Prop(fingerprint, "behavior"));
    var n := CountIfTruthy(Prop(fingerprint, "network"));
    Summary(d, b, n, 4, d + b + n + 4)
  }

  /** The body destructuring throws on a null or undefined body, which the
      handler's catch turns into a 500 carrying the error's text. */
  function Fingerprint(req: Request, timestamp: string, errorText: string): (r: Reply<FingerprintBody>)
    ensures r.code == 500 <==> !Readable(req.body)
    ensures r.code == 400 <==> Readable(req.body) && !Truthy(Prop(req.body, "fingerprint"))
    ensures r.code == 200 <==> Readable(req.body) && Truthy(Prop(req.body, "fingerprint"))
    ensures r.body.success <==> r.code == 200
    ensures r.code == 500 ==> r.body.error == Some(errorText)
    ensures r.code == 400 ==> r.body.error == Some("Fingerprint data is required") && r.body.data.None?
    ensures r.code == 200 ==>
      var fp := Prop(req.body, "fingerprint");
      r.body.error.None? && r.body.data.Some? &&
      r.body.data.value.original == fp &&
      r.body.data.value.enhanced == Enhance(fp, ServerInfo(req, timestamp)) &&
      r.body.data.value.summary == Summarize(fp)
    ensures r.headers == [] && r.body.timestamp == timestamp
  {
    if !Readable(req.body) then
      Reply(500, [], FingerprintBody(false, Some("Erro ao processar fingerprints"), Some(errorText), None, timestamp))
    else
      var fingerprint := Prop(req.body, "fingerprint");
      if !Truthy(fingerprint) then
        Reply(400, [], FingerprintBody(false, None, Some("Fingerprint data is required"), None, timestamp))
      else
        var info := ServerInfo(req, timestamp);
        Reply(200, [], FingerprintBody(
          true, Some("Fingerprints processados com sucesso"), None,
          Some(FingerprintData(fingerprint, Enhance(fingerprint, info), Summarize(fingerprint))),
          timestamp))
  }

  /** For an object fingerprint, the enhanced record keeps every other
      property of the original, with its value. */
  lemma EnhancedKeepsOriginal(fingerprint: Value, info: Value, k: string)
    requires fingerprint.Obj? && k != "server" && k != "processed"
    ensures Lookup(Enhance(fingerprint, info).fields, k) == Lookup(fingerprint.fields, k)
  {
    EnhanceLookup(fingerprint, info, k);
  }
}
