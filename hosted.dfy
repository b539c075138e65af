/**
  * The hosted client-secret helper (src/hosted.ts): builds a
  * `getClientSecret` callback that asks a server endpoint for a ChatKit
  * client secret, parses the reply and caches the secret until ChatKit
  * reports it as the current (expired) one.
  *
  * The network is a parameter: `fetch` maps the request the helper builds to
  * the server's response, or to the error the request fails with.  The
  * header and body factories are represented by what they resolve to on the
  * call in question.
  */
module Hosted {
  import opened Wrappers
  import opened JsValue

  const InvalidSecretField := "Client secret response did not include a valid secret field (expected client_secret, clientSecret, or secret)."
  const InvalidParserResult := "Client secret parser did not return a secret string."

  /** `a ?? b` */
  function Coalesce(a: Value, b: Value): Value {
    if a.IsNullish() then b else a
  }

  /** `typeof payload === 'object' && payload !== null` */
  predicate IsObject(payload: Value) {
    payload.Arr? || payload.Rec? || payload.Opaque?
  }

  /** The field `defaultParse` picks: `client_secret ?? clientSecret ?? secret`, or `undefined` for a non-object. */
  function PickedSecret(payload: Value): (secret: Value)
    ensures !IsObject(payload) ==> secret == Undefined
    ensures IsObject(payload) && !Get(payload, Name("client_secret")).IsNullish() ==>
      secret == Get(payload, Name("client_secret"))
    ensures IsObject(payload) && Get(payload, Name("client_secret")).IsNullish() && !Get(payload, Name("clientSecret")).IsNullish() ==>
      secret == Get(payload, Name("clientSecret"))
    ensures IsObject(payload) && Get(payload, Name("client_secret")).IsNullish() && Get(payload, Name("clientSecret")).IsNullish() ==>
      secret == Get(payload, Name("secret"))
  {
    if IsObject(payload) then
      Coalesce(Get(payload, Name("client_secret")), Coalesce(Get(payload, Name("clientSecret")), Get(payload, Name("secret"))))
    else Undefined
  }

  /** A secret is accepted when it is a non-empty string. */
  function AcceptSecret(secret: Value, message: string): (r: Result<string, string>)
    ensures r.Ok? <==> secret.Str? && secret.s != ""
    ensures r.Ok? ==> r.value == secret.s
    ensures r.Err? ==> r.error == message
  {
    if secret.Str? && secret.s != "" then Ok(secret.s) else Err(message)
  }

  /**
    * `defaultParse` (lines 63-77) on the decoded JSON payload: a non-empty
    * string taken from one of the three fields, or the invalid-field error.
    */
  function DefaultParse(payload: Value): (r: Result<string, string>)
    ensures r.Err? ==> r.error == InvalidSecretField
    ensures !IsObject(payload) ==> r.Err?
    ensures r.Ok? ==> r.value != ""
    ensures r.Ok? ==>
      (Get(payload, Name("client_secret")) == Str(r.value) ||
       Get(payload, Name("clientSecret")) == Str(r.value) ||
       Get(payload, Name("secret")) == Str(r.value))
  {
    AcceptSecret(PickedSecret(payload), InvalidSecretField)
  }

  /**
    * The fallback order: `clientSecret` is consulted only when
    * `client_secret` is `null` or missing, and `secret` only when both are;
    * the first present field decides the outcome alone.
    */
  lemma DefaultParseFallback(payload: Value)
    requires IsObject(payload)
    ensures var cs, camel, plain := Get(payload, Name("client_secret")), Get(payload, Name("clientSecret")), Get(payload, Name("secret"));
      && (!cs.IsNullish() ==> DefaultParse(payload) == AcceptSecret(cs, InvalidSecretField))
      && (cs.IsNullish() && !camel.IsNullish() ==> DefaultParse(payload) == AcceptSecret(camel, InvalidSecretField))
      && (cs.IsNullish() && camel.IsNullish() ==> DefaultParse(payload) == AcceptSecret(plain, InvalidSecretField))
  {
  }

  /** An empty `client_secret` is an error even when `clientSecret` holds a valid secret; a `null` one falls through. */
  lemma EmptyClientSecretShadows()
    ensures DefaultParse(Rec([("client_secret", Str("")), ("clientSecret", Str("valid"))])) == Err(InvalidSecretField)
    ensures DefaultParse(Rec([("client_secret", Null), ("clientSecret", Str("valid"))])) == Ok("valid")
    ensures DefaultParse(Rec([])) == Err(InvalidSecretField)
  {
    var a := Rec([("client_secret", Str("")), ("clientSecret", Str("valid"))]);
    assert Get(a, Name("client_secret")) == Str("");
    var b := Rec([("client_secret", Null), ("clientSecret", Str("valid"))]);
    assert Get(b, Name("client_secret")) == Null;
    assert Get(b, Name("clientSecret")) == Str("valid");
  }

  // --------------------------------------------------------------- request

  /** The request handed to `fetch`.  `body` is the payload whose JSON text is sent. */
  datatype RequestInit = RequestInit(httpMethod: string, body: Option<seq<(string, Value)>>, headers: Option<map<string, string>>)

  /** `getMethod` (line 95): the configured method, else `POST` with a body and `GET` without. */
  function GetMethod(configured: Option<string>, hasBody: bool): (m: string)
    ensures configured.Some? ==> m == configured.value
    ensures configured.None? ==> (m == "POST" <==> hasBody)
    ensures configured.None? ==> (m == "GET" <==> !hasBody)
  {
    if configured.Some? then configured.value else if hasBody then "POST" else "GET"
  }

  /**
    * The `RequestInit` of `requestSecret` (lines 109-125) for the resolved
    * payload and headers (`None` where they resolve to `undefined`).
    */
  function BuildInit(configured: Option<string>, payload: Option<seq<(string, Value)>>, headers: Option<map<string, string>>): (init: RequestInit)
    ensures init.httpMethod == GetMethod(configured, payload.Some?)
    ensures init.body == payload
    ensures payload.None? ==> init.headers == headers
    ensures payload.Some? ==> init.headers.Some? && "content-type" in init.headers.value
    ensures payload.Some? && headers.Some? ==>
      forall h :: h in headers.value ==> h in init.headers.value && init.headers.value[h] == headers.value[h]
    ensures payload.Some? && (headers.None? || "content-type" !in headers.value) ==>
      init.headers.value["content-type"] == "application/json"
    ensures payload.Some? ==>
      init.headers.value.Keys == {"content-type"} + (if headers.Some? then headers.value.Keys else {})
  {
    var base := RequestInit(GetMethod(configured, payload.Some?), None, None);
    if payload.Some? then
      base.(body := payload, headers := Some(map["content-type" := "application/json"] + (if headers.Some? then headers.value else map[])))
    else if headers.Some? then
      base.(headers := headers)
    else base
  }

  /** A body with factory headers: the request is a POST carrying the JSON content type and the factory's header. */
  lemma PostWithHeaders()
    ensures var init := BuildInit(None, Some([("userId", Str("123"))]), Some(map["Authorization" := "Bearer token"]));
      && init.httpMethod == "POST"
      && init.headers == Some(map["content-type" := "application/json", "Authorization" := "Bearer token"])
      && init.body == Some([("userId", Str("123"))])
  {
    var init := BuildInit(None, Some([("userId", Str("123"))]), Some(map["Authorization" := "Bearer token"]));
    var expected := map["content-type" := "application/json", "Authorization" := "Bearer token"];
    var got := init.headers.value;
    assert "content-type" != "Authorization";
    assert got.Keys == expected.Keys;
    assert got["content-type"] == "application/json" && got["Authorization"] == "Bearer token";
    assert forall k :: k in got ==> got[k] == expected[k];
    assert got == expected;
  }

  // -------------------------------------------------------------- response

  /** What `fetch` resolves to; `json` is what `response.json()` gives (an error for a body that is not JSON). */
  datatype Response = Response(ok: bool, status: int, statusText: string, json: Result<Value, string>)

  /** The default parser as a parser of responses: the decoding error, or `defaultParse` on the payload. */
  function DefaultParser(response: Response): (r: Result<Value, string>)
    ensures r.Ok? ==> r.value.Str? && r.value.s != ""
    ensures response.json.Err? ==> r == Err(response.json.error)
  {
    match response.json
    case Err(e) => Err(e)
    case Ok(payload) =>
      match DefaultParse(payload)
      case Ok(s) => Ok(Str(s))
      case Err(e) => Err(e)
  }

  const StatusPrefix: string := "Failed to retrieve client secret. Received "

  /** The error for a reply that is not ok (lines 128-132): the fixed prefix, the status code, the status text and a full stop. */
  function StatusMessage(response: Response): (msg: string)
    ensures |msg| > |StatusPrefix| + |Decimal(response.status)| && msg[..|StatusPrefix|] == StatusPrefix
    ensures msg[|StatusPrefix|..|StatusPrefix| + |Decimal(response.status)|] == Decimal(response.status)
    ensures msg[|StatusPrefix| + |Decimal(response.status)|..] == " " + response.statusText + "."
  {
    StatusPrefix + Decimal(response.status) + " " + response.statusText + "."
  }

  /**
    * The outcome of `requestSecret` (lines 127-140) for the reply `fetch`
    * gave: its error, the status error for a response that is not ok, the
    * parser's error, the error for a parser result that is not a non-empty
    * string, or the secret.
    */
  function RequestOutcome(reply: Result<Response, string>, parse: Response -> Result<Value, string>): (r: Result<string, string>)
    ensures reply.Err? ==> r == Err(reply.error)
    ensures reply.Ok? && !reply.value.ok ==> r == Err(StatusMessage(reply.value))
    ensures r.Ok? ==> reply.Ok? && reply.value.ok && parse(reply.value) == Ok(Str(r.value)) && r.value != ""
    ensures reply.Ok? && reply.value.ok && parse(reply.value).Ok? && parse(reply.value).value.Str? && parse(reply.value).value.s != "" ==>
      r == Ok(parse(reply.value).value.s)
    ensures reply.Ok? && reply.value.ok && parse(reply.value).Err? ==> r == Err(parse(reply.value).error)
    ensures reply.Ok? && reply.value.ok && parse(reply.value).Ok? && !(parse(reply.value).value.Str? && parse(reply.value).value.s != "") ==>
      r == Err(InvalidParserResult)
  {
    if reply.Err? then Err(reply.error)
    else if !reply.value.ok then Err(StatusMessage(reply.value))
    else match parse(reply.value)
      case Err(e) => Err(e)
      case Ok(secret) => AcceptSecret(secret, InvalidParserResult)
  }

  /** With the default parser, an ok response yields exactly what `defaultParse` picks from its JSON. */
  lemma DefaultParserOutcome(response: Response, payload: Value)
    requires response.ok && response.json == Ok(payload)
    ensures RequestOutcome(Ok(response), DefaultParser) == DefaultParse(payload)
  {
  }

  // ----------------------------------------------------------------- cache

  /** `mustRefresh` (line 145): ChatKit reports the cached secret as its current one; `null` never matches. */
  predicate MustRefresh(current: Option<string>, cached: Option<string>)
    ensures current.None? ==> !MustRefresh(current, cached)
    ensures MustRefresh(current, cached) ==> cached == current
  {
    current.Some? && current == cached
  }

  /** Line 147: the cached secret is returned without a request. */
  predicate ServesFromCache(current: Option<string>, cached: Option<string>)
    ensures ServesFromCache(current, cached) <==> cached.Some? && cached.value != "" && current != cached
  {
    cached.Some? && cached.value != "" && !MustRefresh(current, cached)
  }

  /**
    * The cache rule: a request is made exactly when nothing non-empty is
    * cached, or when ChatKit's current secret is the cached one.
    */
  lemma CacheRule(current: Option<string>, cached: Option<string>)
    ensures !ServesFromCache(current, cached) <==>
      cached.None? || cached.value == "" || (current.Some? && current.value == cached.value)
    ensures current.None? && cached.Some? && cached.value != "" ==> ServesFromCache(current, cached)
  {
  }

  /** The object `createHostedClientSecret` returns, with the state its closure keeps. */
  class HostedClientSecret {
    const url: string
    const configuredMethod: Option<string>
    const parse: Response -> Result<Value, string>
    var cachedSecret: Option<string>

    /** Lines 82-92: `parse` defaults to the default parser, the cache starts as `initialClientSecret ?? null`. */
    constructor(url: string, configuredMethod: Option<string>, parse: Option<Response -> Result<Value, string>>, initialClientSecret: Option<string>)
      ensures this.url == url && this.configuredMethod == configuredMethod
      ensures this.parse == (if parse.Some? then parse.value else DefaultParser)
      ensures cachedSecret == initialClientSecret
    {
      this.url := url;
      this.configuredMethod := configuredMethod;
      if parse.Some? {
        this.parse := parse.value;
      } else {
        this.parse := DefaultParser;
      }
      cachedSecret := initialClientSecret;
    }

    /**
      * `requestSecret` (lines 109-141): sends the request and checks the
      * reply; only a success replaces the cached secret.
      */
    method RequestSecret(payload: Option<seq<(string, Value)>>, headers: Option<map<string, string>>,
                         fetch: RequestInit -> Result<Response, string>)
      returns (r: Result<string, string>, init: RequestInit)
      modifies this`cachedSecret
      ensures init == BuildInit(configuredMethod, payload, headers)
      ensures r == RequestOutcome(fetch(init), parse)
      ensures cachedSecret == (if r.Ok? then Some(r.value) else old(cachedSecret))
    {
      init := RequestInit(GetMethod(configuredMethod, payload.Some?), None, None);
      if payload.Some? {
        var merged := map["content-type" := "application/json"] + (if headers.Some? then headers.value else map[]);
        init := init.(body := payload, headers := Some(merged));
      } else if headers.Some? {
        init := init.(headers := headers);
      }
      var response := fetch(init);
      if response.Err? {
        return Err(response.error), init;
      }
      if !response.value.ok {
        return Err(StatusMessage(response.value)), init;
      }
      var parsed := parse(response.value);
      if parsed.Err? {
        return Err(parsed.error), init;
      }
      var secret := parsed.value;
      if !secret.Str? || secret.s == "" {
        return Err(InvalidParserResult), init;
      }
      cachedSecret := Some(secret.s);
      r := Ok(secret.s);
    }

    /**
      * `getClientSecret` (lines 144-161): the cached secret when it may be
      * served, otherwise a fresh request; `sent` is the request made, if any.
      */
    method GetClientSecret(current: Option<string>, payload: Option<seq<(string, Value)>>,
                           headers: Option<map<string, string>>, fetch: RequestInit -> Result<Response, string>)
      returns (r: Result<string, string>, sent: Option<RequestInit>)
      modifies this`cachedSecret
      ensures ServesFromCache(current, old(cachedSecret)) ==>
        r == Ok(old(cachedSecret).value) && sent.None? && cachedSecret == old(cachedSecret)
      ensures !ServesFromCache(current, old(cachedSecret)) ==>
        && sent == Some(BuildInit(configuredMethod, payload, headers))
        && r == RequestOutcome(fetch(sent.value), parse)
        && cachedSecret == (if r.Ok? then Some(r.value) else old(cachedSecret))
    {
      var mustRefresh := current.Some? && current == cachedSecret;
      if cachedSecret.Some? && cachedSecret.value != "" && !mustRefresh {
        return Ok(cachedSecret.value), None;
      }
      var init;
      r, init := RequestSecret(payload, headers, fetch);
      sent := Some(init);
    }
  }

  /** A server that always answers 200 with `{ client_secret: secret }`. */
  function ServerWith(secret: string): RequestInit -> Result<Response, string> {
    _ => Ok(Response(true, 200, "OK", Ok(Rec([("client_secret", Str(secret))]))))
  }

  lemma ServerWithParses(secret: string, init: RequestInit)
    requires secret != ""
    ensures RequestOutcome(ServerWith(secret)(init), DefaultParser) == Ok(secret)
  {
    assert Get(Rec([("client_secret", Str(secret))]), Name("client_secret")) == Str(secret);
  }

  /**
    * The first call fetches and caches; a second call that reports that very
    * secret as current fetches again (it is a forced refresh).  An initial
    * secret is served without a request.
    */
  method CacheScenario() {
    var hosted := new HostedClientSecret("/api/secret", None, None, None);
    var fetch := ServerWith("first-secret");
    ServerWithParses("first-secret", BuildInit(None, None, None));
    var r, sent := hosted.GetClientSecret(None, None, None, fetch);
    assert r == Ok("first-secret") && sent == Some(RequestInit("GET", None, None));
    assert hosted.cachedSecret == Some("first-secret");

    ServerWithParses("first-secret", BuildInit(None, None, None));
    r, sent := hosted.GetClientSecret(Some("first-secret"), None, None, fetch);
    assert sent.Some? && r == Ok("first-secret");

    var seeded := new HostedClientSecret("/api/secret", None, None, Some("initial"));
    r, sent := seeded.GetClientSecret(None, None, None, fetch);
    assert r == Ok("initial") && sent.None?;
  }
}
