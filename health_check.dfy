/**
 The health endpoint handler: it computes the app id and the CORS allow-origin value,
 sets three CORS headers on the response, then answers 200 with the health payload or,
 if something inside its `try` throws, 500 with an error payload.

 The clock, the process environment and the request headers are parameters.
 */
module HealthCheck {
  import opened Wrappers
  import opened Strings

  /** The request headers the handler reads (`req.get`): `undefined` when absent. */
  datatype Request = Request(appIdHeader: Option<string>, origin: Option<string>)

  /** The environment variables the handler reads. */
  datatype Env = Env(allowedOrigins: Option<string>, nodeEnv: Option<string>, port: Option<string>)

  const AllowOriginName := "Access-Control-Allow-Origin"
  const AllowMethodsName := "Access-Control-Allow-Methods"
  const AllowHeadersName := "Access-Control-Allow-Headers"
  const AllowedMethods := "GET, POST, PUT, DELETE, OPTIONS"
  const AllowedHeaders := "Content-Type, Authorization, X-App-ID"

  lemma HeaderNamesDistinct()
    ensures AllowOriginName != AllowMethodsName && AllowOriginName != AllowHeadersName
    ensures AllowMethodsName != AllowHeadersName
  {
    assert |AllowOriginName| == 27 && |AllowMethodsName| == 28 && |AllowHeadersName| == 28;
    assert AllowMethodsName[21] == 'M' && AllowHeadersName[21] == 'H';
  }

  /** JavaScript's `v || fallback` on a string that may be undefined; the empty string is falsy. */
  function OrDefault(v: Option<string>, fallback: string): (r: string)
    ensures v.Some? && v.value != "" ==> r == v.value
    ensures v.None? || v.value == "" ==> r == fallback
  {
    if v.Some? && v.value != "" then v.value else fallback
  }

  /** The `X-App-ID` header when it is present and non-empty, and "Unknown" otherwise. */
  function AppId(header: Option<string>): (r: string)
    ensures r != ""
    ensures header.Some? && header.value != "" ==> r == header.value
    ensures header.None? || header.value == "" ==> r == "Unknown"
  {
    OrDefault(header, "Unknown")
  }

  /** The allow-list in force: `ALLOWED_ORIGINS`, or "*" when it is unset or empty. */
  function AllowList(allowedOrigins: Option<string>): string {
    OrDefault(allowedOrigins, "*")
  }

  /** `entries.some(o => o.trim() === origin)`. */
  function SomeTrimmedEquals(entries: seq<string>, origin: string): (b: bool)
    ensures b <==> exists i :: 0 <= i < |entries| && Trim(entries[i]) == origin
  {
    if entries == [] then false
    else Trim(entries[0]) == origin || SomeTrimmedEquals(entries[1..], origin)
  }

  /** Whether the allow-list names `origin`: some comma-separated entry equals it once trimmed. */
  predicate Listed(allowList: string, origin: string) {
    SomeTrimmedEquals(Split(allowList, ','), origin)
  }

  /**
   The value of `Access-Control-Allow-Origin`, or `None` when the handler leaves it unset.
   A wildcard configuration answers "*"; otherwise a present, non-empty request origin
   that the allow-list names is echoed verbatim.
   */
  function AllowOrigin(allowedOrigins: Option<string>, origin: Option<string>): (r: Option<string>)
    ensures AllowList(allowedOrigins) == "*" ==> r == Some("*")
    ensures AllowList(allowedOrigins) != "*" ==>
      (r.Some? <==> origin.Some? && origin.value != "" && Listed(AllowList(allowedOrigins), origin.value))
    ensures AllowList(allowedOrigins) != "*" && r.Some? ==> r == origin
  {
    var allowList := AllowList(allowedOrigins);
    if allowList == "*" then Some("*")
    else if origin.Some? && origin.value != "" && Listed(allowList, origin.value) then origin
    else None
  }

  /** Outside the wildcard configurations the header is set exactly when the request has a
      non-empty `Origin` equal to a trimmed entry of the comma-split list, and then it is that origin. */
  lemma AllowOriginListedIff(allowedOrigins: Option<string>, origin: Option<string>)
    requires AllowList(allowedOrigins) != "*"
    ensures var entries := Split(AllowList(allowedOrigins), ',');
      (AllowOrigin(allowedOrigins, origin).Some? <==>
         origin.Some? && origin.value != "" && exists i :: 0 <= i < |entries| && Trim(entries[i]) == origin.value)
    ensures AllowOrigin(allowedOrigins, origin).Some? ==> AllowOrigin(allowedOrigins, origin) == origin
  {
  }

  /** The allow-origin header is "*" for every request exactly when `ALLOWED_ORIGINS`
      is unset, empty or exactly "*". */
  lemma WildcardIff(allowedOrigins: Option<string>)
    ensures (forall origin :: AllowOrigin(allowedOrigins, origin) == Some("*")) <==>
            allowedOrigins in {None, Some(""), Some("*")}
  {
    if allowedOrigins !in {None, Some(""), Some("*")} {
      assert AllowOrigin(allowedOrigins, None) == None;
    }
  }

  /** Outside the wildcard configurations, a missing or empty `Origin` is never allowed. */
  lemma EmptyOriginRejected(allowedOrigins: Option<string>, origin: Option<string>)
    requires allowedOrigins !in {None, Some(""), Some("*")}
    requires origin.None? || origin.value == ""
    ensures AllowOrigin(allowedOrigins, origin) == None
  {
  }

  /** The request origin is not trimmed: an origin with surrounding whitespace matches no entry. */
  lemma UntrimmedOriginRejected(allowedOrigins: Option<string>, origin: string)
    requires allowedOrigins !in {None, Some(""), Some("*")}
    requires !IsTrimmed(origin)
    ensures AllowOrigin(allowedOrigins, Some(origin)) == None
  {
  }

  /** Entries are separated by commas, so an origin containing a comma matches no entry. */
  lemma OriginWithCommaRejected(allowedOrigins: Option<string>, origin: string)
    requires allowedOrigins !in {None, Some(""), Some("*")}
    requires ',' in origin
    ensures AllowOrigin(allowedOrigins, Some(origin)) == None
  {
    var entries := Split(AllowList(allowedOrigins), ',');
    forall i | 0 <= i < |entries| ensures Trim(entries[i]) != origin {
      var e := entries[i];
      TrimSlice(e);
    }
  }

  /** An allow-list built from comma-separated entries allows an origin written in one
      of them with any surrounding whitespace, and answers with the origin itself. */
  lemma PaddedEntryAllowed(entries: seq<string>, i: nat, w1: string, origin: string, w2: string)
    requires i < |entries| && forall j :: 0 <= j < |entries| ==> ',' !in entries[j]
    requires entries[i] == w1 + origin + w2
    requires AllWhitespace(w1) && AllWhitespace(w2) && IsTrimmed(origin) && origin != ""
    requires Join(entries, ',') != "*"
    ensures AllowOrigin(Some(Join(entries, ',')), Some(origin)) == Some(origin)
  {
    var allowList := Join(entries, ',');
    JoinLonger(entries, ',', i);
    assert AllowList(Some(allowList)) == allowList;
    SplitJoin(entries, ',');
    TrimPadded(w1, origin, w2);
    assert Trim(Split(allowList, ',')[i]) == origin;
    assert Listed(allowList, origin);
  }

  lemma SplitTwoEntries()
    ensures Split("a,*", ',') == ["a", "*"]
  {
    assert "*"[1..] == "" && Split("", ',') == [""];
    assert Split("*", ',') == [['*'] + ""] + [""][1..];
    assert ['*'] + "" == "*" && [""][1..] == [];
    assert ",*"[1..] == "*";
    assert Split(",*", ',') == [[]] + Split("*", ',');
    assert "a,*"[1..] == ",*";
    assert Split("a,*", ',') == [['a'] + ""] + ["", "*"][1..];
    assert ['a'] + "" == "a" && ["", "*"][1..] == ["*"];
  }

  /** "a,*" is an allow-list of two entries, not a wildcard. */
  lemma ListWithStarIsNotWildcard()
    ensures AllowOrigin(Some("a,*"), Some("https://b.example")) == None
    ensures AllowOrigin(Some("a,*"), Some("a")) == Some("a")
    ensures AllowOrigin(Some("a,*"), Some(" a")) == None
  {
    SplitTwoEntries();
    TrimOfTrimmed("a");
    TrimOfTrimmed("*");
    assert AllowList(Some("a,*")) == "a,*";
  }

  /** The body the handler sends. */
  datatype Payload =
    | Healthy(status: string, timestamp: string, appId: string, manifest: string,
              version: string, environment: string, port: string)
    | Unhealthy(status: string, timestamp: string, appId: string, error: string)

  function SuccessPayload(timestamp: string, appId: string, env: Env): (p: Payload)
    ensures p.Healthy? && p.status == "ok" && p.manifest == "running" && p.version == "1.0.0"
    ensures p.timestamp == timestamp && p.appId == appId
    ensures p.environment == OrDefault(env.nodeEnv, "production")
    ensures p.port == OrDefault(env.port, "1111")
  {
    Healthy("ok", timestamp, appId, "running", "1.0.0",
            OrDefault(env.nodeEnv, "production"), OrDefault(env.port, "1111"))
  }

  function ErrorPayload(timestamp: string, appId: string, message: string): (p: Payload)
    ensures p.Unhealthy? && p.status == "error"
    ensures p.timestamp == timestamp && p.appId == appId && p.error == message
  {
    Unhealthy("error", timestamp, appId, message)
  }

  /** One change the handler makes to the response, in the order it makes them. */
  datatype Event = SetHeader(name: string, value: string) | SetStatus(code: int) | SendJson(body: Payload)

  /** The allow-origin call, when the handler decides on a value. */
  function OriginEvents(decided: Option<string>): seq<Event> {
    match decided
    case Some(v) => [SetHeader(AllowOriginName, v)]
    case None => []
  }

  /** The header calls, in order: allow-origin (when decided), then methods, then headers. */
  function CorsEvents(allowedOrigins: Option<string>, origin: Option<string>): seq<Event> {
    OriginEvents(AllowOrigin(allowedOrigins, origin))
    + [SetHeader(AllowMethodsName, AllowedMethods), SetHeader(AllowHeadersName, AllowedHeaders)]
  }

  /** Where inside the `try` an error is thrown: before `res.status(200)` runs (the logging
      call), or inside `json`, after the 200 status has been set. */
  datatype ThrowPoint = BeforeStatus | InJson

  /** An error thrown inside the `try`, with its `message`. */
  datatype Thrown = Thrown(point: ThrowPoint, message: string)

  /** The status and body calls: `failure` is the error thrown inside the `try`, if one is.
      A `json` call that throws records nothing; the `catch` then sets 500 and sends the error. */
  function StatusAndBody(timestamp: string, appId: string, env: Env, failure: Option<Thrown>): seq<Event> {
    match failure
    case None => [SetStatus(200), SendJson(SuccessPayload(timestamp, appId, env))]
    case Some(Thrown(BeforeStatus, message)) => [SetStatus(500), SendJson(ErrorPayload(timestamp, appId, message))]
    case Some(Thrown(InJson, message)) =>
      [SetStatus(200), SetStatus(500), SendJson(ErrorPayload(timestamp, appId, message))]
  }

  /** Everything one call of the handler does to the response, in order. */
  function Trace(req: Request, env: Env, timestamp: string, failure: Option<Thrown>): seq<Event> {
    CorsEvents(env.allowedOrigins, req.origin) + StatusAndBody(timestamp, AppId(req.appIdHeader), env, failure)
  }

  /** The header map after the allow-origin call, when there is one. */
  function WithOrigin(headers: map<string, string>, decided: Option<string>): map<string, string> {
    match decided
    case Some(v) => headers[AllowOriginName := v]
    case None => headers
  }

  /** The header map after the CORS calls: a later `setHeader` of a name replaces an earlier one. */
  function WithCors(headers: map<string, string>, allowedOrigins: Option<string>, origin: Option<string>):
    map<string, string>
  {
    WithOrigin(headers, AllowOrigin(allowedOrigins, origin))[AllowMethodsName := AllowedMethods][AllowHeadersName := AllowedHeaders]
  }

  lemma AppendTwo(e: seq<Event>, a: Event, b: Event)
    ensures e + [a] + [b] == e + [a, b]
  {
  }

  /** The CORS headers are all set first, on every path, and no header is set after them; the
      last two steps are the final status, then the JSON body; a 200 status comes before the 500
      exactly when the error was thrown inside `json`. */
  lemma TraceOrder(req: Request, env: Env, timestamp: string, failure: Option<Thrown>)
    ensures var t := Trace(req, env, timestamp, failure);
      var n := |CorsEvents(env.allowedOrigins, req.origin)|;
      && 2 <= n && n + 2 <= |t|
      && (forall i :: 0 <= i < n ==> t[i].SetHeader?)
      && (forall i :: n <= i < |t| ==> !t[i].SetHeader?)
      && t[n..|t| - 2] == (if failure.Some? && failure.value.point == InJson then [SetStatus(200)] else [])
      && t[|t| - 2] == SetStatus(if failure.None? then 200 else 500)
      && t[|t| - 1].SendJson?
  {
    var t := Trace(req, env, timestamp, failure);
    var n := |CorsEvents(env.allowedOrigins, req.origin)|;
    var tail := StatusAndBody(timestamp, AppId(req.appIdHeader), env, failure);
    assert t[n..] == tail;
    assert t[n..|t| - 2] == tail[..|tail| - 2];
  }

  /** The header map the handler leaves: the methods and headers lists always, the
      allow-origin value exactly when one was decided, every other header as it was. */
  lemma HandlerHeaders(headers: map<string, string>, allowedOrigins: Option<string>, origin: Option<string>)
    ensures var h := WithCors(headers, allowedOrigins, origin);
      && AllowMethodsName in h && h[AllowMethodsName] == AllowedMethods
      && AllowHeadersName in h && h[AllowHeadersName] == AllowedHeaders
      && (AllowOrigin(allowedOrigins, origin).Some? ==>
            AllowOriginName in h && h[AllowOriginName] == AllowOrigin(allowedOrigins, origin).value)
      && (AllowOrigin(allowedOrigins, origin).None? ==>
            (AllowOriginName in h <==> AllowOriginName in headers) &&
            (AllowOriginName in headers ==> h[AllowOriginName] == headers[AllowOriginName]))
      && (forall n :: n != AllowOriginName && n != AllowMethodsName && n != AllowHeadersName ==>
            (n in h <==> n in headers) && (n in headers ==> h[n] == headers[n]))
  {
    HeaderNamesDistinct();
  }

  /** The body the handler sends, in terms of its inputs: on success the health fields with the
      configured or default environment and port, on failure the error; both carry the same
      timestamp and app id. */
  lemma HandlerBody(req: Request, env: Env, timestamp: string, failure: Option<Thrown>)
    ensures var body := Trace(req, env, timestamp, failure)[|Trace(req, env, timestamp, failure)| - 1].body;
      && body.timestamp == timestamp
      && body.appId == AppId(req.appIdHeader)
      && (failure.None? ==> body == Healthy("ok", timestamp, AppId(req.appIdHeader), "running", "1.0.0",
                                              OrDefault(env.nodeEnv, "production"), OrDefault(env.port, "1111")))
      && (failure.Some? ==> body == Unhealthy("error", timestamp, AppId(req.appIdHeader), failure.value.message))
  {
  }

  /** The parts of an Express response the handler touches. */
  class Response {
    var headers: map<string, string>
    var statusCode: int
    var body: Option<Payload>
    /** Every change made so far, in order. */
    var events: seq<Event>

    constructor ()
      ensures headers == map[] && statusCode == 200 && body == None && events == []
    {
      headers, statusCode, body, events := map[], 200, None, [];
    }

    /** `res.setHeader(name, value)`. */
    method SetHeader(name: string, value: string)
      modifies this
      ensures headers == old(headers)[name := value]
      ensures events == old(events) + [Event.SetHeader(name, value)]
      ensures statusCode == old(statusCode) && body == old(body)
    {
      headers := headers[name := value];
      events := events + [Event.SetHeader(name, value)];
    }

    /** `res.status(code)`. */
    method Status(code: int)
      modifies this
      ensures statusCode == code
      ensures events == old(events) + [SetStatus(code)]
      ensures headers == old(headers) && body == old(body)
    {
      statusCode := code;
      events := events + [SetStatus(code)];
    }

    /** `res.json(payload)`. */
    method Json(payload: Payload)
      modifies this
      ensures body == Some(payload)
      ensures events == old(events) + [SendJson(payload)]
      ensures headers == old(headers) && statusCode == old(statusCode)
    {
      body := Some(payload);
      events := events + [SendJson(payload)];
    }
  }

  /** The allow-origin decision: "*" for a wildcard list, otherwise the request origin when the list names it. */
  method SetAllowOrigin(allowedOrigins: Option<string>, requestOrigin: Option<string>, res: Response)
    modifies res
    ensures res.events == old(res.events) + OriginEvents(AllowOrigin(allowedOrigins, requestOrigin))
    ensures res.headers == WithOrigin(old(res.headers), AllowOrigin(allowedOrigins, requestOrigin))
    ensures res.statusCode == old(res.statusCode) && res.body == old(res.body)
  {
    var allowList := AllowList(allowedOrigins);
    if allowList == "*" {
      res.SetHeader(AllowOriginName, "*");
    } else {
      var origin := requestOrigin;
      if origin.Some? && origin.value != "" && Listed(allowList, origin.value) {
        res.SetHeader(AllowOriginName, origin.value);
      } else {
        assert res.events == old(res.events) + [];
      }
    }
  }

  /** The handler's first step: the CORS headers, set before anything else happens. */
  method AddCorsHeaders(allowedOrigins: Option<string>, requestOrigin: Option<string>, res: Response)
    modifies res
    ensures res.events == old(res.events) + CorsEvents(allowedOrigins, requestOrigin)
    ensures res.headers == WithCors(old(res.headers), allowedOrigins, requestOrigin)
    ensures res.statusCode == old(res.statusCode) && res.body == old(res.body)
  {
    ghost var events0 := res.events;
    ghost var originEvents := OriginEvents(AllowOrigin(allowedOrigins, requestOrigin));
    SetAllowOrigin(allowedOrigins, requestOrigin, res);
    res.SetHeader(AllowMethodsName, AllowedMethods);
    res.SetHeader(AllowHeadersName, AllowedHeaders);
    AppendTwo(events0 + originEvents, SetHeader(AllowMethodsName, AllowedMethods), SetHeader(AllowHeadersName, AllowedHeaders));
    assert events0 + originEvents + [SetHeader(AllowMethodsName, AllowedMethods), SetHeader(AllowHeadersName, AllowedHeaders)]
        == events0 + (originEvents + [SetHeader(AllowMethodsName, AllowedMethods), SetHeader(AllowHeadersName, AllowedHeaders)]);
  }

  /**
   The handler. `timestamp` is the ISO time read at entry; `failure` is the error thrown
   inside the `try` block, if one is, and where it is thrown.
   */
  method Handle(req: Request, env: Env, timestamp: string, failure: Option<Thrown>, res: Response)
    modifies res
    ensures res.events == old(res.events) + Trace(req, env, timestamp, failure)
    ensures res.headers == WithCors(old(res.headers), env.allowedOrigins, req.origin)
    ensures res.statusCode == (if failure.None? then 200 else 500)
    ensures res.body == Some(Trace(req, env, timestamp, failure)[|Trace(req, env, timestamp, failure)| - 1].body)
  {
    var appId := AppId(req.appIdHeader);
    AddCorsHeaders(env.allowedOrigins, req.origin, res);
    ghost var afterCors := res.events;

    // the `try`: `status(200)` is reached unless the error comes first; `json` completes
    // only when nothing is thrown
    if failure.None? || failure.value.point == InJson {
      res.Status(200);
    }
    if failure.None? {
      res.Json(SuccessPayload(timestamp, appId, env));
    } else {
      // the `catch`
      res.Status(500);
      res.Json(ErrorPayload(timestamp, appId, failure.value.message));
    }
    assert res.events == afterCors + StatusAndBody(timestamp, appId, env, failure);
  }
}
