/**
 * The server-side API client (`RescueStreamClient`): what it signs, what it
 * sends, and how it reads the answer. The HMAC-SHA256 digest is a
 * parameter (`hmac(secret, message)`), the clock is the `nowMs` argument,
 * and the network round trip is the `Response` value handed back.
 */
module ApiClient {
  import opened Wrappers
  import opened Text

  // ---------------------------------------------------------------------
  // Configuration and the shared instance
  // ---------------------------------------------------------------------

  datatype Credentials = Credentials(baseUrl: string, apiKey: string, apiSecret: string)

  /**
   * The constructor: the base URL, key and secret must all be set and
   * non-empty; otherwise it throws (`None`).
   */
  function NewClient(baseUrl: Option<string>, apiKey: Option<string>, apiSecret: Option<string>): (r: Option<Credentials>)
    ensures r.Some? <==> Truthy(baseUrl) && Truthy(apiKey) && Truthy(apiSecret)
    ensures r.Some? ==> r.value == Credentials(baseUrl.value, apiKey.value, apiSecret.value)
  {
    if Truthy(baseUrl) && Truthy(apiKey) && Truthy(apiSecret)
    then Some(Credentials(baseUrl.value, apiKey.value, apiSecret.value))
    else None
  }

  /** The module-level `clientInstance`, created on first use. */
  class ClientRegistry {
    var instance: Option<Credentials>

    constructor()
      ensures instance.None?
    {
      instance := None;
    }

    /**
     * `getRescueStreamClient`: the existing instance, or a new one built
     * from the environment; a failed construction leaves none.
     */
    method GetClient(baseUrl: Option<string>, apiKey: Option<string>, apiSecret: Option<string>)
      returns (r: Option<Credentials>)
      modifies this
      ensures old(instance).Some? ==> instance == old(instance)
      ensures old(instance).None? ==> instance == NewClient(baseUrl, apiKey, apiSecret)
      ensures r == instance
    {
      if instance.None? {
        instance := NewClient(baseUrl, apiKey, apiSecret);
      }
      r := instance;
    }
  }

  // ---------------------------------------------------------------------
  // Signing
  // ---------------------------------------------------------------------

  /** The method, path, timestamp and body, one per line. */
  function StringToSign(verb: string, path: string, timestamp: nat, body: string): (r: string)
    ensures r == Join([verb, path, NatToDecimal(timestamp), body], '\n')
  {
    var r := verb + "\n" + path + "\n" + NatToDecimal(timestamp) + "\n" + body;
    assert Join([body], '\n') == body;
    assert Join([NatToDecimal(timestamp), body], '\n') == NatToDecimal(timestamp) + "\n" + body;
    assert [verb, path, NatToDecimal(timestamp), body][1..] == [path, NatToDecimal(timestamp), body];
    assert [path, NatToDecimal(timestamp), body][1..] == [NatToDecimal(timestamp), body];
    r
  }

  /** The digits of a number hold no line break. */
  lemma DecimalHasNoNewline(n: nat)
    ensures '\n' !in NatToDecimal(n)
  {
    var d := NatToDecimal(n);
    assert forall i :: 0 <= i < |d| ==> d[i] != '\n' by {
      forall i | 0 <= i < |d| ensures d[i] != '\n' { assert IsDigit(d[i]); }
    }
  }

  /** With single-line fields, the four fields can be read back from the signed string. */
  lemma StringToSignFields(verb: string, path: string, timestamp: nat, body: string)
    requires '\n' !in verb && '\n' !in path && '\n' !in body
    ensures Split(StringToSign(verb, path, timestamp, body), '\n') == [verb, path, NatToDecimal(timestamp), body]
  {
    DecimalHasNoNewline(timestamp);
    SplitJoin([verb, path, NatToDecimal(timestamp), body], '\n');
  }

  /**
   * Hence a signature covers each field: two requests with single-line
   * fields sign the same string only if method, path, timestamp and body
   * all agree.
   */
  lemma StringToSignInjective(m1: string, p1: string, t1: nat, b1: string,
                              m2: string, p2: string, t2: nat, b2: string)
    requires '\n' !in m1 && '\n' !in p1 && '\n' !in b1
    requires '\n' !in m2 && '\n' !in p2 && '\n' !in b2
    requires StringToSign(m1, p1, t1, b1) == StringToSign(m2, p2, t2, b2)
    ensures m1 == m2 && p1 == p2 && t1 == t2 && b1 == b2
  {
    StringToSignFields(m1, p1, t1, b1);
    StringToSignFields(m2, p2, t2, b2);
    NatToDecimalInjective(t1, t2);
  }

  /** `path.split('?')[0]`: the path without its query string. */
  function SignedPath(path: string): (r: string)
    ensures '?' !in r
    ensures StartsWith(path, r)
    ensures |r| < |path| ==> path[|r|] == '?'
    ensures '?' !in path ==> r == path
  {
    SplitFirst(path, '?');
    assert '?' !in path ==> Split(path, '?') == [path] by {
      if '?' !in path { SplitNoSep(path, '?'); }
    }
    Split(path, '?')[0]
  }

  /** `Math.floor(Date.now() / 1000)`: whole seconds. */
  function Timestamp(nowMs: nat): (r: nat)
    ensures r * 1000 <= nowMs < r * 1000 + 1000
  {
    nowMs / 1000
  }

  /** `body ? JSON.stringify(body) : ''`, with the JSON text of a given body as the argument. */
  function BodyString(body: Option<string>): (r: string)
    ensures body.None? ==> r == ""
    ensures body.Some? ==> r == body.value
  {
    body.GetOr("")
  }

  /** `bodyString || undefined`: an empty body is not sent. */
  function SentBody(bodyString: string): (r: Option<string>)
    ensures r.None? <==> bodyString == ""
    ensures r.Some? ==> r.value == bodyString
  {
    if bodyString == "" then None else Some(bodyString)
  }

  datatype Headers = Headers(contentType: string, apiKey: string, timestamp: string, signature: string)

  datatype Prepared = Prepared(url: string, verb: string, headers: Headers, body: Option<string>)

  /** The request `request(verb, path, body)` sends at time `nowMs`. */
  function Prepare(c: Credentials, verb: string, path: string, nowMs: nat, body: Option<string>,
                   hmac: (string, string) -> string): (r: Prepared)
    ensures r.url == c.baseUrl + path && r.verb == verb
    ensures r.headers.contentType == "application/json" && r.headers.apiKey == c.apiKey
    ensures r.headers.timestamp == NatToDecimal(Timestamp(nowMs))
    ensures r.headers.signature
      == hmac(c.apiSecret, StringToSign(verb, SignedPath(path), Timestamp(nowMs), BodyString(body)))
    ensures r.body == SentBody(BodyString(body))
  {
    var timestamp := Timestamp(nowMs);
    var bodyString := BodyString(body);
    var signature := hmac(c.apiSecret, StringToSign(verb, SignedPath(path), timestamp, bodyString));
    Prepared(c.baseUrl + path, verb,
             Headers("application/json", c.apiKey, NatToDecimal(timestamp), signature),
             SentBody(bodyString))
  }

  /**
   * What the server can check: the signed string is rebuilt from the sent
   * method, the sent path without its query, the X-Timestamp header and the
   * sent body (empty when none is sent).
   */
  lemma SignatureMatchesWhatIsSent(c: Credentials, verb: string, path: string, nowMs: nat,
                                   body: Option<string>, hmac: (string, string) -> string)
    ensures var r := Prepare(c, verb, path, nowMs, body, hmac);
      var sentPath := r.url[|c.baseUrl|..];
      r.headers.signature == hmac(c.apiSecret,
        verb + "\n" + SignedPath(sentPath) + "\n" + r.headers.timestamp + "\n" + r.body.GetOr(""))
  {
    var r := Prepare(c, verb, path, nowMs, body, hmac);
    assert r.url[|c.baseUrl|..] == path;
  }

  // ---------------------------------------------------------------------
  // Responses
  // ---------------------------------------------------------------------

  /** An RFC 9457 problem document (`APIError`). */
  datatype ApiError = ApiError(errorType: string, title: string, status: int, detail: string, instance: string)

  /** The answer: status, status text, and the body when it parses as JSON. */
  datatype Response = Response(status: int, statusText: string, json: Option<string>)

  /** What is thrown on failure: the server's own document, or the client's fallback. */
  datatype ErrorPayload = ServerError(json: string) | Fallback(error: ApiError)

  datatype Outcome = Data(json: string) | NoContent | Thrown(payload: ErrorPayload) | BadJson

  /** `response.ok`. */
  predicate IsOk(status: int) {
    200 <= status <= 299
  }

  /**
   * The end of `request`: a failure throws the server's problem document,
   * or a fallback carrying the status and the path when the body is not
   * JSON; 204 yields nothing; any other success yields the parsed body.
   */
  function HandleResponse(resp: Response, path: string): (r: Outcome)
    ensures r.Thrown? <==> !IsOk(resp.status)
    ensures !IsOk(resp.status) && resp.json.Some? ==> r == Thrown(ServerError(resp.json.value))
    ensures !IsOk(resp.status) && resp.json.None?
      ==> r == Thrown(Fallback(ApiError("/errors/unknown", "Unknown Error", resp.status, resp.statusText, path)))
    ensures r.NoContent? <==> resp.status == 204
    ensures r.Data? <==> IsOk(resp.status) && resp.status != 204 && resp.json.Some?
    ensures r.Data? ==> r.json == resp.json.value
  {
    if !IsOk(resp.status) then
      match resp.json
      case Some(j) => Thrown(ServerError(j))
      case None => Thrown(Fallback(ApiError("/errors/unknown", "Unknown Error", resp.status, resp.statusText, path)))
    else if resp.status == 204 then NoContent
    else
      match resp.json
      case Some(j) => Data(j)
      case None => BadJson
  }

  // ---------------------------------------------------------------------
  // Endpoints
  // ---------------------------------------------------------------------

  /** The client's public calls; `body` is the JSON text of the payload. */
  datatype Endpoint =
    | ListStreams | GetStream(id: string)
    | ListBroadcasters | GetBroadcaster(id: string) | CreateBroadcaster(body: string)
    | UpdateBroadcaster(id: string, body: string) | DeleteBroadcaster(id: string)
    | ListStreamKeys | GetStreamKey(id: string) | CreateStreamKey(body: string) | RevokeStreamKey(id: string)
    | ListAuditLogs(queryString: string) | CreateAuditLog(body: string)

  datatype Call = Call(verb: string, path: string, body: Option<string>)

  /** `/audit-logs`, with `?` and the query string only when there is one. */
  function ListAuditLogsPath(queryString: string): (r: string)
    ensures queryString == "" ==> r == "/audit-logs"
    ensures queryString != "" ==> r == "/audit-logs?" + queryString
  {
    "/audit-logs" + (if queryString != "" then "?" + queryString else "")
  }

  /** The query string is never signed: the audit-log listing always signs `/audit-logs`. */
  lemma AuditLogQueryIsNotSigned(queryString: string)
    ensures SignedPath(ListAuditLogsPath(queryString)) == "/audit-logs"
  {
    var path := ListAuditLogsPath(queryString);
    assert '?' !in "/audit-logs";
    if queryString != "" {
      SplitAtSep("/audit-logs", queryString, '?');
      assert path == "/audit-logs" + ['?'] + queryString;
    }
  }

  /** The method, path and body each call passes to `request`. */
  function Route(e: Endpoint): (r: Call)
    ensures r.body.Some? <==> e.CreateBroadcaster? || e.UpdateBroadcaster? || e.CreateStreamKey? || e.CreateAuditLog?
    ensures r.verb == "GET" ==> r.body.None?
    ensures StartsWith(r.path, "/")
    ensures r.verb == "GET" <==> e.ListStreams? || e.GetStream? || e.ListBroadcasters? || e.GetBroadcaster?
                                 || e.ListStreamKeys? || e.GetStreamKey? || e.ListAuditLogs?
    ensures r.verb == "POST" <==> e.CreateBroadcaster? || e.CreateStreamKey? || e.CreateAuditLog?
    ensures r.verb == "PATCH" <==> e.UpdateBroadcaster?
    ensures r.verb == "DELETE" <==> e.DeleteBroadcaster? || e.RevokeStreamKey?
    ensures e.ListStreams? ==> r.path == "/streams"
    ensures e.GetStream? ==> r.path == "/streams/" + e.id
    ensures e.ListBroadcasters? || e.CreateBroadcaster? ==> r.path == "/broadcasters"
    ensures e.GetBroadcaster? || e.UpdateBroadcaster? || e.DeleteBroadcaster? ==> r.path == "/broadcasters/" + e.id
    ensures e.ListStreamKeys? || e.CreateStreamKey? ==> r.path == "/stream-keys"
    ensures e.GetStreamKey? || e.RevokeStreamKey? ==> r.path == "/stream-keys/" + e.id
    ensures e.ListAuditLogs? ==> r.path == ListAuditLogsPath(e.queryString)
    ensures e.CreateAuditLog? ==> r.path == "/audit-events"
    ensures r.body.Some? ==> r.body.value == e.body
  {
    match e
    case ListStreams => Call("GET", "/streams", None)
    case GetStream(id) => Call("GET", "/streams/" + id, None)
    case ListBroadcasters => Call("GET", "/broadcasters", None)
    case GetBroadcaster(id) => Call("GET", "/broadcasters/" + id, None)
    case CreateBroadcaster(body) => Call("POST", "/broadcasters", Some(body))
    case UpdateBroadcaster(id, body) => Call("PATCH", "/broadcasters/" + id, Some(body))
    case DeleteBroadcaster(id) => Call("DELETE", "/broadcasters/" + id, None)
    case ListStreamKeys => Call("GET", "/stream-keys", None)
    case GetStreamKey(id) => Call("GET", "/stream-keys/" + id, None)
    case CreateStreamKey(body) => Call("POST", "/stream-keys", Some(body))
    case RevokeStreamKey(id) => Call("DELETE", "/stream-keys/" + id, None)
    case ListAuditLogs(qs) => Call("GET", ListAuditLogsPath(qs), None)
    case CreateAuditLog(body) => Call("POST", "/audit-events", Some(body))
  }

  /** A call without a payload sends no body and signs an empty one. */
  lemma CallsWithoutPayloadSendNoBody(c: Credentials, e: Endpoint, nowMs: nat, hmac: (string, string) -> string)
    requires Route(e).body.None?
    ensures Prepare(c, Route(e).verb, Route(e).path, nowMs, Route(e).body, hmac).body.None?
    ensures BodyString(Route(e).body) == ""
  {
  }
}
