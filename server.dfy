/**
 * The request dispatcher (src/index.ts): parse the request, look up the path
 * and then the method in the route table, extract the payload according to
 * the method, call the handler, and wrap its result in a JSON response with
 * the fixed headers. Handlers and the route table are parameters, so that the
 * lemmas hold of every table and not only of the shipped one.
 */
module Server {
  import opened Types
  import opened Api
  import Utils

  /** A request as the runtime has already parsed it. */
  datatype Request = Request(
    verb: string,                   // the HTTP method as received, in any letter case
    pathname: string,               // the URL's path, with the base path still on it
    query: seq<(string, string)>,   // the URL's query entries, in order
    body: Option<Record>,           // what `request.json()` yields; `None` when it throws
    headers: Headers)

  /** What `parseRequest` returns. */
  datatype ParsedRequest = ParsedRequest(
    headers: Headers,
    verb: string,
    query: seq<(string, string)>,
    relativePath: string)

  /** The response envelope: status code, JSON body (before encoding), headers. */
  datatype Response = Response(status: int, body: Record, headers: map<string, string>)

  /**
   * What a call to the dispatcher ends in: a response, or a rejected promise,
   * which happens when the body of a POST cannot be parsed as JSON and which
   * the code leaves to the runtime.
   */
  datatype Outcome = Sent(response: Response) | Rejected

  /** The result of the method `switch`: a payload, a refusal, or a body that did not parse. */
  datatype Extraction = Payload(data: EndpointData) | NotSupported | BodyRejected

  // ---------------------------------------------------------------------------
  // parseRequest

  /** `toUpperCase` on one character: ASCII lower-case letters become capitals. */
  function UpperChar(c: char): char
  {
    if 'a' <= c <= 'z' then (c as int - 32) as char else c
  }

  /** `method.toUpperCase()`, character by character. */
  function ToUpper(s: string): (r: string)
    ensures |r| == |s|
    ensures forall i :: 0 <= i < |s| ==> r[i] == UpperChar(s[i])
  {
    if s == [] then [] else [UpperChar(s[0])] + ToUpper(s[1..])
  }

  /** `s.slice(start)`: the characters from `start` on, or "" when `start` is past the end. */
  function Slice(s: string, start: nat): string
  {
    if start <= |s| then s[start..] else ""
  }

  /** `url.pathname.slice(BASE_PATH.length)`. */
  function RelativePath(pathname: string): string
  {
    Slice(pathname, |BASE_PATH|)
  }

  function ParseRequest(request: Request): ParsedRequest
  {
    ParsedRequest(request.headers, ToUpper(request.verb), request.query, RelativePath(request.pathname))
  }

  /** True when entry `i` is the last one whose key is `entries[i].0`. */
  predicate LastWithKey(entries: seq<(string, string)>, i: int)
    requires 0 <= i < |entries|
  {
    forall j :: i < j < |entries| ==> entries[j].0 != entries[i].0
  }

  /**
   * `Object.fromEntries(url.searchParams.entries())`: one string field per
   * query key, entered in order, so that a later entry overwrites an earlier
   * one with the same key (see `FromEntriesLastWins`).
   */
  function FromEntries(entries: seq<(string, string)>): (r: Record)
    ensures r.Keys == set i | 0 <= i < |entries| :: entries[i].0
  {
    if entries == [] then map[]
    else
      var last := entries[|entries| - 1];
      FromEntries(entries[..|entries| - 1])[last.0 := JStr(last.1)]
  }

  /** The field for a query key holds the value of the last entry with that key. */
  lemma {:induction false} FromEntriesLastWins(entries: seq<(string, string)>, i: int)
    requires 0 <= i < |entries| && LastWithKey(entries, i)
    ensures entries[i].0 in FromEntries(entries)
    ensures FromEntries(entries)[entries[i].0] == JStr(entries[i].1)
  {
    var n := |entries| - 1;
    if i < n {
      var init := entries[..n];
      assert init[i] == entries[i];
      assert LastWithKey(init, i) by {
        forall j | i < j < |init| ensures init[j].0 != init[i].0 {
          assert init[j] == entries[j];
        }
      }
      FromEntriesLastWins(init, i);
      assert entries[n].0 != entries[i].0;
    }
  }

  /** A query yields no field exactly when it has no entry. */
  lemma FromEntriesEmpty(entries: seq<(string, string)>)
    ensures |FromEntries(entries)| == 0 <==> entries == []
  {
    if entries != [] {
      assert entries[0].0 in FromEntries(entries);
    }
  }

  // ---------------------------------------------------------------------------
  // json

  /** `json(data, status)`: the status defaults to OK, the headers are always the fixed set. */
  function JsonResponse(data: Record, status: Option<int>): Response
  {
    Response(match status case Some(code) => code case None => StatusCode(OK), data, RESPONSE_HEADERS)
  }

  /** `{ error: message }`. */
  function ErrorBody(message: string): Record
  {
    map["error" := JStr(message)]
  }

  /** `response.status`, with a missing or `null` field as `None`. */
  function StatusField(result: Record): Option<int>
  {
    if "status" in result && result["status"].JNum? then Some(result["status"].n) else None
  }

  // ---------------------------------------------------------------------------
  // handleRequest

  /** The `switch (method)` that fills `data`: query for GET, body for POST, refusal otherwise. */
  function ExtractPayload(verb: string, query: seq<(string, string)>, body: Option<Record>): Extraction
  {
    if verb == "GET" then
      var params := FromEntries(query);
      Payload(if |params| > 0 then Some(params) else None)
    else if verb == "POST" then
      match body
      case None => BodyRejected
      case Some(b) => Payload(if |b| > 0 then Some(b) else None)
    else NotSupported
  }

  /** What `handleRequest` answers to `request` when the route table is `routes`. */
  function Dispatch(request: Request, routes: Endpoints): Outcome
  {
    var p := ParseRequest(request);
    if p.relativePath !in routes then
      Sent(JsonResponse(ErrorBody("Endpoint not found"), Some(StatusCode(NOT_FOUND))))
    else if p.verb !in routes[p.relativePath] then
      Sent(JsonResponse(ErrorBody("Method not allowed"), Some(StatusCode(METHOD_NOT_ALLOWED))))
    else
      var handler := routes[p.relativePath][p.verb];
      match ExtractPayload(p.verb, p.query, request.body)
      case NotSupported =>
        Sent(JsonResponse(ErrorBody("Method not supported by API"), Some(StatusCode(METHOD_NOT_ALLOWED))))
      case BodyRejected => Rejected
      case Payload(data) =>
        var response := handler(data, p.headers);
        Sent(JsonResponse(Utils.Omitted(response, ["status"]), StatusField(response)))
  }

  /** `handleRequest`, step by step, with its early returns and its mutable `data`. */
  method HandleRequest(request: Request, routes: Endpoints) returns (o: Outcome)
    ensures o == Dispatch(request, routes)
  {
    var parsed := ParseRequest(request);

    if parsed.relativePath !in routes {
      return Sent(JsonResponse(ErrorBody("Endpoint not found"), Some(StatusCode(NOT_FOUND))));
    }
    var endpoint := routes[parsed.relativePath];

    if parsed.verb !in endpoint {
      return Sent(JsonResponse(ErrorBody("Method not allowed"), Some(StatusCode(METHOD_NOT_ALLOWED))));
    }
    var handler := endpoint[parsed.verb];

    var data: EndpointData := None;
    if parsed.verb == "GET" {
      var params := FromEntries(parsed.query);
      if |params| > 0 { data := Some(params); }
    } else if parsed.verb == "POST" {
      if request.body.None? {
        return Rejected;
      }
      var body := request.body.value;
      if |body| > 0 { data := Some(body); }
    } else {
      return Sent(JsonResponse(ErrorBody("Method not supported by API"), Some(StatusCode(METHOD_NOT_ALLOWED))));
    }

    var response := handler(data, parsed.headers);
    var withoutStatus := Utils.Omit(response, ["status"]);
    return Sent(JsonResponse(withoutStatus, StatusField(response)));
  }

  // ---------------------------------------------------------------------------
  // Properties of the dispatcher

  /** Upper-casing twice is upper-casing once. */
  lemma ToUpperIdempotent(s: string)
    ensures ToUpper(ToUpper(s)) == ToUpper(s)
  {
  }

  /** The method's letter case never matters: only its upper-cased form reaches the table. */
  lemma DispatchIgnoresMethodCase(request: Request, verb: string, routes: Endpoints)
    requires ToUpper(verb) == ToUpper(request.verb)
    ensures Dispatch(request.(verb := verb), routes) == Dispatch(request, routes)
  {
  }

  /**
   * The relative path drops the first `|BASE_PATH|` characters whether or not
   * they spell the base path; it restores the path when they do.
   */
  lemma RelativePathDropsBaseLength(pathname: string)
    ensures |BASE_PATH| <= |pathname| ==> RelativePath(pathname) == pathname[|BASE_PATH|..]
    ensures |pathname| < |BASE_PATH| ==> RelativePath(pathname) == ""
    ensures BASE_PATH <= pathname ==> BASE_PATH + RelativePath(pathname) == pathname
  {
  }

  /** With the root as base path, the relative path is the whole path. */
  lemma RelativePathAtRoot(pathname: string)
    ensures RelativePath(pathname) == pathname
  {
  }

  /** An unregistered path is 404 `{ error: "Endpoint not found" }`, whatever the method. */
  lemma UnknownPathNotFound(request: Request, routes: Endpoints)
    requires RelativePath(request.pathname) !in routes
    ensures Dispatch(request, routes)
         == Sent(Response(404, map["error" := JStr("Endpoint not found")], RESPONSE_HEADERS))
  {
  }

  /** A registered path without the upper-cased method is 405 `{ error: "Method not allowed" }`. */
  lemma UnknownMethodNotAllowed(request: Request, routes: Endpoints)
    requires RelativePath(request.pathname) in routes
    requires ToUpper(request.verb) !in routes[RelativePath(request.pathname)]
    ensures Dispatch(request, routes)
         == Sent(Response(405, map["error" := JStr("Method not allowed")], RESPONSE_HEADERS))
  {
  }

  /** A registered handler for a method other than GET or POST is refused with 405. */
  lemma UnsupportedMethodRefused(request: Request, routes: Endpoints)
    requires RelativePath(request.pathname) in routes
    requires ToUpper(request.verb) in routes[RelativePath(request.pathname)]
    requires ToUpper(request.verb) != "GET" && ToUpper(request.verb) != "POST"
    ensures Dispatch(request, routes)
         == Sent(Response(405, map["error" := JStr("Method not supported by API")], RESPONSE_HEADERS))
  {
  }

  /** The request reaches a handler: path and method are registered and a payload was extracted. */
  predicate InvokesHandler(request: Request, routes: Endpoints)
  {
    var p := ParseRequest(request);
    && p.relativePath in routes
    && p.verb in routes[p.relativePath]
    && ExtractPayload(p.verb, p.query, request.body).Payload?
  }

  /** Two route tables with the same paths, and the same methods under each path. */
  predicate SameShape(routes: Endpoints, routes': Endpoints)
  {
    && routes.Keys == routes'.Keys
    && forall path :: path in routes ==> routes[path].Keys == routes'[path].Keys
  }

  /**
   * When no handler is reached, the outcome depends only on which paths and
   * methods are registered and not on any handler: no handler ran.
   */
  lemma ErrorsInvokeNoHandler(request: Request, routes: Endpoints, routes': Endpoints)
    requires SameShape(routes, routes')
    requires !InvokesHandler(request, routes)
    ensures !InvokesHandler(request, routes')
    ensures Dispatch(request, routes') == Dispatch(request, routes)
  {
  }

  /** GET passes the query as a record, or `null` when the query has no entry. */
  lemma GetPayloadFromQuery(query: seq<(string, string)>, body: Option<Record>)
    ensures ExtractPayload("GET", query, body)
         == Payload(if query == [] then None else Some(FromEntries(query)))
  {
    FromEntriesEmpty(query);
  }

  /** POST passes the parsed body, or `null` when it is `{}`; a body that did not parse rejects. */
  lemma PostPayloadFromBody(query: seq<(string, string)>, body: Option<Record>)
    ensures body.None? ==> ExtractPayload("POST", query, body) == BodyRejected
    ensures body.Some? ==>
      ExtractPayload("POST", query, body) == Payload(if body.value == map[] then None else Some(body.value))
  {
  }

  /** Every other method yields no payload at all. */
  lemma OtherMethodsNotSupported(verb: string, query: seq<(string, string)>, body: Option<Record>)
    requires verb != "GET" && verb != "POST"
    ensures ExtractPayload(verb, query, body) == NotSupported
  {
  }

  /**
   * A reached handler's result becomes the response: its `status` (200 when
   * absent or `null`) is the status code, and the body is the rest of it.
   */
  lemma HandlerResultAnswers(request: Request, routes: Endpoints)
    requires InvokesHandler(request, routes)
    ensures
      var p := ParseRequest(request);
      var result := routes[p.relativePath][p.verb](ExtractPayload(p.verb, p.query, request.body).data, request.headers);
      && Dispatch(request, routes).Sent?
      && Dispatch(request, routes).response.status
         == (if "status" in result && result["status"].JNum? then result["status"].n else 200)
      && Dispatch(request, routes).response.body.Keys == result.Keys - {"status"}
      && (forall k :: k in Dispatch(request, routes).response.body
            ==> Dispatch(request, routes).response.body[k] == result[k])
  {
  }

  /** The record a reached handler returns. */
  function HandlerResult(request: Request, routes: Endpoints): Record
    requires InvokesHandler(request, routes)
  {
    var p := ParseRequest(request);
    routes[p.relativePath][p.verb](ExtractPayload(p.verb, p.query, request.body).data, request.headers)
  }

  /** The handler result's type: `status`, when present, is `null` or one of the `STATUSES` codes. */
  predicate StatusTyped(result: Record)
  {
    "status" in result ==> result["status"] == JNull || exists name :: result["status"] == JNum(StatusCode(name))
  }

  /**
   * When the handler's result has the declared type, every response status
   * is a registered code, so it lies in 200..511.
   */
  lemma SentStatusRegistered(request: Request, routes: Endpoints)
    requires InvokesHandler(request, routes) ==> StatusTyped(HandlerResult(request, routes))
    ensures Dispatch(request, routes).Sent? ==> 200 <= Dispatch(request, routes).response.status <= 511
  {
    if InvokesHandler(request, routes) {
      var result := HandlerResult(request, routes);
      if "status" in result && result["status"] != JNull {
        var name :| result["status"] == JNum(StatusCode(name));
        assert StatusField(result) == Some(StatusCode(name));
      }
    }
  }

  /** No response body ever holds a `status` field. */
  lemma NoStatusInBody(request: Request, routes: Endpoints)
    ensures Dispatch(request, routes).Sent? ==> "status" !in Dispatch(request, routes).response.body
  {
  }

  /** Every response, error or success, carries exactly the fixed headers. */
  lemma FixedHeadersOnEveryResponse(request: Request, routes: Endpoints)
    ensures Dispatch(request, routes).Sent? ==> Dispatch(request, routes).response.headers == RESPONSE_HEADERS
  {
  }

  /** Only a POST whose body did not parse ends without a response. */
  lemma RejectedOnlyForUnparsedPost(request: Request, routes: Endpoints)
    ensures Dispatch(request, routes).Rejected?
        <==> RelativePath(request.pathname) in routes
             && ToUpper(request.verb) in routes[RelativePath(request.pathname)]
             && ToUpper(request.verb) == "POST" && request.body.None?
  {
  }

  // ---------------------------------------------------------------------------
  // The shipped route table

  /** `GET /echo` answers 200 `{ params, headers }`; `params` is `null` for an empty query. */
  lemma EchoGetResponds(request: Request)
    requires RelativePath(request.pathname) == "/echo" && ToUpper(request.verb) == "GET"
    ensures
      var params := if request.query == [] then None else Some(FromEntries(request.query));
      Dispatch(request, ENDPOINTS) == Sent(Response(200, EchoGet(params, request.headers), RESPONSE_HEADERS))
  {
    var params := if request.query == [] then None else Some(FromEntries(request.query));
    GetPayloadFromQuery(request.query, request.body);
    var result := EchoGet(params, request.headers);
    assert ENDPOINTS["/echo"]["GET"](params, request.headers) == result;
    Utils.OmitAbsentKeys(result, ["status"]);
    assert StatusField(result) == None;
  }

  /** `POST /echo` with a parsed body answers 200 `{ body, headers }`; `body` is `null` for `{}`. */
  lemma EchoPostResponds(request: Request)
    requires RelativePath(request.pathname) == "/echo" && ToUpper(request.verb) == "POST"
    requires request.body.Some?
    ensures
      var body := if request.body.value == map[] then None else Some(request.body.value);
      Dispatch(request, ENDPOINTS) == Sent(Response(200, EchoPost(body, request.headers), RESPONSE_HEADERS))
  {
  }

  /** Any other method on `/echo` (DELETE, say) is 405 `{ error: "Method not allowed" }`. */
  lemma EchoOtherMethodsNotAllowed(request: Request)
    requires RelativePath(request.pathname) == "/echo"
    requires ToUpper(request.verb) != "GET" && ToUpper(request.verb) != "POST"
    ensures Dispatch(request, ENDPOINTS)
         == Sent(Response(405, map["error" := JStr("Method not allowed")], RESPONSE_HEADERS))
  {
  }
}
