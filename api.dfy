/**
 * The API's constant configuration (src/api.ts): the route table with its two
 * echo handlers, the base path, the response headers sent with every response
 * and the table of symbolic HTTP status names.
 */
module Api {
  import opened Types

  /** `GET /echo`: answers `{ params, headers }`, its two inputs as given. */
  function EchoGet(params: EndpointData, headers: Headers): (r: Record)
    ensures r.Keys == {"params", "headers"}
    ensures JsonToData(r["params"]) == Some(params)
    ensures JsonToHeaders(r["headers"]) == Some(headers)
  {
    DataRoundTrip(params);
    HeadersRoundTrip(headers);
    map["params" := DataToJson(params), "headers" := HeadersToJson(headers)]
  }

  /** `POST /echo`: answers `{ body, headers }`, its two inputs as given. */
  function EchoPost(body: EndpointData, headers: Headers): (r: Record)
    ensures r.Keys == {"body", "headers"}
    ensures JsonToData(r["body"]) == Some(body)
    ensures JsonToHeaders(r["headers"]) == Some(headers)
  {
    DataRoundTrip(body);
    HeadersRoundTrip(headers);
    map["body" := DataToJson(body), "headers" := HeadersToJson(headers)]
  }

  /** `ENDPOINTS`: one path, `/echo`, served for GET and POST. */
  const ENDPOINTS: Endpoints := map["/echo" := map["GET" := EchoGet, "POST" := EchoPost]]

  /** The port the server listens on (start-up only; not used by dispatch). */
  const PORT: int := 8080

  /** Prefix stripped from every request path; empty means the root. */
  const BASE_PATH: string := ""

  /** The server name shown in logs. */
  const NAME: string := "bun-json-api"

  /** Headers sent, unchanged, with every response. */
  const RESPONSE_HEADERS: map<string, string> := map[
    "Access-Control-Allow-Origin" := "*",
    "Access-Control-Allow-Methods" := "GET, POST",
    "Access-Control-Allow-Headers" := "Content-Type",
    "Content-Type" := "application/json",
    "Server" := "Bun",
    "X-Powered-By" := "Bun",
    "X-Content-Type-Options" := "nosniff",
    "X-Frame-Options" := "DENY",
    "X-XSS-Protection" := "1; mode=block",
    "Referrer-Policy" := "no-referrer",
    "Feature-Policy" := "none",
    "Strict-Transport-Security" := "max-age=31536000; includeSubDomains; preload"
  ]

  /** The symbolic names of `STATUSES`. */
  datatype StatusName =
    // 2xx Success
    | OK
    | CREATED
    | ACCEPTED
    | NON_AUTHORITATIVE_INFORMATION
    | NO_CONTENT
    | RESET_CONTENT
    | PARTIAL_CONTENT
    // 3xx Redirection
    | MULTIPLE_CHOICES
    | MOVED_PERMANENTLY
    | FOUND
    | SEE_OTHER
    | NOT_MODIFIED
    | USE_PROXY
    | TEMPORARY_REDIRECT
    | PERMANENT_REDIRECT
    // 4xx Client Error
    | BAD_REQUEST
    | UNAUTHORIZED
    | PAYMENT_REQUIRED
    | FORBIDDEN
    | NOT_FOUND
    | METHOD_NOT_ALLOWED
    | NOT_ACCEPTABLE
    | PROXY_AUTHENTICATION_REQUIRED
    | REQUEST_TIMEOUT
    | CONFLICT
    | GONE
    | LENGTH_REQUIRED
    | PRECONDITION_FAILED
    | PAYLOAD_TOO_LARGE
    | URI_TOO_LONG
    | UNSUPPORTED_MEDIA_TYPE
    | RANGE_NOT_SATISFIABLE
    | EXPECTATION_FAILED
    | IM_A_TEAPOT
    | MISDIRECTED_REQUEST
    | UNPROCESSABLE_ENTITY
    | LOCKED
    | FAILED_DEPENDENCY
    | TOO_EARLY
    | UPGRADE_REQUIRED
    | PRECONDITION_REQUIRED
    | TOO_MANY_REQUESTS
    | REQUEST_HEADER_FIELDS_TOO_LARGE
    // 5xx Server Error
    | INTERNAL_SERVER_ERROR
    | NOT_IMPLEMENTED
    | BAD_GATEWAY
    | SERVICE_UNAVAILABLE
    | GATEWAY_TIMEOUT
    | HTTP_VERSION_NOT_SUPPORTED
    | VARIANT_ALSO_NEGOTIATES
    | INSUFFICIENT_STORAGE
    | LOOP_DETECTED
    | NOT_EXTENDED
    | NETWORK_AUTHENTICATION_REQUIRED

  /** `STATUSES[name]`: the HTTP status code registered under a symbolic name. */
  function StatusCode(name: StatusName): (code: int)
    ensures 200 <= code <= 511
  {
    match name
    case OK => 200
    case CREATED => 201
    case ACCEPTED => 202
    case NON_AUTHORITATIVE_INFORMATION => 203
    case NO_CONTENT => 204
    case RESET_CONTENT => 205
    case PARTIAL_CONTENT => 206
    case MULTIPLE_CHOICES => 300
    case MOVED_PERMANENTLY => 301
    case FOUND => 302
    case SEE_OTHER => 303
    case NOT_MODIFIED => 304
    case USE_PROXY => 305
    case TEMPORARY_REDIRECT => 307
    case PERMANENT_REDIRECT => 308
    case BAD_REQUEST => 400
    case UNAUTHORIZED => 401
    case PAYMENT_REQUIRED => 402
    case FORBIDDEN => 403
    case NOT_FOUND => 404
    case METHOD_NOT_ALLOWED => 405
    case NOT_ACCEPTABLE => 406
    case PROXY_AUTHENTICATION_REQUIRED => 407
    case REQUEST_TIMEOUT => 408
    case CONFLICT => 409
    case GONE => 410
    case LENGTH_REQUIRED => 411
    case PRECONDITION_FAILED => 412
    case PAYLOAD_TOO_LARGE => 413
    case URI_TOO_LONG => 414
    case UNSUPPORTED_MEDIA_TYPE => 415
    case RANGE_NOT_SATISFIABLE => 416
    case EXPECTATION_FAILED => 417
    case IM_A_TEAPOT => 418
    case MISDIRECTED_REQUEST => 421
    case UNPROCESSABLE_ENTITY => 422
    case LOCKED => 423
    case FAILED_DEPENDENCY => 424
    case TOO_EARLY => 425
    case UPGRADE_REQUIRED => 426
    case PRECONDITION_REQUIRED => 428
    case TOO_MANY_REQUESTS => 429
    case REQUEST_HEADER_FIELDS_TOO_LARGE => 431
    case INTERNAL_SERVER_ERROR => 500
    case NOT_IMPLEMENTED => 501
    case BAD_GATEWAY => 502
    case SERVICE_UNAVAILABLE => 503
    case GATEWAY_TIMEOUT => 504
    case HTTP_VERSION_NOT_SUPPORTED => 505
    case VARIANT_ALSO_NEGOTIATES => 506
    case INSUFFICIENT_STORAGE => 507
    case LOOP_DETECTED => 508
    case NOT_EXTENDED => 510
    case NETWORK_AUTHENTICATION_REQUIRED => 511
  }

  /** The route table has exactly one path, and that path exactly two methods. */
  lemma EndpointsShape()
    ensures ENDPOINTS.Keys == {"/echo"}
    ensures ENDPOINTS["/echo"].Keys == {"GET", "POST"}
  {
  }

  /**
   * The three codes the dispatcher uses are those of sections 15.3.1
   * (200 OK), 15.5.5 (404 Not Found) and 15.5.6 (405 Method Not Allowed)
   * of RFC 9110.
   */
  lemma DispatchStatusCodes()
    ensures StatusCode(OK) == 200
    ensures StatusCode(NOT_FOUND) == 404
    ensures StatusCode(METHOD_NOT_ALLOWED) == 405
  {
  }

  /** The root base path, and JSON as the declared content type. */
  lemma ConfigurationConstants()
    ensures BASE_PATH == ""
    ensures "Content-Type" in RESPONSE_HEADERS && RESPONSE_HEADERS["Content-Type"] == "application/json"
  {
  }
}
