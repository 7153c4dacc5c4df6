/**
 * The shapes the dispatcher works on: JSON values, the data handed to a
 * handler, handlers themselves and the route table (src/types.d.ts), plus the
 * embedding of a handler's inputs into a JSON object field.
 */
module Types {

  datatype Option<+T> = None | Some(value: T)

  /** A JSON value. Numbers are integers in this model. */
  datatype Json =
    | JNull
    | JBool(b: bool)
    | JNum(n: int)
    | JStr(s: string)
    | JArr(items: seq<Json>)
    | JObj(fields: map<string, Json>)

  /** A JavaScript object read as a record of JSON fields. */
  type Record = map<string, Json>

  /** Request headers: lower-level HTTP plumbing hands them over as strings. */
  type Headers = map<string, string>

  /** `EndpointData`: a record, or `null` (here `None`). */
  type EndpointData = Option<Record>

  /**
   * `EndpointRequestHandler`: takes the extracted payload and the request
   * headers and produces a record that may carry a `status` field.
   */
  type Handler = (EndpointData, Headers) -> Record

  /** `Endpoints`: path, then upper-case method name, then handler. */
  type Endpoints = map<string, map<string, Handler>>

  /** How a payload (or `null`) sits inside a JSON object, e.g. `{ params }`. */
  function DataToJson(data: EndpointData): (j: Json)
    ensures data.None? <==> j == JNull
    ensures data.Some? ==> j == JObj(data.value)
  {
    match data
    case None => JNull
    case Some(m) => JObj(m)
  }

  /** Reads a field back as endpoint data; anything but an object or `null` is not one. */
  function JsonToData(j: Json): Option<EndpointData>
  {
    match j
    case JNull => Some(None)
    case JObj(m) => Some(Some(m))
    case _ => None
  }

  /** How a header map sits inside a JSON object, e.g. `{ headers }`. */
  function HeadersToJson(headers: Headers): (j: Json)
    ensures j.JObj? && j.fields.Keys == headers.Keys
    ensures forall k :: k in headers ==> j.fields[k] == JStr(headers[k])
  {
    JObj(map k | k in headers :: JStr(headers[k]))
  }

  /** Reads a field back as a header map: an object whose every field is a string. */
  function JsonToHeaders(j: Json): Option<Headers>
  {
    if j.JObj? && forall k :: k in j.fields ==> j.fields[k].JStr?
    then Some(map k | k in j.fields :: j.fields[k].s)
    else None
  }

  lemma DataRoundTrip(data: EndpointData)
    ensures JsonToData(DataToJson(data)) == Some(data)
  {
  }

  lemma HeadersRoundTrip(headers: Headers)
    ensures JsonToHeaders(HeadersToJson(headers)) == Some(headers)
  {
    var j := HeadersToJson(headers);
    assert forall k :: k in j.fields ==> j.fields[k].JStr?;
    var back := map k | k in j.fields :: j.fields[k].s;
    assert back == headers;
  }
}
