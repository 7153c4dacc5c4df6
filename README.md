# bun-json-api request dispatch, in Dafny

A model of the request dispatcher of a small JSON-over-HTTP server template,
with the constant configuration it reads and the `omit` helper it calls.

- `Types` (`types.dfy`) gives the shapes of `src/types.d.ts`: JSON values,
  `EndpointData` (a record or `null`), handlers as total functions from
  (payload, headers) to a record, and the route table `Endpoints` as a map of
  maps. It also embeds a payload or a header map into a JSON field and reads
  it back, with both round trips proved.
- `Utils` (`utils.dfy`) models `omit`: `Omitted` is the record left after the
  keys are deleted one by one. `Omit` is the copy-then-delete loop, proved
  equal to `Omitted` through loop invariants.
- `Api` (`api.dfy`) holds the constants of `src/api.ts`. These are the route
  table `ENDPOINTS` with the two `/echo` handlers, `BASE_PATH`,
  `RESPONSE_HEADERS` and `STATUSES`. `STATUSES` is an enumeration of its
  symbolic names plus the function `StatusCode`.
- `Server` (`server.dfy`) models `src/index.ts`: `parseRequest`, `json` and
  `handleRequest`. `Dispatch` is the decision as a function.
  `HandleRequest` follows the code's early returns and its mutable `data`,
  and is proved equal to `Dispatch`. The lemmas cover every branch of the
  decision, for any route table. Further lemmas cover the shipped table.

The dispatch decision, in order:
1. The relative path is the pathname without its first `|BASE_PATH|`
   characters. Those characters are dropped even when they are not the base
   path.
2. An unregistered path gives 404 `{error: "Endpoint not found"}`.
3. An upper-cased method the path does not register gives 405
   `{error: "Method not allowed"}`.
4. The payload comes from the query for GET and from the parsed body for
   POST. An empty query or an empty body becomes `null`. Any other
   registered method gives 405 `{error: "Method not supported by API"}`.
5. The handler's result, minus its `status` field, is the body. The status
   is that field, or 200 when it is absent or `null`.

Every response carries exactly `RESPONSE_HEADERS`.

The code looks the method up in the path's entry before it reaches the
method `switch`. So `DELETE /echo` is answered 405 "Method not allowed"
(`EchoOtherMethodsNotAllowed`). The "not supported"
branch is reached only when a table registers a method other than GET or
POST (`UnsupportedMethodRefused`). The model follows the code.

## Model

| member | source | states |
|---|---|---|
| `Utils.Omitted` | src/utils.ts:1-5 | the result's keys are exactly `obj`'s keys minus the listed keys, and every kept key keeps its value in `obj` |
| `Utils.Omit` | src/utils.ts:1-5 | the copy-then-delete loop: no listed key remains, every unlisted key of `obj` remains with its value, no key is added, and the result equals `Omitted` |
| `Utils.OmitAbsentKeys` | src/utils.ts:2-4 | listing only keys that `obj` lacks returns `obj` itself |
| `Utils.OmitNoKeys` | src/utils.ts:2-4 | an empty key list returns `obj` itself |
| `Utils.OmitIdempotent` | src/utils.ts:1-5 | omitting the same keys twice is the same as omitting them once |
| `Types.DataRoundTrip` | src/types.d.ts:20-23 | a payload (a record or `null`) placed in a JSON field reads back as the same payload |
| `Types.HeadersRoundTrip` | src/types.d.ts:15-17 | a header map placed in a JSON field reads back as the same map |
| `Api.EchoGet` | src/api.ts:12-14 | the GET echo returns exactly the fields `params` and `headers`, holding its two inputs (no `status`) |
| `Api.EchoPost` | src/api.ts:15-17 | the POST echo returns exactly the fields `body` and `headers`, holding its two inputs (no `status`) |
| `Api.StatusCode` | src/api.ts:59-121 | every code in the status table lies between 200 and 511 |
| `Api.EndpointsShape` | src/api.ts:10-19 | the route table has exactly the path `/echo`, with exactly the methods GET and POST |
| `Api.DispatchStatusCodes` | src/api.ts:61-85 | OK, NOT_FOUND and METHOD_NOT_ALLOWED are 200, 404 and 405, the codes of sections 15.3.1, 15.5.5 and 15.5.6 of RFC 9110 |
| `Api.ConfigurationConstants` | src/api.ts:32-48 | the base path is empty and the declared content type is `application/json` |
| `Server.ToUpper` | src/index.ts:14 | upper-casing keeps the length and upper-cases each ASCII letter in place |
| `Server.ToUpperIdempotent` | src/index.ts:14 | upper-casing an upper-cased method changes nothing |
| `Server.DispatchIgnoresMethodCase` | src/index.ts:14-41 | two requests whose methods agree once upper-cased get the same outcome |
| `Server.RelativePathDropsBaseLength` | src/index.ts:16 | like `slice`, the relative path is empty when the pathname is shorter than the base path; otherwise it drops the first `\|BASE_PATH\|` characters whether or not they are the base path, and base path plus relative path restores a prefixed pathname |
| `Server.RelativePathAtRoot` | src/index.ts:16 | with the root base path, the relative path is the pathname |
| `Server.FromEntries` | src/index.ts:52 | the query record has exactly the query's keys |
| `Server.FromEntriesLastWins` | src/index.ts:52 | for a repeated query key, the record holds the value of its last entry |
| `Server.FromEntriesEmpty` | src/index.ts:52-53 | the query record has no key exactly when the query has no entry |
| `Server.HandleRequest` | src/index.ts:27-68 | the step-by-step handler, with early returns and a mutable payload, gives exactly the outcome of the dispatch decision |
| `Server.UnknownPathNotFound` | src/index.ts:34-39 | an unregistered path is answered 404 with body exactly `{error: "Endpoint not found"}`, whatever the method |
| `Server.UnknownMethodNotAllowed` | src/index.ts:41-46 | a registered path without the upper-cased method is answered 405 with body exactly `{error: "Method not allowed"}` |
| `Server.UnsupportedMethodRefused` | src/index.ts:48-61 | a registered handler for a method other than GET or POST is answered 405 with body exactly `{error: "Method not supported by API"}` |
| `Server.ErrorsInvokeNoHandler` | src/index.ts:34-64 | when no handler is reached, the outcome is the same for every table with the same paths and methods, so no handler ran |
| `Server.GetPayloadFromQuery` | src/index.ts:51-54 | GET passes the query record, or `null` when the query has no entry |
| `Server.PostPayloadFromBody` | src/index.ts:55-58 | POST passes the parsed body, or `null` for `{}`; a body that does not parse rejects |
| `Server.OtherMethodsNotSupported` | src/index.ts:59-60 | any method other than GET and POST yields no payload |
| `Server.HandlerResultAnswers` | src/index.ts:64-67 | a reached handler's `status` (200 when absent or `null`) is the status code, and the body is its result without `status`, other values unchanged |
| `Server.SentStatusRegistered` | src/index.ts:20-22 | when the handler's `status` is absent, `null` or a `STATUSES` code, as its type declares, every response status lies in 200..511 |
| `Server.NoStatusInBody` | src/index.ts:34-67 | no response body holds a `status` field |
| `Server.FixedHeadersOnEveryResponse` | src/index.ts:20-67 | every response, error or success, carries exactly the fixed headers |
| `Server.RejectedOnlyForUnparsedPost` | src/index.ts:55-56 | the call ends without a response exactly when a registered POST has a body that does not parse |
| `Server.EchoGetResponds` | src/api.ts:12-14 | `GET /echo` is answered 200 with `{params, headers}`, where `params` is `null` for an empty query |
| `Server.EchoPostResponds` | src/api.ts:15-17 | `POST /echo` with a parsed body is answered 200 with `{body, headers}`, where `body` is `null` for `{}` |
| `Server.EchoOtherMethodsNotAllowed` | src/index.ts:41-46 | every other method on `/echo`, DELETE among them, is answered 405 "Method not allowed" |

## Left out

- Server start-up: `Bun.serve`, `main`, the port and the environment lookup, and the exit on failure (src/index.ts:70-83). These are process I/O.
- Logging: `server.requestIP`, every `console.log` in the dispatcher, and the whole console decorator in src/log.enhance.ts. It reads the clock and writes ANSI colours. None of this affects a response.
- URL and body parsing by the runtime (`new URL`, `searchParams`, `request.json()`). The pathname, the query entries in order and the parsed body are inputs. The body is `None` when `request.json()` throws. The model then ends in `Rejected`, the unhandled rejection the code leaves to the runtime.
- A body that parses to something other than an object (an array, a number) is not modelled. The body input is always a record.
- `JSON.stringify` and `new Response`: the body is kept as a record, not as its text.
- Asynchrony, and handlers that throw or reject: handlers are total pure functions.
- Server.ToUpper: only ASCII letters are upper-cased. JavaScript's `toUpperCase` also maps non-ASCII letters, some of them to several characters. HTTP method tokens are ASCII, so dispatch is unaffected.
- Server.StatusField: the `status` field is typed as one of the `STATUSES` codes. The model reads a number as the code, and `null` or a missing field as "no status". Any other value is also read as "no status", a case the field's type excludes. The status checks of the `Response` constructor are not modelled either: it refuses a status outside 200..599, and the Fetch standard also refuses 204, 205 and 304 together with a body. For such a status the model answers, while the program's call rejects. `SentStatusRegistered` shows that a handler result of the declared type always gives a code in 200..511.
- JSON numbers are integers in the model. Fractions are not represented.
- Utils.Omit: the caller's object is unchanged because maps are values here. The model does not represent the separate heap copy that `{ ...obj }` makes, or aliasing.
- Property lookups on JavaScript objects also see `Object.prototype` members. The model's map lookup matches the code for the shipped configuration. Every path starts with `/` because the base path is empty, and an upper-cased method never names a prototype member.
- `PORT` and `NAME` are constants only: start-up and logging use them, and dispatch does not.
