# Jules API client and tool bridge, modelled in Dafny

This project models the request-building and response-handling core of a small server that
exposes the Jules coding-automation API as ten agent tools.

- **`JulesClient`** (`src/jules_client.py`) turns each operation into exactly one HTTP request.
  A request has a verb, a URL, the authentication headers and an optional JSON body. The URL is
  the base URL and the operation path joined by exactly one slash. `list_sessions` and
  `list_activities` add an optional `pageSize`/`pageToken` query. `create_session` builds its
  body from required fields plus optional fields that are present only when truthy.
  `approve_plan` and `send_message` address the compound paths `{name}:approvePlan` and
  `{name}:sendMessage`.
- **`_request`** normalises the transport's answer. A rejected status is a backend error
  carrying the status and body text. An accepted 204 or empty body is `{}`. Any other body is
  the decoded JSON, unchanged. A failed or undecodable exchange is a transport error. There is
  no retry.
- **The tool bridge** (`src/server.py`) first resolves the credential. An empty credential is a
  configuration error, and no client or request is built. Otherwise the bridge builds a fresh
  client and forwards the tool's arguments unchanged to the same-named client operation.

Files:

- `messages.dfy`: the message shapes: JSON values, `Request`, the transport's `Exchange`, the
  three `Failure` kinds, and `Result`.
- `urls.dfy`: `rstrip("/")`, `lstrip("/")` and the URL join.
- `query.dfy`: the paging query. It also holds the `&`-split and `?`-split reading side,
  which serves as the query builder's inverse.
- `client.dfy`: the `Transport` and `JulesClient` classes, and the pure `Normalise`. The
  client's fields are `const`, because `__init__` sets them once and no operation changes
  them. The three operations that build a local list or dict step by step are methods. The
  single-expression operations are functions. `Issue` sends a request through the transport.
- `server.dfy`: the ten-tool registry, `GetClient`, and the dispatcher `Invoke`.

The transport is an object, `Transport`. `exchange` gives the answer to a request.
`successful` says which statuses the HTTP library's `raise_for_status` accepts. `log` records
every request the transport has been asked to send, so that "exactly one request, no retry"
is a statement about the transport's state after an invocation.

The credential enters as a string. `get_jules_api_key` in `src/secrets.py` returns `""` on
every failure, and `get_client` checks only for emptiness, so the credential is a possibly
empty string. `approve_plan` sends the JSON object `{}`, which the model writes as
`Some(map[])`.

## Model

| member | source | states |
|---|---|---|
| Urls.RStripSlash | src/jules_client.py:10 | the stored base is the longest prefix of the given base that is followed only by slashes and does not itself end with one |
| Urls.LStripSlash | src/jules_client.py:18 | the path part is the longest suffix of the path that is preceded only by slashes and does not itself start with one |
| Urls.RStripAddedSlashes | src/jules_client.py:10 | trailing slashes added to a base do not change the trimmed base |
| Urls.LStripAddedSlashes | src/jules_client.py:18 | leading slashes added to a path do not change the trimmed path |
| Urls.Join | src/jules_client.py:10-18 | the URL of a path under a base; when the base has no trailing slash and the path no leading slash, it is base + "/" + path: exactly one slash is inserted |
| Urls.JoinIgnoresSeamSlashes | src/jules_client.py:10-18 | the URL is the same however many slashes the base ends with or the path starts with |
| Urls.JoinHasOneSeamSlash | src/jules_client.py:18 | every URL splits into the trimmed base, one slash and the trimmed path, with no slash on either side of the seam slash |
| Urls.JoinTrimmedBase | src/jules_client.py:10-18 | a client that stores the trimmed base builds the same URLs as one given the untrimmed base |
| Query.NatDecimal | src/jules_client.py:43 | the digits of a natural number are non-empty decimal digits, with no leading zero (0 itself is exactly "0"), and they denote the number |
| Query.Decimal | src/jules_client.py:43 | `str(page_size)` starts with a minus sign exactly when the size is negative; every character after the first is a digit, the first is a minus sign or a digit; no value has a leading zero (only 0 is written with a first "0", as "0" itself, and a negative value has no "0" after the sign) |
| Query.DecimalDenotes | src/jules_client.py:43 | the text `str` writes for any integer denotes that integer |
| Query.JoinWith | src/jules_client.py:49 | `"&".join(params)`: the first parameter comes first in the query; its inverse is the split at `&` (see JoinSplit, SplitJoin) |
| Query.JoinWithSeparates | src/jules_client.py:49 | joining `&`-free parameters puts an `&` in the query exactly when there are at least two of them |
| Query.SplitOn | src/jules_client.py:49 | splitting at `&` yields at least one piece, and no piece contains `&` |
| Query.JoinSplit | src/jules_client.py:49 | joining with `&` what was split at `&` restores the string |
| Query.SplitAfterPiece | src/jules_client.py:49 | a piece without `&` stays whole at the front of the split |
| Query.SplitJoin | src/jules_client.py:49 | splitting at `&` what `"&".join` built restores the list, when no element contains `&` |
| Query.PageParams | src/jules_client.py:41-45 | the parameter list has one entry per truthy argument: `pageSize=str(size)` first when the size is truthy, `pageToken=token` last when the token is non-empty |
| Query.Paged | src/jules_client.py:40-51 | the path is unchanged (no `?`) exactly when the size is 0/None and the token is ""/None; otherwise the path is a prefix of the result |
| Query.SplitQueryOfPath | src/jules_client.py:48-49 | for a path without `?`, splitting the path followed by `?` and a query gives back the path and the query's `&`-pieces |
| Query.PagedSplitsBack | src/jules_client.py:40-51 | splitting the paged path at `?` and `&` gives back the path and the parameter list, for a path without `?` and a token without `&` |
| Query.LookupPageParams | src/jules_client.py:41-45 | in the parameter list, `pageSize` is found with `str(size)` exactly when the size is truthy and `pageToken` with the token exactly when it is non-empty; `pageSize` comes first |
| Query.PagedReadBack | src/jules_client.py:40-51 | reading the paged path back gives the path, `pageSize` equal to `str(size)` exactly when the size is truthy, and `pageToken` equal to the token exactly when it is non-empty; pageSize comes first; holds for a path without `?` and a token without `&` |
| Query.ParamsHoldNoAmpersand | src/jules_client.py:41-45 | no parameter holds `&` when the token holds none, since the size's text is a sign and digits |
| Query.PageSizeReadBack | src/jules_client.py:41-49 | the `pageSize` read back from the paged path denotes the page size that was given |
| Query.TokenIsNotEscaped | src/jules_client.py:44-45 | the token is inserted unescaped, so a token containing `&pageSize=v` reads back as page size v |
| Client.AuthHeaders | src/jules_client.py:11-14 | the headers are exactly `x-goog-api-key` set to the key and `Content-Type: application/json` |
| Client.SessionBody | src/jules_client.py:61-70 | the body always has `source` and `instruction`; `branch` is present exactly when non-empty; `requirePlanApproval`/`autoPr` are present exactly when true, with value true; no other key is ever present |
| Client.Normalise | src/jules_client.py:20-31 | the status check runs first: a rejected status becomes BackendError(status, text) whatever the body; an accepted 204 or empty text becomes `{}`; otherwise the decoded JSON is returned unchanged; an undecodable body becomes TransportError carrying the decoder's reason, a failed exchange TransportError carrying its cause; never a configuration error |
| Client.Transport.Send | src/jules_client.py:21 | sending appends exactly the request to the transport's log and returns the exchange's answer to it |
| Client.Perform | src/jules_client.py:21-31 | the outcome of sending a request once: a success only when the exchange completed with an accepted status; a failed exchange is TransportError carrying its cause |
| Client.JulesClient.constructor | src/jules_client.py:8-14 | the client keeps the key, stores the base with its trailing slashes stripped, and sets the two headers from the key |
| Client.JulesClient.Issue | src/jules_client.py:21-31 | the transport is asked exactly once, with exactly this request (its log grows by that one request), and the result is its answer normalised |
| Client.JulesClient.Prepare | src/jules_client.py:16-21 | a request has the given verb and body, URL Join(base, path), and exactly the two headers carrying the key |
| Client.JulesClient.ListSources | src/jules_client.py:33-34 | GET `sources`, no body |
| Client.JulesClient.GetSource | src/jules_client.py:36-38 | GET with the source name unchanged as the path, no body |
| Client.JulesClient.ListSessions | src/jules_client.py:40-51 | the locally built `params` list gives a GET of Paged("sessions", size, token), no body |
| Client.JulesClient.CreateSession | src/jules_client.py:53-71 | the locally built dict gives a POST to `sessions` with body SessionBody(...) |
| Client.JulesClient.GetSession | src/jules_client.py:73-75 | GET with the session name unchanged as the path, no body |
| Client.JulesClient.DeleteSession | src/jules_client.py:77-79 | DELETE with the session name unchanged as the path, no body |
| Client.JulesClient.ApprovePlan | src/jules_client.py:81-83 | POST to `{name}:approvePlan` with the empty object as body |
| Client.JulesClient.SendMessage | src/jules_client.py:85-87 | POST to `{name}:sendMessage` with body exactly `{"prompt": prompt}` |
| Client.JulesClient.ListActivities | src/jules_client.py:89-106 | a GET of Paged(name + "/activities", size, token), no body |
| Client.JulesClient.GetActivity | src/jules_client.py:108-110 | GET with the activity name unchanged as the path, no body |
| Server.ToolName | src/server.py:19-106 | every tool call is named by an entry of the registry |
| Server.RegistryIsFixed | src/server.py:19-106 | the registry has exactly ten distinct names, and each is reached by some tool call |
| Server.RegistryIsDistinct | src/server.py:19-106 | no tool name is registered twice |
| Server.GetClient | src/server.py:12-17 | an empty credential is ConfigurationError with the fixed message and builds no client; otherwise a fresh client bound to the credential and the default base URL |
| Server.DefaultBaseUrlIsTrimmed | src/jules_client.py:8 | the default base URL has no trailing slash |
| Server.Forward | src/server.py:19-106 | each tool calls the same-named client operation with its arguments unchanged: the request built equals ToolRequest(key, call) for a client bound to the default base URL |
| Server.Invoke | src/server.py:19-106 | with an empty credential the transport's log is unchanged and the result is the configuration error; otherwise the log grows by exactly one request, the one the same-named client operation builds from the unchanged arguments, and the result is that request's normalised outcome, unchanged |
| Server.ToolRequestsAreAuthenticated | src/jules_client.py:11-21 | every tool's request goes to the default base plus one slash and carries exactly the key header and the JSON content type |
| Server.NameAddressedToolsUseNameAsPath | src/jules_client.py:73-79 | get_source, get_session, delete_session and get_activity send no body, use GET (DELETE for delete_session), and use the name without a leading slash as the path: URL = base + "/" + name |
| Server.CreateSessionWithDefaults | tests/test_client.py:19-28 | create_session with only source and instruction POSTs to `https://jules.googleapis.com/v1alpha/sessions` with a body of exactly those two fields |
| Server.ListSourcesUrl | tests/test_client.py:6-11 | list_sources GETs `https://jules.googleapis.com/v1alpha/sources` |
| Server.ListSourcesPassesJsonThrough | tests/test_client.py:10-16 | an accepted response with a non-empty JSON body is returned exactly as decoded |
| Server.ListSessionsDefaultsAgree | src/server.py:33-37 | the tool called without paging arguments sends what the client sends when called without them |
| Server.CreateSessionDefaultsAgree | src/server.py:39-57 | the tool called with only source and instruction sends what the client sends when called with only those |
| Server.ListActivitiesDefaultsAgree | src/server.py:92-98 | the tool called with only a session name sends what the client sends when called with only that |

## Left out

- The HTTP transport is not modelled: httpx, the async client and context manager, and the
  30-second timeout. A timeout is one of the ways an `Exchange` can be `Failed`.
- `raise_for_status` is library code. Which statuses it accepts is the `successful` predicate,
  supplied with the transport.
- JSON encoding and decoding are not modelled. Decoded JSON is an opaque `Json` value, and its
  numbers are integers only. The body is a map, so the key order of the Python dict is not
  modelled.
- The URL is modelled as the string handed to the transport. How httpx parses or normalises
  that string is not modelled.
- Client.Normalise: a body that is not valid JSON fails inside `response.json()` and is
  re-raised by the generic handler as whatever exception the decoder threw; the model reports
  it as a `TransportError` carrying the decoder's reason, the same kind as a failed exchange.
- Python exceptions are modelled as `Result` values. The exception classes become the three
  `Failure` kinds. The log-and-re-raise in `_request` becomes an unchanged `Err`.
- Logging is not modelled.
- `src/secrets.py` is not part of this model. It reads Secret Manager and environment
  settings; here the credential is an input string that may be empty.
- `src/main.py` is not part of this model. It covers the FastAPI app, the SSE mount, the
  health and root endpoints, and uvicorn startup.
- FastMCP tool registration, and schema generation from type hints and docstrings, are not
  modelled. Only the fixed list of tool names is kept.
- Concurrency between tool invocations is not modelled. `Invoke` changes only the transport's
  log.
- Arguments are modelled only with the types their hints declare. `page_size` is an optional
  integer, and values of other Python types are not modelled.
