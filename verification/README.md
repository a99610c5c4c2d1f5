# payyourself-server request handling, in Dafny

This project models how the payyourself server decides what to answer to an
HTTP request. The server stores one JSON "user save" per user. It exposes a
single resource, `/v1/usersave`, behind a bearer token sent in the `Token`
header. The model covers three pieces:

- **The router** (`Route` in `server/server/server.go`). It is a flat
  dispatch on `URL.Path` and `Method`. It sets the CORS headers, answers
  preflight requests, and gives 404 for an unknown path and 405 for an
  unknown method. `AppRouteHandlers` wires GET to the authentication gate in
  front of the fetch handler. POST and DELETE go to a fixed 501 stub.
- **The authentication gate** (`authenticateRequest` in
  `server/server/handlers.go`). It answers 403 when there is no token. It
  answers 401 when the token checker rejects the token or returns an empty
  user ID. Otherwise it calls the next handler with the resolved user ID.
- **The fetch handler** (`fetchHandler`). It asks the storer for the user's
  save. `errors.Is(err, ErrNoUserSave)` becomes 404, any other error 500, and
  a reader's contents are streamed back under status 200. A read error during
  the copy is followed by `WriteHeader(500)` and "Failed to send user save".

Everything is a pure function. The two outside capabilities are function
parameters:

- `TokenChecker.TokenIsValid` is a `string -> (string, bool)`.
- `UserSaveStorer.Fetch` is a `string -> FetchResult`. The result is either
  a reader or an `Error`.

An `Error` is the `ErrNoUserSave` sentinel, an unrelated error, an error
that wraps one cause with `%w`, or an error whose `Unwrap` returns several
causes (`errors.Join`, or `fmt.Errorf` with more than one `%w`). This lets
the model state what `errors.Is` does with wrapped and joined errors. A
reader is the list of chunks its successive `Read` calls return, and whether
they end in EOF or in a read error.

net/http's `ResponseWriter` is modelled as a small state machine (module
`Http`):

- the first `WriteHeader` commits the status, and later calls are ignored;
- the first `Write` commits 200 if no status was committed yet;
- header changes made after the status is committed are dropped;
- a handler that commits nothing answers 200.

Every handler returns the writer it leaves behind, together with a trace of
events. The trace records which route handler ran, whether the checker was
consulted and with which token, whether the next handler ran and with which
user ID, what the storer was asked for, and whether the reader was closed.
So "never invoked" and "invoked exactly once with ID X" are statements about
that trace.

Modules: `Http` (requests, the writer, responses), `Trace` (events and
handler types), `Handlers` (`handlers.go`), `Server` (`server.go`),
`Scenarios` (the repository's test tables and a few end-to-end request
scenarios).

### Behaviour of the code worth knowing

- POST and DELETE are 501 "coming soon" stubs that never read the token or
  the body.
- `Access-Control-Allow-Origin` is set on the preflight answer and on every
  other answer on the resource path. It is not set on the 404 for an
  unknown path.
- A successful GET sets no `Content-Type` header.
- A request without a token is answered 403 only on GET to the resource
  path. A preflight gets 204, POST and DELETE get 501, and an unknown path
  gets 404 (`Scenarios.MissingTokenIsNotAlwaysForbidden`).
- The "token validated with empty user ID" log line fires whenever the
  checker's user ID is empty. That includes the usual rejection
  `("", false)`, not only `ok = true` with an empty ID. The model records
  the `EmptyUserIdLogged` event under the same condition.

## Model

| member | source | states |
|---|---|---|
| Handlers.Authenticate | server/server/handlers.go:37-63 | An empty or missing `Token` gives 403 "no token provided" with the checker never consulted and next never run. A rejected token, or an accepted one with an empty user ID, gives 401 "token invalid" with the checker consulted once and next never run. Otherwise next runs exactly once, with the original request and the resolved ID, on the untouched writer. |
| Handlers.GateOutcome | server/server/handlers.go:38-62 | Exactly one of 403 (nothing consulted), 401 (next not run) or "next run with ID X" happens. Which one is fixed by the token header and the checker's answer alone, as the three-state verdict `Decide` says. |
| Handlers.ServeFetch | server/server/handlers.go:67-96 | The storer is asked once, with the authenticated user ID. The sentinel, wrapped or joined at any depth, gives 404 "No UserSave for this user". Any other error gives 500 "Failed to fetch user save". On both error paths nothing is copied or closed. When the reader opens, it is closed exactly once and the body starts with the reader's whole contents. If no read fails, the status is 200. If a read fails, "Failed to send user save" follows the contents. The status is then 500 when no byte had been written, and otherwise the 200 the first write committed. |
| Handlers.IsNoUserSaveIffVisited | server/server/handlers.go:71 | `errors.Is(err, ErrNoUserSave)` holds exactly when the sentinel occurs somewhere in the tree of causes `errors.Is` walks, through single `%w` wraps and joined errors alike. |
| Handlers.Copy | server/server/handlers.go:88 | `io.Copy` appends exactly the concatenation of the reader's chunks to the body. The header map is left alone. Status 200 is committed only if some byte was written. |
| Server.Route | server/server/server.go:40-67 | A path other than `/v1/usersave` gives 404 "not found", runs no handler and sets no header. On the resource path, Allow-Origin is set for every method. OPTIONS gives 204 with the preflight headers and runs no handler. GET, POST and DELETE each run only their own handler, once. Any other method gives 405 "invalid method" and runs no handler. |
| Server.Preflight | server/server/server.go:51-55 | The preflight answer is 204 with no body. Its headers are Allow-Methods `GET,POST,DELETE`, Allow-Headers `Content-Type, Token` and Max-Age `3600`, on top of Allow-Origin. |
| Server.Answer | server/server/server.go:41-66 | The closure `Route` returns, run on a fresh writer (status, headers and the body written): 404 on another path with no Allow-Origin header, 204 with exactly the preflight headers, 405 with only the Allow-Origin header, or the chosen handler's response on a writer that holds only Allow-Origin. |
| Server.AppRouteHandlers | server/server/server.go:13-30 | GET runs the authentication gate with the token checker in front of the fetch handler over the storer. POST and DELETE both run the 501 stub. |
| Server.RoutingReadsOnlyPathAndMethod | server/server/server.go:42-50 | Two requests that agree on path and method are routed alike. Scheme, host, port and headers play no part until a handler runs, and the same handler runs for both. |
| Server.ComingSoon | server/server/server.go:22-30 | POST and DELETE answer 501 "coming soon". They consult neither the token checker nor the storer. |
| Server.AppMatchesTable | server/server/server.go:18-67 | For every request, checker and storer, the whole application answers as the flat table `Expected` says (status, headers, body). It consults its collaborators exactly as `ExpectedEvents` lists. In particular, GET on the resource path is the gate in front of the fetch handler: 403, 401, 404, 500 or 200 with the save's bytes, with Allow-Origin set, and with a read failure the 500 or 200 of the fetch handler. |
| Server.AppIgnoresSchemeAndHost | server/server/server.go:42-43 | The application's answer and trace do not depend on the URL's scheme or host (port included). |
| Scenarios.RouterPathTable | server/server/server_test.go:40-49 | The router test's URL table: every other path is 404. `/v1/usersave` reaches the handler on both example hosts. |
| Scenarios.RouterMethodTable | server/server/server_test.go:70-87 | GET, DELETE and POST reach their handler. CONNECT, PUT and PATCH are 405. |
| Scenarios.CheckRequestTokenTable | server/server/handlers_test.go:32-55 | With the test checker: no token gives 403, "hello" gives 401, and "abc" reaches next with user ID "someID". |
| Scenarios.HandleFetchEmptyReader | server/server/handlers_test.go:74-90 | A reader at EOF straight away yields 200 with an empty body. |
| Scenarios.SendFailureOutcome | server/server/handlers.go:88-93 | A reader that fails after the chunks given: with no byte read, 500 "Failed to send user save"; otherwise 200 with the bytes read and then that message. The reader is closed either way. |
| Scenarios.GetWithoutSaveIsNotFound | server/server/handlers.go:69-75 | A valid token for a user with no save gives 404. |
| Scenarios.WrappedSentinelIsNotFound | server/server/handlers.go:70-79 | The wrapped sentinel, and the sentinel joined after another error, still give 404. An unrelated error with the sentinel's text gives 500. |
| Scenarios.MissingTokenIsNotAlwaysForbidden | server/server/server.go:43-55 | Without a token: a preflight gets 204 and no handler runs, POST gets 501, and an unknown path gets 404. |

## Left out

- `Serve` in `server/server/server.go` (lines 72-90): sockets, goroutines, the shutdown channel, graceful shutdown, per-request correlation IDs and request logging. These are concurrency and I/O.
- `server/main.go`: environment and flag parsing and process start-up.
- `server/token/google.go` is not part of this model. It makes a network call, and its method returns only `bool`, so it does not satisfy the `TokenChecker` interface. The checker is an uninterpreted function instead.
- `server/storage/storage.go` and `server/storage/google.go` are not part of this model. They do file system and Cloud Storage I/O. The storer is an uninterpreted `Fetch` function returning a reader, the sentinel, or another (possibly wrapped) error.
- `server/usersave/usersave.go`: a thin wrapper over `encoding/json`. No handler uses it.
- Handlers.IsNoUserSaveIffVisited: custom `Is(error) bool` methods on errors in the chain are not modelled. An error type could declare itself equal to the sentinel without containing it, and no storer in the repository returns such an error. nil entries in a joined list are not modelled either.
- Server.Answer: net/http drops the body of every response to a HEAD request, so `Response.body` is what the handler wrote rather than what goes over the wire. HEAD on the resource path takes the 405 branch and HEAD elsewhere the 404 branch, and the client sees those statuses with no body.
- The request context passed to `TokenIsValid` and its cancellation.
- Log output, except the empty-user-ID marker of the gate.
- Handlers.ServeFetch: the response writer never fails. `io.Copy` can also fail because writing to the connection fails, which is I/O. Only read errors from the reader are modelled.
- Handlers.Copy: `Close` errors are only logged, so closing is recorded as an event and cannot fail. The 32 KiB copy buffer is not modelled, so each chunk is written as read.
- Headers net/http adds on its own (`Content-Type` sniffing, `Content-Length`, `Date`) are not modelled. Header names are taken as already canonicalised, as net/http does when it parses a request.
- `min-client/main.js` and `serve-min-client.js`: the browser client and a static file server.
