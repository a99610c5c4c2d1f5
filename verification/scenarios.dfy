/**
  The repository's test tables and a few end-to-end request scenarios, stated
  as facts about the model.
 */
module Scenarios {
  import opened Http
  import opened Trace
  import opened Handlers
  import opened Server

  const StatusTeapot: int := 418

  /** A stub handler that only answers 418, as the router tests use. */
  function Teapot(w: Writer, req: Request): Served
  {
    Served(WriteHeader(w, StatusTeapot), [])
  }

  const TeapotHandlers: RouterHandlers :=
    RouterHandlers((w, req) => Teapot(w, req), (w, req) => Teapot(w, req), (w, req) => Teapot(w, req))

  function Get(host: string, path: string, header: map<string, seq<string>>): Request
  {
    Request(MethodGet, Url("https", host, path), header)
  }

  /** Paths other than the resource path are not found; the resource path is
      routed whatever the host or port. */
  lemma RouterPathTable()
    ensures Answer(TeapotHandlers, "*", Get("example.com", "/invalid", map[])).response.status == StatusNotFound
    ensures Answer(TeapotHandlers, "*", Get("example.com", "/invalid/dog", map[])).response.status == StatusNotFound
    ensures Answer(TeapotHandlers, "*", Get("example.com", "", map[])).response.status == StatusNotFound
    ensures Answer(TeapotHandlers, "*", Get("", "abc", map[])).response.status == StatusNotFound
    ensures Answer(TeapotHandlers, "*", Get("example.com", "/", map[])).response.status == StatusNotFound
    ensures Answer(TeapotHandlers, "*", Get("example.com", "/v1/usersave", map[])).response.status == StatusTeapot
    ensures Answer(TeapotHandlers, "*", Request(MethodGet, Url("http", "localhost:1337", "/v1/usersave"), map[])).response.status
         == StatusTeapot
    ensures Answer(TeapotHandlers, "*", Get("example.com", "/v1/abc", map[])).response.status == StatusNotFound
  {
  }

  /** GET, POST and DELETE reach their handler; CONNECT, PUT and PATCH are
      not allowed. */
  lemma RouterMethodTable(m: string)
    requires m in ["GET", "DELETE", "POST", "CONNECT", "PUT", "PATCH"]
    ensures var o := Answer(TeapotHandlers, "*", Request(m, Url("https", "example.com", "/v1/usersave"), map[]));
      o.response.status == if m in ["GET", "DELETE", "POST"] then StatusTeapot else StatusMethodNotAllowed
  {
  }

  /** The checker the gate tests use: "abc" belongs to "someID", anything else
      is rejected with an empty ID. */
  function TestChecker(token: string): (string, bool)
  {
    if token == "abc" then ("someID", true) else ("", false)
  }

  function TeapotNext(w: Writer, ar: AuthenticatedRequest): Served
  {
    Served(WriteHeader(w, StatusTeapot), [])
  }

  /** No token is forbidden, an unknown token unauthorized, and the matching
      token reaches the next handler with its user ID. */
  lemma CheckRequestTokenTable()
    ensures var r := Authenticate(TestChecker, TeapotNext, Fresh, Get("", "/", map[]));
      Finish(r.w).status == StatusForbidden
    ensures var r := Authenticate(TestChecker, TeapotNext, Fresh, Get("", "/", map[TokenHeader := ["hello"]]));
      Finish(r.w).status == StatusUnauthorized
    ensures var r := Authenticate(TestChecker, TeapotNext, Fresh, Get("", "/", map[TokenHeader := ["abc"]]));
      Finish(r.w).status == StatusTeapot && r.events == [TokenChecked("abc"), NextInvoked("someID")]
  {
  }

  /** A reader that is at EOF straight away yields 200 with an empty body. */
  lemma HandleFetchEmptyReader()
    ensures var r := ServeFetch(_ => Opened(Reader([], false)), Fresh,
                                AuthenticatedRequest(Get("", "/", map[]), "some user id"));
      Finish(r.w) == Response(StatusOK, map[], [])
  {
  }

  /** A read that fails before any byte arrives is answered 500; one that
      fails after some bytes were sent cannot change the committed 200, and
      the failure message follows the partial body. */
  lemma SendFailureOutcome(storer: UserSaveStorer, ar: AuthenticatedRequest, chunks: seq<seq<byte>>)
    requires storer(ar.userID) == Opened(Reader(chunks, true))
    ensures var r := ServeFetch(storer, Fresh, ar);
      && r.events == [Fetched(ar.userID), ReaderClosed]
      && Finish(r.w) == if Flatten(chunks) == [] then Response(StatusInternalServerError, map[], SendFailedBody)
                        else Response(StatusOK, map[], Flatten(chunks) + SendFailedBody)
  {
  }

  /** A token the checker maps to "u1", with no save stored for "u1": 404. */
  lemma GetWithoutSaveIsNotFound(checker: TokenChecker, storer: UserSaveStorer)
    requires checker("abc") == ("u1", true)
    requires storer("u1") == Failed(NoUserSave)
    ensures AnswerApp(checker, storer, "*", Get("example.com", "/v1/usersave", map[TokenHeader := ["abc"]])).response.status
         == StatusNotFound
  {
    AppMatchesTable(checker, storer, "*", Get("example.com", "/v1/usersave", map[TokenHeader := ["abc"]]));
  }

  /** A sentinel wrapped with extra context, or joined after another error,
      is still "no save"; an unrelated error with the same text is a fetch
      failure. */
  lemma WrappedSentinelIsNotFound(id: string)
    ensures var ar := AuthenticatedRequest(Get("", "/", map[]), id);
      && Finish(ServeFetch(_ => Failed(Wrapped("open", NoUserSave)), Fresh, ar).w).status == StatusNotFound
      && Finish(ServeFetch(_ => Failed(Joined("", [Other("timeout"), NoUserSave])), Fresh, ar).w).status == StatusNotFound
      && Finish(ServeFetch(_ => Failed(Other("no such user save")), Fresh, ar).w).status == StatusInternalServerError
  {
    assert IsNoUserSave(Joined("", [Other("timeout"), NoUserSave])) by {
      assert [Other("timeout"), NoUserSave][1] == NoUserSave;
    }
  }

  /** A request without a token is not always 403: the preflight and the
      stubs never look at the token, and unknown paths never get that far. */
  lemma MissingTokenIsNotAlwaysForbidden(checker: TokenChecker, storer: UserSaveStorer)
    ensures AnswerApp(checker, storer, "*", Request(MethodOptions, Url("https", "example.com", "/v1/usersave"), map[]))
         == Outcome(Response(StatusNoContent, PreflightHeaders("*"), []), [])
    ensures AnswerApp(checker, storer, "*", Request(MethodPost, Url("https", "example.com", "/v1/usersave"), map[])).response.status
         == StatusNotImplemented
    ensures AnswerApp(checker, storer, "*", Get("example.com", "/elsewhere", map[])).response.status == StatusNotFound
  {
    AppMatchesTable(checker, storer, "*", Request(MethodPost, Url("https", "example.com", "/v1/usersave"), map[]));
  }
}
