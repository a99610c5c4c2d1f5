/**
  The router and the application's route handlers: a flat dispatch on the
  request path and method, the CORS headers, the preflight answer, and the
  wiring of GET to the authentication gate in front of the fetch handler.
 */
module Server {
  import opened Http
  import opened Trace
  import opened Handlers

  /** The one resource the service exposes. */
  const ResourcePath: string := "/v1/usersave"

  const AllowOrigin: string := "Access-Control-Allow-Origin"
  const AllowMethods: string := "Access-Control-Allow-Methods"
  const AllowHeaders: string := "Access-Control-Allow-Headers"
  const MaxAge: string := "Access-Control-Max-Age"

  const NotFoundBody: seq<byte> := Ascii("not found")
  const InvalidMethodBody: seq<byte> := Ascii("invalid method")
  const ComingSoonBody: seq<byte> := Ascii("coming soon")

  /** The RouterHandlers interface: one handler per routed method. */
  datatype RouterHandlers = RouterHandlers(get: Handler, post: Handler, delete: Handler)

  /** The headers a preflight answer carries. */
  function PreflightHeaders(allowedOrigin: string): map<string, string>
  {
    map[AllowOrigin := allowedOrigin,
        AllowMethods := "GET,POST,DELETE",
        AllowHeaders := "Content-Type, Token",
        MaxAge := "3600"]
  }

  /** The preflight answer, given the writer that already carries the
      Allow-Origin header: the other three CORS headers, then 204. */
  function Preflight(cors: Writer): (r: Writer)
    ensures cors.status.None? && AllowOrigin in cors.header ==>
      Finish(r) == Response(StatusNoContent, cors.header + PreflightHeaders(cors.header[AllowOrigin]), cors.body)
  {
    var w1 := SetHeader(cors, AllowMethods, "GET,POST,DELETE");
    var w2 := SetHeader(w1, AllowHeaders, "Content-Type, Token");
    var w3 := SetHeader(w2, MaxAge, "3600");
    WriteHeader(w3, StatusNoContent)
  }

  predicate IsRoutedMethod(m: string)
  {
    m == MethodGet || m == MethodPost || m == MethodDelete
  }

  /** Which handler a routed method selects. */
  function RouteOf(m: string): RouteHandler
    requires IsRoutedMethod(m)
  {
    if m == MethodGet then GetRoute else if m == MethodPost then PostRoute else DeleteRoute
  }

  function Select(h: RouterHandlers, which: RouteHandler): Handler
  {
    match which
    case GetRoute => h.get
    case PostRoute => h.post
    case DeleteRoute => h.delete
  }

  /**
    The handler Route(h, allowedOrigin) returns. Only URL.Path is looked at:
    any other path is 404 "not found" with no handler run and no CORS
    header. On the resource path Access-Control-Allow-Origin is set first,
    whatever the method; OPTIONS is answered 204 with the preflight headers
    and runs no handler; GET, POST and DELETE each run their own handler
    exactly once, and no other; any other method is 405 "invalid method".
   */
  function Route(h: RouterHandlers, allowedOrigin: string, w: Writer, req: Request): (r: Served)
    ensures req.url.path != ResourcePath ==>
      && r.events == []
      && r.w.header == w.header
      && (w.status.None? ==> Finish(r.w) == Response(StatusNotFound, w.header, w.body + NotFoundBody))
    ensures req.url.path == ResourcePath && req.httpMethod == MethodOptions ==>
      && r.events == []
      && (w.status.None? ==> Finish(r.w) == Response(StatusNoContent, w.header + PreflightHeaders(allowedOrigin), w.body))
    ensures req.url.path == ResourcePath && IsRoutedMethod(req.httpMethod) ==>
      var which := RouteOf(req.httpMethod);
      r == Preceded([HandlerInvoked(which)], Select(h, which)(SetHeader(w, AllowOrigin, allowedOrigin), req))
    ensures req.url.path == ResourcePath && req.httpMethod != MethodOptions && !IsRoutedMethod(req.httpMethod) ==>
      && r.events == []
      && (w.status.None? ==>
            Finish(r.w) == Response(StatusMethodNotAllowed, w.header[AllowOrigin := allowedOrigin], w.body + InvalidMethodBody))
  {
    if req.url.path != ResourcePath then
      Served(Reply(w, StatusNotFound, NotFoundBody), [])
    else
      var cors := SetHeader(w, AllowOrigin, allowedOrigin);
      if req.httpMethod == MethodOptions then
        Served(Preflight(cors), [])
      else if req.httpMethod == MethodGet then
        Preceded([HandlerInvoked(GetRoute)], h.get(cors, req))
      else if req.httpMethod == MethodPost then
        Preceded([HandlerInvoked(PostRoute)], h.post(cors, req))
      else if req.httpMethod == MethodDelete then
        Preceded([HandlerInvoked(DeleteRoute)], h.delete(cors, req))
      else
        Served(Reply(cors, StatusMethodNotAllowed, InvalidMethodBody), [])
  }

  /**
    Route reads nothing of the request but URL.Path and Method before it
    hands over: two requests that agree on those two are answered alike
    unless a handler runs, and then the same handler runs for both.
   */
  lemma RoutingReadsOnlyPathAndMethod(h: RouterHandlers, allowedOrigin: string, w: Writer, req1: Request, req2: Request)
    requires req1.url.path == req2.url.path && req1.httpMethod == req2.httpMethod
    ensures !(req1.url.path == ResourcePath && IsRoutedMethod(req1.httpMethod)) ==>
      Route(h, allowedOrigin, w, req1) == Route(h, allowedOrigin, w, req2)
    ensures req1.url.path == ResourcePath && IsRoutedMethod(req1.httpMethod) ==>
      var cors := SetHeader(w, AllowOrigin, allowedOrigin);
      var handler := Select(h, RouteOf(req1.httpMethod));
      && Route(h, allowedOrigin, w, req1) == Preceded([HandlerInvoked(RouteOf(req1.httpMethod))], handler(cors, req1))
      && Route(h, allowedOrigin, w, req2) == Preceded([HandlerInvoked(RouteOf(req1.httpMethod))], handler(cors, req2))
  {
  }

  /** The response a handler leaves on a fresh writer, and what happened on
      the way. */
  datatype Outcome = Outcome(response: Response, events: seq<Event>)

  function Run(s: Served): Outcome
  {
    Outcome(Finish(s.w), s.events)
  }

  /**
    The router run on a fresh writer. A request off the resource path gets
    a bare 404 with no CORS header; a preflight gets 204 with exactly the
    preflight headers and no body; an unknown method gets 405 carrying only
    the Allow-Origin header; a routed method's response is whatever its
    handler produces on a writer holding only the Allow-Origin header.
   */
  function Answer(h: RouterHandlers, allowedOrigin: string, req: Request): (o: Outcome)
    ensures req.url.path != ResourcePath ==>
      && o == Outcome(Response(StatusNotFound, map[], NotFoundBody), [])
      && AllowOrigin !in o.response.header
    ensures req.url.path == ResourcePath && req.httpMethod == MethodOptions ==>
      o == Outcome(Response(StatusNoContent, PreflightHeaders(allowedOrigin), []), [])
    ensures req.url.path == ResourcePath && req.httpMethod != MethodOptions && !IsRoutedMethod(req.httpMethod) ==>
      o == Outcome(Response(StatusMethodNotAllowed, map[AllowOrigin := allowedOrigin], InvalidMethodBody), [])
    ensures req.url.path == ResourcePath && IsRoutedMethod(req.httpMethod) ==>
      var s := Select(h, RouteOf(req.httpMethod))(Writer(map[AllowOrigin := allowedOrigin], None, []), req);
      o == Outcome(Finish(s.w), [HandlerInvoked(RouteOf(req.httpMethod))] + s.events)
  {
    Run(Route(h, allowedOrigin, Fresh, req))
  }

  /** The stub POST and DELETE handlers: 501 "coming soon", consulting
      neither the token checker nor the storer. */
  function ComingSoon(w: Writer, req: Request): (r: Served)
    ensures r.events == []
    ensures r.w.header == w.header
    ensures w.status.None? ==> Finish(r.w) == Response(StatusNotImplemented, w.header, w.body + ComingSoonBody)
  {
    Served(Reply(w, StatusNotImplemented, ComingSoonBody), [])
  }

  /** AppRouteHandlers{TokenChecker: checker, UserSaveStorer: storer}. */
  function AppRouteHandlers(checker: TokenChecker, storer: UserSaveStorer): (r: RouterHandlers)
    ensures forall w, req :: r.get(w, req) == Authenticate(checker, FetchHandler(storer), w, req)
    ensures forall w, req :: r.post(w, req) == ComingSoon(w, req)
    ensures forall w, req :: r.delete(w, req) == ComingSoon(w, req)
  {
    var gate := AuthenticateRequest(checker, FetchHandler(storer));
    var r := RouterHandlers(
      (w, req) => gate(w, req),
      (w, req) => ComingSoon(w, req),
      (w, req) => ComingSoon(w, req));
    assert forall w, req :: r.get(w, req) == Authenticate(checker, FetchHandler(storer), w, req) by {
      forall w, req ensures r.get(w, req) == Authenticate(checker, FetchHandler(storer), w, req) {
        assert gate(w, req) == Authenticate(checker, FetchHandler(storer), w, req);
      }
    }
    r
  }

  /** The application end to end: Route over AppRouteHandlers. */
  function AnswerApp(checker: TokenChecker, storer: UserSaveStorer, allowedOrigin: string, req: Request): Outcome
  {
    Answer(AppRouteHandlers(checker, storer), allowedOrigin, req)
  }

  /**
    The service's HTTP surface as one flat table over path, method, token
    header, the checker's answer and the storer's answer.
   */
  function Expected(checker: TokenChecker, storer: UserSaveStorer, allowedOrigin: string, req: Request): Response
  {
    var m := req.httpMethod;
    var cors := map[AllowOrigin := allowedOrigin];
    var token := HeaderGet(req.header, TokenHeader);
    if req.url.path != ResourcePath then Response(StatusNotFound, map[], NotFoundBody)
    else if m == MethodOptions then Response(StatusNoContent, PreflightHeaders(allowedOrigin), [])
    else if m == MethodPost || m == MethodDelete then Response(StatusNotImplemented, cors, ComingSoonBody)
    else if m != MethodGet then Response(StatusMethodNotAllowed, cors, InvalidMethodBody)
    else match Decide(token, checker(token))
      case Forbidden => Response(StatusForbidden, cors, NoTokenBody)
      case Unauthorized => Response(StatusUnauthorized, cors, TokenInvalidBody)
      case Authenticated(id) =>
        match storer(id)
        case Failed(e) =>
          if IsNoUserSave(e) then Response(StatusNotFound, cors, NoUserSaveBody)
          else Response(StatusInternalServerError, cors, FetchFailedBody)
        case Opened(reader) =>
          if !reader.fails then Response(StatusOK, cors, Contents(reader))
          else if Contents(reader) == [] then Response(StatusInternalServerError, cors, SendFailedBody)
          else Response(StatusOK, cors, Contents(reader) + SendFailedBody)
  }

  /**
    Who is consulted, in order, for each request: the route handler chosen,
    the token checker (only for GET with a token), the empty-ID log marker,
    the authenticated handler and the storer (only with the resolved ID),
    and the reader's close (only after a successful fetch).
   */
  function ExpectedEvents(checker: TokenChecker, storer: UserSaveStorer, req: Request): seq<Event>
  {
    var m := req.httpMethod;
    var token := HeaderGet(req.header, TokenHeader);
    if req.url.path != ResourcePath || !IsRoutedMethod(m) then []
    else if m != MethodGet then [HandlerInvoked(RouteOf(m))]
    else
      [HandlerInvoked(GetRoute)] +
      match Decide(token, checker(token))
      case Forbidden => []
      case Unauthorized => [TokenChecked(token)] + (if checker(token).0 == "" then [EmptyUserIdLogged] else [])
      case Authenticated(id) =>
        [TokenChecked(token), NextInvoked(id), Fetched(id)] + (if storer(id).Opened? then [ReaderClosed] else [])
  }

  /** The composed router, gate and fetch handler answer every request as
      the flat table says, and consult their collaborators as it says. */
  lemma AppMatchesTable(checker: TokenChecker, storer: UserSaveStorer, allowedOrigin: string, req: Request)
    ensures AnswerApp(checker, storer, allowedOrigin, req)
         == Outcome(Expected(checker, storer, allowedOrigin, req), ExpectedEvents(checker, storer, req))
  {
  }

  /** The application's answer does not depend on the URL's scheme or host
      (nor, therefore, on the port carried in the host). */
  lemma AppIgnoresSchemeAndHost(checker: TokenChecker, storer: UserSaveStorer, allowedOrigin: string,
                                req: Request, scheme: string, host: string)
    ensures AnswerApp(checker, storer, allowedOrigin, req)
         == AnswerApp(checker, storer, allowedOrigin, req.(url := Url(scheme, host, req.url.path)))
  {
    AppMatchesTable(checker, storer, allowedOrigin, req);
    AppMatchesTable(checker, storer, allowedOrigin, req.(url := Url(scheme, host, req.url.path)));
  }
}
