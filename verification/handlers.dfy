/**
  The authentication gate and the fetch handler, with the token checker and
  the user-save storer as uninterpreted function parameters.
 */
module Handlers {
  import opened Http
  import opened Trace

  /**
    Errors a storer can return. NoUserSave is the ErrNoUserSave sentinel
    (compared by identity, so an Other error carrying the same text is a
    different error); Wrapped is an error whose Unwrap returns one cause (a
    single %w); Joined is an error whose Unwrap returns several, as
    errors.Join and fmt.Errorf with more than one %w build.
   */
  datatype Error =
    | NoUserSave
    | Other(msg: string)
    | Wrapped(msg: string, cause: Error)
    | Joined(msg: string, causes: seq<Error>)

  /** errors.Is(err, ErrNoUserSave): compare the error with the sentinel,
      then search what Unwrap returns, one cause or each of several in
      order. */
  function IsNoUserSave(e: Error): bool
  {
    match e
    case NoUserSave => true
    case Other(_) => false
    case Wrapped(_, cause) => IsNoUserSave(cause)
    case Joined(_, causes) => exists i | 0 <= i < |causes| :: IsNoUserSave(causes[i])
  }

  /** The errors errors.Is visits, in the order it visits them: the error
      itself, then the tree under each cause, depth first. */
  function Visited(e: Error): seq<Error>
    decreases e, 1
  {
    match e
    case Wrapped(_, cause) => [e] + Visited(cause)
    case Joined(_, causes) => [e] + VisitedAll(causes)
    case _ => [e]
  }

  function VisitedAll(es: seq<Error>): seq<Error>
    decreases es, 0
  {
    if |es| == 0 then [] else Visited(es[0]) + VisitedAll(es[1..])
  }

  /** An error matches the sentinel exactly when the sentinel occurs
      somewhere in the tree errors.Is walks, however deeply it is wrapped or
      joined. */
  lemma {:induction false} IsNoUserSaveIffVisited(e: Error)
    ensures IsNoUserSave(e) <==> NoUserSave in Visited(e)
    decreases e, 1
  {
    match e
    case NoUserSave =>
    case Other(_) =>
    case Wrapped(_, cause) =>
      IsNoUserSaveIffVisited(cause);
      assert Visited(e) == [e] + Visited(cause);
    case Joined(_, causes) =>
      AnyIffVisitedAll(causes);
      assert Visited(e) == [e] + VisitedAll(causes);
  }

  lemma {:induction false} AnyIffVisitedAll(es: seq<Error>)
    ensures (exists i | 0 <= i < |es| :: IsNoUserSave(es[i])) <==> NoUserSave in VisitedAll(es)
    decreases es, 0
  {
    if |es| > 0 {
      IsNoUserSaveIffVisited(es[0]);
      AnyIffVisitedAll(es[1..]);
      assert VisitedAll(es) == Visited(es[0]) + VisitedAll(es[1..]);
      if exists i | 0 <= i < |es| :: IsNoUserSave(es[i]) {
        var i :| 0 <= i < |es| && IsNoUserSave(es[i]);
        if i > 0 {
          assert es[1..][i - 1] == es[i];
        }
      }
      if exists i | 0 <= i < |es[1..]| :: IsNoUserSave(es[1..][i]) {
        var i :| 0 <= i < |es[1..]| && IsNoUserSave(es[1..][i]);
        assert IsNoUserSave(es[i + 1]);
      }
    }
  }

  /** The io.ReadCloser Fetch returns: the chunks successive Read calls
      deliver, ending in io.EOF or, when fails holds, in a read error. */
  datatype Reader = Reader(chunks: seq<seq<byte>>, fails: bool)

  function Flatten(chunks: seq<seq<byte>>): seq<byte>
  {
    if |chunks| == 0 then [] else chunks[0] + Flatten(chunks[1..])
  }

  /** Everything that can be read from the reader before EOF or the error. */
  function Contents(r: Reader): seq<byte>
  {
    Flatten(r.chunks)
  }

  datatype FetchResult = Opened(reader: Reader) | Failed(err: Error)

  /** TokenChecker.TokenIsValid: token to (user ID, ok). */
  type TokenChecker = string -> (string, bool)

  /** UserSaveStorer.Fetch: user ID to a reader or an error. */
  type UserSaveStorer = string -> FetchResult

  const TokenHeader: string := "Token"

  const NoTokenBody: seq<byte> := Ascii("no token provided")
  const TokenInvalidBody: seq<byte> := Ascii("token invalid")
  const NoUserSaveBody: seq<byte> := Ascii("No UserSave for this user")
  const FetchFailedBody: seq<byte> := Ascii("Failed to fetch user save")
  const SendFailedBody: seq<byte> := Ascii("Failed to send user save")

  /**
    io.Copy(w, reader): each non-empty chunk is written as it is read (a
    Read that returns no bytes causes no Write), so the writer ends up with
    the reader's whole contents appended, and a status is committed, as 200,
    only if some byte was written.
   */
  function Copy(w: Writer, chunks: seq<seq<byte>>): (r: Writer)
    ensures r.header == w.header
    ensures r.body == w.body + Flatten(chunks)
    ensures w.status.Some? ==> r.status == w.status
    ensures w.status.None? && |Flatten(chunks)| == 0 ==> r.status.None?
    ensures w.status.None? && |Flatten(chunks)| > 0 ==> r.status == Some(StatusOK)
    decreases |chunks|
  {
    if |chunks| == 0 then w
    else
      var w' := if |chunks[0]| > 0 then Write(w, chunks[0]) else w;
      Copy(w', chunks[1..])
  }

  /**
    The handler fetchHandler(storer) returns. It fetches with the
    authenticated user ID and nothing else; the sentinel (possibly wrapped)
    becomes 404, any other error 500, and in both error cases nothing is
    copied and nothing closed. On success the reader's contents are streamed
    under the default status 200 and the reader is closed exactly once. When
    a read fails, what was read is still sent and the failure message
    follows it; the late 500 takes effect only if no byte had been written.
   */
  function ServeFetch(storer: UserSaveStorer, w: Writer, ar: AuthenticatedRequest): (r: Served)
    ensures r.w.header == w.header
    ensures storer(ar.userID).Failed? ==>
      && r.events == [Fetched(ar.userID)]
      && (w.status.None? ==>
            Finish(r.w) == if IsNoUserSave(storer(ar.userID).err)
                           then Response(StatusNotFound, w.header, w.body + NoUserSaveBody)
                           else Response(StatusInternalServerError, w.header, w.body + FetchFailedBody))
    ensures storer(ar.userID).Opened? ==>
      && r.events == [Fetched(ar.userID), ReaderClosed]
      && r.w.body == w.body + Contents(storer(ar.userID).reader)
                     + (if storer(ar.userID).reader.fails then SendFailedBody else [])
      && (w.status.None? ==>
            Finish(r.w).status == if storer(ar.userID).reader.fails && Contents(storer(ar.userID).reader) == []
                                  then StatusInternalServerError else StatusOK)
  {
    match storer(ar.userID)
    case Failed(err) =>
      if IsNoUserSave(err) then Served(Reply(w, StatusNotFound, NoUserSaveBody), [Fetched(ar.userID)])
      else Served(Reply(w, StatusInternalServerError, FetchFailedBody), [Fetched(ar.userID)])
    case Opened(reader) =>
      var copied := Copy(w, reader.chunks);
      if reader.fails then Served(Reply(copied, StatusInternalServerError, SendFailedBody), [Fetched(ar.userID), ReaderClosed])
      else Served(copied, [Fetched(ar.userID), ReaderClosed])
  }

  /** fetchHandler(storer) */
  function FetchHandler(storer: UserSaveStorer): AuthenticatedHandler
  {
    (w, ar) => ServeFetch(storer, w, ar)
  }

  /** The three outcomes of the gate. */
  datatype Verdict = Forbidden | Unauthorized | Authenticated(userID: string)

  /**
    The gate as a state machine over the token header and what the checker
    said of it: no token is forbidden; a rejected token, or an accepted one
    that names nobody, is unauthorized; otherwise the checker's user ID is
    authenticated.
   */
  function Decide(token: string, checked: (string, bool)): Verdict
  {
    if token == "" then Forbidden
    else if !checked.1 || checked.0 == "" then Unauthorized
    else Authenticated(checked.0)
  }

  /**
    The handler authenticateRequest(checker, next) returns. A missing or
    empty Token header is answered 403 without consulting the checker; a
    token the checker rejects, or accepts with an empty user ID, is answered
    401; in neither case does next run. Otherwise next runs exactly once, on
    the untouched writer, with the original request and the resolved ID.
    The empty-ID log line fires whenever the checker's ID is empty, whatever
    its ok flag.
   */
  function Authenticate(checker: TokenChecker, next: AuthenticatedHandler, w: Writer, req: Request): (r: Served)
    ensures var token := HeaderGet(req.header, TokenHeader);
      token == "" ==>
        && r.events == []
        && r.w.header == w.header
        && (w.status.None? ==> Finish(r.w) == Response(StatusForbidden, w.header, w.body + NoTokenBody))
    ensures var token := HeaderGet(req.header, TokenHeader);
      var (id, ok) := checker(token);
      token != "" && (!ok || id == "") ==>
        && r.events == [TokenChecked(token)] + (if id == "" then [EmptyUserIdLogged] else [])
        && r.w.header == w.header
        && (w.status.None? ==> Finish(r.w) == Response(StatusUnauthorized, w.header, w.body + TokenInvalidBody))
    ensures var token := HeaderGet(req.header, TokenHeader);
      var (id, ok) := checker(token);
      token != "" && ok && id != "" ==>
        r == Preceded([TokenChecked(token), NextInvoked(id)], next(w, AuthenticatedRequest(req, id)))
  {
    var token := HeaderGet(req.header, TokenHeader);
    if token == "" then
      Served(Reply(w, StatusForbidden, NoTokenBody), [])
    else
      var (userID, ok) := checker(token);
      if !ok || userID == "" then
        var logged := if userID == "" then [EmptyUserIdLogged] else [];
        Served(Reply(w, StatusUnauthorized, TokenInvalidBody), [TokenChecked(token)] + logged)
      else
        Preceded([TokenChecked(token), NextInvoked(userID)], next(w, AuthenticatedRequest(req, userID)))
  }

  /** authenticateRequest(checker, next) */
  function AuthenticateRequest(checker: TokenChecker, next: AuthenticatedHandler): Handler
  {
    (w, req) => Authenticate(checker, next, w, req)
  }

  /**
    Exactly one of the three outcomes happens, and which one is decided by
    the token header and the checker's answer alone: 403 with nothing
    consulted, 401 without next, or next invoked with the verdict's ID.
   */
  lemma GateOutcome(checker: TokenChecker, next: AuthenticatedHandler, w: Writer, req: Request)
    requires w.status.None?
    ensures var token := HeaderGet(req.header, TokenHeader);
      var v := Decide(token, checker(token));
      var r := Authenticate(checker, next, w, req);
      && (v.Forbidden? <==> (Finish(r.w).status == StatusForbidden && r.events == []))
      && (v.Unauthorized? <==>
            (Finish(r.w).status == StatusUnauthorized && |r.events| >= 1 && r.events[0] == TokenChecked(token)
             && forall i | 0 <= i < |r.events| :: !r.events[i].NextInvoked?))
      && (v.Authenticated? <==> (|r.events| >= 2 && r.events[1].NextInvoked?))
      && (v.Authenticated? ==> r.events[1] == NextInvoked(v.userID))
  {
    var token := HeaderGet(req.header, TokenHeader);
    var r := Authenticate(checker, next, w, req);
    if Decide(token, checker(token)).Authenticated? {
      assert r.events[1] == NextInvoked(checker(token).0);
    }
  }
}
