/**
  Observable effects of handling one request besides the response itself:
  which route handler ran, whether the token checker and the storer were
  consulted and with what, whether the authenticated handler ran, and
  whether the fetched reader was closed. Handlers return the events they
  caused, in order, next to the writer they leave behind.
 */
module Trace {
  import opened Http

  /** The three entries of the RouterHandlers interface. */
  datatype RouteHandler = GetRoute | PostRoute | DeleteRoute

  datatype Event =
    | HandlerInvoked(route: RouteHandler)
    | TokenChecked(token: string)
    | EmptyUserIdLogged
    | NextInvoked(userID: string)
    | Fetched(userID: string)
    | ReaderClosed

  datatype Served = Served(w: Writer, events: seq<Event>)

  /** http.HandlerFunc */
  type Handler = (Writer, Request) -> Served

  /** A request whose token the authentication gate has accepted, with the
      user ID the token checker resolved. */
  datatype AuthenticatedRequest = AuthenticatedRequest(req: Request, userID: string)

  /** authenticatedRequestHandler */
  type AuthenticatedHandler = (Writer, AuthenticatedRequest) -> Served

  /** Record one more event ahead of what a handler did. */
  function Preceded(e: seq<Event>, s: Served): Served
  {
    Served(s.w, e + s.events)
  }
}
