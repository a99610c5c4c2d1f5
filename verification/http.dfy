/**
  The part of Go's net/http that the request-handling core relies on:
  requests (method, URL, canonicalised header fields), the ResponseWriter
  seen as a small state machine, and the response a handler leaves behind.
 */
module Http {

  newtype byte = x: int | 0 <= x < 256

  datatype Option<+T> = None | Some(value: T)

  const StatusOK: int := 200
  const StatusNoContent: int := 204
  const StatusUnauthorized: int := 401
  const StatusForbidden: int := 403
  const StatusNotFound: int := 404
  const StatusMethodNotAllowed: int := 405
  const StatusInternalServerError: int := 500
  const StatusNotImplemented: int := 501

  const MethodGet: string := "GET"
  const MethodPost: string := "POST"
  const MethodDelete: string := "DELETE"
  const MethodOptions: string := "OPTIONS"

  /** Only the path takes part in routing; scheme and host are kept so that
      requests differing in them can be compared. */
  datatype Url = Url(scheme: string, host: string, path: string)

  /** Header field names are the canonical forms net/http produces when it
      parses a request; each name maps to its values in arrival order. */
  datatype Request = Request(httpMethod: string, url: Url, header: map<string, seq<string>>)

  /** Header.Get: the first value of the field, or "" when it is absent. */
  function HeaderGet(h: map<string, seq<string>>, name: string): string
  {
    if name in h && |h[name]| > 0 then h[name][0] else ""
  }

  predicate IsAscii(s: string)
  {
    forall i | 0 <= i < |s| :: s[i] < 128 as char
  }

  /** The bytes fmt.Fprint writes for an ASCII string. */
  function Ascii(s: string): seq<byte>
    requires IsAscii(s)
  {
    seq(|s|, i requires 0 <= i < |s| => s[i] as int as byte)
  }

  /**
    What a handler has done to its ResponseWriter so far: the header map it
    has set, the status it has committed (None until WriteHeader or the
    first Write) and the body bytes written.
   */
  datatype Writer = Writer(header: map<string, string>, status: Option<int>, body: seq<byte>)

  /** The writer net/http hands to the top-level handler. */
  const Fresh: Writer := Writer(map[], None, [])

  /** Header().Set: changes made after the status is committed never reach
      the client, so they are dropped. */
  function SetHeader(w: Writer, name: string, value: string): Writer
  {
    if w.status.None? then w.(header := w.header[name := value]) else w
  }

  /** WriteHeader: the first call commits the status; later calls are
      superfluous and ignored. */
  function WriteHeader(w: Writer, code: int): Writer
  {
    if w.status.None? then w.(status := Some(code)) else w
  }

  /** Write: commits 200 if no status was committed, then appends. */
  function Write(w: Writer, data: seq<byte>): Writer
  {
    Writer(w.header, if w.status.None? then Some(StatusOK) else w.status, w.body + data)
  }

  /** WriteHeader followed by fmt.Fprint of a plain-text message. */
  function Reply(w: Writer, code: int, msg: seq<byte>): Writer
  {
    Write(WriteHeader(w, code), msg)
  }

  datatype Response = Response(status: int, header: map<string, string>, body: seq<byte>)

  /** The status, headers and body the handler produced, once it returns:
      a handler that never committed a status answers 200. The body is what
      the handler wrote; for a HEAD request net/http sends none of it. */
  function Finish(w: Writer): Response
  {
    Response(if w.status.Some? then w.status.value else StatusOK, w.header, w.body)
  }
}
