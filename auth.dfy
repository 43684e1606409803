/**
 * The access check of `src/middleware/auth.ts`: when an access key is configured, a
 * request must carry it as its `api_key` query parameter; a request that does not is
 * not answered at all, its connection is torn down instead.
 */
module Auth {
  import opened Wrappers
  import opened Strings

  /** The client connection behind a response (`res.socket`). */
  datatype Socket = Socket(destroyed: bool)

  /** What the middleware does: hand the request on (`next()`), or drop it, leaving the
      connection in the state given (absent stays absent). */
  datatype AuthOutcome = CallNext | Deny(socket: Option<Socket>)

  /** `res.socket.destroy()` when there is a socket that is still open. */
  function DestroySocket(socket: Option<Socket>): (r: Option<Socket>)
    ensures r.Some? <==> socket.Some?
    ensures r.Some? ==> r.value.destroyed
  {
    if socket.Some? && !socket.value.destroyed then Some(Socket(true)) else socket
  }

  /** `authMiddleware` for a request whose `api_key` query parameter is `queryKey`
      (`None` when it is absent) and whose response has the connection `socket`. */
  function Authorize(apiKey: Option<string>, queryKey: Option<string>, socket: Option<Socket>): (r: AuthOutcome)
    ensures r.CallNext? <==> !Truthy(apiKey) || queryKey == apiKey
    ensures r.Deny? ==> r.socket == DestroySocket(socket)
  {
    if Truthy(apiKey) && queryKey != apiKey then Deny(DestroySocket(socket)) else CallNext
  }

  /** Without a configured key every request is let through, whatever it carries. */
  lemma OpenWithoutKey(apiKey: Option<string>, queryKey: Option<string>, socket: Option<Socket>)
    requires apiKey == None || apiKey == Some("")
    ensures Authorize(apiKey, queryKey, socket) == CallNext
  {
  }

  /** With a key configured, a request without `api_key` or with any other value is
      dropped, and a live connection ends up destroyed. */
  lemma WrongKeyDropped(key: string, queryKey: Option<string>, socket: Option<Socket>)
    requires key != "" && queryKey != Some(key)
    ensures Authorize(Some(key), queryKey, socket).Deny?
    ensures socket.Some? ==> Authorize(Some(key), queryKey, socket) == Deny(Some(Socket(true)))
    ensures socket.None? ==> Authorize(Some(key), queryKey, socket) == Deny(None)
  {
  }

  /** Destroying a connection twice is the same as destroying it once. */
  lemma DestroyIdempotent(socket: Option<Socket>)
    ensures DestroySocket(DestroySocket(socket)) == DestroySocket(socket)
  {
  }
}
