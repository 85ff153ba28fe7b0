/**
 * The base websocket routes (backend/internal/websocket/base_router.go): a message starts
 * with an integer route, -1 is the invalid route, 0 a ping and 1 a pong.  A ping is answered
 * with a pong carrying the same data; a pong needs no answer.
 */
module BaseRouter {
  import opened Wrappers

  /** `BaseRoute`, a Go `int`. */
  type BaseRoute = int

  const Invalid: BaseRoute := -1
  const Ping: BaseRoute := 0
  const Pong: BaseRoute := 1

  /** `MessagePong`, the first element of the message a ping is answered with. */
  const MessagePong := 1

  const InvalidRoute := "invalid route"
  const NoConnection := "no websocket connection in context"

  /**
   * `BaseRouteFromInt`: 0 and 1 stand for themselves and every other integer is the
   * invalid route.
   */
  function BaseRouteFromInt(i: int): (r: BaseRoute)
    ensures r == Invalid || r == Ping || r == Pong
    ensures r != Invalid <==> Ping <= i <= Pong
    ensures r != Invalid ==> r == i
  {
    if i < 0 then Invalid
    else if i > Pong then Invalid
    else i
  }

  /** A valid route converts to itself, and the conversion is idempotent. */
  lemma FromIntIdempotent(i: int)
    ensures BaseRouteFromInt(BaseRouteFromInt(i)) == BaseRouteFromInt(i)
    ensures BaseRouteFromInt(Ping) == Ping && BaseRouteFromInt(Pong) == Pong
  {
  }

  /** `baseRouterDecoder`'s result: a route and, maybe, an error. */
  datatype Decoded = Decoded(route: BaseRoute, err: Option<string>)

  /**
   * `baseRouterDecoder`, given what `DecodeInt` read: a decoding error is passed on with
   * the invalid route, an integer outside the routes is the invalid route with
   * "invalid route", and any other integer is its route, without an error.
   */
  function BaseRouterDecoder(pathRaw: Result<int, string>): (r: Decoded)
    ensures pathRaw.Err? ==> r == Decoded(Invalid, Some(pathRaw.error))
    ensures pathRaw.Ok? && !(Ping <= pathRaw.value <= Pong) ==> r == Decoded(Invalid, Some(InvalidRoute))
    ensures r.err.None? <==> pathRaw.Ok? && Ping <= pathRaw.value <= Pong
    ensures r.err.None? ==> r.route == pathRaw.value && r.route != Invalid
  {
    if pathRaw.Err? then Decoded(Invalid, Some(pathRaw.error))
    else
      var path := BaseRouteFromInt(pathRaw.value);
      if path == Invalid then Decoded(path, Some(InvalidRoute))
      else Decoded(path, None)
  }

  /**
   * `handlePing`, given whether the context holds a connection and the outcome of writing
   * to it: without a connection nothing is sent and the error says so; otherwise the pong
   * `[MessagePong, data]` is sent and the write's own error, if any, is returned.
   */
  datatype PingOutcome = PingOutcome(sent: Option<(int, int)>, err: Option<string>)

  function HandlePing(data: int, hasConn: bool, writeErr: Option<string>): (r: PingOutcome)
    ensures !hasConn ==> r == PingOutcome(None, Some(NoConnection))
    ensures hasConn ==> r.sent == Some((MessagePong, data)) && r.err == writeErr
  {
    if !hasConn then PingOutcome(None, Some(NoConnection))
    else PingOutcome(Some((MessagePong, data)), writeErr)
  }

  /** `handlePong`: never an error. */
  function HandlePong(data: int): (r: Option<string>)
    ensures r.None?
  {
    None
  }

  /**
   * A ping on a connection whose write succeeds: the message is routed to `handlePing`,
   * which answers with the same data and no error, and the answer's first element is itself
   * routed as a pong, which `handlePong` takes without answering: one reply, and the
   * exchange ends there.
   */
  lemma PingExchange(data: int)
    ensures BaseRouterDecoder(Ok(Ping)) == Decoded(Ping, None)
    ensures var out := HandlePing(data, true, None);
      out == PingOutcome(Some((MessagePong, data)), None) &&
      BaseRouterDecoder(Ok(out.sent.value.0)) == Decoded(Pong, None) &&
      HandlePong(out.sent.value.1).None?
  {
  }
}
