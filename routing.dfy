/** HTTP routing of websocket-chat/src/main.rs: `serve`, `try_serve`,
    `not_found` and the response `upgrade` builds.

    Header names are the lower-case names the HTTP library stores; a header
    value is its bytes. The `Sec-WebSocket-Accept` computation (`convert_key`,
    SHA-1 and base64) is the parameter `accept`. Spawning `handle_websocket` on
    the upgraded connection is not part of the response and is left to the
    session model. */
module Routing {
  import opened Wrappers

  newtype Byte = x: int | 0 <= x < 256

  datatype Request = Request(path: string, headers: map<string, seq<Byte>>)

  /** A response body: the embedded `index.html`, some text, or nothing. */
  datatype Body = IndexPage | Bytes(text: string) | Empty

  datatype Response = Response(status: nat, headers: seq<(string, string)>, body: Body)

  /** The two ways `upgrade` fails: no key header, or a key that is not visible ASCII. */
  datatype ServeError = MissingKey | KeyNotVisibleAscii

  /** `HeaderValue::to_str` succeeds iff every byte is a tab or visible ASCII. */
  predicate IsVisibleAscii(v: seq<Byte>) {
    forall i | 0 <= i < |v| :: v[i] == 9 || 32 <= v[i] < 127
  }

  /** `not_found`. */
  function NotFound(): Response {
    Response(404, [], Bytes("Not Found"))
  }

  /** The response for `/`: the builder's default status 200 and the index page. */
  function IndexResponse(): Response {
    Response(200, [], IndexPage)
  }

  /** `upgrade`: requires the `sec-websocket-key` header as a string and answers
      101 Switching Protocols with the upgrade headers. */
  function Upgrade(req: Request, accept: seq<Byte> -> string): (r: Result<Response, ServeError>)
    ensures r.Ok? <==> "sec-websocket-key" in req.headers && IsVisibleAscii(req.headers["sec-websocket-key"])
    ensures r == Err(MissingKey) <==> "sec-websocket-key" !in req.headers
    ensures r.Ok? ==> && r.value.status == 101 && r.value.body == Empty
                      && r.value.headers == [("connection", "Upgrade"), ("upgrade", "websocket"),
                                             ("sec-websocket-accept", accept(req.headers["sec-websocket-key"]))]
  {
    if "sec-websocket-key" !in req.headers then Err(MissingKey)
    else
      var key := req.headers["sec-websocket-key"];
      if !IsVisibleAscii(key) then Err(KeyNotVisibleAscii)
      else
        // `key.as_bytes()` of the string `to_str` gave is the header's bytes again
        Ok(Response(101, [("connection", "Upgrade"), ("upgrade", "websocket"),
                          ("sec-websocket-accept", accept(key))], Empty))
  }

  /** `try_serve`: route on the path. */
  function TryServe(req: Request, accept: seq<Byte> -> string): Result<Response, ServeError> {
    if req.path == "/" then Ok(IndexResponse())
    else if req.path == "/websocket" then Upgrade(req, accept)
    else Ok(NotFound())
  }

  /** `serve`: every error of `try_serve` becomes 404, so serving never fails. */
  function Serve(req: Request, accept: seq<Byte> -> string): (r: Response)
    ensures r.status == 200 <==> req.path == "/"
    ensures r.status == 200 ==> r == IndexResponse()
    ensures r.status == 101 <==>
      req.path == "/websocket" && "sec-websocket-key" in req.headers &&
      IsVisibleAscii(req.headers["sec-websocket-key"])
    ensures r.status == 101 ==> r == Upgrade(req, accept).value
    ensures r.status != 200 && r.status != 101 ==> r == NotFound()
  {
    match TryServe(req, accept)
    case Ok(resp) => resp
    case Err(_) => NotFound()
  }

  /** `try_serve` fails only on `/websocket`, exactly when the key is missing or
      not visible ASCII; the error says which. Any other path, known or not,
      gets a response. */
  lemma TryServeFailsOnlyOnBadUpgrade(req: Request, accept: seq<Byte> -> string)
    ensures TryServe(req, accept).Err? <==>
      req.path == "/websocket" &&
      !("sec-websocket-key" in req.headers && IsVisibleAscii(req.headers["sec-websocket-key"]))
    ensures TryServe(req, accept) == Err(MissingKey) <==>
      req.path == "/websocket" && "sec-websocket-key" !in req.headers
    ensures TryServe(req, accept).Ok? && req.path != "/websocket" ==>
      TryServe(req, accept).value.status in {200, 404}
  {
  }

  /** The upgrade response carries `connection: Upgrade` and `upgrade: websocket`. */
  lemma UpgradeHeaders(req: Request, accept: seq<Byte> -> string)
    requires req.path == "/websocket"
    requires "sec-websocket-key" in req.headers && IsVisibleAscii(req.headers["sec-websocket-key"])
    ensures Serve(req, accept).status == 101
    ensures ("connection", "Upgrade") in Serve(req, accept).headers
    ensures ("upgrade", "websocket") in Serve(req, accept).headers
  {
  }
}
