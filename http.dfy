/**
 * The parts of an HTTP exchange the hub and the agent look at.
 */
module Http {
  import opened Wrappers

  /** The status codes the handlers write; 200 is also what a handler that writes nothing answers. */
  const StatusOK: int := 200
  const StatusCreated: int := 201
  const StatusBadRequest: int := 400

  /** A request: method, path, decoded query, body, whether it came over TLS, and the peer's address. */
  datatype Request = Request(verb: string, path: string, query: map<string, seq<string>>, body: string,
                             tls: bool, remoteAddr: string)

  /** A response: status and body. */
  datatype Response = Response(status: int, body: string)

  /** `url.Values.Get`: the first value of `key`, or "" when there is none. */
  function QueryGet(query: map<string, seq<string>>, key: string): string {
    if key in query && |query[key]| > 0 then query[key][0] else ""
  }

  /** `http.Error`: the status, and a body that is the message and then one newline. */
  function ErrorResponse(status: int, message: string): (r: Response)
    ensures r.status == status && |r.body| == |message| + 1
    ensures r.body[..|message|] == message && r.body[|message|] == '\n'
  {
    assert (message + "\n")[..|message|] == message;
    Response(status, message + "\n")
  }
}
