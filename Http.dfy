/** The routes of the stateless HTTP endpoint `/mcp`: POST hands the message
    to a fresh MCP server, GET and DELETE are refused. */
module Http {
  import opened Wrappers

  datatype Method = Get | Post | Delete

  datatype RpcError = RpcError(code: int, message: string)

  /** `{jsonrpc, error: {code, message}, id}`; an absent `id` is JSON `null`. */
  datatype ErrorBody = ErrorBody(jsonrpc: string, error: RpcError, id: Option<int>)

  /** How an error body goes out: `writeHead(status).end(JSON.stringify(body))`
      writes the text with no content type, `status(status).json(body)` marks
      it as JSON. */
  datatype Encoding = PlainEnd | ExpressJson

  datatype Response =
    | Delegated                                               // the MCP transport wrote the answer
    | Error(status: int, body: ErrorBody, encoding: Encoding) // the route wrote this error
    | NothingMore                                             // the answer was already started; nothing is added

  /** What became of handing a POST to a new server and transport. */
  datatype PostOutcome = Completed | Threw(headersSent: bool)

  const JsonRpcVersion := "2.0"
  const MethodNotAllowedCode := -32000
  const InternalErrorCode := -32603

  /** Routes one request to `/mcp`; the outcome of handing it on matters to POST only. */
  function HandleMcp(verb: Method, outcome: PostOutcome): (r: Response)
    ensures verb != Post ==>
      r == Error(405, ErrorBody("2.0", RpcError(-32000, "Method not allowed."), None), PlainEnd)
    ensures verb == Post ==> (r.Error? <==> outcome == Threw(false))
    ensures verb == Post && r.Error? ==>
      r == Error(500, ErrorBody("2.0", RpcError(-32603, "Internal server error"), None), ExpressJson)
    ensures verb == Post && outcome == Completed ==> r == Delegated
    ensures verb == Post && outcome == Threw(true) ==> r == NothingMore
  {
    match verb
    case Get => MethodNotAllowed()
    case Delete => MethodNotAllowed()
    case Post =>
      match outcome
      case Completed => Delegated
      case Threw(headersSent) =>
        if headersSent then NothingMore
        else Error(500, ErrorBody(JsonRpcVersion, RpcError(InternalErrorCode, "Internal server error"), None), ExpressJson)
  }

  function MethodNotAllowed(): Response {
    Error(405, ErrorBody(JsonRpcVersion, RpcError(MethodNotAllowedCode, "Method not allowed."), None), PlainEnd)
  }

  /** The refusal of GET and of DELETE is one and the same, and differs from
      the POST failure in status, error code, message and encoding. */
  lemma RejectionsDiffer(o1: PostOutcome, o2: PostOutcome)
    ensures HandleMcp(Get, o1) == HandleMcp(Delete, o2)
    ensures var refused := HandleMcp(Get, o1);
      var failed := HandleMcp(Post, Threw(false));
      && refused.status != failed.status
      && refused.body.error.code != failed.body.error.code
      && refused.body.error.message != failed.body.error.message
      && refused.encoding != failed.encoding
  {
  }
}
