/** The parts of an incoming request the handlers read. */
module Http {
  import opened JsObjects

  /**
   * `req.method`, the parsed JSON body, the headers (lower-case names), the query
   * parameters, and `req.socket.remoteAddress`.
   */
  datatype Request = Request(httpMethod: string, body: Object, headers: Object, query: Object, remoteAddress: string)

  /** `req.headers['x-forwarded-for'] || req.socket.remoteAddress`. */
  function ClientIp(req: Request): string {
    OrElse(req.headers, "x-forwarded-for", req.remoteAddress)
  }

  /** The server's clock for one request: `Date.now()` and `new Date().toISOString()`. */
  datatype Clock = Clock(nowMs: nat, iso: string)
}
