/**
 * The HTTP exchange as the relay sees it: the parts of an inbound request it reads,
 * and Express's response object, which the middleware and the handlers change step
 * by step.
 */
module Http {
  import opened Wrappers
  import opened Js

  /** Where Express's router sends a request; path matching is Express's own. */
  datatype Target = AiFaqPath | ChatPath | OtherPath

  datatype Request = Request(
    verb: string,              // the HTTP method
    target: Target,
    origin: Option<string>,     // the Origin header
    relayKey: Option<string>,   // the X-Relay-Key header
    body: Value)                // req.body as parsed by express.json()

  /** `req.headers.origin || ""`. */
  function OriginOf(req: Request): string {
    if req.origin.Some? then req.origin.value else ""
  }

  /** What a response carries: nothing, plain text, or a JSON document. */
  datatype Body = NoBody | Text(text: string) | Json(value: Value)

  /** Express's `res`: status, headers set so far, body, and whether it has been sent. */
  class Response {
    var status: int
    var headers: map<string, string>
    var body: Body
    var sent: bool

    constructor ()
      ensures status == 200 && headers == map[] && body == NoBody && !sent
    {
      status := 200;
      headers := map[];
      body := NoBody;
      sent := false;
    }

    /** `res.setHeader(name, value)`; Express refuses it once the response is sent. */
    method SetHeader(name: string, value: string)
      requires !sent
      modifies this`headers
      ensures headers == old(headers)[name := value]
    {
      headers := headers[name := value];
    }

    /** `res.status(code)`. */
    method Status(code: int)
      requires !sent
      modifies this`status
      ensures status == code
    {
      status := code;
    }

    /** `res.json(v)`: sends `v` as the body. */
    method SendJson(v: Value)
      requires !sent
      modifies this`body, this`sent
      ensures body == Json(v) && sent
    {
      body := Json(v);
      sent := true;
    }

    /**
     * `res.sendStatus(code)` for the two codes the relay uses: Express sends the
     * reason phrase as plain text, and no body at all with 204.
     */
    method SendStatus(code: int)
      requires !sent
      requires code == 204 || code == 403
      modifies this`status, this`body, this`sent
      ensures status == code && sent
      ensures body == if code == 204 then NoBody else Text("Forbidden")
    {
      status := code;
      body := if code == 204 then NoBody else Text("Forbidden");
      sent := true;
    }
  }
}
