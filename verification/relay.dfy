/**
 * The two protected routes and the whole pipeline: CORS middleware, then for
 * `POST /api/ai-faq` and `POST /api/chat` the auth gate, the payload, one upstream
 * call and the translation of its reply. The upstream endpoint is a function from
 * the outbound request to its reply, and `JSON.parse` a function that may fail.
 */
module Relay {
  import opened Wrappers
  import opened Js
  import opened Http
  import opened Config
  import opened Shaper
  import opened Translator
  import Cors
  import Auth
  import Origins

  const CompletionsUrl := "https://api.openai.com/v1/chat/completions"

  /** The call made upstream: `POST` to `url` with a JSON body and this bearer credential. */
  datatype Outbound = Outbound(url: string, authorization: string, payload: Payload)

  datatype Route = FaqRoute | ChatRoute

  /** The routes this model covers; any other request is left to routes outside it. */
  function RouteOf(req: Request): Option<Route> {
    if req.verb != "POST" then None
    else match req.target
      case AiFaqPath => Some(FaqRoute)
      case ChatPath => Some(ChatRoute)
      case OtherPath => None
  }

  function PayloadFor(route: Route, cfg: RelayConfig, body: Value): Payload {
    match route
    case FaqRoute => FaqPayload(cfg.defaultModel, body)
    case ChatRoute => ChatPayload(cfg.defaultModel, body)
  }

  /**
   * The upstream key goes into the bearer credential only: the payload of either route
   * is the same whatever the key is.
   */
  lemma PayloadIgnoresUpstreamKey(route: Route, cfg: RelayConfig, body: Value, key: string)
    ensures PayloadFor(route, cfg, body) == PayloadFor(route, cfg.(upstreamKey := key), body)
  {
  }

  /** What a protected route answers, and what it sent upstream, if anything. */
  datatype Exchange = Exchange(status: int, body: Value, forwarded: Option<Outbound>)

  /** A protected route: auth gate, then payload, upstream call and translation. */
  function Handle(route: Route, cfg: RelayConfig, req: Request,
                  upstream: Outbound -> Reply, parse: string -> Option<Value>): (e: Exchange)
    ensures e.forwarded.Some? <==> Auth.CheckAuth(cfg, req.relayKey) == Auth.Authorized
    ensures e.forwarded.Some? ==>
              && e.forwarded.value.url == CompletionsUrl
              && e.forwarded.value.authorization == "Bearer " + cfg.upstreamKey
              && cfg.upstreamKey != ""
              && e.forwarded.value.payload == PayloadFor(route, cfg, req.body)
    ensures e.forwarded.Some? ==> (e.status, e.body) == Translate(upstream(e.forwarded.value), parse)
    ensures e.forwarded.None? ==> e.status == Auth.CheckAuth(cfg, req.relayKey).code
    ensures e.forwarded.None? ==> e.body == ErrorObject(Auth.CheckAuth(cfg, req.relayKey).message)
  {
    match Auth.CheckAuth(cfg, req.relayKey)
    case Rejected(code, message) => Exchange(code, ErrorObject(message), None)
    case Authorized =>
      var out := Outbound(CompletionsUrl, "Bearer " + cfg.upstreamKey, PayloadFor(route, cfg, req.body));
      var (status, data) := Translate(upstream(out), parse);
      Exchange(status, data, Some(out))
  }

  /**
   * The tail both handlers share: read the reply, parse it or wrap it as `{ raw }`,
   * answer 200 for any 2xx and the upstream status otherwise; a thrown error gives 500.
   */
  method Respond(res: Response, reply: Reply, parse: string -> Option<Value>)
    requires !res.sent
    modifies res
    ensures res.sent && res.headers == old(res.headers)
    ensures res.status == Translate(reply, parse).0
    ensures res.body == Json(Translate(reply, parse).1)
  {
    match reply
    case Failed(message) =>
      res.Status(500);
      res.SendJson(ErrorObject(message));
    case Answered(status, text) =>
      var data := ParseOrWrap(text, parse);
      res.Status(if IsOk(status) then 200 else status);
      res.SendJson(data);
  }

  /** The `POST /api/ai-faq` handler; returns what it sent upstream. */
  method AiFaq(cfg: RelayConfig, req: Request, res: Response,
               upstream: Outbound -> Reply, parse: string -> Option<Value>)
    returns (forwarded: Option<Outbound>)
    requires !res.sent
    modifies res
    ensures res.sent && res.headers == old(res.headers)
    ensures forwarded == Handle(FaqRoute, cfg, req, upstream, parse).forwarded
    ensures res.status == Handle(FaqRoute, cfg, req, upstream, parse).status
    ensures res.body == Json(Handle(FaqRoute, cfg, req, upstream, parse).body)
  {
    var ok := Auth.EnsureAuth(cfg, req, res);
    if !ok {
      return None;
    }
    var out := Outbound(CompletionsUrl, "Bearer " + cfg.upstreamKey, FaqPayload(cfg.defaultModel, req.body));
    forwarded := Some(out);
    Respond(res, upstream(out), parse);
  }

  /** The `POST /api/chat` handler; returns what it sent upstream. */
  method Chat(cfg: RelayConfig, req: Request, res: Response,
              upstream: Outbound -> Reply, parse: string -> Option<Value>)
    returns (forwarded: Option<Outbound>)
    requires !res.sent
    modifies res
    ensures res.sent && res.headers == old(res.headers)
    ensures forwarded == Handle(ChatRoute, cfg, req, upstream, parse).forwarded
    ensures res.status == Handle(ChatRoute, cfg, req, upstream, parse).status
    ensures res.body == Json(Handle(ChatRoute, cfg, req, upstream, parse).body)
  {
    var ok := Auth.EnsureAuth(cfg, req, res);
    if !ok {
      return None;
    }
    var out := Outbound(CompletionsUrl, "Bearer " + cfg.upstreamKey, ChatPayload(cfg.defaultModel, req.body));
    forwarded := Some(out);
    Respond(res, upstream(out), parse);
  }

  /** The response as it leaves the relay, what went upstream, and whether the request was answered. */
  datatype Outcome = Outcome(
    status: int,
    headers: map<string, string>,
    body: Body,
    forwarded: Option<Outbound>,
    answered: bool)

  /** The pipeline on one request. */
  function Relay(cfg: RelayConfig, req: Request,
                 upstream: Outbound -> Reply, parse: string -> Option<Value>): (o: Outcome)
    ensures o.headers == Cors.CorsHeaders(cfg.origins, OriginOf(req))
    ensures o.forwarded.Some? ==>
              && RouteOf(req).Some?
              && Cors.Decide(cfg.origins, req.verb, OriginOf(req)) == Cors.Proceed
              && Auth.CheckAuth(cfg, req.relayKey) == Auth.Authorized
    ensures RouteOf(req).Some? ==> o.answered
  {
    var origin := OriginOf(req);
    var headers := Cors.CorsHeaders(cfg.origins, origin);
    var gate := Cors.Decide(cfg.origins, req.verb, origin);
    if gate != Cors.Proceed then
      var (status, body) := Cors.GateReply(gate);
      Outcome(status, headers, body, None, true)
    else
      match RouteOf(req)
      case None => Outcome(200, headers, NoBody, None, false)
      case Some(route) =>
        var e := Handle(route, cfg, req, upstream, parse);
        Outcome(e.status, headers, Json(e.body), e.forwarded, true)
  }

  /** Express running the middleware and then the matching handler on a fresh response. */
  method Serve(cfg: RelayConfig, req: Request,
               upstream: Outbound -> Reply, parse: string -> Option<Value>)
    returns (res: Response, forwarded: Option<Outbound>)
    ensures fresh(res)
    ensures Outcome(res.status, res.headers, res.body, forwarded, res.sent) == Relay(cfg, req, upstream, parse)
  {
    res := new Response();
    forwarded := None;
    var next := Cors.Middleware(cfg.origins, req, res);
    if !next {
      return;
    }
    match RouteOf(req)
    case None =>
    case Some(FaqRoute) =>
      forwarded := AiFaq(cfg, req, res, upstream, parse);
    case Some(ChatRoute) =>
      forwarded := Chat(cfg, req, res, upstream, parse);
  }

  /** A preflight is answered by the middleware alone: 204 or 403, never JSON, nothing sent upstream. */
  lemma PreflightStopsAtMiddleware(cfg: RelayConfig, req: Request,
                                   upstream: Outbound -> Reply, parse: string -> Option<Value>)
    requires req.verb == "OPTIONS"
    ensures var o := Relay(cfg, req, upstream, parse);
      && o.answered && o.forwarded.None? && !o.body.Json?
      && (o.status == 204 || o.status == 403)
      && (o.status == 204 <==> Origins.IsAllowedOrigin(cfg.origins, OriginOf(req)))
  {
  }

  /** A real request from a declared but unlisted origin gets 403 before the relay key is even looked at. */
  lemma ForeignOriginStopsBeforeAuth(cfg: RelayConfig, req: Request,
                                     upstream: Outbound -> Reply, parse: string -> Option<Value>)
    requires req.verb != "OPTIONS"
    requires OriginOf(req) != "" && !Origins.IsAllowedOrigin(cfg.origins, OriginOf(req))
    ensures Relay(cfg, req, upstream, parse)
         == Outcome(403, Cors.CorsHeaders(cfg.origins, OriginOf(req)),
                    Json(ErrorObject(Cors.RejectMessage)), None, true)
  {
  }

  /** Upstream is called exactly when the route is protected, the origin passes and the gate authorises. */
  lemma ForwardedIffAllChecksPass(cfg: RelayConfig, req: Request,
                                  upstream: Outbound -> Reply, parse: string -> Option<Value>)
    ensures Relay(cfg, req, upstream, parse).forwarded.Some?
        <==> && RouteOf(req).Some?
             && Cors.Decide(cfg.origins, req.verb, OriginOf(req)) == Cors.Proceed
             && Auth.CheckAuth(cfg, req.relayKey) == Auth.Authorized
  {
  }

  /** A configured relay key that the caller does not present gives 401, and upstream is not called. */
  lemma WrongRelayKeyIs401(cfg: RelayConfig, req: Request,
                           upstream: Outbound -> Reply, parse: string -> Option<Value>)
    requires RouteOf(req).Some?
    requires OriginOf(req) == "" || Origins.IsAllowedOrigin(cfg.origins, OriginOf(req))
    requires cfg.relayKey != "" && req.relayKey != Some(cfg.relayKey)
    ensures Relay(cfg, req, upstream, parse).status == 401
    ensures Relay(cfg, req, upstream, parse).forwarded.None?
  {
  }

  /** The right relay key without an upstream key gives 500 before any upstream call. */
  lemma MissingUpstreamKeyIs500(cfg: RelayConfig, req: Request,
                                upstream: Outbound -> Reply, parse: string -> Option<Value>)
    requires RouteOf(req).Some?
    requires OriginOf(req) == "" || Origins.IsAllowedOrigin(cfg.origins, OriginOf(req))
    requires cfg.relayKey != "" && req.relayKey == Some(cfg.relayKey) && cfg.upstreamKey == ""
    ensures Relay(cfg, req, upstream, parse).status == 500
    ensures Relay(cfg, req, upstream, parse).body == Json(ErrorObject("Missing OPENAI_API_KEY"))
    ensures Relay(cfg, req, upstream, parse).forwarded.None?
  {
  }

  /** An upstream error status and body (a 429, say) reach the caller unchanged. */
  lemma UpstreamErrorReachesCaller(cfg: RelayConfig, req: Request, upstream: Outbound -> Reply,
                                   parse: string -> Option<Value>, status: int, text: string, v: Value)
    requires Relay(cfg, req, upstream, parse).forwarded.Some?
    requires upstream(Relay(cfg, req, upstream, parse).forwarded.value) == Answered(status, text)
    requires !IsOk(status) && parse(text) == Some(v)
    ensures Relay(cfg, req, upstream, parse).status == status
    ensures Relay(cfg, req, upstream, parse).body == Json(v)
  {
  }

  /** A failed upstream call (timeout abort, network error) is answered with 500 and the error message. */
  lemma FailedCallIs500(cfg: RelayConfig, req: Request, upstream: Outbound -> Reply,
                        parse: string -> Option<Value>, message: string)
    requires Relay(cfg, req, upstream, parse).forwarded.Some?
    requires upstream(Relay(cfg, req, upstream, parse).forwarded.value) == Failed(message)
    ensures Relay(cfg, req, upstream, parse).status == 500
    ensures Relay(cfg, req, upstream, parse).body == Json(ErrorObject(message))
  {
  }
}
