/**
 * The CORS middleware, run before every route: it sets the CORS response headers,
 * answers a preflight (`OPTIONS`) itself, and turns away a real request whose
 * declared origin is not allowed. This is a simplified form of the CORS protocol of
 * the WHATWG Fetch Standard (section 3.2, "CORS protocol").
 */
module Cors {
  import opened Js
  import opened Http
  import Origins

  const AllowMethods := "GET,POST,OPTIONS"
  const AllowHeaders := "content-type, authorization, x-relay-key"
  const MaxAge := "86400"
  const RejectMessage := "CORS origin not allowed"

  /**
   * `Access-Control-Allow-Origin`: the wildcard under a wildcard list, the caller's
   * own origin when it is allowed, and the empty string otherwise.
   */
  function AllowOriginValue(origins: seq<string>, origin: string): (v: string)
    ensures v == "*" <==> "*" in origins
    ensures v != "" <==> Origins.IsAllowedOrigin(origins, origin)
    ensures v != "" && v != "*" ==> v == origin && origin in origins
  {
    if "*" in origins then "*" else if Origins.IsAllowedOrigin(origins, origin) then origin else ""
  }

  /** The five headers the middleware sets on every response. */
  function CorsHeaders(origins: seq<string>, origin: string): (h: map<string, string>)
    ensures h.Keys == {"Vary", "Access-Control-Allow-Origin", "Access-Control-Allow-Methods",
                       "Access-Control-Allow-Headers", "Access-Control-Max-Age"}
    ensures h["Vary"] == "Origin"
    ensures h["Access-Control-Allow-Origin"] == AllowOriginValue(origins, origin)
    ensures h["Access-Control-Allow-Methods"] == AllowMethods
    ensures h["Access-Control-Allow-Headers"] == AllowHeaders
    ensures h["Access-Control-Max-Age"] == MaxAge
  {
    map[
      "Vary" := "Origin",
      "Access-Control-Allow-Origin" := AllowOriginValue(origins, origin),
      "Access-Control-Allow-Methods" := AllowMethods,
      "Access-Control-Allow-Headers" := AllowHeaders,
      "Access-Control-Max-Age" := MaxAge]
  }

  /** Setting the five headers one after another adds exactly `CorsHeaders` to what was there. */
  lemma HeadersInOrder(m: map<string, string>, origins: seq<string>, origin: string)
    ensures m["Vary" := "Origin"]
             ["Access-Control-Allow-Origin" := AllowOriginValue(origins, origin)]
             ["Access-Control-Allow-Methods" := AllowMethods]
             ["Access-Control-Allow-Headers" := AllowHeaders]
             ["Access-Control-Max-Age" := MaxAge]
        == m + CorsHeaders(origins, origin)
  {
  }

  /** What the middleware does with a request. */
  datatype Gate = Preflight(code: int) | Refuse | Proceed

  function Decide(origins: seq<string>, verb: string, origin: string): (g: Gate)
    ensures g.Preflight? <==> verb == "OPTIONS"
    ensures g.Preflight? ==> (g.code == 204 <==> Origins.IsAllowedOrigin(origins, origin))
    ensures g.Preflight? ==> g.code == 204 || g.code == 403
    ensures g == Proceed <==> verb != "OPTIONS" && (origin == "" || Origins.IsAllowedOrigin(origins, origin))
  {
    var allowed := Origins.IsAllowedOrigin(origins, origin);
    if verb == "OPTIONS" then Preflight(if allowed then 204 else 403)
    else if origin != "" && !allowed then Refuse
    else Proceed
  }

  /** The status and body of a request the middleware answers itself. */
  function GateReply(g: Gate): (reply: (int, Body))
    requires g != Proceed
    ensures g.Preflight? ==> reply.0 == g.code && (reply.1 == NoBody <==> g.code == 204)
    ensures g.Preflight? && g.code != 204 ==> reply.1 == Text("Forbidden")
    ensures g == Refuse ==> reply == (403, Json(ErrorObject(RejectMessage)))
  {
    match g
    case Preflight(code) => (code, if code == 204 then NoBody else Text("Forbidden"))
    case Refuse => (403, Json(ErrorObject(RejectMessage)))
  }

  /** Under a wildcard list nothing is turned away, and every preflight gets 204. */
  lemma WildcardAdmitsEverything(origins: seq<string>, verb: string, origin: string)
    requires "*" in origins
    ensures Decide(origins, verb, origin) == (if verb == "OPTIONS" then Preflight(204) else Proceed)
  {
  }

  /**
   * Under a fixed list a request without an Origin header fails its preflight but
   * passes as a real request: the two paths treat a missing origin differently.
   */
  lemma MissingOriginUnderFixedList(origins: seq<string>, verb: string)
    requires "*" !in origins
    ensures Decide(origins, "OPTIONS", "") == Preflight(403)
    ensures verb != "OPTIONS" ==> Decide(origins, verb, "") == Proceed
  {
  }

  /** The middleware as Express runs it; `next` says whether the request goes on to the routes. */
  method Middleware(origins: seq<string>, req: Request, res: Response) returns (next: bool)
    requires !res.sent
    modifies res
    ensures res.headers == old(res.headers) + CorsHeaders(origins, OriginOf(req))
    ensures next <==> Decide(origins, req.verb, OriginOf(req)) == Proceed
    ensures next ==> !res.sent && res.status == old(res.status) && res.body == old(res.body)
    ensures !next ==> res.sent && (res.status, res.body) == GateReply(Decide(origins, req.verb, OriginOf(req)))
  {
    var origin := OriginOf(req);
    var allowed := Origins.IsAllowedOrigin(origins, origin);
    res.SetHeader("Vary", "Origin");
    res.SetHeader("Access-Control-Allow-Origin", if "*" in origins then "*" else if allowed then origin else "");
    res.SetHeader("Access-Control-Allow-Methods", AllowMethods);
    res.SetHeader("Access-Control-Allow-Headers", AllowHeaders);
    res.SetHeader("Access-Control-Max-Age", MaxAge);
    HeadersInOrder(old(res.headers), origins, origin);
    if req.verb == "OPTIONS" {
      res.SendStatus(if allowed then 204 else 403);
      return false;
    }
    if origin != "" && !allowed {
      res.Status(403);
      res.SendJson(ErrorObject(RejectMessage));
      return false;
    }
    return true;
  }
}
