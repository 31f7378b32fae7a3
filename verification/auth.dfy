/**
 * The gate in front of both protected routes: three checks in a fixed order, each
 * failure answered with its own status.
 */
module Auth {
  import opened Wrappers
  import opened Js
  import opened Http
  import opened Config

  datatype Verdict = Authorized | Rejected(code: int, message: string)

  /** `req.headers["x-relay-key"] || ""`. */
  function PresentedKey(header: Option<string>): string {
    if header.Some? then header.value else ""
  }

  /**
   * `ensureAuth` without its effect on the response: a missing relay key is a server
   * fault (500), a presented key that differs from it is the caller's (401), and a
   * missing upstream key is again the server's (500); the first failing check decides.
   */
  function CheckAuth(cfg: RelayConfig, header: Option<string>): (v: Verdict)
    ensures v == Authorized <==>
      cfg.relayKey != "" && PresentedKey(header) == cfg.relayKey && cfg.upstreamKey != ""
    ensures v.Rejected? ==> v.code == 500 || v.code == 401
    ensures cfg.relayKey == "" ==> v == Rejected(500, "Missing RELAY_KEY (server config)")
    ensures cfg.relayKey != "" && PresentedKey(header) != cfg.relayKey ==> v == Rejected(401, "Unauthorized")
    ensures cfg.relayKey != "" && PresentedKey(header) == cfg.relayKey && cfg.upstreamKey == ""
      ==> v == Rejected(500, "Missing OPENAI_API_KEY")
  {
    if cfg.relayKey == "" then Rejected(500, "Missing RELAY_KEY (server config)")
    else if PresentedKey(header) != cfg.relayKey then Rejected(401, "Unauthorized")
    else if cfg.upstreamKey == "" then Rejected(500, "Missing OPENAI_API_KEY")
    else Authorized
  }

  /** The comparison is exact: only the very key, sent in the header, gets through. */
  lemma AuthorizedMeansExactKey(cfg: RelayConfig, header: Option<string>)
    requires CheckAuth(cfg, header) == Authorized
    ensures header == Some(cfg.relayKey)
  {
  }

  /** 401 is reserved for the caller's mistake: it is given exactly when a configured key is not matched. */
  lemma UnauthorizedIsCallersFault(cfg: RelayConfig, header: Option<string>)
    ensures CheckAuth(cfg, header).Rejected? && CheckAuth(cfg, header).code == 401
        <==> cfg.relayKey != "" && header != Some(cfg.relayKey)
  {
  }

  /** `ensureAuth(req, res)`: on failure the response is sent and `false` returned. */
  method EnsureAuth(cfg: RelayConfig, req: Request, res: Response) returns (ok: bool)
    requires !res.sent
    modifies res
    ensures ok <==> CheckAuth(cfg, req.relayKey) == Authorized
    ensures res.headers == old(res.headers)
    ensures ok ==> !res.sent && res.status == old(res.status) && res.body == old(res.body)
    ensures !ok ==> res.sent && res.status == CheckAuth(cfg, req.relayKey).code
    ensures !ok ==> res.body == Json(ErrorObject(CheckAuth(cfg, req.relayKey).message))
  {
    if cfg.relayKey == "" {
      res.Status(500);
      res.SendJson(ErrorObject("Missing RELAY_KEY (server config)"));
      return false;
    }
    if PresentedKey(req.relayKey) != cfg.relayKey {
      res.Status(401);
      res.SendJson(ErrorObject("Unauthorized"));
      return false;
    }
    if cfg.upstreamKey == "" {
      res.Status(500);
      res.SendJson(ErrorObject("Missing OPENAI_API_KEY"));
      return false;
    }
    return true;
  }
}
