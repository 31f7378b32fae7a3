/**
 * The relay's configuration, read once from the environment at start-up and never
 * changed afterwards. The environment is a map from variable names to values.
 */
module Config {
  import opened Wrappers
  import Origins

  const BuiltInModel := "gpt-4o-mini"

  datatype RelayConfig = RelayConfig(
    upstreamKey: string,     // OPENAI_API_KEY, "" when unset
    relayKey: string,        // RELAY_KEY, "" when unset (every protected call then fails)
    defaultModel: string,    // MODEL_DEFAULT, or the built-in model
    origins: seq<string>)    // ALLOWED_ORIGINS, parsed

  /** `process.env[name]`. */
  function Lookup(env: map<string, string>, name: string): Option<string> {
    if name in env then Some(env[name]) else None
  }

  /** `process.env[name] || fallback`: an unset or empty variable gives the fallback. */
  function EnvOr(env: map<string, string>, name: string, fallback: string): string {
    if name in env && env[name] != "" then env[name] else fallback
  }

  function LoadConfig(env: map<string, string>): (cfg: RelayConfig)
    ensures cfg.upstreamKey == "" <==> "OPENAI_API_KEY" !in env || env["OPENAI_API_KEY"] == ""
    ensures cfg.upstreamKey != "" ==> cfg.upstreamKey == env["OPENAI_API_KEY"]
    ensures cfg.relayKey == "" <==> "RELAY_KEY" !in env || env["RELAY_KEY"] == ""
    ensures cfg.relayKey != "" ==> cfg.relayKey == env["RELAY_KEY"]
    ensures cfg.defaultModel != ""
    ensures "MODEL_DEFAULT" in env && env["MODEL_DEFAULT"] != "" ==> cfg.defaultModel == env["MODEL_DEFAULT"]
    ensures "MODEL_DEFAULT" !in env || env["MODEL_DEFAULT"] == "" ==> cfg.defaultModel == BuiltInModel
    ensures forall o | o in cfg.origins :: o != "" && Origins.IsTrimmed(o)
    ensures "ALLOWED_ORIGINS" !in env || env["ALLOWED_ORIGINS"] == "" ==> cfg.origins == ["*"]
    ensures forall o | o in cfg.origins ::
              exists p | p in Origins.Split(Origins.OriginSource(Lookup(env, "ALLOWED_ORIGINS"))) :: o == Origins.Trim(p)
    ensures "ALLOWED_ORIGINS" in env && env["ALLOWED_ORIGINS"] != "" ==>
              forall p | p in Origins.Split(env["ALLOWED_ORIGINS"]) && Origins.Trim(p) != "" :: Origins.Trim(p) in cfg.origins
  {
    var setting := Lookup(env, "ALLOWED_ORIGINS");
    assert setting.None? || setting.value == "" ==> Origins.ParseOrigins(setting) == ["*"] by {
      if setting.None? || setting.value == "" {
        Origins.UnsetMeansWildcard(setting);
      }
    }
    Origins.ParsedEntriesFromSetting(setting);
    RelayConfig(
      EnvOr(env, "OPENAI_API_KEY", ""),
      EnvOr(env, "RELAY_KEY", ""),
      EnvOr(env, "MODEL_DEFAULT", BuiltInModel),
      Origins.ParseOrigins(setting))
  }

  /** Without `ALLOWED_ORIGINS` every origin is admitted. */
  lemma NoOriginSettingAdmitsAll(env: map<string, string>, origin: string)
    requires "ALLOWED_ORIGINS" !in env
    ensures Origins.IsAllowedOrigin(LoadConfig(env).origins, origin)
  {
    Origins.UnsetMeansWildcard(Lookup(env, "ALLOWED_ORIGINS"));
  }
}
