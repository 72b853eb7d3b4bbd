/**
 * URL building of src/utils/apiConfig.ts: the configured base URLs with their
 * defaults, and the three builders that join a base and a path.
 */
module ApiConfig {
  import opened Wrappers
  import opened Text

  datatype Config = Config(backendUrl: string, frontendUrl: string, supabaseUrl: string, supabaseProjectId: string)

  /** `value || fallback` for an environment variable. */
  function EnvOr(value: Option<string>, fallback: string): (r: string)
    ensures value.Some? && value.value != "" ==> r == value.value
    ensures value.None? || value.value == "" ==> r == fallback
  {
    if value.Some? && value.value != "" then value.value else fallback
  }

  /** `API_CONFIG`, from the four build-time variables. */
  function ConfigFromEnv(backend: Option<string>, frontend: Option<string>, supabase: Option<string>, projectId: Option<string>): (r: Config)
    ensures backend.None? ==> r.backendUrl == "http://localhost:3001"
    ensures frontend.None? ==> r.frontendUrl == "http://localhost:5173"
    ensures projectId.None? ==> r.supabaseProjectId == "gpczchjipalfgkfqamcu"
  {
    Config(
      EnvOr(backend, "http://localhost:3001"),
      EnvOr(frontend, "http://localhost:5173"),
      EnvOr(supabase, "https://gpczchjipalfgkfqamcu.supabase.co"),
      EnvOr(projectId, "gpczchjipalfgkfqamcu"))
  }

  /** `s.replace(/\/$/, '')`: removes one trailing slash, if there is one. */
  function StripTrailingSlash(s: string): (r: string)
    ensures s == r || s == r + "/"
    ensures s != [] && s[|s| - 1] == '/' ==> s == r + "/"
    ensures (s == [] || s[|s| - 1] != '/') ==> r == s
  {
    if s != [] && s[|s| - 1] == '/' then s[..|s| - 1] else s
  }

  /** Only one slash is removed: a base ending in two keeps one. */
  lemma StripsAtMostOne(s: string)
    ensures StripTrailingSlash(s + "//") == s + "/"
  {
    assert (s + "//")[..|s + "//"| - 1] == s + "/";
  }

  /** The path with a leading slash added when it lacks one. */
  function CleanPath(path: string): (r: string)
    ensures StartsWith(r, "/")
    ensures StartsWith(path, "/") ==> r == path
    ensures !StartsWith(path, "/") ==> r == "/" + path
  {
    if StartsWith(path, "/") then path else "/" + path
  }

  lemma CleanPathIdempotent(path: string)
    ensures CleanPath(CleanPath(path)) == CleanPath(path)
  {
  }

  /** `getApiUrl`: the base without its trailing slash, then the path with its leading slash. */
  function GetApiUrl(cfg: Config, path: string): (r: string)
    ensures var base := StripTrailingSlash(cfg.backendUrl);
      |r| > |base| && r[..|base|] == base && r[|base|] == '/' && r[|base|..] == CleanPath(path)
  {
    assert CleanPath(path)[..1] == "/";
    StripTrailingSlash(cfg.backendUrl) + CleanPath(path)
  }

  /** A path without its leading slash names the same endpoint as the path with it. */
  lemma LeadingSlashOptional(cfg: Config, path: string)
    requires !StartsWith(path, "/")
    ensures GetApiUrl(cfg, path) == GetApiUrl(cfg, "/" + path)
  {
    assert StartsWith("/" + path, "/");
  }

  /** A base with or without one trailing slash gives the same URLs: there is exactly one slash at the join. */
  lemma TrailingSlashOptional(cfg: Config, path: string)
    requires cfg.backendUrl == [] || cfg.backendUrl[|cfg.backendUrl| - 1] != '/'
    ensures GetApiUrl(cfg.(backendUrl := cfg.backendUrl + "/"), path) == GetApiUrl(cfg, path)
    ensures GetApiUrl(cfg, path) == cfg.backendUrl + CleanPath(path)
  {
    var b := cfg.backendUrl + "/";
    assert b[..|b| - 1] == cfg.backendUrl;
  }

  /** The functions endpoint of a Supabase project. */
  function FunctionsBase(projectId: string): string {
    "https://" + projectId + ".supabase.co/functions/v1"
  }

  /** `getSupabaseUrl`: the project's functions endpoint, then the path with its leading slash; `supabaseUrl` is not consulted. */
  function GetSupabaseUrl(cfg: Config, functionPath: string): (r: string)
    ensures var base := FunctionsBase(cfg.supabaseProjectId);
      |r| > |base| && r[..|base|] == base && r[|base|..] == CleanPath(functionPath)
    ensures StartsWith(r, "https://")
  {
    var base := FunctionsBase(cfg.supabaseProjectId);
    var r := base + CleanPath(functionPath);
    assert r[..|base|] == base && r[|base|..] == CleanPath(functionPath);
    assert r[..8] == base[..8] == "https://";
    r
  }

  /**
   * The function URL depends only on the project id and the path: the
   * configured Supabase URL and the other fields play no part, and a path
   * with or without its leading slash names the same function.
   */
  lemma SupabaseUrlShape(cfg: Config, cfg': Config, functionPath: string)
    requires cfg.supabaseProjectId == cfg'.supabaseProjectId
    ensures GetSupabaseUrl(cfg, functionPath) == GetSupabaseUrl(cfg', functionPath)
    ensures GetSupabaseUrl(cfg, functionPath) == FunctionsBase(cfg.supabaseProjectId) + CleanPath(functionPath)
    ensures !StartsWith(functionPath, "/") ==> GetSupabaseUrl(cfg, functionPath) == GetSupabaseUrl(cfg, "/" + functionPath)
  {
    var r := GetSupabaseUrl(cfg, functionPath);
    var base := FunctionsBase(cfg.supabaseProjectId);
    assert r == r[..|base|] + r[|base|..];
    assert StartsWith("/" + functionPath, "/");
  }

  /** `getOAuthRedirectUrl` */
  function GetOAuthRedirectUrl(cfg: Config): (r: string)
    ensures |r| == |cfg.frontendUrl| + 14
    ensures r[..|cfg.frontendUrl|] == cfg.frontendUrl && r[|cfg.frontendUrl|..] == "/auth/callback"
  {
    cfg.frontendUrl + "/auth/callback"
  }

  /** Unlike the API base, the frontend URL is used as configured: a trailing slash gives a double slash. */
  lemma OAuthRedirectKeepsTrailingSlash(cfg: Config)
    requires cfg.frontendUrl != [] && cfg.frontendUrl[|cfg.frontendUrl| - 1] == '/'
    ensures var r := GetOAuthRedirectUrl(cfg); var n := |cfg.frontendUrl|;
      r[n - 1..n + 1] == "//"
  {
    var r := GetOAuthRedirectUrl(cfg);
    var n := |cfg.frontendUrl|;
    assert r[n - 1] == cfg.frontendUrl[n - 1] && r[n] == '/';
  }

  lemma DefaultOAuthRedirect()
    ensures GetOAuthRedirectUrl(ConfigFromEnv(None, None, None, None)) == "http://localhost:5173/auth/callback"
  {
  }
}
