/** The `sharp.auth.*` configuration keys read by the login flow, with the
    defaults the login request passes to `config(...)`. */
module Config {
  import opened Wrappers

  /** A configuration entry as PHP sees it: missing, a real boolean, or any
      other value (null, 0, "false", ...) of which only its truthiness matters. */
  datatype ConfigValue = Absent | Bool(b: bool) | Other(truthy: bool)

  datatype Config = Config(
    twoFactorEnabled: ConfigValue,     // sharp.auth.2fa.enabled (no default: null)
    rateLimitingEnabled: ConfigValue,  // sharp.auth.rate_limiting.enabled (default true)
    maxAttempts: Option<int>,          // sharp.auth.rate_limiting.max_attempts (default 5)
    suggestRememberMe: ConfigValue,    // sharp.auth.suggest_remember_me (default false)
    loginAttribute: Option<string>,    // sharp.auth.login_attribute (default "email")
    passwordAttribute: Option<string>  // sharp.auth.password_attribute (default "password")
  )

  const DefaultMaxAttempts: int := 5
  const DefaultLoginAttribute: string := "email"
  const DefaultPasswordAttribute: string := "password"

  /** PHP truthiness of `config(key, default)`. */
  function Truthy(v: ConfigValue, default: bool): (r: bool)
    ensures v == Absent ==> r == default
    ensures v == Bool(true) ==> r
    ensures v == Bool(false) ==> !r
  {
    match v
    case Absent => default
    case Bool(b) => b
    case Other(t) => t
  }

  /** `config('sharp.auth.2fa.enabled')` used as a condition: absent means null, which is falsy. */
  predicate TwoFactorEnabled(cfg: Config) {
    Truthy(cfg.twoFactorEnabled, false)
  }

  /** `config('sharp.auth.rate_limiting.enabled', true) === false`: only a real boolean
      `false` switches the gate off; a falsy non-boolean such as 0 or "" does not. */
  predicate RateLimitingDisabled(cfg: Config) {
    cfg.rateLimitingEnabled == Bool(false)
  }

  function MaxAttempts(cfg: Config): (max: int) {
    cfg.maxAttempts.GetOr(DefaultMaxAttempts)
  }

  predicate SuggestRememberMe(cfg: Config) {
    Truthy(cfg.suggestRememberMe, false)
  }

  function LoginAttribute(cfg: Config): (name: string) {
    cfg.loginAttribute.GetOr(DefaultLoginAttribute)
  }

  function PasswordAttribute(cfg: Config): (name: string) {
    cfg.passwordAttribute.GetOr(DefaultPasswordAttribute)
  }

  /** A configuration with every key left unset. */
  const Defaults: Config := Config(Absent, Absent, None, Absent, None, None)

  /** With nothing configured the flow is rate limited at five attempts, has no
      second factor, never remembers and logs in by email/password. */
  lemma DefaultsBehaviour()
    ensures !RateLimitingDisabled(Defaults) && MaxAttempts(Defaults) == 5
    ensures !TwoFactorEnabled(Defaults) && !SuggestRememberMe(Defaults)
    ensures LoginAttribute(Defaults) == "email" && PasswordAttribute(Defaults) == "password"
  {
  }

  /** Strict comparison: a falsy value that is not the boolean `false` keeps the gate on. */
  lemma FalsyNonBooleanKeepsRateLimiting(cfg: Config)
    requires cfg.rateLimitingEnabled == Other(false)
    ensures !RateLimitingDisabled(cfg)
  {
  }
}
