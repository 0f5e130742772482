/** `AuthCookieConfig`: the options of the two token cookies. */
module CookieConfig {
  import opened Common

  const ACCESS_TOKEN_MAX_AGE_MS: nat := 15 * 60 * 1000
  const REFRESH_TOKEN_MAX_AGE_MS: nat := 30 * 24 * 60 * 60 * 1000

  /** The express `CookieOptions` the config sets. */
  datatype CookieOptions = CookieOptions(httpOnly: bool, secure: bool, sameSite: string, maxAge: nat, path: string)
  datatype TokenCookieConfig = TokenCookieConfig(name: string, options: CookieOptions)

  datatype AuthCookieConfig = AuthCookieConfig(isProduction: bool)

  /** `new AuthCookieConfig(nodeEnv)`: production only for exactly
      "production"; an unset environment is not production. */
  function NewAuthCookieConfig(nodeEnv: Option<string>): (c: AuthCookieConfig)
    ensures c.isProduction <==> nodeEnv == Some("production")
  {
    AuthCookieConfig(nodeEnv == Some("production"))
  }

  function TokenCookie(config: AuthCookieConfig, name: string, maxAge: nat): TokenCookieConfig
  {
    TokenCookieConfig(name, CookieOptions(true, config.isProduction, "strict", maxAge, "/"))
  }

  /** `getAccessTokenConfig`: lives fifteen minutes. */
  function GetAccessTokenConfig(config: AuthCookieConfig): (c: TokenCookieConfig)
    ensures c.name == "accessToken"
    ensures c.options.maxAge == 900000 && c.options.maxAge / 1000 / 60 == 15
  {
    TokenCookie(config, "accessToken", ACCESS_TOKEN_MAX_AGE_MS)
  }

  /** `getRefreshTokenConfig`: lives thirty days. */
  function GetRefreshTokenConfig(config: AuthCookieConfig): (c: TokenCookieConfig)
    ensures c.name == "refreshToken"
    ensures c.options.maxAge == 2592000000 && c.options.maxAge / 1000 / 60 / 60 / 24 == 30
  {
    TokenCookie(config, "refreshToken", REFRESH_TOKEN_MAX_AGE_MS)
  }

  /** Both cookies are hidden from scripts, same-site only, site-wide, and
      sent over TLS only exactly when running in production; the refresh
      cookie outlives the access cookie. */
  lemma CookiePolicy(nodeEnv: Option<string>)
    ensures var config := NewAuthCookieConfig(nodeEnv);
            forall c :: c in {GetAccessTokenConfig(config), GetRefreshTokenConfig(config)} ==>
              && c.options.httpOnly
              && c.options.sameSite == "strict"
              && c.options.path == "/"
              && (c.options.secure <==> nodeEnv == Some("production"))
    ensures var config := NewAuthCookieConfig(nodeEnv);
            GetRefreshTokenConfig(config).options.maxAge > GetAccessTokenConfig(config).options.maxAge
  {
  }
}
