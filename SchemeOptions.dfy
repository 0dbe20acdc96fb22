/**
 * The stored configuration record and the OpenID Connect handler options the
 * controller builds from it before registering the scheme.
 *
 * Only the fields the controller sets are modelled. Every options value built
 * here follows one fixed policy: PKCE on (RFC 7636), `response_type=code`
 * (section 3.1 of OpenID Connect Core 1.0), `response_mode=form_post`
 * (OAuth 2.0 Form Post Response Mode), tokens saved, HTTPS not required for
 * the metadata fetch, and SameSite left unspecified on the nonce and
 * correlation cookies.
 */
module SchemeOptions {
  import opened SchemeKeys

  /** A row of the OpenIdConnectSchemes table. */
  datatype SchemeRecord = SchemeRecord(id: int32, authority: string, clientId: string, clientSecret: string)

  /** ASP.NET Core's SameSiteMode. */
  datatype SameSiteMode = Unspecified | None | Lax | Strict

  /** The protocol value of OpenIdConnectResponseType.Code. */
  const ResponseTypeCode: string := "code"
  /** The protocol value of OpenIdConnectResponseMode.FormPost. */
  const ResponseModeFormPost: string := "form_post"

  datatype OidcOptions = OidcOptions(
    callbackPath: string,
    authority: string,
    clientId: string,
    clientSecret: string,
    usePkce: bool,
    requireHttpsMetadata: bool,
    saveTokens: bool,
    responseType: string,
    responseMode: string,
    nonceCookieSameSite: SameSiteMode,
    correlationCookieSameSite: SameSiteMode)

  /** The settings every dynamically registered scheme shares. */
  predicate FixedPolicy(o: OidcOptions)
  {
    && o.usePkce
    && !o.requireHttpsMetadata
    && o.saveTokens
    && o.responseType == ResponseTypeCode
    && o.responseMode == ResponseModeFormPost
    && o.nonceCookieSameSite == Unspecified
    && o.correlationCookieSameSite == Unspecified
  }

  /** The options LoadScheme builds for `rec`, before post-configuration. */
  function BuildOptions(rec: SchemeRecord): (o: OidcOptions)
    ensures o.callbackPath == CallbackPath(SchemeKey(rec.id))
    ensures o.authority == rec.authority && o.clientId == rec.clientId && o.clientSecret == rec.clientSecret
    ensures FixedPolicy(o)
  {
    OidcOptions(
      callbackPath := CallbackPath(SchemeKey(rec.id)),
      authority := rec.authority,
      clientId := rec.clientId,
      clientSecret := rec.clientSecret,
      usePkce := true,
      requireHttpsMetadata := false,
      saveTokens := true,
      responseType := ResponseTypeCode,
      responseMode := ResponseModeFormPost,
      nonceCookieSameSite := Unspecified,
      correlationCookieSameSite := Unspecified)
  }

  /**
   * Two records' options differ only in the fields taken from the record:
   * the callback path, the authority and the client credentials.
   */
  lemma BuildOptionsUniform(a: SchemeRecord, b: SchemeRecord)
    ensures BuildOptions(a).(callbackPath := "", authority := "", clientId := "", clientSecret := "")
         == BuildOptions(b).(callbackPath := "", authority := "", clientId := "", clientSecret := "")
  {
  }

  /** The options determine the record they were built from: nothing of the record is lost. */
  lemma BuildOptionsInjective(a: SchemeRecord, b: SchemeRecord)
    ensures BuildOptions(a) == BuildOptions(b) <==> a == b
  {
    if BuildOptions(a) == BuildOptions(b) {
      CallbackPathInjective(a.id, b.id);
    }
  }
}
