/** `CookieExtractor`: reads a token out of a request's cookies for the
    passport strategies. */
module CookieExtractor {
  import opened Common

  /** A parsed cookie value; cookie parsers can also produce non-strings
      (JSON cookies). */
  datatype CookieValue = Text(s: string) | NonString

  /** `req.cookies` is absent when no cookie parser ran. */
  datatype Request = Request(cookies: Option<map<string, CookieValue>>)

  /** `CookieName`: the only two cookies the extractor reads. */
  datatype CookieName = AccessToken | RefreshToken

  function CookieKey(name: CookieName): (k: string)
    ensures k == "accessToken" || k == "refreshToken"
    ensures name == AccessToken <==> k == "accessToken"
  {
    match name
    case AccessToken => "accessToken"
    case RefreshToken => "refreshToken"
  }

  /** `fromCookie(cookieName)(req)`: the named cookie's value when it is a
      non-empty string; `None` (the source's `null`) otherwise. */
  function FromCookie(cookieName: CookieName, req: Option<Request>): (r: Option<string>)
    ensures req.None? || req.value.cookies.None? ==> r.None?
    ensures r.Some? <==>
      && req.Some? && req.value.cookies.Some?
      && CookieKey(cookieName) in req.value.cookies.value
      && req.value.cookies.value[CookieKey(cookieName)].Text?
      && req.value.cookies.value[CookieKey(cookieName)].s != ""
    ensures r.Some? ==> Text(r.value) == req.value.cookies.value[CookieKey(cookieName)]
  {
    match req
    case None => None
    case Some(request) =>
      match request.cookies
      case None => None
      case Some(cookies) =>
        if CookieKey(cookieName) !in cookies then None
        else
          match cookies[CookieKey(cookieName)]
          case NonString => None
          case Text(token) => if token == "" then None else Some(token)
  }

  /** `extractRefreshToken`. */
  function ExtractRefreshToken(req: Option<Request>): (r: Option<string>)
    ensures r.Some? <==>
      && req.Some? && req.value.cookies.Some? && "refreshToken" in req.value.cookies.value
      && req.value.cookies.value["refreshToken"] != Text("") && req.value.cookies.value["refreshToken"].Text?
    ensures r.Some? ==> req.value.cookies.value["refreshToken"] == Text(r.value)
  {
    FromCookie(RefreshToken, req)
  }

  /** `extractAccessToken`. */
  function ExtractAccessToken(req: Option<Request>): (r: Option<string>)
    ensures r.Some? <==>
      && req.Some? && req.value.cookies.Some? && "accessToken" in req.value.cookies.value
      && req.value.cookies.value["accessToken"] != Text("") && req.value.cookies.value["accessToken"].Text?
    ensures r.Some? ==> req.value.cookies.value["accessToken"] == Text(r.value)
  {
    FromCookie(AccessToken, req)
  }

  /** Each extractor reads its own cookie only: whatever the request holds
      under any other name does not change its answer. */
  lemma ExtractorsReadOneKey(cookies: map<string, CookieValue>, other: string, v: CookieValue)
    ensures other != "refreshToken" ==>
      ExtractRefreshToken(Some(Request(Some(cookies[other := v])))) == ExtractRefreshToken(Some(Request(Some(cookies))))
    ensures other != "accessToken" ==>
      ExtractAccessToken(Some(Request(Some(cookies[other := v])))) == ExtractAccessToken(Some(Request(Some(cookies))))
  {
  }
}
