/**
 * The response to a request the security layer rejects (config/jwt/JwtAccessDeniedHandler.java):
 * 401 when the browser still holds a refresh token, so the client can renew its access token,
 * and 403 otherwise.
 */
module AccessDenied {
  import opened Wrappers

  /** A request cookie; its name and value may be null. */
  datatype Cookie = Cookie(name: Option<string>, value: Option<string>)

  const RefreshTokenName: string := "refreshToken"

  /** The value of the first cookie with the given name, or null when none has it. */
  function FindCookie(cookies: seq<Cookie>, name: string): (r: Option<string>)
    decreases |cookies|
  {
    if |cookies| == 0 then None
    else if cookies[0].name == Some(name) then cookies[0].value
    else FindCookie(cookies[1..], name)
  }

  /** `getRefreshTokenFromCookies`: a loop that returns on the first cookie named "refreshToken". */
  method RefreshTokenFromCookies(cookies: Option<seq<Cookie>>) returns (token: Option<string>)
    ensures cookies.None? ==> token.None?
    ensures cookies.Some? ==> token == FindCookie(cookies.value, RefreshTokenName)
  {
    if cookies.None? {
      return None;
    }
    var all := cookies.value;
    for i := 0 to |all|
      invariant FindCookie(all, RefreshTokenName) == FindCookie(all[i..], RefreshTokenName)
    {
      if all[i].name == Some(RefreshTokenName) {
        return all[i].value;
      }
      assert all[i..][1..] == all[i + 1..];
    }
    return None;
  }

  datatype Response = Response(status: int, message: string)

  const Forbidden: int := 403
  const Unauthorized: int := 401

  /** `handle`: 403 "Refresh token is missing" without a refresh token, 401 "Unauthorized" with one. */
  method Handle(cookies: Option<seq<Cookie>>) returns (response: Response)
    ensures cookies.None? ==> response == Response(Forbidden, "Refresh token is missing")
    ensures cookies.Some? && FindCookie(cookies.value, RefreshTokenName).None? ==>
              response == Response(Forbidden, "Refresh token is missing")
    ensures cookies.Some? && FindCookie(cookies.value, RefreshTokenName).Some? ==>
              response == Response(Unauthorized, "Unauthorized")
  {
    var refreshToken := RefreshTokenFromCookies(cookies);
    if refreshToken.None? {
      response := Response(Forbidden, "Refresh token is missing");
    } else {
      response := Response(Unauthorized, "Unauthorized");
    }
  }

  // ---------------------------------------------------------------------------------------------
  // Properties

  /** The lookup answers with the first cookie of that name; later ones are never read. */
  lemma {:induction false} FirstCookieWins(cookies: seq<Cookie>, name: string, i: nat)
    requires i < |cookies| && cookies[i].name == Some(name)
    requires forall j :: 0 <= j < i ==> cookies[j].name != Some(name)
    ensures FindCookie(cookies, name) == cookies[i].value
    decreases i
  {
    if i > 0 {
      assert cookies[1..][i - 1] == cookies[i];
      FirstCookieWins(cookies[1..], name, i - 1);
    }
  }

  /** Without a cookie of that name the lookup gives null. */
  lemma {:induction false} NoCookie(cookies: seq<Cookie>, name: string)
    requires forall j :: 0 <= j < |cookies| ==> cookies[j].name != Some(name)
    ensures FindCookie(cookies, name).None?
    decreases |cookies|
  {
    if |cookies| > 0 {
      NoCookie(cookies[1..], name);
    }
  }

  /** A refresh-token cookie with a null value counts as missing, even if a later one has a value. */
  lemma NullFirstValueIsMissing(later: string)
    ensures FindCookie([Cookie(Some(RefreshTokenName), None), Cookie(Some(RefreshTokenName), Some(later))], RefreshTokenName).None?
  {
  }
}
