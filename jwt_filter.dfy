/**
 * The request filter that authenticates calls carrying a bearer token
 * (config/jwt/JwtFilter.java).  The token check and the authentication it yields belong to the
 * token provider, which this model takes as parameters.
 */
module BearerFilter {
  import opened Wrappers

  const BearerPrefix: string := "Bearer "

  /** `getAccessToken`: the text after "Bearer " in the Authorization header, else null. */
  function AccessToken(authorizationHeader: Option<string>): (r: Option<string>)
    ensures r.Some? <==> authorizationHeader.Some? && BearerPrefix <= authorizationHeader.value
    ensures r.Some? ==> authorizationHeader.value == BearerPrefix + r.value
  {
    if authorizationHeader.Some? && BearerPrefix <= authorizationHeader.value then
      Some(authorizationHeader.value[|BearerPrefix|..])
    else None
  }

  /** The part of the security context the filter writes. */
  class SecurityContext<A> {
    var authentication: Option<A>

    constructor ()
      ensures authentication.None?
    {
      authentication := None;
    }

    /**
     * `doFilterInternal`: a present and valid token sets the authentication; otherwise the
     * context is left as it was.  The chain proceeds either way.
     */
    method Filter(authorizationHeader: Option<string>, validateToken: string -> bool, getAuthentication: string -> A)
      returns (proceeds: bool)
      modifies this
      ensures proceeds
      ensures var token := AccessToken(authorizationHeader);
              if token.Some? && validateToken(token.value) then authentication == Some(getAuthentication(token.value))
              else authentication == old(authentication)
    {
      var accessToken := AccessToken(authorizationHeader);
      if accessToken.Some? && validateToken(accessToken.value) {
        authentication := Some(getAuthentication(accessToken.value));
      }
      proceeds := true;
    }
  }

  // ---------------------------------------------------------------------------------------------
  // Properties

  /** Prefixing a token with "Bearer " and reading it back gives the token. */
  lemma TokenRoundTrip(token: string)
    ensures AccessToken(Some(BearerPrefix + token)) == Some(token)
  {
    assert BearerPrefix <= BearerPrefix + token;
    assert (BearerPrefix + token)[|BearerPrefix|..] == token;
  }

  /** No header, a lower-case scheme, or a scheme without its space gives no token. */
  lemma NoToken(token: string)
    ensures AccessToken(None).None?
    ensures AccessToken(Some("bearer " + token)).None?
    ensures AccessToken(Some("Bearer")).None?
  {
    assert ("bearer " + token)[0] == 'b';
  }
}
