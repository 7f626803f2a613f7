/**
  The seller guard (server/middlewares/authSeller.js): where the token comes
  from, and the 401/403/pass decision on it. Token verification is a
  parameter: `verify(token)` is the decoded payload, or `None` when
  verification throws.
 */
module AuthSeller {
  import opened Js
  import opened Http

  /** The decoded payload as far as the guard reads it: its `email`, if any. */
  datatype Claims = Claims(email: Option<string>)

  /** The guard's outcome: pass the request on with the seller's claims, or answer. */
  datatype Decision = Pass(seller: Claims) | Deny(reply: Reply)

  /** The header scheme of section 2.1 of RFC 6750, matched literally and case-sensitively. */
  const BearerPrefix: string := "Bearer "

  const NoToken: Reply := Reply(401, "Unauthorized - No token found")
  const BadToken: Reply := Reply(401, "Invalid token")
  const Mismatch: Reply := Reply(403, "Forbidden - Email mismatch")

  /** The token the guard works with: the `sellerToken` cookie when it is
      non-empty, else the text after "Bearer " in the Authorization header;
      "" (or `None`) means no token. */
  function TokenOf(cookie: Option<string>, authorization: Option<string>): (token: string)
    ensures cookie.Some? && cookie.value != "" ==> token == cookie.value
    ensures !(cookie.Some? && cookie.value != "") ==>
              if authorization.Some? && StartsWith(authorization.value, BearerPrefix)
              then BearerPrefix + token == authorization.value
              else token == ""
  {
    if cookie.Some? && cookie.value != "" then cookie.value
    else if authorization.Some? && authorization.value != "" && StartsWith(authorization.value, BearerPrefix)
    then authorization.value[|BearerPrefix|..]
    else ""
  }

  /** The token as the middleware finds it, step by step: the cookie first,
      then the header when no cookie token was found. */
  method ReadToken(cookie: Option<string>, authorization: Option<string>) returns (token: string)
    ensures token == TokenOf(cookie, authorization)
  {
    token := if cookie.Some? then cookie.value else "";
    if token == "" && authorization.Some? && authorization.value != "" {
      var header := authorization.value;
      if StartsWith(header, BearerPrefix) {
        token := header[7..];
      }
    }
  }

  /** Putting a token in a Bearer header and reading it back gives the token. */
  lemma BearerRoundTrip(token: string)
    ensures TokenOf(None, Some(BearerPrefix + token)) == token
    ensures TokenOf(Some(""), Some(BearerPrefix + token)) == token
  {
    assert (BearerPrefix + token)[..|BearerPrefix|] == BearerPrefix;
  }

  /** The cookie wins over any header. */
  lemma CookieFirst(cookie: string, authorization: Option<string>)
    requires cookie != ""
    ensures TokenOf(Some(cookie), authorization) == cookie
  {
  }

  /** A header in any other scheme, including a lower-case "bearer ", yields no token. */
  lemma OtherSchemeNoToken(token: string)
    ensures TokenOf(None, Some("bearer " + token)) == ""
    ensures TokenOf(None, Some("Basic " + token)) == ""
  {
    assert ("bearer " + token)[0] == 'b';
    assert ("Basic " + token)[1] == 'a';
  }

  /** The guard as written: the decoded email must equal the configured
      `SELLER_EMAIL` exactly (both absent counts as equal). */
  function Authorize(token: string, verify: string -> Option<Claims>, sellerEmail: Option<string>): (d: Decision)
    ensures token == "" ==> d == Deny(NoToken)
    ensures token != "" && verify(token).None? ==> d == Deny(BadToken)
    ensures token != "" && verify(token).Some? && verify(token).value.email != sellerEmail ==> d == Deny(Mismatch)
    ensures d.Pass? <==> token != "" && verify(token).Some? && verify(token).value.email == sellerEmail
    ensures d.Pass? ==> d.seller == verify(token).value
  {
    if token == "" then Deny(NoToken)
    else match verify(token)
      case None => Deny(BadToken)
      case Some(c) => if c.email == sellerEmail then Pass(c) else Deny(Mismatch)
  }

  /** The guard with the comparison the login implies: the decoded email
      against the configured one trimmed and lower-cased. */
  function AuthorizeNormalised(token: string, verify: string -> Option<Claims>, sellerEmail: Option<string>): (d: Decision)
    ensures token == "" ==> d == Deny(NoToken)
    ensures token != "" && verify(token).None? ==> d == Deny(BadToken)
    ensures d.Pass? <==> && token != "" && verify(token).Some? && verify(token).value.email.Some?
                         && sellerEmail.Some? && verify(token).value.email.value == NormaliseEmail(sellerEmail.value)
    ensures d.Pass? ==> d.seller == verify(token).value
    ensures token != "" && verify(token).Some? && !d.Pass? ==> d == Deny(Mismatch)
  {
    if token == "" then Deny(NoToken)
    else match verify(token)
      case None => Deny(BadToken)
      case Some(c) =>
        if c.email.Some? && sellerEmail.Some? && c.email.value == NormaliseEmail(sellerEmail.value) then Pass(c)
        else Deny(Mismatch)
  }

  /** `s.trim().toLowerCase()` */
  function NormaliseEmail(s: string): string
  {
    ToLower(Trim(s))
  }

  /** When the configured email is already normalised, the two guards agree,
      except that the corrected one no longer passes a token without an email
      when no seller email is configured. */
  lemma GuardsAgreeOnNormalisedConfig(token: string, verify: string -> Option<Claims>, email: string)
    requires NormaliseEmail(email) == email
    ensures Authorize(token, verify, Some(email)) == AuthorizeNormalised(token, verify, Some(email))
  {
  }

  /** With no seller email configured, the guard as written passes any valid
      token that carries no email. */
  lemma UnconfiguredPassesEmailless(token: string, verify: string -> Option<Claims>)
    requires token != "" && verify(token) == Some(Claims(None))
    ensures Authorize(token, verify, None) == Pass(Claims(None))
    ensures AuthorizeNormalised(token, verify, None) == Deny(Mismatch)
  {
  }
}
