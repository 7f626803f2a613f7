/**
  Seller login and the seller's "am I signed in" probe
  (server/controller/seller.controller.js). The configured credentials are
  the `SELLER_EMAIL` and `SELLER_PASSWORD` environment values (`None` when
  unset); signing and verifying tokens are left to parameters of the guard's
  module.
 */
module SellerController {
  import opened Js
  import opened Http
  import opened AuthSeller

  const LoginSuccess: Reply := Reply(200, "Login successful")
  const NotConfigured: Reply := Reply(500, "Seller credentials not configured")
  const InvalidCredentials: Reply := Reply(400, "Invalid credentials")
  const ServerError: Reply := Reply(500, "Internal server error")

  /** The lifetime of the `sellerToken` cookie: seven days in milliseconds. */
  const SessionMaxAge: int := 7 * 24 * 60 * 60 * 1000

  /** A login either issues a token for these claims (sent as the
      `sellerToken` cookie and in the body), or answers with an error. */
  datatype Login = Issued(claims: Claims) | Refused(reply: Reply)

  /** `process.env.X || ""` */
  function EnvText(v: Option<string>): string
  {
    if v.Some? then v.value else ""
  }

  /** POST /api/seller/login. A body email that is truthy but not a string
      makes `.trim()` throw, which the handler turns into a 500. */
  function SellerLogin(sellerEmail: Option<string>, sellerPassword: Option<string>, email: JsValue, password: JsValue): (r: Login)
    ensures r == Refused(NotConfigured) <==> NormaliseEmail(EnvText(sellerEmail)) == "" || EnvText(sellerPassword) == ""
    ensures r.Issued? <==> && NormaliseEmail(EnvText(sellerEmail)) != "" && EnvText(sellerPassword) != ""
                           && Or(email, Str("")).Str?
                           && NormaliseEmail(Or(email, Str("")).s) == NormaliseEmail(EnvText(sellerEmail))
                           && Or(password, Str("")) == Str(EnvText(sellerPassword))
    ensures r.Issued? ==> r.claims == Claims(Some(NormaliseEmail(EnvText(sellerEmail))))
    ensures r.Refused? ==> r.reply in {NotConfigured, InvalidCredentials, ServerError}
    ensures NormaliseEmail(EnvText(sellerEmail)) != "" && EnvText(sellerPassword) != "" ==>
              (Or(email, Str("")).Str? && !r.Issued? ==> r == Refused(InvalidCredentials))
    ensures NormaliseEmail(EnvText(sellerEmail)) != "" && EnvText(sellerPassword) != "" ==>
              (!Or(email, Str("")).Str? ==> r == Refused(ServerError))
  {
    var envEmail := NormaliseEmail(EnvText(sellerEmail));
    var envPassword := EnvText(sellerPassword);
    if envEmail == "" || envPassword == "" then Refused(NotConfigured)
    else match Or(email, Str(""))
      case Str(e) =>
        var inEmail := NormaliseEmail(e);
        if Or(password, Str("")) == Str(envPassword) && inEmail == envEmail then Issued(Claims(Some(inEmail)))
        else Refused(InvalidCredentials)
      case _ => Refused(ServerError)
  }

  /** The email is compared after trimming and lower-casing both sides; the
      password is compared exactly. */
  lemma LoginIgnoresCaseAndSpaces(sellerEmail: string, sellerPassword: string, typed: string, given: string)
    requires NormaliseEmail(sellerEmail) != "" && sellerPassword != ""
    requires NormaliseEmail(typed) == NormaliseEmail(sellerEmail)
    ensures SellerLogin(Some(sellerEmail), Some(sellerPassword), Str(typed), Str(given)).Issued? <==> given == sellerPassword
  {
    assert NormaliseEmail("") == "";
    LoginWithText(sellerEmail, sellerPassword, typed, given);
  }

  /** A login whose body email and password are strings, the email non-empty. */
  lemma LoginWithText(sellerEmail: string, sellerPassword: string, typed: string, given: string)
    requires NormaliseEmail(sellerEmail) != "" && sellerPassword != "" && typed != ""
    ensures SellerLogin(Some(sellerEmail), Some(sellerPassword), Str(typed), Str(given))
            == if given == sellerPassword && NormaliseEmail(typed) == NormaliseEmail(sellerEmail)
               then Issued(Claims(Some(NormaliseEmail(typed)))) else Refused(InvalidCredentials)
  {
    assert Or(Str(typed), Str("")) == Str(typed);
    assert Or(Str(given), Str("")) == Str(sellerPassword) <==> given == sellerPassword;
  }

  /** GET /api/seller/is-auth: the token found the guard's way, then the
      same decision as the guard, reported as `success` with status 200. */
  method CheckAuth(cookie: Option<string>, authorization: Option<string>, verify: string -> Option<Claims>,
                   sellerEmail: Option<string>) returns (success: bool)
    ensures success <==> Authorize(TokenOf(cookie, authorization), verify, sellerEmail).Pass?
    ensures success ==> TokenOf(cookie, authorization) != "" && verify(TokenOf(cookie, authorization)).Some?
  {
    var token := ReadToken(cookie, authorization);
    if token == "" {
      return false;
    }
    match verify(token)
    case None =>
      success := false;
    case Some(decoded) =>
      success := decoded.email == sellerEmail;
  }

  /** An email starting with a capital letter (say "Ab@x.co") is one that
      normalising changes. */
  lemma CapitalisedEmailChanges(e: string)
    requires e != [] && 'A' <= e[0] <= 'Z' && !IsSpace(e[|e| - 1])
    ensures NormaliseEmail(e) != "" && NormaliseEmail(e) != e
  {
    assert !IsSpace(e[0]);
    TrimUnpadded(e);
    assert NormaliseEmail(e)[0] == LowerChar(e[0]);
  }

  /** With a configured email that is not already trimmed and lower-case
      (say "Ab@x.co"), logging in with that very email succeeds, and the
      guard as written then answers 403 to the token the login issued. */
  lemma LoginThenForbidden(sellerEmail: string, sellerPassword: string, token: string, verify: string -> Option<Claims>)
    requires NormaliseEmail(sellerEmail) != "" && sellerPassword != "" && NormaliseEmail(sellerEmail) != sellerEmail
    requires token != "" && verify(token) == Some(Claims(Some(NormaliseEmail(sellerEmail))))
    ensures var login := SellerLogin(Some(sellerEmail), Some(sellerPassword), Str(sellerEmail), Str(sellerPassword));
            login.Issued? && verify(token) == Some(login.claims)
    ensures Authorize(token, verify, Some(sellerEmail)) == Deny(Mismatch)
  {
    LoginIgnoresCaseAndSpaces(sellerEmail, sellerPassword, sellerEmail, sellerPassword);
    var decoded := verify(token).value;
    assert decoded.email != Some(sellerEmail);
  }

  /** A token that the login issued is accepted by the corrected guard,
      whatever the case and spacing of the configured email. */
  lemma IssuedTokenAccepted(sellerEmail: Option<string>, sellerPassword: Option<string>, email: JsValue,
                            password: JsValue, token: string, verify: string -> Option<Claims>)
    requires SellerLogin(sellerEmail, sellerPassword, email, password).Issued?
    requires token != "" && verify(token) == Some(SellerLogin(sellerEmail, sellerPassword, email, password).claims)
    ensures AuthorizeNormalised(token, verify, sellerEmail).Pass?
  {
    assert sellerEmail.Some?;
  }
}
