/**
 * The catalog service's `verify` middleware: picks a bearer token from the
 * request, asks the JWT library to verify it, and admits only sellers.
 * Verification itself (signature, `exp`) is an oracle passed in as a function.
 */
module AccessGate {
  import opened Wrappers
  import Text

  /** What `jwt.verify` may hand back: a claims object, a string payload, or nothing. */
  datatype Payload =
    | ClaimsObject(id: Option<string>, role: Option<string>)
    | TextPayload(text: string)
    | NoPayload

  /** `jwt.verify` either returns a payload or throws. */
  datatype Verification = Returned(payload: Payload) | Threw

  /** The parts of the request the gate reads: `req.cookies.token` and `req.headers.authorization`. */
  datatype Request = Request(cookieToken: Option<string>, authorization: Option<string>)

  /** A rejection with its status and message, or `next()` with `req.sellerId` set. */
  datatype Outcome = Reject(status: int, message: string) | Proceed(sellerId: Option<string>)

  /** JavaScript truthiness of a possibly-undefined string. */
  predicate Truthy(s: Option<string>) {
    s.Some? && s.value != ""
  }

  /** JavaScript truthiness of a verified payload: objects are truthy, strings when non-empty. */
  predicate TruthyPayload(p: Payload) {
    match p
    case ClaimsObject(_, _) => true
    case TextPayload(t) => t != ""
    case NoPayload => false
  }

  /** `decoded.role === "seller"`; a string payload has no `role`. */
  predicate SellerRole(p: Payload) {
    p.ClaimsObject? && p.role == Some("seller")
  }

  /** `req.headers.authorization?.split(" ")[1]`: the second word, whatever the first one says. */
  function HeaderToken(authorization: Option<string>): (t: Option<string>)
    ensures authorization.None? ==> t.None?
    ensures t.Some? ==> ' ' !in t.value
  {
    match authorization
    case None => None
    case Some(h) => Text.Field(h, ' ', 1)
  }

  /** `req.cookies.token || <header token>`: the cookie wins unless it is missing or empty. */
  function ExtractToken(req: Request): (t: Option<string>)
    ensures Truthy(req.cookieToken) ==> t == req.cookieToken
    ensures !Truthy(req.cookieToken) ==> t == HeaderToken(req.authorization)
  {
    if Truthy(req.cookieToken) then req.cookieToken else HeaderToken(req.authorization)
  }

  /** The middleware, outcome by outcome. */
  function Verify(req: Request, jwtVerify: string -> Verification): (o: Outcome)
    ensures o.Reject? ==> o.status == 401 || o.status == 403
    ensures o == Reject(401, "Unauthorised") <==> !Truthy(ExtractToken(req))
    ensures o == Reject(403, "Invalid token") <==>
      Truthy(ExtractToken(req)) &&
      (jwtVerify(ExtractToken(req).value).Threw? || !TruthyPayload(jwtVerify(ExtractToken(req).value).payload))
    ensures o == Reject(403, "Unauthorised") <==>
      Truthy(ExtractToken(req)) &&
      jwtVerify(ExtractToken(req).value).Returned? &&
      TruthyPayload(jwtVerify(ExtractToken(req).value).payload) &&
      !SellerRole(jwtVerify(ExtractToken(req).value).payload)
    ensures o.Proceed? <==>
      Truthy(ExtractToken(req)) &&
      jwtVerify(ExtractToken(req).value).Returned? &&
      SellerRole(jwtVerify(ExtractToken(req).value).payload)
    ensures o.Proceed? ==> o.sellerId == jwtVerify(ExtractToken(req).value).payload.id
  {
    var token := ExtractToken(req);
    if !Truthy(token) then Reject(401, "Unauthorised")
    else
      match jwtVerify(token.value)
      case Threw => Reject(403, "Invalid token")
      case Returned(decoded) =>
        if !TruthyPayload(decoded) then Reject(403, "Invalid token")
        else if !SellerRole(decoded) then Reject(403, "Unauthorised")
        else Proceed(decoded.id)
  }

  /** A standard `Authorization: <scheme> <token>` header yields the token; the scheme word is never looked at. */
  lemma HeaderTokenOfSchemeAndToken(scheme: string, token: string)
    requires ' ' !in scheme && ' ' !in token
    ensures HeaderToken(Some(scheme + " " + token)) == Some(token)
  {
    Text.SplitAfterPrefix(scheme, ' ', token);
    Text.SplitWithoutSeparator(token, ' ');
  }

  /** Whatever follows the second word is ignored too: the token is always the second space-separated word. */
  lemma HeaderTokenIsSecondWord(scheme: string, token: string, rest: string)
    requires ' ' !in scheme && ' ' !in token
    ensures HeaderToken(Some(scheme + " " + token + " " + rest)) == Some(token)
  {
    assert scheme + " " + token + " " + rest == scheme + [' '] + (token + [' '] + rest);
    Text.SplitAfterPrefix(scheme, ' ', token + [' '] + rest);
    Text.SplitAfterPrefix(token, ' ', rest);
  }

  /** The header's token is never consulted while the cookie carries one, even if both are present. */
  lemma CookieTakesPrecedence(cookie: string, authorization: Option<string>, jwtVerify: string -> Verification)
    requires cookie != ""
    ensures Verify(Request(Some(cookie), authorization), jwtVerify) == Verify(Request(Some(cookie), None), jwtVerify)
  {
  }

  /** Only a verified seller token is admitted; the seller id is the token's `id` claim. */
  lemma AdmittedOnlyWithSellerClaims(req: Request, jwtVerify: string -> Verification)
    requires Verify(req, jwtVerify).Proceed?
    ensures Truthy(ExtractToken(req))
    ensures jwtVerify(ExtractToken(req).value) == Returned(ClaimsObject(Verify(req, jwtVerify).sellerId, Some("seller")))
  {
  }
}
