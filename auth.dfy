/** Authentication on the server: the `Authorization: Bearer <token>` header,
    the claims taken from a verified token, the two middlewares that store
    them in the request context, and `GetCurrentUser`. Token verification is
    an input function: it gives the decoded token, or None when the token is
    invalid or expired. */
module Auth {
  import opened Base
  import opened JsValue
  import opened Records

  datatype UserClaims = UserClaims(uid: string, email: string, displayName: string, provider: string)

  /** A verified token: its subject, its claim set and the sign-in provider. */
  datatype Token = Token(uid: string, claims: map<string, Value>, signInProvider: string)

  const HeaderRequired := HttpError(StatusUnauthorized, "Authorization header required")
  const BadHeaderFormat := HttpError(StatusUnauthorized, "Invalid authorization header format")
  const BadToken := HttpError(StatusUnauthorized, "Invalid or expired token")

  /** The token of a `Bearer <token>` header: the header split on single
      spaces must give exactly two parts, the first of them `Bearer`. */
  function BearerToken(header: string): (r: Result<string, HttpError>)
    ensures header == "" ==> r == Err(HeaderRequired)
    ensures r.Ok? ==> ' ' !in r.value
  {
    if header == "" then Err(HeaderRequired)
    else
      var parts := Split(header, ' ');
      if |parts| != 2 || parts[0] != "Bearer" then Err(BadHeaderFormat)
      else
        SplitPartsAvoidSeparator(header, ' ');
        Ok(parts[1])
  }

  /** A header is accepted exactly when it is `Bearer`, one space, and a
      token without spaces; a double or trailing space is refused. */
  lemma {:induction false} BearerTokenExact(header: string, token: string)
    ensures BearerToken(header) == Ok(token) <==> header == "Bearer " + token && ' ' !in token
  {
    if header == "Bearer " + token && ' ' !in token {
      assert header == "Bearer" + [' '] + token;
      SplitAfterHead("Bearer", token, ' ');
      SplitWithoutSeparator(token, ' ');
    }
    if BearerToken(header) == Ok(token) {
      var parts := Split(header, ' ');
      SplitJoin(header, ' ');
      SplitPartsAvoidSeparator(header, ' ');
      assert parts == ["Bearer", token];
      assert Join(parts, ' ') == "Bearer" + [' '] + token;
    }
  }

  /** The claims built from a verified token: its uid and provider, and the
      `email` and `name` claims when present as strings, else empty. */
  function ClaimsOf(token: Token): (c: UserClaims)
    ensures c.uid == token.uid && c.provider == token.signInProvider
    ensures "email" in token.claims && token.claims["email"].Str? ==> c.email == token.claims["email"].s
    ensures !("email" in token.claims && token.claims["email"].Str?) ==> c.email == ""
    ensures "name" in token.claims && token.claims["name"].Str? ==> c.displayName == token.claims["name"].s
    ensures !("name" in token.claims && token.claims["name"].Str?) ==> c.displayName == ""
  {
    UserClaims(
      token.uid,
      if "email" in token.claims && token.claims["email"].Str? then token.claims["email"].s else "",
      if "name" in token.claims && token.claims["name"].Str? then token.claims["name"].s else "",
      token.signInProvider)
  }

  /** The checks of `AuthMiddleware`, in order: header present, header
      format, token verification. */
  function Authorize(header: string, verify: string -> Option<Token>): (r: Result<UserClaims, HttpError>)
    ensures header == "" ==> r == Err(HeaderRequired)
    ensures r.Ok? <==> BearerToken(header).Ok? && verify(BearerToken(header).value).Some?
    ensures r.Ok? ==> r.value == ClaimsOf(verify(BearerToken(header).value).value)
    ensures BearerToken(header).Ok? && verify(BearerToken(header).value).None? ==> r == Err(BadToken)
  {
    match BearerToken(header)
    case Err(e) => Err(e)
    case Ok(idToken) =>
      match verify(idToken)
      case None => Err(BadToken)
      case Some(token) => Ok(ClaimsOf(token))
  }

  /** What a request context can hold under a key. */
  datatype ContextValue = ClaimsValue(claims: UserClaims) | OtherValue(v: Value)

  /** How a middleware ends: an error reply, or the next handler is called. */
  datatype Next = Rejected(error: HttpError) | CalledNext

  /** The per-request key-value store of the web framework. */
  class RequestContext {
    var values: map<string, ContextValue>

    constructor ()
      ensures values == map[]
    {
      values := map[];
    }
  }

  /** `GetCurrentUser`: the claims stored under `user`; an error when nothing,
      or something that is not claims, is stored there. */
  function GetCurrentUser(ctx: RequestContext): (r: Result<UserClaims, string>)
    reads ctx
    ensures r.Ok? <==> "user" in ctx.values && ctx.values["user"].ClaimsValue?
    ensures r.Ok? ==> ctx.values["user"] == ClaimsValue(r.value)
  {
    if "user" in ctx.values && ctx.values["user"].ClaimsValue? then Ok(ctx.values["user"].claims)
    else Err("user not found in context")
  }

  /** `AuthMiddleware`: on any failure the error reply and no call to the
      next handler; on success the claims are stored and the next handler runs. */
  method AuthMiddleware(ctx: RequestContext, header: string, verify: string -> Option<Token>) returns (r: Next)
    modifies ctx
    ensures r == CalledNext <==> Authorize(header, verify).Ok?
    ensures r.Rejected? ==> r.error == Authorize(header, verify).error && ctx.values == old(ctx.values)
    ensures r == CalledNext ==> ctx.values == old(ctx.values)["user" := ClaimsValue(Authorize(header, verify).value)]
  {
    match Authorize(header, verify)
    case Err(e) =>
      r := Rejected(e);
    case Ok(claims) =>
      ctx.values := ctx.values["user" := ClaimsValue(claims)];
      r := CalledNext;
  }

  /** `OptionalAuthMiddleware`: never rejects; it stores claims only when the
      same checks as `AuthMiddleware` pass. */
  method OptionalAuthMiddleware(ctx: RequestContext, header: string, verify: string -> Option<Token>) returns (r: Next)
    modifies ctx
    ensures r == CalledNext
    ensures Authorize(header, verify).Err? ==> ctx.values == old(ctx.values)
    ensures Authorize(header, verify).Ok? ==> ctx.values == old(ctx.values)["user" := ClaimsValue(Authorize(header, verify).value)]
  {
    var auth := Authorize(header, verify);
    if auth.Ok? {
      ctx.values := ctx.values["user" := ClaimsValue(auth.value)];
    }
    r := CalledNext;
  }
}
