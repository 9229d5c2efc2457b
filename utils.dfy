/** backend/utils.js: the base URL choice, the token payload, bearer-token
    authentication and the three role gates.  Signing and checking a JSON
    Web Token belong to a library: verification is a parameter, a partial
    function from token text to the decoded payload. */
module Utils {
  import opened Common

  /** `process.env.BASE_URL ? … : NODE_ENV !== 'production' ? … : …`. */
  function BaseUrl(baseUrlVar: Option<string>, nodeEnv: Option<string>): (r: string)
    ensures Truthy(baseUrlVar) ==> r == baseUrlVar.value
    ensures !Truthy(baseUrlVar) && nodeEnv != Some("production") ==> r == "http://localhost:3000"
    ensures !Truthy(baseUrlVar) && nodeEnv == Some("production") ==> r == "http://cbc.com"
    ensures r != ""
  {
    if Truthy(baseUrlVar) then baseUrlVar.value
    else if nodeEnv != Some("production") then "http://localhost:3000"
    else "http://cbc.com"
  }

  datatype User = User(
    id: Id, name: string, email: string, password: string,
    isAdmin: bool, isSupplier: bool, isInspector: bool)

  /** What a token carries. */
  datatype TokenPayload = TokenPayload(
    id: Id, name: string, email: string,
    isAdmin: bool, isSupplier: bool, isInspector: bool)

  /** A signed token's claims: the payload, issue time and expiry, both in
      seconds. */
  datatype Token = Token(payload: TokenPayload, iat: int, exp: int)

  /** `expiresIn: '30d'`, in seconds. */
  const ThirtyDays: int := 30 * 24 * 60 * 60

  /** `generateToken(user)` at time `now` (seconds): the six listed fields of
      the user, and nothing else (the password is not copied). */
  function GenerateToken(u: User, now: int): (t: Token)
    ensures t.payload.id == u.id && t.payload.name == u.name && t.payload.email == u.email
    ensures t.payload.isAdmin == u.isAdmin && t.payload.isSupplier == u.isSupplier
    ensures t.payload.isInspector == u.isInspector
    ensures t.iat == now && t.exp - t.iat == 2592000
  {
    Token(TokenPayload(u.id, u.name, u.email, u.isAdmin, u.isSupplier, u.isInspector), now, now + ThirtyDays)
  }

  /** `authorization.slice(7, authorization.length)`: the first seven
      characters are dropped whatever they are. */
  function TokenOf(header: string): (t: string)
    ensures |header| <= 7 ==> t == ""
    ensures |header| > 7 ==> |t| == |header| - 7 && header == header[..7] + t
  {
    if |header| <= 7 then "" else header[7..]
  }

  /** The usual `Bearer <token>` header gives back the token, and so does
      any other seven-character prefix. */
  lemma TokenAfterAnyPrefix(prefix: string, token: string)
    requires |prefix| == 7
    ensures TokenOf(prefix + token) == token
    ensures TokenOf("Bearer " + token) == token
  {
    assert (prefix + token)[7..] == token;
    assert ("Bearer " + token)[7..] == token;
  }

  /** How a middleware ends: it calls `next` (with `req.user` set, for
      `isAuth`), or it answers and `next` is never called. */
  datatype Outcome = Next(user: TokenPayload) | Reply(res: Response)

  const NoToken: Response := Response(401, "No Token")
  const InvalidToken: Response := Response(401, "Invalid Token")

  /** `isAuth`: a missing or empty header answers 'No Token'; a token that
      does not verify answers 'Invalid Token'; otherwise `next` runs once
      with the decoded payload. */
  function IsAuth(authorization: Option<string>, verify: string -> Option<TokenPayload>): (r: Outcome)
    ensures !Truthy(authorization) ==> r == Reply(NoToken)
    ensures Truthy(authorization) ==>
      match verify(TokenOf(authorization.value))
      case None => r == Reply(InvalidToken)
      case Some(p) => r == Next(p)
  {
    if !Truthy(authorization) then Reply(NoToken)
    else match verify(TokenOf(authorization.value))
      case None => Reply(InvalidToken)
      case Some(p) => Next(p)
  }

  /** A role gate's result: `next()` or a 401. */
  datatype Gate = Pass | Deny(res: Response)

  function IsAdmin(user: Option<TokenPayload>): (g: Gate)
    ensures g == Pass <==> user.Some? && user.value.isAdmin
    ensures g != Pass ==> g == Deny(Response(401, "Invalid Admin Token"))
  {
    if user.Some? && user.value.isAdmin then Pass else Deny(Response(401, "Invalid Admin Token"))
  }

  function IsSupplier(user: Option<TokenPayload>): (g: Gate)
    ensures g == Pass <==> user.Some? && user.value.isSupplier
    ensures g != Pass ==> g == Deny(Response(401, "Invalid Supplier Token"))
  {
    if user.Some? && user.value.isSupplier then Pass else Deny(Response(401, "Invalid Supplier Token"))
  }

  function IsInspector(user: Option<TokenPayload>): (g: Gate)
    ensures g == Pass <==> user.Some? && user.value.isInspector
    ensures g != Pass ==> g == Deny(Response(401, "Invalid Inspector Token"))
  {
    if user.Some? && user.value.isInspector then Pass else Deny(Response(401, "Invalid Inspector Token"))
  }

  /** `req.user` after `isAuth`: set only when `next` was called. */
  function UserAfterAuth(o: Outcome): Option<TokenPayload>
  {
    if o.Next? then Some(o.user) else None
  }

  /** A request bearing a token issued to `u`, with a verifier that decodes
      it, passes each role gate exactly when `u` holds that role; the gates
      are independent, so one user may pass several. */
  lemma GatesFollowIssuedRoles(u: User, now: int, token: string, verify: string -> Option<TokenPayload>)
    requires verify(token) == Some(GenerateToken(u, now).payload)
    ensures var user := UserAfterAuth(IsAuth(Some("Bearer " + token), verify));
      (IsAdmin(user) == Pass <==> u.isAdmin)
      && (IsSupplier(user) == Pass <==> u.isSupplier)
      && (IsInspector(user) == Pass <==> u.isInspector)
  {
    TokenAfterAnyPrefix("Bearer ", token);
    assert Truthy(Some("Bearer " + token));
  }

  /** Without a header no gate is reached with a user, so every gate
      denies. */
  lemma NoHeaderDeniesEveryGate(verify: string -> Option<TokenPayload>)
    ensures var user := UserAfterAuth(IsAuth(None, verify));
      IsAdmin(user) != Pass && IsSupplier(user) != Pass && IsInspector(user) != Pass
  {
  }
}
