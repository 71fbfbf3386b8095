/** Bearer-token extraction, request authentication and role checks
    (src/lib/auth.ts). Signing and verifying tokens is done by a JSON Web
    Token library; verification enters the model as an oracle `verify` that
    yields the payload, or `None` where the library throws. */
module Auth {
  import opened Wrappers

  /** The claims a token carries. */
  datatype JwtPayload = JwtPayload(userId: int, email: string, role: string)

  /** The exact, case-sensitive prefix, one space included: 7 characters. */
  const BearerPrefix: string := "Bearer "

  /** `getTokenFromRequest`: the text after `"Bearer "` when the
      `Authorization` header starts with it, otherwise `null`. */
  function TokenFromHeader(header: Option<string>): (token: Option<string>)
    ensures token.Some? <==>
      header.Some? && |header.value| >= 7 && header.value[..7] == BearerPrefix
    ensures token.Some? ==> header.value == BearerPrefix + token.value
  {
    if header.Some? && header.value != "" && |header.value| >= |BearerPrefix|
       && header.value[..|BearerPrefix|] == BearerPrefix
    then
      assert header.value == header.value[..7] + header.value[7..];
      Some(header.value[7..])
    else None
  }

  /** Extraction undoes the prefixing: the header `"Bearer " + t` gives `t`,
      and no other header gives `t`. */
  lemma TokenRoundTrip(t: string, header: string)
    ensures TokenFromHeader(Some(BearerPrefix + t)) == Some(t)
    ensures TokenFromHeader(Some(header)) == Some(t) ==> header == BearerPrefix + t
  {
    assert (BearerPrefix + t)[..7] == BearerPrefix;
    assert (BearerPrefix + t)[7..] == t;
  }

  /** A lower-case scheme or a missing space is not accepted. */
  lemma SchemeIsCaseSensitive(t: string)
    ensures TokenFromHeader(Some("bearer " + t)) == None
    ensures TokenFromHeader(Some("Bearer" + t)) == None || (|t| >= 1 && t[0] == ' ')
    ensures TokenFromHeader(None) == None
  {
    assert ("bearer " + t)[0] == 'b';
    if |("Bearer" + t)| >= 7 {
      assert ("Bearer" + t)[6] == t[0];
    }
  }

  /** `authenticateRequest`: `null` when there is no token, when the token is
      empty (falsy), or when verification throws; otherwise the payload. */
  function Authenticate(header: Option<string>, verify: string -> Option<JwtPayload>): (user: Option<JwtPayload>)
    ensures user.Some? <==>
      TokenFromHeader(header).Some? && TokenFromHeader(header).value != "" &&
      verify(TokenFromHeader(header).value).Some?
    ensures user.Some? ==> user == verify(header.value[7..])
  {
    match TokenFromHeader(header)
    case None => None
    case Some(token) => if token == "" then None else verify(token)
  }

  /** `authorizeRoles(...roles)(user)`: `false` for no user, otherwise
      whether the user's role is listed. */
  function AuthorizeRoles(roles: seq<string>, user: Option<JwtPayload>): (allowed: bool)
    ensures allowed <==> user.Some? && user.value.role in roles
  {
    match user
    case None => false
    case Some(u) => Includes(roles, u.role)
  }

  /** `Array.prototype.includes`, scanning from the front. */
  function Includes(roles: seq<string>, role: string): (found: bool)
    ensures found <==> role in roles
    decreases |roles|
  {
    if roles == [] then false
    else roles[0] == role || Includes(roles[1..], role)
  }

  /** Listing more roles never revokes access. */
  lemma AuthorizeRolesMonotone(roles: seq<string>, more: seq<string>, user: Option<JwtPayload>)
    requires forall r :: r in roles ==> r in more
    requires AuthorizeRoles(roles, user)
    ensures AuthorizeRoles(more, user)
  {
  }
}
