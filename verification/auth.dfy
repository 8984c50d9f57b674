/**
 * `AuthController` of the fifth Web API exercise (namespace JwtWebApiDemo): a fixed
 * two-account credential table and the content of the JSON Web Token it issues.
 * The token is modelled as the record the controller fills in (claims, issuer,
 * audience, expiry); serializing and signing it is the token library's work, whose
 * only visible effect here is that it may throw.
 */
module JwtAuth {
  import opened Text
  import opened Http

  /** `ClaimTypes.Role` and `ClaimTypes.Name` of System.Security.Claims. */
  const RoleClaimType := "http://schemas.microsoft.com/ws/2008/06/identity/claims/role"
  const NameClaimType := "http://schemas.xmlsoap.org/ws/2005/05/identity/claims/name"
  const UserIdClaimType := "UserId"

  const Issuer := "mySystem"
  const Audience := "myUsers"
  /** `DateTime.Now.AddMinutes(10)`, with time counted in seconds. */
  const LifetimeSeconds := 600

  const LoginSuccessful := "Login successful"
  const TokenGenerated := "Token generated successfully"
  const InvalidCredentials := "Invalid credentials"

  datatype Claim = Claim(claimType: string, value: string)

  /** What the issued JWT says; the compact serialization and its signature are not modelled. */
  datatype Token = Token(issuer: string, audience: string, claims: seq<Claim>, expires: int)

  datatype LoginRequest = LoginRequest(username: string, password: string)

  /** The anonymous object `new { Token = token, Message = ... }`. */
  datatype TokenReply = TokenReply(token: Token, message: string)

  /** An exception escaping the token writer: its type name and its `Message`. */
  datatype WriterException = WriterException(typeName: string, message: string)

  /** The token writer's outcome: the token, or the exception it threw. */
  datatype Issue = Issued(token: Token) | Thrown(exception: WriterException)

  /** `FindFirst(type)?.Value`: the value of the first claim of that type, if any. */
  function FindFirst(claims: seq<Claim>, claimType: string): (v: Option<string>)
    ensures v.None? <==> forall i :: 0 <= i < |claims| ==> claims[i].claimType != claimType
    ensures v.Some? ==> exists i :: (0 <= i < |claims| && claims[i] == Claim(claimType, v.value) &&
      forall j :: 0 <= j < i ==> claims[j].claimType != claimType)
    decreases |claims|
  {
    if claims == [] then None
    else if claims[0].claimType == claimType then Some(claims[0].value)
    else
      var v := FindFirst(claims[1..], claimType);
      if v.Some? then
        var i :| 0 <= i < |claims[1..]| && claims[1..][i] == Claim(claimType, v.value) &&
          forall j :: 0 <= j < i ==> claims[1..][j].claimType != claimType;
        assert claims[i + 1] == Claim(claimType, v.value);
        assert forall j :: 0 <= j < i + 1 ==> claims[j].claimType != claimType by {
          forall j | 0 < j < i + 1 ensures claims[j].claimType != claimType {
            assert claims[j] == claims[1..][j - 1];
          }
        }
        v
      else v
  }

  /**
   * The claim list of GenerateJSONWebToken: reading it back by type gives the role,
   * the decimal text of the user id and the name "User{userId}".
   */
  function UserClaims(userId: int, userRole: string): (claims: seq<Claim>)
    ensures |claims| == 3
    ensures FindFirst(claims, RoleClaimType) == Some(userRole)
    ensures FindFirst(claims, UserIdClaimType) == Some(IntToText(userId))
    ensures FindFirst(claims, NameClaimType) == Some("User" + IntToText(userId))
  {
    assert |RoleClaimType| == 60 && |NameClaimType| == 58;
    var last := [Claim(NameClaimType, "User" + IntToText(userId))];
    assert FindFirst(last, NameClaimType) == Some("User" + IntToText(userId));
    var claims := [Claim(RoleClaimType, userRole), Claim(UserIdClaimType, IntToText(userId))] + last;
    assert claims[1..][1..] == last;
    claims
  }

  /**
   * The lifetime check of the token validator at time t: valid up to and including the
   * `expires` instant, extended by the validator's clock skew (the JwtBearer default is
   * 300 seconds; the validator's configuration is not part of this model).
   */
  predicate Unexpired(token: Token, t: int, clockSkew: nat) {
    t <= token.expires + clockSkew
  }

  /**
   * GenerateJSONWebToken at time `now`; `writerFault` is the exception the foreign
   * token writer throws, if it throws.
   */
  function GenerateJSONWebToken(userId: int, userRole: string, now: int, writerFault: Option<WriterException>): (r: Issue)
    ensures r.Thrown? <==> writerFault.Some?
    ensures r.Thrown? ==> r.exception == writerFault.value
    ensures r.Issued? ==> r.token.issuer == Issuer && r.token.audience == Audience
    ensures r.Issued? ==> FindFirst(r.token.claims, RoleClaimType) == Some(userRole)
    ensures r.Issued? ==> FindFirst(r.token.claims, UserIdClaimType) == Some(IntToText(userId))
    ensures r.Issued? ==> r.token.expires == now + LifetimeSeconds
    ensures r.Issued? ==> forall t, skew: nat :: Unexpired(r.token, t, skew) <==> t <= now + LifetimeSeconds + skew
  {
    if writerFault.Some? then Thrown(writerFault.value)
    else Issued(Token(Issuer, Audience, UserClaims(userId, userRole), now + LifetimeSeconds))
  }

  /**
   * GET api/auth/generate-token: `userId` and `userRole` default to 1 and "Admin" when
   * the query leaves them out; an exception from the writer becomes 400 with its message.
   */
  function GenerateToken(userId: Option<int>, userRole: Option<string>, now: int,
                         writerFault: Option<WriterException>): (r: ActionResult<TokenReply>)
    ensures writerFault.Some? ==> r == BadRequest(Some(writerFault.value.message))
    ensures writerFault.None? ==> r.Ok? && r.body.message == TokenGenerated
    ensures r.Ok? ==>
      FindFirst(r.body.token.claims, RoleClaimType) == Some(if userRole.Some? then userRole.value else "Admin") &&
      FindFirst(r.body.token.claims, UserIdClaimType) == Some(IntToText(if userId.Some? then userId.value else 1))
  {
    var id := if userId.Some? then userId.value else 1;
    var role := if userRole.Some? then userRole.value else "Admin";
    match GenerateJSONWebToken(id, role, now, writerFault)
    case Issued(token) => Ok(TokenReply(token, TokenGenerated))
    case Thrown(e) => BadRequest(Some(e.message))
  }

  /** The credential table: the user id and role an exact (case-sensitive) username/password pair maps to. */
  function Account(request: LoginRequest): (a: Option<(int, string)>)
    ensures a.Some? <==> request.password == "password" && request.username in {"admin", "user"}
    ensures a == Some((1, "Admin")) <==> request == LoginRequest("admin", "password")
    ensures a == Some((2, "User")) <==> request == LoginRequest("user", "password")
  {
    if request.username == "admin" && request.password == "password" then Some((1, "Admin"))
    else if request.username == "user" && request.password == "password" then Some((2, "User"))
    else None
  }

  /**
   * POST api/auth/login: a token for the matching account, else 401. The writer's
   * exception is not caught here, so it escapes the action.
   */
  function Login(request: LoginRequest, now: int, writerFault: Option<WriterException>): (r: ActionResult<TokenReply>)
    ensures Account(request).None? ==> r == Unauthorized(InvalidCredentials)
    ensures Account(request).Some? && writerFault.Some? ==> r == Fault(writerFault.value.typeName)
    ensures r.Ok? <==> Account(request).Some? && writerFault.None?
    ensures r.Ok? ==> (r.body.message == LoginSuccessful &&
      FindFirst(r.body.token.claims, RoleClaimType) == Some(Account(request).value.1) &&
      FindFirst(r.body.token.claims, UserIdClaimType) == Some(IntToText(Account(request).value.0)))
  {
    match Account(request)
    case None => Unauthorized(InvalidCredentials)
    case Some((id, role)) =>
      match GenerateJSONWebToken(id, role, now, writerFault)
      case Issued(token) => Ok(TokenReply(token, LoginSuccessful))
      case Thrown(e) => Fault(e.typeName)
  }

  /** A failed login gives no hint which field was wrong: every rejection is the same response. */
  lemma FailedLoginsLookAlike(a: LoginRequest, b: LoginRequest, now: int, later: int, writerFault: Option<WriterException>)
    requires Account(a).None? && Account(b).None?
    ensures Login(a, now, writerFault) == Login(b, later, None)
  {
  }

  /** The UserId claim reads back, through the decimal parse, as the id the token was issued for. */
  lemma UserIdClaimRoundTrip(userId: int, userRole: string, now: int)
    ensures var r := GenerateJSONWebToken(userId, userRole, now, None);
      r.Issued? && FindFirst(r.token.claims, UserIdClaimType).Some? &&
      ParseInt(FindFirst(r.token.claims, UserIdClaimType).value) == Some(userId)
  {
    IntToTextRoundTrip(userId);
  }

  /** Tokens for different user ids carry different UserId and Name claims. */
  lemma DistinctUsersDistinctClaims(a: int, b: int, role: string)
    requires a != b
    ensures FindFirst(UserClaims(a, role), UserIdClaimType) != FindFirst(UserClaims(b, role), UserIdClaimType)
    ensures FindFirst(UserClaims(a, role), NameClaimType) != FindFirst(UserClaims(b, role), NameClaimType)
  {
    IntToTextInjective(a, b);
    var na, nb := "User" + IntToText(a), "User" + IntToText(b);
    assert na[4..] == IntToText(a);
    assert nb[4..] == IntToText(b);
  }
}
