/** The guard in front of every authenticated route: it takes the access
    token from an `Authorization: Bearer <token>` header, verifies it, loads
    the account the token names and attaches it to the request. */
module AuthGuard {
  import opened Results
  import opened UserSchema
  import UsersService

  const BearerPrefix: string := "Bearer "

  datatype AuthError =
    | TokenRequired    // no usable token in the header
    | NotAuthorized    // the token does not verify, or names no account

  /** The access-token check (`jwt.verify` with the access secret): the
      account id in a token that verifies, `None` when verification throws
      or the payload carries no id. */
  type TokenVerifier = string -> Option<UserId>

  predicate StartsWith(s: string, prefix: string)
  {
    |prefix| <= |s| && s[..|prefix|] == prefix
  }

  /** `pat` occurs in `s` at position `i`. */
  predicate OccursAt(s: string, pat: string, i: nat)
  {
    i + |pat| <= |s| && s[i..i + |pat|] == pat
  }

  /** The first occurrence of `pat` in `s` at or after `i`. */
  function IndexFrom(s: string, pat: string, i: nat): (r: Option<nat>)
    requires i <= |s|
    ensures r.Some? ==> i <= r.value && OccursAt(s, pat, r.value)
    ensures r.Some? ==> forall k :: i <= k < r.value ==> !OccursAt(s, pat, k)
    ensures r.None? ==> forall k :: i <= k <= |s| ==> !OccursAt(s, pat, k)
    decreases |s| - i
  {
    if i + |pat| > |s| then None
    else if OccursAt(s, pat, i) then Some(i)
    else IndexFrom(s, pat, i + 1)
  }

  /** `String.prototype.replace` with a string pattern: only the first
      occurrence is replaced. */
  function ReplaceFirst(s: string, pat: string, rep: string): (r: string)
    ensures (forall k :: 0 <= k <= |s| ==> !OccursAt(s, pat, k)) ==> r == s
    ensures StartsWith(s, pat) ==> r == rep + s[|pat|..]
  {
    match IndexFrom(s, pat, 0)
    case None => s
    case Some(i) => s[..i] + rep + s[i + |pat|..]
  }

  /** `extractTokenFromHeader`: nothing unless the header is present and
      starts with `Bearer `; otherwise the header with that first `Bearer `
      removed, which is exactly the rest of the header. */
  function ExtractTokenFromHeader(header: Option<string>): (r: Option<string>)
    ensures r.Some? <==> header.Some? && StartsWith(header.value, BearerPrefix)
    ensures r.Some? ==> BearerPrefix + r.value == header.value
  {
    if header.None? || !StartsWith(header.value, BearerPrefix) then None
    else
      var token := ReplaceFirst(header.value, BearerPrefix, "");
      assert BearerPrefix + token == header.value by {
        assert token == header.value[|BearerPrefix|..];
        assert header.value == header.value[..|BearerPrefix|] + header.value[|BearerPrefix|..];
      }
      Some(token)
  }

  /** The bearer scheme round-trips: the token put after `Bearer ` is the
      token taken out, even when the token itself contains `Bearer `. */
  lemma BearerRoundTrip(token: string)
    ensures ExtractTokenFromHeader(Some(BearerPrefix + token)) == Some(token)
  {
    var h := BearerPrefix + token;
    assert h[..|BearerPrefix|] == BearerPrefix;
    assert h[|BearerPrefix|..] == token;
  }

  /** `canActivate` as a decision: a missing or empty token is refused as
      missing; a token that does not verify, or whose account no longer
      exists, is refused as unauthorized; otherwise the account it names. */
  function Authorize(header: Option<string>, verify: TokenVerifier, users: seq<User>): (r: Result<User, AuthError>)
    ensures r == Err(TokenRequired) <==>
      ExtractTokenFromHeader(header).None? || ExtractTokenFromHeader(header).value == ""
    ensures r.Ok? <==>
      && ExtractTokenFromHeader(header).Some? && ExtractTokenFromHeader(header).value != ""
      && verify(ExtractTokenFromHeader(header).value).Some?
      && exists k :: 0 <= k < |users| && users[k].id == verify(ExtractTokenFromHeader(header).value).value
    ensures r.Ok? ==> r.value in users && r.value.id == verify(ExtractTokenFromHeader(header).value).value
  {
    var token := ExtractTokenFromHeader(header);
    if token.None? || token.value == "" then Err(TokenRequired)
    else match verify(token.value)
      case None => Err(NotAuthorized)
      case Some(id) =>
        match UsersService.UserWithId(users, id)
        case None => Err(NotAuthorized)
        case Some(i) => Ok(users[i])
  }

  /** A request carrying `Bearer <t>` passes exactly when `t` is non-empty,
      verifies, and names an existing account. */
  lemma BearerHeaderAuthorizes(token: string, verify: TokenVerifier, users: seq<User>)
    ensures Authorize(Some(BearerPrefix + token), verify, users).Ok? <==>
      token != "" && verify(token).Some? && exists k :: 0 <= k < |users| && users[k].id == verify(token).value
  {
    BearerRoundTrip(token);
  }

  /** The only header value that is present, well formed and still refused
      as carrying no token is the bare prefix. */
  lemma BarePrefixHasNoToken(verify: TokenVerifier, users: seq<User>)
    ensures Authorize(Some(BearerPrefix), verify, users) == Err(TokenRequired)
  {
    BearerRoundTrip("");
    assert BearerPrefix + "" == BearerPrefix;
  }

  /** An incoming HTTP request: its `Authorization` header, and the account
      the guard attaches to it. */
  class Request {
    const authorization: Option<string>
    var user: Option<User>

    constructor (authorization: Option<string>)
      ensures this.authorization == authorization && user.None?
    {
      this.authorization := authorization;
      user := None;
    }
  }

  /** `canActivate`: lets the request through with the account attached, or
      refuses it and leaves it untouched. */
  method CanActivate(request: Request, verify: TokenVerifier, users: seq<User>) returns (result: Result<bool, AuthError>)
    modifies request`user
    ensures match Authorize(request.authorization, verify, users)
      case Ok(u) => result == Ok(true) && request.user == Some(u)
      case Err(e) => result == Err(e) && request.user == old(request.user)
  {
    var token := ExtractTokenFromHeader(request.authorization);
    if token.None? || token.value == "" {
      return Err(TokenRequired);
    }
    var payload := verify(token.value);
    if payload.None? {
      return Err(NotAuthorized);
    }
    var found := UsersService.UserWithId(users, payload.value);
    if found.None? {
      return Err(NotAuthorized);
    }
    request.user := Some(users[found.value]);
    result := Ok(true);
  }
}
