/** The server's request gates: the bearer token of the Authorization
    header, and the role checks that either answer 401/403 or pass the
    request on (`next()`). */
module AuthMiddleware {
  import opened Common
  import opened Text

  /** The verified token's payload, attached to the request as `req.user`. */
  datatype AuthUser = AuthUser(userId: int, role: Role)

  /** A gate's decision: an error response, or the call to `next()`. */
  datatype Gate = Deny(code: int, error: string) | Next

  /** `s.split(sep)` for a one-character separator: the parts between the
      separators, an empty part where two separators meet or the string
      starts or ends with one. Joining the parts back gives the string. */
  function SplitOn(s: string, sep: char): (parts: seq<string>)
    ensures |parts| >= 1
    ensures forall i :: 0 <= i < |parts| ==> sep !in parts[i]
    ensures Join(parts, [sep]) == s
    decreases |s|
  {
    if s == [] then [""]
    else
      var rest := SplitOn(s[1..], sep);
      if s[0] == sep then
        assert s == [sep] + s[1..];
        [""] + rest
      else
        var first := [s[0]] + rest[0];
        assert s == [s[0]] + s[1..];
        assert Join(rest, [sep]) == rest[0] + (if |rest| == 1 then "" else [sep] + Join(rest[1..], [sep]));
        assert ([first] + rest[1..])[1..] == rest[1..];
        [first] + rest[1..]
  }

  /** `authHeader && authHeader.split(' ')[1]`, read as a token only when it
      is truthy: a missing or empty header, a header with no space, and an
      empty second part all give no token. */
  function BearerToken(header: Option<string>): (token: Option<string>)
    ensures token.Some? ==> token.value != "" && ' ' !in token.value
  {
    if header.None? || header.value == "" then None
    else
      var parts := SplitOn(header.value, ' ');
      if |parts| >= 2 && parts[1] != "" then Some(parts[1]) else None
  }

  /** t is the second space-separated part of the header: what precedes it
      is a space-free scheme and one space, and what follows it is empty or
      starts with a space. */
  predicate SecondPart(header: string, scheme: string, t: string, tail: string)
  {
    && header == scheme + " " + t + tail
    && ' ' !in scheme
    && (tail == "" || tail[0] == ' ')
  }

  /** The token is the header's second space-separated part. */
  lemma TokenIsSecondPart(header: string)
    requires BearerToken(Some(header)).Some?
    ensures exists scheme, tail :: SecondPart(header, scheme, BearerToken(Some(header)).value, tail)
  {
    var parts := SplitOn(header, ' ');
    var scheme, t := parts[0], parts[1];
    assert BearerToken(Some(header)).value == t;
    var rest := Join(parts[1..], " ");
    JoinFirst(parts, " ");
    assert header == scheme + " " + rest;
    var tail := if |parts| == 2 then "" else " " + Join(parts[2..], " ");
    JoinFirst(parts[1..], " ");
    assert parts[1..][1..] == parts[2..];
    assert rest == t + tail;
    assert scheme + " " + (t + tail) == scheme + " " + t + tail;
    assert SecondPart(header, scheme, t, tail);
  }

  /** The usual header, `Bearer <token>`, yields the token. */
  lemma BearerHeaderYieldsToken(t: string)
    requires t != "" && ' ' !in t
    ensures BearerToken(Some("Bearer " + t)) == Some(t)
  {
    assert "Bearer " + t == "Bearer" + [' '] + t;
    SplitPrefix("Bearer", t, ' ');
  }

  /** Splitting `a + [sep] + b`, with a and b free of the separator, gives
      exactly the two parts a and b. */
  lemma {:induction false} SplitPrefix(a: string, b: string, sep: char)
    requires sep !in a && sep !in b
    ensures SplitOn(a + [sep] + b, sep) == [a, b]
    decreases |a|
  {
    if a == [] {
      assert a + [sep] + b == [sep] + b;
      assert (a + [sep] + b)[1..] == b;
      NoSeparatorIsOnePart(b, sep);
    } else {
      assert (a + [sep] + b)[1..] == a[1..] + [sep] + b;
      SplitPrefix(a[1..], b, sep);
      assert [a[0]] + a[1..] == a;
    }
  }

  /** A string free of the separator is a single part. */
  lemma {:induction false} NoSeparatorIsOnePart(s: string, sep: char)
    requires sep !in s
    ensures SplitOn(s, sep) == [s]
    decreases |s|
  {
    if s != [] {
      NoSeparatorIsOnePart(s[1..], sep);
      assert [s[0]] + s[1..] == s;
    }
  }

  /** authenticateToken, with `jwt.verify` given as the function from a
      token to its payload (None when the token is invalid or expired):
      no token is 401, a token that does not verify is 403, a verified
      token passes with its payload as the request's user. */
  function AuthenticateToken(header: Option<string>, verify: string -> Option<AuthUser>): (r: (Gate, Option<AuthUser>))
    ensures BearerToken(header).None? ==> r == (Deny(401, "Access token required"), None)
    ensures BearerToken(header).Some? && verify(BearerToken(header).value).None? ==>
      r == (Deny(403, "Invalid or expired token"), None)
    ensures r.0 == Next <==> BearerToken(header).Some? && verify(BearerToken(header).value).Some?
    ensures r.0 == Next ==> r.1 == verify(BearerToken(header).value)
  {
    match BearerToken(header)
    case None => (Deny(401, "Access token required"), None)
    case Some(token) =>
      match verify(token)
      case None => (Deny(403, "Invalid or expired token"), None)
      case Some(user) => (Next, Some(user))
  }

  /** A signed-in request with the usual header is let through as the
      token's owner. */
  lemma VerifiedBearerPasses(t: string, verify: string -> Option<AuthUser>)
    requires t != "" && ' ' !in t && verify(t).Some?
    ensures AuthenticateToken(Some("Bearer " + t), verify) == (Next, verify(t))
  {
    BearerHeaderYieldsToken(t);
  }

  /** `roles.join(' or ')`. */
  function RoleList(roles: seq<Role>): string
  {
    Join(seq(|roles|, i requires 0 <= i < |roles| => RoleName(roles[i])), " or ")
  }

  /** authorizeRoles(...roles): 401 without a user, 403 for a role not
      listed, otherwise the request passes. */
  function AuthorizeRoles(roles: seq<Role>, user: Option<AuthUser>): (g: Gate)
    ensures user.None? ==> g.Deny? && g.code == 401
    ensures user.Some? && user.value.role !in roles ==> g.Deny? && g.code == 403
    ensures g == Next <==> user.Some? && user.value.role in roles
  {
    if user.None? then Deny(401, "Not authenticated")
    else if user.value.role !in roles then Deny(403, "Access denied. Required role: " + RoleList(roles))
    else Next
  }

  /** isAdmin: a missing user and any role but admin are both 403. */
  function IsAdmin(user: Option<AuthUser>): (g: Gate)
    ensures g == Next <==> user.Some? && user.value.role == Admin
    ensures g != Next ==> g == Deny(403, "Admin access required")
  {
    if user.None? || user.value.role != Admin then Deny(403, "Admin access required") else Next
  }

  /** isManagerOrAdmin: exactly the admin and manager roles pass. */
  function IsManagerOrAdmin(user: Option<AuthUser>): (g: Gate)
    ensures g == Next <==> user.Some? && (user.value.role == Admin || user.value.role == Manager)
    ensures g != Next ==> g == Deny(403, "Manager or Admin access required")
  {
    if user.None? || user.value.role !in [Admin, Manager] then Deny(403, "Manager or Admin access required")
    else Next
  }

  /** The two fixed gates let through what authorizeRoles lets through for
      the same roles; they differ only in answering 403 rather than 401
      when no user is attached. */
  lemma FixedGatesAgreeWithAuthorizeRoles(user: Option<AuthUser>)
    ensures IsAdmin(user) == Next <==> AuthorizeRoles([Admin], user) == Next
    ensures IsManagerOrAdmin(user) == Next <==> AuthorizeRoles([Admin, Manager], user) == Next
    ensures user.None? ==> AuthorizeRoles([Admin], user).code == 401 && IsAdmin(user).code == 403
  {
  }

  /** The roles isManagerOrAdmin lets through are exactly the roles that
      review someone's requests. */
  lemma ManagerOrAdminAreReviewers(u: AuthUser)
    ensures IsManagerOrAdmin(Some(u)) == Next <==> exists requester :: Reviewable(u.role, requester)
  {
    if IsManagerOrAdmin(Some(u)) == Next {
      assert Reviewable(u.role, Employee);
    }
  }
}
