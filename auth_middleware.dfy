/** The server's authentication middleware: `protect` takes the bearer token
    from the Authorization header, has it verified and loads the user;
    `authorizeRoles` lets the request through when one of the user's roles
    is allowed. Token verification is a parameter (the JWT library is not
    modelled) and the user collection is a map. These users carry a list of
    role names ('buyer', 'seller', 'admin'). */
module AuthMiddleware {
  import opened Types
  import Text

  predicate StartsWith(s: string, prefix: string) {
    |prefix| <= |s| && s[..|prefix|] == prefix
  }

  // ---------------------------------------------------------------------
  // protect

  /** The token `protect` reads: the second piece of a header that starts
      with `Bearer`, if there is one. */
  function HeaderToken(header: Option<string>): (token: Option<string>)
    ensures token.Some? ==> header.Some? && StartsWith(header.value, "Bearer")
                            && |Text.Split(header.value, ' ')| >= 2 && token.value == Text.Split(header.value, ' ')[1]
    ensures token.None? && header.Some? && StartsWith(header.value, "Bearer") ==> |Text.Split(header.value, ' ')| < 2
  {
    if header.Some? && header.value != "" && StartsWith(header.value, "Bearer") then
      var parts := Text.Split(header.value, ' ');
      if |parts| >= 2 then Some(parts[1]) else None
    else None
  }

  /** The usual header form yields exactly its token. */
  lemma BearerTokenRoundTrip(t: string)
    requires t != [] && ' ' !in t
    ensures HeaderToken(Some("Bearer " + t)) == Some(t)
  {
    var h := "Bearer " + t;
    Text.SplitJoin(["Bearer", t], ' ');
    assert Text.Join(["Bearer", t], ' ') == h by {
      assert Text.Join(["Bearer", t][1..], ' ') == t;
    }
  }

  /** Only a header of at least two space-separated pieces whose text
      starts with `Bearer` carries a token; in particular a bare token or a
      `Basic` header carries none. */
  lemma NoBearerNoToken(h: string)
    requires !StartsWith(h, "Bearer")
    ensures HeaderToken(Some(h)) == None
  {
  }

  /** The users `protect` loads: their role names. */
  datatype AuthUser = AuthUser(name: string, email: string, roles: seq<string>)

  datatype Rejection = TokenMissing | TokenFailed | NotAuthenticated | InsufficientRole

  /** Where a request ends up: passed on (with the loaded user, possibly
      none when the id is unknown), or refused with 401 or 403. */
  datatype Gate = Pass(user: Option<AuthUser>) | Refuse(code: int, reason: Rejection)

  /** `protect`: no token (absent or empty) is 401 "token missing"; a token
      the verifier refuses is 401 "token failed"; otherwise the user with
      the decoded id, if any, is attached and the chain continues. */
  function Protect(header: Option<string>, verify: string -> Option<UserId>, users: map<UserId, AuthUser>)
    : (g: Gate)
    ensures g.Refuse? ==> g.code == 401
    ensures g == Refuse(401, TokenMissing) <==> HeaderToken(header).None? || HeaderToken(header).value == ""
    ensures g.Pass? <==> HeaderToken(header).Some? && HeaderToken(header).value != ""
                         && verify(HeaderToken(header).value).Some?
    ensures g.Pass? ==> var id := verify(HeaderToken(header).value).value;
                        g.user == if id in users then Some(users[id]) else None
  {
    var token := HeaderToken(header);
    if token.None? || token.value == "" then Refuse(401, TokenMissing)
    else match verify(token.value)
      case None => Refuse(401, TokenFailed)
      case Some(id) => Pass(if id in users then Some(users[id]) else None)
  }

  // ---------------------------------------------------------------------
  // authorizeRoles

  /** `roles.some(role => allowed.includes(role))` */
  function SomeAllowed(roles: seq<string>, allowed: seq<string>): (r: bool)
    ensures r <==> exists i :: 0 <= i < |roles| && roles[i] in allowed
  {
    if roles == [] then false
    else if roles[0] in allowed then true
    else
      var rest := SomeAllowed(roles[1..], allowed);
      assert forall i :: 1 <= i < |roles| ==> roles[i] == roles[1..][i - 1];
      rest
  }

  /** `authorizeRoles(...allowed)`: 401 without a user, 403 when no role is
      allowed, otherwise the request passes unchanged. */
  function AuthorizeRoles(allowed: seq<string>, user: Option<AuthUser>): (g: Gate)
    ensures user.None? ==> g == Refuse(401, NotAuthenticated)
    ensures user.Some? ==> (g.Pass? <==> exists i :: 0 <= i < |user.value.roles| && user.value.roles[i] in allowed)
    ensures user.Some? && g.Refuse? ==> g == Refuse(403, InsufficientRole)
    ensures g.Pass? ==> g.user == user
  {
    if user.None? then Refuse(401, NotAuthenticated)
    else if !SomeAllowed(user.value.roles, allowed) then Refuse(403, InsufficientRole)
    else Pass(user)
  }

  /** The chain `protect, authorizeRoles(...)`. */
  function Guarded(header: Option<string>, verify: string -> Option<UserId>, users: map<UserId, AuthUser>,
                   allowed: seq<string>): Gate
  {
    match Protect(header, verify, users)
    case Refuse(c, why) => Refuse(c, why)
    case Pass(u) => AuthorizeRoles(allowed, u)
  }

  /** A guarded handler runs only for a bearer token that verifies to an
      existing user holding one of the allowed roles. */
  lemma GuardedPassesOnlyAllowed(header: Option<string>, verify: string -> Option<UserId>,
                                 users: map<UserId, AuthUser>, allowed: seq<string>)
    ensures Guarded(header, verify, users, allowed).Pass? <==>
              HeaderToken(header).Some? && HeaderToken(header).value != ""
              && verify(HeaderToken(header).value).Some?
              && verify(HeaderToken(header).value).value in users
              && exists r :: r in users[verify(HeaderToken(header).value).value].roles && r in allowed
  {
    var g := Protect(header, verify, users);
    if g.Pass? && g.user.Some? {
      var roles := g.user.value.roles;
      assert (exists i :: 0 <= i < |roles| && roles[i] in allowed) <==> (exists r :: r in roles && r in allowed);
    }
  }

  /** A refused token never reaches the role check: a missing user is only
      possible for a verified token whose id has no account. */
  lemma UnknownUserIs401(header: Option<string>, verify: string -> Option<UserId>,
                         users: map<UserId, AuthUser>, allowed: seq<string>)
    requires Protect(header, verify, users) == Pass(None)
    ensures Guarded(header, verify, users, allowed) == Refuse(401, NotAuthenticated)
    ensures verify(HeaderToken(header).value).value !in users
  {
  }
}
