/** The client's persisted auth store: the signed-in user, the token, the
    loading and authenticated flags, and the token kept in browser storage.
    Server replies are inputs to each action; the token validity check is a
    parameter. The role predicates read the user's role, where an admin
    also counts as a seller and everyone listed counts as a customer. */
module AuthStore {
  import opened Types

  datatype SessionUser = SessionUser(firstName: string, lastName: string, email: string, role: string)

  /** A field error the server returns, `{ path, msg }`. */
  datatype FieldError = FieldError(path: string, msg: string)

  /** How a server call ended: its data, or a rejection carrying the
      server's message and field errors when there were any. */
  datatype Reply<T> = Answered(data: T) | Rejected(message: Option<string>, errors: Option<seq<FieldError>>)

  /** What `login` and `register` return. */
  datatype AuthResult =
    | Success(user: SessionUser)
    | Failure(error: string, errors: Option<seq<FieldError>>)

  /** What `updateProfile`, `changePassword` and `becomeSeller` return:
      the updated user (none for a password change), or the message. */
  datatype AccountResult = Updated(updated: Option<SessionUser>) | Declined(error: string)

  /** The part `partialize` writes to storage. */
  datatype Persisted = Persisted(user: Option<SessionUser>, token: Option<string>, isAuthenticated: bool)

  /** `error.response?.data?.message || fallback` */
  function MessageOr(message: Option<string>, fallback: string): string {
    if message.Some? && message.value != "" then message.value else fallback
  }

  // ---------------------------------------------------------------------
  // Role predicates, on `user?.role` (None without a user)

  function RoleOf(user: Option<SessionUser>): Option<string> {
    if user.Some? then Some(user.value.role) else None
  }

  predicate HasRole(role: Option<string>, r: string) {
    role == Some(r)
  }

  /** `roles.includes(user?.role)` */
  predicate HasAnyRole(role: Option<string>, roles: seq<string>) {
    role.Some? && role.value in roles
  }

  predicate AdminRole(role: Option<string>) {
    role == Some("admin")
  }

  predicate SellerRole(role: Option<string>) {
    role == Some("seller") || role == Some("admin")
  }

  predicate CustomerRole(role: Option<string>) {
    role == Some("customer") || role == Some("seller") || role == Some("admin")
  }

  /** The predicates nest: every admin is a seller and every seller a
      customer; without a user all are false; `hasAnyRole` of one role is
      `hasRole`. */
  lemma RolesNest(role: Option<string>, r: string)
    ensures AdminRole(role) ==> SellerRole(role)
    ensures SellerRole(role) ==> CustomerRole(role)
    ensures AdminRole(role) <==> HasRole(role, "admin")
    ensures SellerRole(role) <==> HasAnyRole(role, ["seller", "admin"])
    ensures CustomerRole(role) <==> HasAnyRole(role, ["customer", "seller", "admin"])
    ensures HasAnyRole(role, [r]) <==> HasRole(role, r)
    ensures role.None? ==> !CustomerRole(role) && !HasAnyRole(role, [r])
  {
  }

  /** `getDisplayName`: first and last name, or nothing without a user. */
  function DisplayNameOf(user: Option<SessionUser>): (name: string)
    ensures user.None? <==> name == ""
    ensures user.Some? ==> |name| == |user.value.firstName| + 1 + |user.value.lastName|
                           && name[|user.value.firstName|] == ' '
                           && name[..|user.value.firstName|] == user.value.firstName
                           && name[|user.value.firstName| + 1..] == user.value.lastName
  {
    if user.Some? then user.value.firstName + " " + user.value.lastName else ""
  }

  // ---------------------------------------------------------------------
  // The store

  class Store {
    var user: Option<SessionUser>
    var token: Option<string>
    var isLoading: bool
    var isAuthenticated: bool
    /** The token browser storage holds. */
    var savedToken: Option<string>

    /** Authenticated means a user and a token are present. */
    ghost predicate Valid()
      reads this
    {
      isAuthenticated ==> user.Some? && token.Some?
    }

    /** The initial state, over what storage already holds. */
    constructor (saved: Option<string>)
      ensures Valid()
      ensures user == None && token == None && !isLoading && !isAuthenticated && savedToken == saved
    {
      user := None;
      token := None;
      isLoading := false;
      isAuthenticated := false;
      savedToken := saved;
    }

    /** `partialize`: the persisted subset; loading is not kept. */
    function Saved(): Persisted
      reads this
    {
      Persisted(user, token, isAuthenticated)
    }

    /** Reloading the persisted subset over the current state: exactly what
        was saved comes back, and the store is valid iff the saved state was. */
    method Rehydrate(p: Persisted)
      modifies this
      ensures Saved() == p
      ensures isLoading == old(isLoading) && savedToken == old(savedToken)
      ensures Valid() <==> (p.isAuthenticated ==> p.user.Some? && p.token.Some?)
    {
      user := p.user;
      token := p.token;
      isAuthenticated := p.isAuthenticated;
    }

    /** `initialize`: a stored token that passes the local check is
        verified with the server; on success the store signs in with it,
        on failure it is forgotten and the store signs out. Without such a
        token only loading ends. */
    method Initialize(isValidToken: string -> bool, verified: Option<SessionUser>)
      requires Valid()
      modifies this
      ensures Valid()
      ensures !isLoading
      ensures var t := old(savedToken);
              if t.Some? && t.value != "" && isValidToken(t.value) then
                if verified.Some? then
                  user == verified && token == t && isAuthenticated && savedToken == t
                else
                  user == None && token == None && !isAuthenticated && savedToken == None
              else
                user == old(user) && token == old(token) && isAuthenticated == old(isAuthenticated)
                && savedToken == t
    {
      var t := savedToken;
      if t.Some? && t.value != "" && isValidToken(t.value) {
        token := t;
        isLoading := true;
        if verified.Some? {
          user := verified;
          isAuthenticated := true;
          isLoading := false;
        } else {
          savedToken := None;
          user := None;
          token := None;
          isAuthenticated := false;
          isLoading := false;
        }
      } else {
        isLoading := false;
      }
    }

    /** `login`: an accepted login stores the token and signs in; a
        rejected one only ends loading and reports the server's message or
        "Login failed". */
    method Login(reply: Reply<(SessionUser, string)>) returns (result: AuthResult)
      requires Valid()
      modifies this
      ensures Valid()
      ensures !isLoading
      ensures reply.Answered? ==>
                result == Success(reply.data.0) && user == Some(reply.data.0) && token == Some(reply.data.1)
                && isAuthenticated && savedToken == Some(reply.data.1)
      ensures reply.Rejected? ==>
                result == Failure(MessageOr(reply.message, "Login failed"), reply.errors)
                && user == old(user) && token == old(token) && isAuthenticated == old(isAuthenticated)
                && savedToken == old(savedToken)
    {
      isLoading := true;
      match reply
      case Answered((u, t)) =>
        savedToken := Some(t);
        user := Some(u);
        token := Some(t);
        isAuthenticated := true;
        isLoading := false;
        result := Success(u);
      case Rejected(message, errors) =>
        isLoading := false;
        result := Failure(MessageOr(message, "Login failed"), errors);
    }

    /** `register`: as `login`, with "Registration failed". */
    method Register(reply: Reply<(SessionUser, string)>) returns (result: AuthResult)
      requires Valid()
      modifies this
      ensures Valid()
      ensures !isLoading
      ensures reply.Answered? ==>
                result == Success(reply.data.0) && user == Some(reply.data.0) && token == Some(reply.data.1)
                && isAuthenticated && savedToken == Some(reply.data.1)
      ensures reply.Rejected? ==>
                result == Failure(MessageOr(reply.message, "Registration failed"), reply.errors)
                && user == old(user) && token == old(token) && isAuthenticated == old(isAuthenticated)
                && savedToken == old(savedToken)
    {
      isLoading := true;
      match reply
      case Answered((u, t)) =>
        savedToken := Some(t);
        user := Some(u);
        token := Some(t);
        isAuthenticated := true;
        isLoading := false;
        result := Success(u);
      case Rejected(message, errors) =>
        isLoading := false;
        result := Failure(MessageOr(message, "Registration failed"), errors);
    }

    /** `logout`: whatever the server answers, the token is forgotten and
        the store signs out. */
    method Logout()
      modifies this
      ensures Valid()
      ensures user == None && token == None && !isAuthenticated && !isLoading && savedToken == None
      ensures Saved() == Persisted(None, None, false)
    {
      savedToken := None;
      user := None;
      token := None;
      isAuthenticated := false;
      isLoading := false;
    }

    /** `updateUser`: replaces the user and nothing else. */
    method UpdateUser(u: SessionUser)
      requires Valid()
      modifies this
      ensures Valid()
      ensures user == Some(u)
      ensures token == old(token) && isAuthenticated == old(isAuthenticated) && isLoading == old(isLoading)
      ensures savedToken == old(savedToken)
    {
      user := Some(u);
    }

    /** `updateProfile`, and `becomeSeller` with its own message: an
        accepted update replaces the user and nothing else; a refused one
        changes nothing and reports the server's message or the fallback. */
    method ApplyUserUpdate(reply: Reply<SessionUser>, fallback: string) returns (result: AccountResult)
      requires Valid()
      modifies this
      ensures Valid()
      ensures token == old(token) && isAuthenticated == old(isAuthenticated) && isLoading == old(isLoading)
      ensures savedToken == old(savedToken)
      ensures reply.Answered? ==> result == Updated(Some(reply.data)) && user == Some(reply.data)
      ensures reply.Rejected? ==> result == Declined(MessageOr(reply.message, fallback)) && user == old(user)
    {
      match reply
      case Answered(u) =>
        user := Some(u);
        result := Updated(Some(u));
      case Rejected(message, _) =>
        result := Declined(MessageOr(message, fallback));
    }

    function IsAdmin(): bool
      reads this
    {
      AdminRole(RoleOf(user))
    }

    function IsSeller(): bool
      reads this
    {
      SellerRole(RoleOf(user))
    }

    function IsCustomer(): bool
      reads this
    {
      CustomerRole(RoleOf(user))
    }

    function DisplayName(): string
      reads this
    {
      DisplayNameOf(user)
    }
  }

  /** `changePassword`: the store is untouched either way. */
  function ChangePassword(reply: Reply<()>): (result: AccountResult)
    ensures result.Updated? <==> reply.Answered?
    ensures result.Updated? ==> result.updated.None?
    ensures result.Declined? ==> result.error != ""
    ensures reply.Rejected? && reply.message.Some? && reply.message.value != "" ==> result.error == reply.message.value
  {
    match reply
    case Answered(_) => Updated(None)
    case Rejected(message, _) => Declined(MessageOr(message, "Password change failed"))
  }

  /** The fallback is used exactly when the server sent no message text. */
  lemma MessageOrFallback(message: Option<string>, fallback: string)
    ensures MessageOr(message, fallback) == fallback <==> (message.None? || message.value == "" || message.value == fallback)
    ensures fallback != "" ==> MessageOr(message, fallback) != ""
  {
  }

  /** Signing out then in again leaves exactly the new user and token
      behind, whatever came before. */
  method LogoutThenLogin(s: Store, u: SessionUser, t: string) returns (result: AuthResult)
    requires s.Valid()
    modifies s
    ensures result == Success(u)
    ensures s.Saved() == Persisted(Some(u), Some(t), true) && s.savedToken == Some(t)
    ensures s.IsSeller() <==> u.role == "seller" || u.role == "admin"
  {
    s.Logout();
    result := s.Login(Answered((u, t)));
  }
}
