/** The older client auth context: a reducer over the user, the
    authenticated and loading flags and three role flags, each derived from
    the user's role by exact equality. The provider's calls decide which
    action is dispatched and what `localStorage` holds afterwards; the
    server's answers are inputs. */
module AuthContext {
  import opened Types
  import AuthStore

  /** The user object the server sends; its `role` may be missing. */
  datatype CtxUser = CtxUser(email: string, role: Option<string>)

  datatype State = State(
    user: Option<CtxUser>,
    isAuthenticated: bool,
    isLoading: bool,
    isAdmin: bool,
    isSeller: bool,
    isCustomer: bool)

  const InitialState := State(None, false, true, false, false, false)

  datatype Action =
    | SetLoading(loading: bool)
    | LoginSuccess(loggedIn: CtxUser)
    | Logout
    | UpdateUser(updated: CtxUser)
    | UnknownAction(name: string)

  /** `authReducer` */
  function Reduce(s: State, a: Action): State {
    match a
    case SetLoading(loading) => s.(isLoading := loading)
    case LoginSuccess(u) =>
      s.(user := Some(u), isAuthenticated := true, isLoading := false,
         isAdmin := u.role == Some("admin"), isSeller := u.role == Some("seller"),
         isCustomer := u.role == Some("customer"))
    case Logout =>
      s.(user := None, isAuthenticated := false, isLoading := false,
         isAdmin := false, isSeller := false, isCustomer := false)
    case UpdateUser(u) =>
      s.(user := Some(u), isAdmin := u.role == Some("admin"), isSeller := u.role == Some("seller"),
         isCustomer := u.role == Some("customer"))
    case UnknownAction(_) => s
  }

  function RoleOf(user: Option<CtxUser>): Option<string> {
    if user.Some? then user.value.role else None
  }

  /** Each flag is exact equality with its role, and an authenticated
      state has a user. */
  predicate FlagsMatch(s: State) {
    && s.isAdmin == (RoleOf(s.user) == Some("admin"))
    && s.isSeller == (RoleOf(s.user) == Some("seller"))
    && s.isCustomer == (RoleOf(s.user) == Some("customer"))
    && (s.isAuthenticated ==> s.user.Some?)
  }

  /** The flags are exclusive: at most one of them holds. */
  lemma AtMostOneFlag(s: State)
    requires FlagsMatch(s)
    ensures !(s.isAdmin && s.isSeller) && !(s.isAdmin && s.isCustomer) && !(s.isSeller && s.isCustomer)
  {
  }

  /** The initial state keeps the invariant, and every action preserves it. */
  lemma ReducePreservesFlags(s: State, a: Action)
    requires FlagsMatch(s)
    ensures FlagsMatch(InitialState)
    ensures FlagsMatch(Reduce(s, a))
  {
  }

  /** LOGIN_SUCCESS signs in and ends loading; LOGOUT clears the user and
      every flag; UPDATE_USER keeps the authenticated and loading flags;
      SET_LOADING changes only loading; unknown actions change nothing. */
  lemma ActionEffects(s: State, u: CtxUser, b: bool, name: string)
    ensures var t := Reduce(s, LoginSuccess(u));
              t.user == Some(u) && t.isAuthenticated && !t.isLoading && FlagsMatch(t)
    ensures var t := Reduce(s, Logout);
              t.user == None && !t.isAuthenticated && !t.isLoading && !t.isAdmin && !t.isSeller && !t.isCustomer
    ensures var t := Reduce(s, UpdateUser(u));
              t.user == Some(u) && t.isAuthenticated == s.isAuthenticated && t.isLoading == s.isLoading
              && (s.isAuthenticated ==> FlagsMatch(t)) && (FlagsMatch(s) ==> FlagsMatch(t))
    ensures Reduce(s, SetLoading(b)) == s.(isLoading := b)
    ensures Reduce(s, UnknownAction(name)) == s
  {
  }

  /** A user without a role gets no flag at all, though signed in. */
  lemma MissingRoleNoFlags(s: State, u: CtxUser)
    requires u.role.None?
    ensures var t := Reduce(s, LoginSuccess(u));
              t.isAuthenticated && !t.isAdmin && !t.isSeller && !t.isCustomer
  {
  }

  /** Against the persisted store's predicates on the same role: the
      context's seller flag is false for an admin, where the store says
      seller, and its customer flag is false for sellers and admins, where
      the store says customer; the admin flags agree. */
  lemma FlagsAgainstStore(s: State, u: CtxUser)
    ensures var t := Reduce(s, LoginSuccess(u));
              && (t.isAdmin <==> AuthStore.AdminRole(u.role))
              && (t.isSeller ==> AuthStore.SellerRole(u.role))
              && (AuthStore.SellerRole(u.role) && !t.isSeller <==> u.role == Some("admin"))
              && (t.isCustomer ==> AuthStore.CustomerRole(u.role))
              && (AuthStore.CustomerRole(u.role) && !t.isCustomer <==> u.role == Some("seller") || u.role == Some("admin"))
  {
  }

  // ---------------------------------------------------------------------
  // Provider calls: the state and the token in `localStorage` afterwards

  datatype Session = Session(state: State, storedToken: Option<string>)

  /** How a server call ended. */
  datatype Reply<T> = Answered(data: T) | Rejected(message: Option<string>)

  /** What `login`, `register` and `changePassword` return. */
  datatype CallResult = Succeeded(message: Option<string>) | Failed(error: string)

  /** `error.response?.data?.message || fallback` */
  function MessageOr(message: Option<string>, fallback: string): (m: string)
    ensures fallback != "" ==> m != ""
    ensures message.Some? && message.value != "" ==> m == message.value
  {
    if message.Some? && message.value != "" then message.value else fallback
  }

  /** `initialize`: with a non-empty stored token the user fetched with it
      signs in; a failed fetch forgets the token; without a token only
      loading ends. */
  function Initialize(s: Session, fetched: Reply<CtxUser>): (r: Session)
    ensures !r.state.isLoading
    ensures r.storedToken.None? ==> !r.state.isAuthenticated || s.state.isAuthenticated
    ensures r.state.isAuthenticated && !s.state.isAuthenticated ==> r.storedToken == s.storedToken && r.storedToken.Some?
    ensures s.storedToken.Some? && s.storedToken.value != "" && fetched.Answered? ==>
              r.state.user == Some(fetched.data) && r.state.isAuthenticated && FlagsMatch(r.state)
              && r.storedToken == s.storedToken
    ensures s.storedToken.Some? && s.storedToken.value != "" && fetched.Rejected? ==>
              r.storedToken.None? && r.state == s.state.(isLoading := false)
    ensures (s.storedToken.None? || s.storedToken.value == "") ==>
              r.storedToken == s.storedToken && r.state == s.state.(isLoading := false)
  {
    if s.storedToken.Some? && s.storedToken.value != "" then
      match fetched
      case Answered(u) => Session(Reduce(s.state, LoginSuccess(u)), s.storedToken)
      case Rejected(_) => Session(Reduce(s.state, SetLoading(false)), None)
    else
      Session(Reduce(s.state, SetLoading(false)), s.storedToken)
  }

  /** `login` and `register`: an accepted call stores the token and signs
      in; a rejected one changes nothing and reports the message or the
      fallback. */
  function SignIn(s: Session, reply: Reply<(CtxUser, string)>, fallback: string): (r: (Session, CallResult))
    ensures r.1.Succeeded? <==> reply.Answered?
    ensures reply.Answered? ==>
              r.0.storedToken == Some(reply.data.1) && r.0.state.user == Some(reply.data.0)
              && r.0.state.isAuthenticated && !r.0.state.isLoading && r.1.message.None?
    ensures reply.Rejected? ==> r.0 == s && r.1 == Failed(MessageOr(reply.message, fallback))
  {
    match reply
    case Answered((u, t)) => (Session(Reduce(s.state, LoginSuccess(u)), Some(t)), Succeeded(None))
    case Rejected(m) => (s, Failed(MessageOr(m, fallback)))
  }

  function LoginCall(s: Session, reply: Reply<(CtxUser, string)>): (Session, CallResult) {
    SignIn(s, reply, "Login failed")
  }

  function RegisterCall(s: Session, reply: Reply<(CtxUser, string)>): (Session, CallResult) {
    SignIn(s, reply, "Registration failed")
  }

  /** `logout`: whatever the server answers, the token is removed and the
      state signs out. */
  function LogoutCall(s: Session): (r: Session)
    ensures r.storedToken.None? && r.state.user.None? && !r.state.isAuthenticated
    ensures FlagsMatch(r.state)
  {
    Session(Reduce(s.state, Logout), None)
  }

  /** `changePassword`: the session is untouched; success carries the
      server's message. */
  function ChangePassword(reply: Reply<Option<string>>): (r: CallResult)
    ensures r.Succeeded? <==> reply.Answered?
    ensures r.Succeeded? ==> r.message == reply.data
    ensures r.Failed? ==> r.error != ""
  {
    match reply
    case Answered(m) => Succeeded(m)
    case Rejected(m) => Failed(MessageOr(m, "Password change failed"))
  }

  /** Signing in then out from any session leaves no token and no user,
      and a failed sign-in leaves the session as it was. */
  lemma SignInThenOut(s: Session, reply: Reply<(CtxUser, string)>)
    ensures LogoutCall(LoginCall(s, reply).0) == LogoutCall(s)
    ensures reply.Rejected? ==> RegisterCall(s, reply).0 == s
  {
  }
}
