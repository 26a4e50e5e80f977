/** The session: `authReducer` over the signed-in user, and `login`,
    `register`, `logout` and the start-up check against the registry of
    accounts kept in the browser's key-value store. */
module AuthContext {
  import opened Common

  datatype User = User(id: string, name: string, email: string, avatar: Option<string>)

  datatype AuthState = AuthState(user: Option<User>, isAuthenticated: bool, isLoading: bool, error: Option<string>)

  const InitialState: AuthState := AuthState(None, false, true, None)

  datatype AuthAction =
    | LoggedIn(user: User)
    | LoggedOut
    | AuthLoading(loading: bool)
    | AuthError(message: string)
    | AuthOther(tag: string)

  /** The flag agrees with the presence of a user. */
  predicate Consistent(s: AuthState) {
    s.isAuthenticated <==> s.user.Some?
  }

  /** `authReducer`. */
  function Reduce(s: AuthState, a: AuthAction): (r: AuthState)
    ensures Consistent(s) ==> Consistent(r)
    ensures a.LoggedIn? ==> r.user == Some(a.user) && r.isAuthenticated && !r.isLoading && r.error == None
    ensures a.LoggedOut? ==> r.user == None && !r.isAuthenticated && !r.isLoading && r.error == None
    ensures a.AuthLoading? ==> r == s.(isLoading := a.loading)
    ensures a.AuthError? ==> r.error == Some(a.message) && !r.isLoading
                             && r.user == s.user && r.isAuthenticated == s.isAuthenticated
    ensures a.AuthOther? ==> r == s
  {
    match a
    case LoggedIn(u) => s.(user := Some(u), isAuthenticated := true, isLoading := false, error := None)
    case LoggedOut => s.(user := None, isAuthenticated := false, isLoading := false, error := None)
    case AuthLoading(b) => s.(isLoading := b)
    case AuthError(m) => s.(error := Some(m), isLoading := false)
    case AuthOther(_) => s
  }

  function ReduceAll(s: AuthState, acts: seq<AuthAction>): AuthState
    decreases |acts|
  {
    if acts == [] then s else ReduceAll(Reduce(s, acts[0]), acts[1..])
  }

  /** From the initial state, any sequence of actions keeps the flag and the
      user in step. */
  lemma {:induction false} ReachableConsistent(acts: seq<AuthAction>)
    ensures Consistent(ReduceAll(InitialState, acts))
  {
    ConsistentFrom(InitialState, acts);
  }

  lemma {:induction false} ConsistentFrom(s: AuthState, acts: seq<AuthAction>)
    requires Consistent(s)
    ensures Consistent(ReduceAll(s, acts))
    decreases |acts|
  {
    if acts != [] {
      ConsistentFrom(Reduce(s, acts[0]), acts[1..]);
    }
  }

  // ---------------------------------------------------------------------
  // Accounts

  /** An entry of the registry, keyed by email. */
  datatype UserRecord = UserRecord(id: string, name: string, email: string, password: string)

  const DemoEmail: string := "demo@example.com"
  const DemoPassword: string := "password"
  const DemoUser: User := User("demo", "Demo User", DemoEmail, Some("https://i.pravatar.cc/150?u=demo@example.com"))

  const InvalidCredentials: string := "Invalid email or password"
  const LoginFailed: string := "Login failed. Please try again."
  const AlreadyRegistered: string := "Email already registered"
  const RegistrationFailed: string := "Registration failed. Please try again."

  function AvatarFor(email: string): string {
    "https://i.pravatar.cc/150?u=" + email
  }

  predicate IsDemo(email: string, password: string) {
    email == DemoEmail && password == DemoPassword
  }

  /** `getRegisteredUsers`: the stored registry, or an empty one when none
      is stored; `None` when the stored text does not parse (the call throws). */
  function Registered(registry: Stored<map<string, UserRecord>>): (r: Option<map<string, UserRecord>>)
    ensures r.None? <==> registry.Corrupt?
    ensures registry.Missing? ==> r == Some(map[])
  {
    match registry
    case Missing => Some(map[])
    case Parsed(m) => Some(m)
    case Corrupt => None
  }

  datatype Outcome = Success(user: User) | Failure(message: string)

  /** What `login(email, password)` ends in. The demo account is checked
      before the registry is read. */
  function LoginOutcome(registry: Stored<map<string, UserRecord>>, email: string, password: string): (r: Outcome)
    ensures IsDemo(email, password) ==> r == Success(DemoUser)
    ensures !IsDemo(email, password) ==>
              (r.Success? <==> registry.Parsed? && email in registry.value && registry.value[email].password == password)
    ensures !IsDemo(email, password) && r.Success? ==>
              var rec := registry.value[email];
              r.user == User(rec.id, rec.name, rec.email, Some(AvatarFor(email)))
    ensures !IsDemo(email, password) && r.Failure? ==>
              r.message == (if registry.Corrupt? then LoginFailed else InvalidCredentials)
  {
    if IsDemo(email, password) then Success(DemoUser)
    else
      match Registered(registry)
      case None => Failure(LoginFailed)
      case Some(users) =>
        if email in users && users[email].password == password then
          var rec := users[email];
          Success(User(rec.id, rec.name, rec.email, Some(AvatarFor(email))))
        else Failure(InvalidCredentials)
  }

  datatype Registration = Registration(registry: Stored<map<string, UserRecord>>, outcome: Outcome)

  /** What `register(name, email, password)` ends in, with `id` the clock
      reading that becomes the new account's id, and the registry after it. */
  function RegisterOutcome(registry: Stored<map<string, UserRecord>>, name: string, email: string, password: string, id: string): (r: Registration)
    ensures r.outcome.Failure? <==> registry.Corrupt? || (registry.Parsed? && email in registry.value)
    ensures r.outcome.Failure? ==> r.registry == registry
                                   && r.outcome.message == (if registry.Corrupt? then RegistrationFailed else AlreadyRegistered)
    ensures r.outcome.Success? ==>
              r.outcome.user == User(id, name, email, Some(AvatarFor(email)))
              && r.registry.Parsed?
              && r.registry.value.Keys == Registered(registry).value.Keys + {email}
              && r.registry.value[email] == UserRecord(id, name, email, password)
              && forall e :: e in Registered(registry).value ==> r.registry.value[e] == Registered(registry).value[e]
  {
    match Registered(registry)
    case None => Registration(registry, Failure(RegistrationFailed))
    case Some(users) =>
      if email in users then Registration(registry, Failure(AlreadyRegistered))
      else
        Registration(Parsed(users[email := UserRecord(id, name, email, password)]),
                     Success(User(id, name, email, Some(AvatarFor(email)))))
  }

  /** An account just registered can sign in with the same password and gets
      the same user, unless its email and password are the demo pair, which
      sign in as the demo user instead. */
  lemma RegisterThenLogin(registry: Stored<map<string, UserRecord>>, name: string, email: string, password: string, id: string)
    requires !IsDemo(email, password)
    requires RegisterOutcome(registry, name, email, password, id).outcome.Success?
    ensures var reg := RegisterOutcome(registry, name, email, password, id);
            LoginOutcome(reg.registry, email, password) == reg.outcome
  {
  }

  /** The demo pair signs in as the demo user even when an account with the
      demo email was registered. */
  lemma DemoShadowsRegistration(registry: Stored<map<string, UserRecord>>, name: string, id: string)
    requires id != DemoUser.id
    requires RegisterOutcome(registry, name, DemoEmail, DemoPassword, id).outcome.Success?
    ensures var reg := RegisterOutcome(registry, name, DemoEmail, DemoPassword, id);
            LoginOutcome(reg.registry, DemoEmail, DemoPassword).user.id != reg.outcome.user.id
  {
  }

  // ---------------------------------------------------------------------
  // The provider

  class AuthProvider {
    var state: AuthState
    /** The `registeredUsers` key. */
    var registry: Stored<map<string, UserRecord>>
    /** The `user` key: the session that survives a reload. */
    var storedUser: Stored<User>

    predicate Valid()
      reads this
    {
      Consistent(state)
    }

    constructor (registry: Stored<map<string, UserRecord>>, storedUser: Stored<User>)
      ensures state == InitialState && this.registry == registry && this.storedUser == storedUser
      ensures Valid()
    {
      state := InitialState;
      this.registry := registry;
      this.storedUser := storedUser;
    }

    /** `checkAuth`, run once at start-up: a stored session signs its user
        in; no session, or one that does not parse, signs out. */
    method CheckAuth()
      requires Valid()
      modifies this
      ensures Valid()
      ensures state == Reduce(old(state), if old(storedUser).Parsed? then LoggedIn(old(storedUser).value) else LoggedOut)
      ensures state.isAuthenticated <==> old(storedUser).Parsed?
      ensures registry == old(registry) && storedUser == old(storedUser)
    {
      if storedUser.Parsed? {
        state := Reduce(state, LoggedIn(storedUser.value));
      } else {
        state := Reduce(state, LoggedOut);
      }
    }

    method Login(email: string, password: string)
      requires Valid()
      modifies this
      ensures Valid()
      ensures registry == old(registry)
      ensures match LoginOutcome(old(registry), email, password)
              case Success(u) => state == Reduce(old(state).(isLoading := true), LoggedIn(u)) && storedUser == Parsed(u)
              case Failure(m) => state == Reduce(old(state).(isLoading := true), AuthError(m)) && storedUser == old(storedUser)
    {
      state := Reduce(state, AuthLoading(true));
      match LoginOutcome(registry, email, password)
      case Success(u) =>
        storedUser := Parsed(u);
        state := Reduce(state, LoggedIn(u));
      case Failure(m) =>
        state := Reduce(state, AuthError(m));
    }

    /** `register`, with `id` the clock reading that becomes the account id. */
    method Register(name: string, email: string, password: string, id: string)
      requires Valid()
      modifies this
      ensures Valid()
      ensures var reg := RegisterOutcome(old(registry), name, email, password, id);
              registry == reg.registry
              && match reg.outcome
                 case Success(u) => state == Reduce(old(state).(isLoading := true), LoggedIn(u)) && storedUser == Parsed(u)
                 case Failure(m) => state == Reduce(old(state).(isLoading := true), AuthError(m)) && storedUser == old(storedUser)
    {
      state := Reduce(state, AuthLoading(true));
      var reg := RegisterOutcome(registry, name, email, password, id);
      registry := reg.registry;
      match reg.outcome
      case Success(u) =>
        storedUser := Parsed(u);
        state := Reduce(state, LoggedIn(u));
      case Failure(m) =>
        state := Reduce(state, AuthError(m));
    }

    method Logout()
      requires Valid()
      modifies this
      ensures Valid()
      ensures state == Reduce(old(state), LoggedOut) && storedUser == Missing && registry == old(registry)
    {
      storedUser := Missing;
      state := Reduce(state, LoggedOut);
    }
  }
}
