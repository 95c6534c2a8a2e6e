/**
 * The demo authentication provider: the signed-in user, the registered-users
 * table (`mock_registered_users`) and the persisted session
 * (`mock_current_user`), with sign-up, sign-in, sign-out and the role flags.
 */
module Auth {
  import opened Wrappers
  import opened Records
  import opened Storage
  import Text

  /** A registered-users entry: the user record stored together with its password. */
  datatype Registration = Registration(user: User, password: string)

  const ShortPasswordError := "Password must be at least 8 characters"
  const TakenEmailError := "This email is already registered"
  const BadCredentialsError := "Invalid email or password. Try demo@admin.com / demo123"

  /** Why a sign-up is refused, checked in order: a short password, then a demo account's e-mail. */
  function SignUpError(email: string, password: string): (r: Option<string>)
    ensures r == Some(ShortPasswordError) <==> Text.JsLength(password) < 8
    ensures r == Some(TakenEmailError) <==> Text.JsLength(password) >= 8 && email in DemoAccounts
    ensures r == None <==> Text.JsLength(password) >= 8 && email !in DemoAccounts
  {
    if Text.JsLength(password) < 8 then Some(ShortPasswordError)
    else if email in DemoAccounts then Some(TakenEmailError)
    else None
  }

  /** The viewer account a successful sign-up creates. */
  function NewViewer(id: string, email: string, fullName: string): (u: User)
    ensures u.role == Viewer && !u.hasActiveSubscription && u.email == email && u.id == id
  {
    User(id, email, fullName, Viewer, false)
  }

  /**
   * Who a sign-in authenticates as: a demo account with the demo password,
   * else a registered account whose stored password matches, else nobody.
   */
  function Authenticate(registered: map<string, Registration>, email: string, password: string): (r: Option<User>)
    ensures email in DemoAccounts && password == DemoPassword ==> r == Some(DemoAccounts[email])
    ensures r.Some? && !(email in DemoAccounts && password == DemoPassword) ==>
      email in registered && registered[email].password == password && r.value == registered[email].user
    ensures r.None? <==> !(email in DemoAccounts && password == DemoPassword)
                         && !(email in registered && registered[email].password == password)
  {
    if email in DemoAccounts && password == DemoPassword then Some(DemoAccounts[email])
    else if email in registered && registered[email].password == password then Some(registered[email].user)
    else None
  }

  /**
   * After a successful sign-up the same credentials sign in as the new viewer,
   * and any other password for that e-mail is refused.
   */
  lemma SignUpThenSignIn(registered: map<string, Registration>, email: string, password: string,
                         fullName: string, id: string, other: string)
    requires SignUpError(email, password) == None
    requires other != password
    ensures var after := registered[email := Registration(NewViewer(id, email, fullName), password)];
      Authenticate(after, email, password) == Some(NewViewer(id, email, fullName))
      && Authenticate(after, email, other) == None
  {
  }

  /** The role flags: admin covers both admin roles; no user has no subscription. */
  function IsAdminOf(user: Option<User>): (b: bool)
    ensures b <==> user.Some? && (user.value.role == Admin || user.value.role == SuperAdmin)
  {
    match user
    case None => false
    case Some(u) => u.role == Admin || u.role == SuperAdmin
  }

  function IsSuperAdminOf(user: Option<User>): (b: bool)
    ensures b <==> user.Some? && user.value.role == SuperAdmin
    ensures b ==> IsAdminOf(user)
  {
    user.Some? && user.value.role == SuperAdmin
  }

  function HasSubscriptionOf(user: Option<User>): (b: bool)
    ensures user.None? ==> !b
    ensures user.Some? ==> b == user.value.hasActiveSubscription
  {
    user.Some? && user.value.hasActiveSubscription
  }

  class AuthProvider {
    var user: Option<User>
    var loading: bool
    /** `mock_registered_users`, keyed by e-mail. */
    var registered: map<string, Registration>
    /** `mock_current_user`: the persisted session. */
    var session: Option<User>

    constructor (registered: map<string, Registration>, session: Option<User>)
      ensures user == None && loading
      ensures this.registered == registered && this.session == session
    {
      user := None;
      loading := true;
      this.registered := registered;
      this.session := session;
    }

    /** The mount effect: seed the store, restore a persisted session, stop loading. */
    method Mount(store: LocalStore)
      modifies this, store
      ensures store.entries == Initialized(old(store.entries), store.clock)
      ensures user == if session.Some? then session else old(user)
      ensures !loading && registered == old(registered) && session == old(session)
    {
      store.InitializeMockData();
      if session.Some? {
        user := session;
      }
      loading := false;
    }

    /** `signUp`: refuse with a message, or register a fresh viewer (replacing any entry for the e-mail). */
    method SignUp(email: string, password: string, fullName: string, newId: string) returns (error: Option<string>)
      modifies this
      ensures error == SignUpError(email, password)
      ensures error.Some? ==> registered == old(registered)
      ensures error.None? ==> registered == old(registered)[email := Registration(NewViewer(newId, email, fullName), password)]
      ensures user == old(user) && session == old(session) && loading == old(loading)
    {
      error := SignUpError(email, password);
      if error.None? {
        registered := registered[email := Registration(NewViewer(newId, email, fullName), password)];
      }
    }

    /** `signIn`: on success the user and the persisted session become the authenticated account. */
    method SignIn(email: string, password: string) returns (error: Option<string>)
      modifies this
      ensures var who := Authenticate(old(registered), email, password);
        (who.Some? ==> error == None && user == who && session == who)
        && (who.None? ==> error == Some(BadCredentialsError) && user == old(user) && session == old(session))
      ensures registered == old(registered) && loading == old(loading)
    {
      var who := Authenticate(registered, email, password);
      if who.Some? {
        user := who;
        session := who;
        error := None;
      } else {
        error := Some(BadCredentialsError);
      }
    }

    /** `signOut`: nobody is signed in and the persisted session is removed. */
    method SignOut()
      modifies this
      ensures user == None && session == None
      ensures registered == old(registered) && loading == old(loading)
    {
      user := None;
      session := None;
    }

    function IsAdmin(): bool reads this { IsAdminOf(user) }
    function IsSuperAdmin(): bool reads this { IsSuperAdminOf(user) }
    function HasActiveSubscription(): bool reads this { HasSubscriptionOf(user) }
  }
}
