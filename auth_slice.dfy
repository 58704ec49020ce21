/**
  The session store slice (src/store/slices/authSlice.js): who is signed in, the token, the
  loading and error flags, whether the user counts as authenticated, and whether the start-up
  session check has finished.
 */
module AuthSlice {

  import opened Wrappers

  /** A user record as the server sends it; its contents are opaque here. */
  datatype User = User(name: string, email: string)

  /** The reply to a login: `{user, token}`, either possibly absent. */
  datatype LoginReply = LoginReply(user: Option<User>, token: Option<string>)

  /**
    The reply to a registration: the reply itself read as a user (`payload`), and its
    `user` and `token` fields, possibly absent.
   */
  datatype RegisterReply = RegisterReply(asUser: User, user: Option<User>, token: Option<string>)

  /** Every action the slice reacts to. */
  datatype AuthAction =
    | Logout
    | ClearError
    | LoginPending | LoginFulfilled(login: LoginReply) | LoginRejected(loginError: Option<string>)
    | RegisterPending | RegisterFulfilled(registered: RegisterReply) | RegisterRejected(registerError: Option<string>)
    | CheckPending | CheckFulfilled(me: Option<User>) | CheckRejected
    | ProfilePending | ProfileFulfilled(profile: User) | ProfileRejected(profileError: Option<string>)

  class AuthStore {
    var user: Option<User>
    var token: Option<string>
    var loading: bool
    var error: Option<string>
    var isAuthenticated: bool
    var isInitialized: bool

    /** `initialState`: nobody signed in, every flag false. */
    constructor ()
      ensures user == None && token == None && error == None
      ensures !loading && !isAuthenticated && !isInitialized
    {
      user := None;
      token := None;
      loading := false;
      error := None;
      isAuthenticated := false;
      isInitialized := false;
    }

    /** `logout`: forget the user and the token; loading, error and initialisation stay. */
    method Logout()
      modifies this
      ensures user == None && token == None && !isAuthenticated
      ensures loading == old(loading) && error == old(error) && isInitialized == old(isInitialized)
    {
      user := None;
      token := None;
      isAuthenticated := false;
    }

    /** `clearError`: only the error changes. */
    method ClearError()
      modifies this
      ensures error == None
      ensures user == old(user) && token == old(token) && loading == old(loading)
      ensures isAuthenticated == old(isAuthenticated) && isInitialized == old(isInitialized)
    {
      error := None;
    }

    /** The pending case of login, registration and profile update. */
    method RequestPending()
      modifies this
      ensures loading && error == None
      ensures user == old(user) && token == old(token)
      ensures isAuthenticated == old(isAuthenticated) && isInitialized == old(isInitialized)
    {
      loading := true;
      error := None;
    }

    /** `login.fulfilled`: user and token from the reply, authenticated. */
    method LoginFulfilled(reply: LoginReply)
      modifies this
      ensures !loading && user == reply.user && token == reply.token && isAuthenticated
      ensures error == old(error) && isInitialized == old(isInitialized)
    {
      loading := false;
      user := reply.user;
      token := reply.token;
      isAuthenticated := true;
    }

    /** `login.rejected`: the error is stored and the user is not authenticated. */
    method LoginRejected(payload: Option<string>)
      modifies this
      ensures !loading && error == payload && !isAuthenticated
      ensures user == old(user) && token == old(token) && isInitialized == old(isInitialized)
    {
      loading := false;
      error := payload;
      isAuthenticated := false;
    }

    /** `register.fulfilled`: `user = payload.user || payload`, token from the reply, authenticated. */
    method RegisterFulfilled(reply: RegisterReply)
      modifies this
      ensures !loading && isAuthenticated && token == reply.token
      ensures user == Some(if reply.user.Some? then reply.user.value else reply.asUser)
      ensures error == old(error) && isInitialized == old(isInitialized)
    {
      loading := false;
      user := Some(if reply.user.Some? then reply.user.value else reply.asUser);
      token := reply.token;
      isAuthenticated := true;
    }

    /** `register.rejected` and `updateProfile.rejected`: the error is stored; authentication is untouched. */
    method RequestRejected(payload: Option<string>)
      modifies this
      ensures !loading && error == payload
      ensures user == old(user) && token == old(token)
      ensures isAuthenticated == old(isAuthenticated) && isInitialized == old(isInitialized)
    {
      loading := false;
      error := payload;
    }

    /** `checkAuthStatus.pending`: only the loading flag. */
    method CheckPending()
      modifies this
      ensures loading
      ensures user == old(user) && token == old(token) && error == old(error)
      ensures isAuthenticated == old(isAuthenticated) && isInitialized == old(isInitialized)
    {
      loading := true;
    }

    /** `checkAuthStatus.fulfilled`: the user from the reply, authenticated, initialised; the token stays. */
    method CheckFulfilled(me: Option<User>)
      modifies this
      ensures !loading && user == me && isAuthenticated && isInitialized
      ensures token == old(token) && error == old(error)
    {
      loading := false;
      user := me;
      isAuthenticated := true;
      isInitialized := true;
    }

    /** `checkAuthStatus.rejected`: not authenticated, but initialised. */
    method CheckRejected()
      modifies this
      ensures !loading && !isAuthenticated && isInitialized
      ensures user == old(user) && token == old(token) && error == old(error)
    {
      loading := false;
      isAuthenticated := false;
      isInitialized := true;
    }

    /** `updateProfile.fulfilled`: only the user is replaced (and loading cleared). */
    method ProfileFulfilled(u: User)
      modifies this
      ensures !loading && user == Some(u)
      ensures token == old(token) && error == old(error)
      ensures isAuthenticated == old(isAuthenticated) && isInitialized == old(isInitialized)
    {
      loading := false;
      user := Some(u);
    }

    /**
      The slice's reducer: one action, one case. Once the session check has finished it stays
      finished, since no case sets `isInitialized` back to false, and both outcomes of the
      check set it.
     */
    method Dispatch(a: AuthAction)
      modifies this
      ensures old(isInitialized) ==> isInitialized
      ensures a.CheckFulfilled? || a.CheckRejected? ==> isInitialized
      ensures !(a.CheckFulfilled? || a.CheckRejected?) ==> isInitialized == old(isInitialized)
      ensures a.RegisterRejected? || a.ProfileFulfilled? || a.ProfileRejected? || a.ClearError? ==>
        isAuthenticated == old(isAuthenticated)
    {
      match a
      case Logout => Logout();
      case ClearError => ClearError();
      case LoginPending => RequestPending();
      case LoginFulfilled(reply) => LoginFulfilled(reply);
      case LoginRejected(payload) => LoginRejected(payload);
      case RegisterPending => RequestPending();
      case RegisterFulfilled(reply) => RegisterFulfilled(reply);
      case RegisterRejected(payload) => RequestRejected(payload);
      case CheckPending => CheckPending();
      case CheckFulfilled(me) => CheckFulfilled(me);
      case CheckRejected => CheckRejected();
      case ProfilePending => RequestPending();
      case ProfileFulfilled(u) => ProfileFulfilled(u);
      case ProfileRejected(payload) => RequestRejected(payload);
    }
  }
}
