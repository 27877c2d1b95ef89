/** The session context (lib/contexts/AuthContext.tsx): four pieces of React
    state, the check run on mount, login with its admin-role gate, logout,
    the ten-minute refresh interval and the `useAuth` hook. The interval is
    a flag, set exactly while authenticated, plus a method for one tick. */
module AuthContext {
  import opened Wrappers
  import opened Http
  import opened Browser
  import opened AuthService

  /** The key the mount check reads: not the key the service writes. */
  const ContextTokenKey := "accessToken"

  /** The refresh interval, 10 * 60 * 1000 ms. */
  const RefreshIntervalMs := 600000

  const AdminOnlyMessage := "Accès réservé aux super administrateurs uniquement"
  const OutsideProviderMessage := "useAuth doit être utilisé à l'intérieur d'un AuthProvider"

  /** `checkAuthentication` marks the session authenticated exactly when the
      'accessToken' entry is non-empty and the stored user is an admin. */
  predicate Restores(st: map<string, string>, codec: UserCodec) {
    Has(st, ContextTokenKey) && IsSuperAdmin(st, codec)
  }

  /** What the context's `login` leaves: the error it rethrows (None when it
      resolves), the store, and the user. */
  datatype LoginOutcome = LoginOutcome(thrown: Option<string>, storage: map<string, string>, user: Option<UserInfo>)

  function ContextLogin(st: map<string, string>, credentials: LoginCredentials, reply: Reply<LoginResponse>,
                        now: int, codec: UserCodec): LoginOutcome {
    var step := LoginStep(st, credentials, reply, now, codec);
    if step.result.Failure? then LoginOutcome(Some(step.result.message), step.storage, None)
    else if !IsAdminUser(step.result.value.user) then LoginOutcome(Some(AdminOnlyMessage), Cleared(step.storage), None)
    else LoginOutcome(None, step.storage, Some(step.result.value.user))
  }

  class AuthProvider {
    var isAuthenticated: bool
    var isLoading: bool
    var user: Option<UserInfo>
    var error: Option<string>
    /** The refresh interval is installed. */
    var refreshTimer: bool
    const window: Window
    const codec: UserCodec

    /** The interval effect has run: the timer exists exactly while the
        session is authenticated. */
    predicate Valid()
      reads this
    {
      refreshTimer == isAuthenticated
    }

    constructor (window: Window, codec: UserCodec)
      ensures !isAuthenticated && isLoading && user.None? && error.None?
      ensures Valid() && this.window == window && this.codec == codec
    {
      isAuthenticated := false;
      isLoading := true;
      user := None;
      error := None;
      refreshTimer := false;
      this.window := window;
      this.codec := codec;
    }

    /** The effect keyed on `isAuthenticated`: install the interval when it
        becomes true, clear it when it becomes false. */
    method SyncRefreshTimer()
      modifies this
      ensures Valid()
      ensures isAuthenticated == old(isAuthenticated) && isLoading == old(isLoading)
      ensures user == old(user) && error == old(error)
    {
      refreshTimer := isAuthenticated;
    }

    /** The context's `logout`. */
    method Logout()
      modifies this, window
      ensures !isAuthenticated && user.None? && error.None? && Valid()
      ensures isLoading == old(isLoading)
      ensures window.storage == Cleared(old(window.storage)) && window.sent == old(window.sent)
      ensures window.redirectedHome == old(window.redirectedHome) && window.reloadRequested == old(window.reloadRequested)
    {
      AuthService.Logout(window);
      isAuthenticated := false;
      user := None;
      error := None;
      SyncRefreshTimer();
    }

    /** `checkAuthentication`, run once on mount. */
    method CheckAuthentication()
      modifies this, window
      ensures !isLoading && Valid()
      ensures isAuthenticated == Restores(old(window.storage), codec)
      ensures !Has(old(window.storage), ContextTokenKey) ==>
                window.storage == old(window.storage) && user == old(user) && error == old(error)
      ensures Has(old(window.storage), ContextTokenKey) && !IsSuperAdmin(old(window.storage), codec) ==>
                window.storage == Cleared(old(window.storage)) && user.None? && error.None?
      ensures Restores(old(window.storage), codec) ==>
                window.storage == old(window.storage) && user == GetUserInfo(old(window.storage), codec) &&
                error == old(error)
      ensures window.sent == old(window.sent)
      ensures window.redirectedHome == old(window.redirectedHome) && window.reloadRequested == old(window.reloadRequested)
    {
      var token := window.GetItem(ContextTokenKey);
      if token.None? || token.value == "" {
        isAuthenticated := false;
        isLoading := false;
        SyncRefreshTimer();
        return;
      }
      var userInfo := GetUserInfo(window.storage, codec);
      if !IsSuperAdmin(window.storage, codec) {
        Logout();
      } else {
        user := userInfo;
        isAuthenticated := true;
        SyncRefreshTimer();
      }
      isLoading := false;
    }

    /** The context's `login(credentials)`; `thrown` is the error it
        rethrows. */
    method Login(credentials: LoginCredentials, reply: Reply<LoginResponse>, now: int) returns (thrown: Option<string>)
      modifies this, window
      ensures var o := ContextLogin(old(window.storage), credentials, reply, now, codec);
              thrown == o.thrown && window.storage == o.storage && user == o.user &&
              error == o.thrown && isAuthenticated == o.thrown.None?
      ensures window.sent == old(window.sent) + [LoginRequest(credentials)]
      ensures !isLoading && Valid()
      ensures window.redirectedHome == old(window.redirectedHome) && window.reloadRequested == old(window.reloadRequested)
    {
      isLoading := true;
      error := None;
      var response := AuthService.Login(window, credentials, reply, now, codec);
      if response.Success? && !IsAdminUser(response.value.user) {
        AuthService.Logout(window);
        thrown := Some(AdminOnlyMessage);
      } else if response.Success? {
        isAuthenticated := true;
        user := Some(response.value.user);
        thrown := None;
      } else {
        thrown := Some(response.message);
      }
      if thrown.Some? {
        error := thrown;
        isAuthenticated := false;
        user := None;
      }
      isLoading := false;
      SyncRefreshTimer();
    }

    /** One tick of the refresh interval: refresh, and log out if that fails. */
    method RefreshTimerFires(reply: Reply<TokenGrant>, now: int)
      requires refreshTimer
      modifies this, window
      ensures var step := RefreshStep(old(window.storage), reply, now);
              window.sent == old(window.sent) + step.sent &&
              (step.result.Success? ==>
                 window.storage == step.storage && isAuthenticated == old(isAuthenticated) &&
                 user == old(user) && error == old(error)) &&
              (step.result.Failure? ==>
                 window.storage == Cleared(old(window.storage)) && !isAuthenticated && !refreshTimer &&
                 user.None? && error.None?)
      ensures isLoading == old(isLoading) && refreshTimer == isAuthenticated
      ensures window.redirectedHome == old(window.redirectedHome) && window.reloadRequested == old(window.reloadRequested)
    {
      var refreshed := RefreshAccessToken(window, reply, now);
      if refreshed.Failure? {
        ghost var st := window.storage;
        Logout();
        ClearedOnce(old(window.storage), st);
      } else {
        SyncRefreshTimer();
      }
    }
  }

  /** A store a failed refresh left behind clears to the same store as the
      one before the refresh. */
  lemma ClearedOnce(before: map<string, string>, after: map<string, string>)
    requires after == before || after == Cleared(before)
    ensures Cleared(after) == Cleared(before)
  {
  }

  /** `useAuth()`: the context of the enclosing provider, or an error outside
      any provider. */
  function UseAuth(context: Option<AuthProvider>): (r: Result<AuthProvider>)
    ensures r.Failure? <==> context.None?
    ensures r.Failure? ==> r.message == OutsideProviderMessage
    ensures r.Success? ==> r.value == context.value
  {
    match context
    case None => Failure(OutsideProviderMessage)
    case Some(p) => Success(p)
  }

  // ---------------------------------------------------------------- lemmas

  /** The service never writes 'accessToken', so a session created by a
      login is not restored by the mount check unless that entry was already
      there. */
  lemma LoginSessionNotRestored(st: map<string, string>, data: LoginResponse, now: int, codec: UserCodec)
    requires !Has(st, ContextTokenKey)
    ensures !Restores(Saved(st, data, now, codec), codec)
  {
    var saved := Saved(st, data, now, codec);
    assert ContextTokenKey in saved <==> ContextTokenKey in st;
    assert ContextTokenKey in st ==> saved[ContextTokenKey] == st[ContextTokenKey];
  }

  /** Without an 'accessToken' entry nothing is restored, whatever else the
      store holds. */
  lemma NoContextTokenNoSession(st: map<string, string>, codec: UserCodec)
    ensures !Has(st, ContextTokenKey) ==> !Restores(st, codec)
    ensures Restores(st, codec) ==> GetUserInfo(st, codec).Some? && IsAdminUser(GetUserInfo(st, codec).value)
  {
  }

  /** A login whose user is neither SUPER_ADMIN nor ADMIN is rejected with
      the admin-only message and leaves no session entry in the store. */
  lemma NonAdminLoginRejected(st: map<string, string>, credentials: LoginCredentials, reply: Reply<LoginResponse>,
                              now: int, codec: UserCodec)
    requires LoginStep(st, credentials, reply, now, codec).result.Success?
    requires !IsAdminUser(LoginStep(st, credentials, reply, now, codec).result.value.user)
    ensures var o := ContextLogin(st, credentials, reply, now, codec);
            o.thrown == Some(AdminOnlyMessage) && o.user.None? && o.storage == Cleared(st) &&
            forall k :: k in SessionKeys ==> k !in o.storage
  {
    var data := LoginStep(st, credentials, reply, now, codec).result.value;
    ClearedAfterSave(st, data, now, codec);
  }

  /** A login whose user holds an admin role resolves with that user and the
      saved session. */
  lemma AdminLoginAccepted(st: map<string, string>, credentials: LoginCredentials, reply: Reply<LoginResponse>,
                           now: int, codec: UserCodec)
    requires LoginStep(st, credentials, reply, now, codec).result.Success?
    requires IsAdminUser(LoginStep(st, credentials, reply, now, codec).result.value.user)
    ensures var data := LoginStep(st, credentials, reply, now, codec).result.value;
            var o := ContextLogin(st, credentials, reply, now, codec);
            o.thrown.None? && o.user == Some(data.user) && o.storage == Saved(st, data, now, codec)
  {
  }

  /** A failed login rethrows the service's message and leaves the store as
      it was. */
  lemma FailedLoginRethrown(st: map<string, string>, credentials: LoginCredentials, reply: Reply<LoginResponse>,
                            now: int, codec: UserCodec)
    requires LoginStep(st, credentials, reply, now, codec).result.Failure?
    ensures var o := ContextLogin(st, credentials, reply, now, codec);
            o.thrown == Some(LoginStep(st, credentials, reply, now, codec).result.message) &&
            o.user.None? && o.storage == st
  {
  }

  /** The context login ends authenticated exactly for a successful response
      whose user is an admin. */
  lemma ContextLoginIff(st: map<string, string>, credentials: LoginCredentials, reply: Reply<LoginResponse>,
                        now: int, codec: UserCodec)
    ensures ContextLogin(st, credentials, reply, now, codec).thrown.None? <==>
            (reply.Received? && reply.response.Accepted? && reply.response.body.Json? &&
             IsAdminUser(reply.response.body.value.user))
  {
  }
}
