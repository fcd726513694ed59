/**
 * The authentication slice (src/store/slices/authSlice.ts): four fields that the reducers
 * assign one by one, and the browser's stored token, which some reducers write or remove.
 * Only the entry under the key "token" is touched, so storage is modelled as that one entry.
 */
module AuthSlice {
  import opened Options
  import opened TodosApi

  /** The signed-in user as the slice keeps it. */
  datatype SessionUser = SessionUser(id: string, email: string, name: string)

  class AuthSlice {
    var user: Option<SessionUser>
    var token: Option<string>
    var isAuthenticated: bool
    var isLoading: bool
    /** `localStorage.getItem("token")`: `None` when nothing is stored. */
    var storedToken: Option<string>

    /**
     * The invariant every reducer except `loginStart` re-establishes: the flag says whether a
     * token is held. The initial state need not satisfy it (a stored token is picked up, the
     * flag starts false).
     */
    predicate Synced()
      reads this
    {
      isAuthenticated <==> token.Some?
    }

    /** `initialState`, built when the store module loads with whatever token is stored. */
    constructor(stored: Option<string>)
      ensures user.None? && token == stored && !isAuthenticated && !isLoading
      ensures storedToken == stored
    {
      user := None;
      token := stored;
      isAuthenticated := false;
      isLoading := false;
      storedToken := stored;
    }

    /** `loginStart`: only the loading flag changes. */
    method LoginStart()
      modifies this
      ensures isLoading
      ensures user == old(user) && token == old(token) && isAuthenticated == old(isAuthenticated)
      ensures storedToken == old(storedToken)
    {
      isLoading := true;
    }

    /** `loginSuccess`: take user and token from the payload and store the token. */
    method LoginSuccess(payloadUser: SessionUser, payloadToken: string)
      modifies this
      ensures user == Some(payloadUser) && token == Some(payloadToken)
      ensures isAuthenticated && !isLoading
      ensures storedToken == Some(payloadToken)
      ensures Synced() && token == storedToken
    {
      isLoading := false;
      user := Some(payloadUser);
      token := Some(payloadToken);
      isAuthenticated := true;
      storedToken := Some(payloadToken);
    }

    /** `loginFailure`: clear the session, stop loading, remove the stored token. */
    method LoginFailure()
      modifies this
      ensures user.None? && token.None? && !isAuthenticated && !isLoading
      ensures storedToken.None?
      ensures Synced() && token == storedToken
    {
      isLoading := false;
      user := None;
      token := None;
      isAuthenticated := false;
      storedToken := None;
    }

    /** `logout`: the same clearing as `loginFailure`, but the loading flag is left alone. */
    method Logout()
      modifies this
      ensures user.None? && token.None? && !isAuthenticated
      ensures isLoading == old(isLoading)
      ensures storedToken.None?
      ensures Synced() && token == storedToken
    {
      user := None;
      token := None;
      isAuthenticated := false;
      storedToken := None;
    }

    /**
     * `checkAuth`: adopt the stored token when it is truthy, otherwise drop the token. The user
     * and the loading flag are never touched, and neither is storage, so an empty stored
     * string leaves storage and state disagreeing.
     */
    method CheckAuth()
      modifies this
      ensures TruthyStr(storedToken) ==> token == storedToken && isAuthenticated
      ensures !TruthyStr(storedToken) ==> token.None? && !isAuthenticated
      ensures user == old(user) && isLoading == old(isLoading) && storedToken == old(storedToken)
      ensures Synced()
      ensures token == storedToken <==> storedToken != Some("")
    {
      var stored := storedToken;
      if TruthyStr(stored) {
        token := stored;
        isAuthenticated := true;
      } else {
        token := None;
        isAuthenticated := false;
      }
    }
  }

  /**
   * A page load with a token stored by an earlier `loginSuccess`, followed by `checkAuth`,
   * is authenticated with that token but has no user: the user is not persisted.
   */
  method ReloadAfterLogin(u: SessionUser, t: string) returns (restored: AuthSlice)
    requires t != ""
    ensures restored.isAuthenticated && restored.token == Some(t) && restored.user.None?
  {
    var before := new AuthSlice(None);
    before.LoginSuccess(u, t);
    restored := new AuthSlice(before.storedToken);
    restored.CheckAuth();
  }

  /** After `logout`, a reload followed by `checkAuth` is signed out. */
  method ReloadAfterLogout(s: AuthSlice) returns (restored: AuthSlice)
    modifies s
    ensures !restored.isAuthenticated && restored.token.None? && restored.user.None?
  {
    s.Logout();
    restored := new AuthSlice(s.storedToken);
    restored.CheckAuth();
  }
}
