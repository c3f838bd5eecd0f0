/**
 * The authentication slice: a small state machine over the signed-in user,
 * the session token, the authenticated flag, the loading flag and the last
 * error. Browser storage is a ghost map from keys to strings; the initial
 * state reads the stored token from it, and logging in, verifying an OTP,
 * setting a token and logging out write it.
 */
module Auth {
  import opened Wrappers
  import opened Thunks

  datatype User = User(id: string, email: string, name: string, phone: Option<string>)

  /** The `user` and `token` fields of a login or OTP-verification `data` object. */
  datatype Session = Session(user: Option<User>, token: Option<string>)

  datatype AuthThunk = LoginUser | RegisterUser | SendOTP | VerifyOTP | GetUserProfile

  /** The thunks whose guard is `response.status && response.data`. */
  predicate NeedsData(t: AuthThunk)
  {
    t == LoginUser || t == GetUserProfile
  }

  function Fallback(t: AuthThunk): string
  {
    match t
    case LoginUser => "Login failed"
    case RegisterUser => "Registration failed"
    case SendOTP => "Failed to send OTP"
    case VerifyOTP => "OTP verification failed"
    case GetUserProfile => "Failed to get user profile"
  }

  /**
   * Each thunk's shape: `loginUser`, `verifyOTP` and `getUserProfile` return
   * `response.data`, the other two the whole envelope. `verifyOTP` fulfils
   * on `status` alone, so its data may be absent.
   */
  function Shape(t: AuthThunk): (sh: ThunkShape)
    ensures sh.needsData <==> NeedsData(t)
    ensures sh.returned == ResponseData <==> t in {LoginUser, VerifyOTP, GetUserProfile}
    ensures sh.returned != ItsArgument
    ensures sh.fallback == Fallback(t) && sh.fallback != ""
  {
    var returned := if t in {LoginUser, VerifyOTP, GetUserProfile} then ResponseData else WholeResponse;
    ThunkShape(NeedsData(t), returned, Fallback(t))
  }

  /** `loginUser` fulfils with present data exactly when status and data are truthy, else rejects with the message or "Login failed". */
  lemma LoginClassification(resp: Response<Session>)
    ensures Settle(Shape(LoginUser), resp, "").Fulfilled? <==> resp.status && resp.data.Some?
    ensures Settle(Shape(LoginUser), resp, "").Fulfilled? ==>
      Settle(Shape(LoginUser), resp, "").payload == Body(Some(resp.data.value))
    ensures Settle(Shape(LoginUser), resp, "").Rejected? ==>
      Settle(Shape(LoginUser), resp, "").reason == if Truthy(resp.message) then resp.message.value else "Login failed"
  {
  }

  /** `verifyOTP` fulfils on `status` alone, handing over `data` even when it is absent. */
  lemma VerifyOTPClassification(resp: Response<Session>)
    ensures Settle(Shape(VerifyOTP), resp, "").Fulfilled? <==> resp.status
    ensures Settle(Shape(VerifyOTP), resp, "").Fulfilled? ==> Settle(Shape(VerifyOTP), resp, "").payload == Body(resp.data)
  {
  }

  const TokenKey := "token"
  const RememberMeKey := "rememberMe"

  /** `getUserToken`: `localStorage.getItem('token') || ''`. */
  function StoredToken(storage: map<string, string>): string
  {
    if TokenKey in storage then storage[TokenKey] else ""
  }

  /**
   * The storage helpers agree with one another: `getUserToken` after
   * `setUserToken(t)` gives `t`, the remember-me flag does not disturb the
   * token, and after `clearAll` there is no token.
   */
  lemma TokenStorageRoundTrip(storage: map<string, string>, t: string, flag: string)
    ensures StoredToken(storage[TokenKey := t]) == t
    ensures StoredToken(storage[RememberMeKey := flag]) == StoredToken(storage)
    ensures StoredToken(map[]) == ""
  {
  }

  /** What `localStorage.setItem` stores for a token that may be `undefined`. */
  function TokenText(token: Option<string>): string
  {
    if token.Some? then token.value else "undefined"
  }

  /** `payload?.user && payload?.token`: the OTP answer carries a whole session. */
  predicate Authenticates(payload: Option<Session>)
  {
    payload.Some? && payload.value.user.Some? && Truthy(payload.value.token)
  }

  class AuthStore {
    var user: Option<User>
    var token: Option<string>
    var isLoading: bool
    var error: Option<string>
    var isAuthenticated: bool
    /** The browser's `localStorage`, which the thunks and reducers write. */
    var storage: map<string, string>

    /** `initialState`, read from the browser's storage `saved`. */
    constructor (saved: map<string, string>)
      ensures user == None && token == Some(StoredToken(saved)) && !isLoading && error == None
      ensures isAuthenticated <==> StoredToken(saved) != ""
      ensures storage == saved
    {
      user := None;
      token := Some(StoredToken(saved));
      isLoading := false;
      error := None;
      isAuthenticated := StoredToken(saved) != "";
      storage := saved;
    }

    // --- thunks that write storage ---------------------------------------

    /** The `loginUser` thunk: on success it stores the token and, if asked, the remember-me flag. */
    method LoginUserThunk(resp: Response<Session>, rememberMe: bool) returns (s: Settlement<Session>)
      modifies this`storage
      ensures s.Fulfilled? <==> resp.status && resp.data.Some?
      ensures s.Fulfilled? ==> s.payload == resp.data.value
      ensures s.Fulfilled? && !rememberMe ==> storage == old(storage)[TokenKey := TokenText(resp.data.value.token)]
      ensures s.Fulfilled? && rememberMe ==>
        storage == old(storage)[TokenKey := TokenText(resp.data.value.token)][RememberMeKey := "true"]
      ensures s.Rejected? ==> s.reason == Reason(resp.message, Fallback(LoginUser)) && storage == old(storage)
    {
      var c := Settle(Shape(LoginUser), resp, "");
      if c.Fulfilled? {
        storage := storage[TokenKey := TokenText(resp.data.value.token)];
        if rememberMe {
          storage := storage[RememberMeKey := "true"];
        }
        s := Settlement.Fulfilled(resp.data.value);
      } else {
        s := Settlement.Rejected(c.reason);
      }
    }

    /** The `verifyOTP` thunk: on success it stores the token if one came back; its payload may be absent. */
    method VerifyOTPThunk(resp: Response<Session>) returns (s: Settlement<Option<Session>>)
      modifies this`storage
      ensures s.Fulfilled? <==> resp.status
      ensures s.Fulfilled? ==> s.payload == resp.data
      ensures s.Fulfilled? && resp.data.Some? && Truthy(resp.data.value.token) ==>
        storage == old(storage)[TokenKey := resp.data.value.token.value]
      ensures !(s.Fulfilled? && resp.data.Some? && Truthy(resp.data.value.token)) ==> storage == old(storage)
      ensures s.Rejected? ==> s.reason == Reason(resp.message, Fallback(VerifyOTP))
    {
      var c := Settle(Shape(VerifyOTP), resp, "");
      if c.Fulfilled? {
        if resp.data.Some? && Truthy(resp.data.value.token) {
          storage := storage[TokenKey := resp.data.value.token.value];
        }
        s := Settlement.Fulfilled(resp.data);
      } else {
        s := Settlement.Rejected(c.reason);
      }
    }

    // --- reducers ----------------------------------------------------------

    /** Ends the session and clears storage; `isLoading` is left alone. */
    method Logout()
      modifies this`user, this`token, this`isAuthenticated, this`error, this`storage
      ensures user == None && token == None && !isAuthenticated && error == None
      ensures storage == map[]
    {
      user := None;
      token := None;
      isAuthenticated := false;
      error := None;
      storage := map[];
    }

    method ClearError()
      modifies this`error
      ensures error == None
    {
      error := None;
    }

    /** Installs a token and marks the session authenticated; the user is left alone. */
    method SetToken(t: string)
      modifies this`token, this`isAuthenticated, this`storage
      ensures token == Some(t) && isAuthenticated
      ensures storage == old(storage)[TokenKey := t]
    {
      token := Some(t);
      isAuthenticated := true;
      storage := storage[TokenKey := t];
    }

    /** The `pending` case: every thunk but `getUserProfile` also clears the error. */
    method Pending(t: AuthThunk)
      modifies this`isLoading, this`error
      ensures isLoading
      ensures error == if t == GetUserProfile then old(error) else None
    {
      isLoading := true;
      if t != GetUserProfile {
        error := None;
      }
    }

    /** The `rejected` case: a failed login also drops the authenticated flag. */
    method Rejected(t: AuthThunk, reason: string)
      modifies this`isLoading, this`error, this`isAuthenticated
      ensures !isLoading && error == Some(reason)
      ensures isAuthenticated == if t == LoginUser then false else old(isAuthenticated)
    {
      isLoading := false;
      error := Some(reason);
      if t == LoginUser {
        isAuthenticated := false;
      }
    }

    method LoginUserFulfilled(data: Session)
      modifies this`isLoading, this`user, this`token, this`isAuthenticated, this`error
      ensures !isLoading && user == data.user && token == data.token && isAuthenticated && error == None
    {
      isLoading := false;
      user := data.user;
      token := data.token;
      isAuthenticated := true;
      error := None;
    }

    /** The `fulfilled` case of `registerUser` and `sendOTP`: the session is not touched. */
    method Acknowledged(t: AuthThunk)
      requires t == RegisterUser || t == SendOTP
      modifies this`isLoading, this`error
      ensures !isLoading && error == None
    {
      isLoading := false;
      error := None;
    }

    /** Authenticates only when the answer carries both a user and a token. */
    method VerifyOTPFulfilled(payload: Option<Session>)
      modifies this`isLoading, this`error, this`user, this`token, this`isAuthenticated
      ensures !isLoading && error == None
      ensures Authenticates(payload) ==> user == payload.value.user && token == payload.value.token && isAuthenticated
      ensures !Authenticates(payload) ==>
        user == old(user) && token == old(token) && isAuthenticated == old(isAuthenticated)
    {
      isLoading := false;
      error := None;
      if Authenticates(payload) {
        user := payload.value.user;
        token := payload.value.token;
        isAuthenticated := true;
      }
    }

    method GetUserProfileFulfilled(profile: User)
      modifies this`isLoading, this`user
      ensures !isLoading && user == Some(profile)
    {
      isLoading := false;
      user := Some(profile);
    }
  }

  /** A rejected login ends an authenticated session's flag even though user and token stay. */
  method RejectedLoginDropsFlag(a: AuthStore, reason: string)
    modifies a`isLoading, a`error, a`isAuthenticated
    ensures !a.isAuthenticated && a.error == Some(reason)
    ensures a.user == old(a.user) && a.token == old(a.token)
  {
    a.Pending(LoginUser);
    a.Rejected(LoginUser, reason);
  }

  /**
   * One login round: the pending case, the thunk, then its fulfilled or
   * rejected case. On success the store holds the session and storage holds
   * its token; on failure storage and the session fields are untouched.
   */
  method LoginRound(a: AuthStore, resp: Response<Session>, rememberMe: bool)
    modifies a`isLoading, a`error, a`user, a`token, a`isAuthenticated, a`storage
    ensures !a.isLoading
    ensures resp.status && resp.data.Some? ==>
      && a.isAuthenticated && a.error == None
      && a.user == resp.data.value.user && a.token == resp.data.value.token
      && StoredToken(a.storage) == TokenText(resp.data.value.token)
      && (rememberMe ==> RememberMeKey in a.storage && a.storage[RememberMeKey] == "true")
    ensures !(resp.status && resp.data.Some?) ==>
      && !a.isAuthenticated && a.error == Some(Reason(resp.message, "Login failed"))
      && a.user == old(a.user) && a.token == old(a.token) && a.storage == old(a.storage)
  {
    a.Pending(LoginUser);
    var s := a.LoginUserThunk(resp, rememberMe);
    match s
    case Fulfilled(data) => a.LoginUserFulfilled(data);
    case Rejected(reason) => a.Rejected(LoginUser, reason);
  }

  /** A page reload after `setToken(t)`: the rebuilt store has token `t`, authenticated exactly when `t` is non-empty. */
  method ReloadAfterSetToken(a: AuthStore, t: string) returns (b: AuthStore)
    modifies a`token, a`isAuthenticated, a`storage
    ensures b.token == Some(t) && (b.isAuthenticated <==> t != "") && b.user == None
  {
    a.SetToken(t);
    b := new AuthStore(a.storage);
  }

  /** A page reload after `logout`: the rebuilt store has the empty token and is not authenticated. */
  method ReloadAfterLogout(a: AuthStore) returns (b: AuthStore)
    modifies a`user, a`token, a`isAuthenticated, a`error, a`storage
    ensures b.token == Some("") && !b.isAuthenticated && b.user == None
  {
    a.Logout();
    b := new AuthStore(a.storage);
  }

  /**
   * A page reload after a successful login restores the authenticated flag
   * from storage whenever the stored text is non-empty, which includes a
   * login whose answer had no token: `setItem` then stores "undefined".
   */
  method ReloadAfterLogin(a: AuthStore, resp: Response<Session>, rememberMe: bool) returns (b: AuthStore)
    modifies a`isLoading, a`error, a`user, a`token, a`isAuthenticated, a`storage
    ensures resp.status && resp.data.Some? && resp.data.value.token.Some? ==>
      b.token == a.token && (b.isAuthenticated <==> resp.data.value.token.value != "")
    ensures resp.status && resp.data.Some? && resp.data.value.token.None? ==>
      b.token == Some("undefined") && b.isAuthenticated
  {
    LoginRound(a, resp, rememberMe);
    b := new AuthStore(a.storage);
  }
}
