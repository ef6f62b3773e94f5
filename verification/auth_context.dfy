/** The client's authentication context (citizen/src/contexts/AuthContext.tsx): the pure
    `authReducer`, and the provider's `login`, `register`, `logout`, `clearError` and
    `verifyToken` effects, which write `localStorage` and dispatch actions in a fixed order.

    The HTTP calls are abstracted: each effect receives what its request answered. */
module AuthContext {
  import opened Common

  /** The client's User type. Its `role` field, always "citizen" on this client, and the
      notification and display preferences are left out, since nothing here reads them. */
  datatype User = User(
    id: string, firstName: string, lastName: string, email: string,
    avatar: Option<string>, isEmailVerified: bool)

  datatype AuthState = AuthState(
    user: Option<User>, token: Option<string>,
    isAuthenticated: bool, isLoading: bool, error: Option<string>)

  /** The six action types, and any other `type` string the reducer may be handed. */
  datatype AuthAction =
    | AuthStart
    | AuthSuccess(user: User, token: string)
    | AuthFailure(message: string)
    | Logout
    | ClearError
    | SetLoading(loading: bool)
    | Unknown(kind: string)

  /** What a request answered: the response data, or an error with the server's `message`
      when the response carried one. */
  datatype ApiReply<+T> = Answered(data: T) | Failed(serverMessage: Option<string>)

  datatype LoginData = LoginData(user: User, token: string, refreshToken: string)

  /** One observable step of a provider effect, in the order it happens. */
  datatype Effect =
    | Stored(key: string, value: string)
    | Removed(key: string)
    | Dispatched(action: AuthAction)
    | Navigated(path: string)

  const TokenKey := "token"
  const RefreshTokenKey := "refreshToken"
  const NetworkError := "Network error. Please try again."

  /** The invariant the UI relies on: an authenticated state has a user and a token. */
  predicate Consistent(s: AuthState) {
    s.isAuthenticated ==> s.user.Some? && s.token.Some?
  }

  /** `initialState`: not authenticated, loading, with whatever token storage held. */
  function InitialState(storedToken: Option<string>): (s: AuthState)
    ensures Consistent(s)
    ensures !s.isAuthenticated && s.isLoading && s.user.None? && s.error.None?
    ensures s.token == storedToken
  {
    AuthState(None, storedToken, false, true, None)
  }

  /** `authReducer`. Every action keeps the state consistent. */
  function Reduce(s: AuthState, a: AuthAction): (r: AuthState)
    ensures Consistent(s) ==> Consistent(r)
  {
    match a
    case AuthStart => s.(isLoading := true, error := None)
    case AuthSuccess(u, t) =>
      s.(isLoading := false, isAuthenticated := true, user := Some(u), token := Some(t), error := None)
    case AuthFailure(m) =>
      s.(isLoading := false, isAuthenticated := false, user := None, token := None, error := Some(m))
    case Logout => s.(isAuthenticated := false, user := None, token := None, error := None)
    case ClearError => s.(error := None)
    case SetLoading(b) => s.(isLoading := b)
    case Unknown(_) => s
  }

  /** `AUTH_START` raises the loading flag, clears the error and leaves the session fields. */
  lemma AuthStartFrame(s: AuthState)
    ensures var r := Reduce(s, AuthStart);
      && r.isLoading && r.error.None?
      && r.user == s.user && r.token == s.token && r.isAuthenticated == s.isAuthenticated
  {
  }

  /** `AUTH_SUCCESS` installs the payload's user and token and ends loading without error. */
  lemma AuthSuccessEffect(s: AuthState, u: User, t: string)
    ensures var r := Reduce(s, AuthSuccess(u, t));
      && r.isAuthenticated && !r.isLoading && r.error.None?
      && r.user == Some(u) && r.token == Some(t)
  {
  }

  /** `AUTH_FAILURE` clears the session, ends loading and records the message. */
  lemma AuthFailureEffect(s: AuthState, m: string)
    ensures var r := Reduce(s, AuthFailure(m));
      && !r.isAuthenticated && r.user.None? && r.token.None?
      && !r.isLoading && r.error == Some(m)
  {
  }

  /** `LOGOUT` clears the session and the error but keeps the loading flag. */
  lemma LogoutFrame(s: AuthState)
    ensures var r := Reduce(s, Logout);
      && !r.isAuthenticated && r.user.None? && r.token.None? && r.error.None?
      && r.isLoading == s.isLoading
  {
  }

  /** `CLEAR_ERROR` changes only the error, `SET_LOADING` only the loading flag, and an
      unknown action nothing. */
  lemma ClearErrorSetLoadingUnknownFrames(s: AuthState, b: bool, kind: string)
    ensures Reduce(s, ClearError) == s.(error := None)
    ensures Reduce(s, SetLoading(b)) == s.(isLoading := b)
    ensures Reduce(s, Unknown(kind)) == s
  {
  }

  /** The state after dispatching `actions` one after the other. */
  function ReduceAll(s: AuthState, actions: seq<AuthAction>): AuthState
    decreases |actions|
  {
    if actions == [] then s else ReduceAll(Reduce(s, actions[0]), actions[1..])
  }

  /** Every state the reducer can reach from the initial state is consistent. */
  lemma {:induction false} ReachableConsistent(s: AuthState, actions: seq<AuthAction>)
    requires Consistent(s)
    ensures Consistent(ReduceAll(s, actions))
    decreases |actions|
  {
    if actions != [] {
      ReachableConsistent(Reduce(s, actions[0]), actions[1..]);
    }
  }

  /** The message `login` and `register` dispatch on failure:
      `error.response?.data?.message || "Network error. Please try again."`. */
  function FailureMessage(serverMessage: Option<string>): (m: string)
    ensures Truthy(serverMessage) ==> m == serverMessage.value
    ensures !Truthy(serverMessage) ==> m == NetworkError
    ensures m != ""
  {
    if Truthy(serverMessage) then serverMessage.value else NetworkError
  }

  function Get(storage: map<string, string>, key: string): Option<string> {
    if key in storage then Some(storage[key]) else None
  }

  /** The `AuthProvider` component: the reducer's state, the browser's `localStorage`, and the
      ordered record of what its effects did. */
  class AuthProvider {
    var state: AuthState
    var storage: map<string, string>
    var effects: seq<Effect>

    ghost predicate Valid()
      reads this
    {
      Consistent(state)
    }

    /** Mounting the provider with `storage` as `localStorage`. */
    constructor (storage: map<string, string>)
      ensures Valid()
      ensures state == InitialState(Get(storage, TokenKey))
      ensures this.storage == storage && effects == []
    {
      state := InitialState(Get(storage, TokenKey));
      this.storage := storage;
      effects := [];
    }

    /** `dispatch(a)`. */
    method Dispatch(a: AuthAction)
      requires Valid()
      modifies this
      ensures Valid()
      ensures state == Reduce(old(state), a)
      ensures storage == old(storage) && effects == old(effects) + [Dispatched(a)]
    {
      state := Reduce(state, a);
      effects := effects + [Dispatched(a)];
    }

    /** `localStorage.setItem(key, value)`. */
    method SetItem(key: string, value: string)
      modifies this
      ensures storage == old(storage)[key := value]
      ensures state == old(state) && effects == old(effects) + [Stored(key, value)]
    {
      storage := storage[key := value];
      effects := effects + [Stored(key, value)];
    }

    /** `localStorage.removeItem(key)`. */
    method RemoveItem(key: string)
      modifies this
      ensures storage == old(storage) - {key}
      ensures state == old(state) && effects == old(effects) + [Removed(key)]
    {
      storage := storage - {key};
      effects := effects + [Removed(key)];
    }

    /** `navigate(path)`. */
    method NavigateTo(path: string)
      modifies this
      ensures storage == old(storage) && state == old(state)
      ensures effects == old(effects) + [Navigated(path)]
    {
      effects := effects + [Navigated(path)];
    }

    /** `login`. On an answer, both tokens are stored before `AUTH_SUCCESS` is dispatched and
        the user is sent to "/"; on an error, `AUTH_FAILURE` carries the message and storage is
        untouched. `ok` is false exactly when the error is rethrown. */
    method Login(reply: ApiReply<LoginData>) returns (ok: bool)
      requires Valid()
      modifies this
      ensures Valid()
      ensures ok <==> reply.Answered?
      ensures reply.Answered? ==>
                var d := reply.data;
                && storage == old(storage)[TokenKey := d.token][RefreshTokenKey := d.refreshToken]
                && state == Reduce(Reduce(old(state), AuthStart), AuthSuccess(d.user, d.token))
                && effects == old(effects) + [Dispatched(AuthStart), Stored(TokenKey, d.token),
                     Stored(RefreshTokenKey, d.refreshToken), Dispatched(AuthSuccess(d.user, d.token)), Navigated("/")]
      ensures reply.Failed? ==>
                var m := FailureMessage(reply.serverMessage);
                && storage == old(storage)
                && state == Reduce(Reduce(old(state), AuthStart), AuthFailure(m))
                && effects == old(effects) + [Dispatched(AuthStart), Dispatched(AuthFailure(m))]
    {
      Dispatch(AuthStart);
      match reply
      case Answered(d) =>
        SetItem(TokenKey, d.token);
        SetItem(RefreshTokenKey, d.refreshToken);
        Dispatch(AuthSuccess(d.user, d.token));
        NavigateTo("/");
        ok := true;
      case Failed(serverMessage) =>
        Dispatch(AuthFailure(FailureMessage(serverMessage)));
        ok := false;
    }

    /** `register`. On an answer, loading ends and the response data is returned (`result`
        is `Some` of its truthiness); on an error, `AUTH_FAILURE` carries the message and the
        error is rethrown (`result` is `None`). Storage is never touched. */
    method Register(reply: ApiReply<bool>) returns (result: Option<bool>)
      requires Valid()
      modifies this
      ensures Valid()
      ensures storage == old(storage)
      ensures reply.Answered? ==>
                && result == Some(reply.data)
                && state == Reduce(Reduce(old(state), AuthStart), SetLoading(false))
                && effects == old(effects) + [Dispatched(AuthStart), Dispatched(SetLoading(false))]
      ensures reply.Failed? ==>
                var m := FailureMessage(reply.serverMessage);
                && result == None
                && state == Reduce(Reduce(old(state), AuthStart), AuthFailure(m))
                && effects == old(effects) + [Dispatched(AuthStart), Dispatched(AuthFailure(m))]
    {
      Dispatch(AuthStart);
      match reply
      case Answered(truthy) =>
        Dispatch(SetLoading(false));
        result := Some(truthy);
      case Failed(serverMessage) =>
        Dispatch(AuthFailure(FailureMessage(serverMessage)));
        result := None;
    }

    /** `logout`: both stored tokens are removed, then `LOGOUT`, then the login page. */
    method Logout()
      requires Valid()
      modifies this
      ensures Valid()
      ensures storage == old(storage) - {TokenKey, RefreshTokenKey}
      ensures TokenKey !in storage && RefreshTokenKey !in storage
      ensures state == Reduce(old(state), AuthAction.Logout) && !state.isAuthenticated
      ensures effects == old(effects) + [Removed(TokenKey), Removed(RefreshTokenKey),
                                          Dispatched(AuthAction.Logout), Navigated("/login")]
    {
      RemoveItem(TokenKey);
      RemoveItem(RefreshTokenKey);
      Dispatch(AuthAction.Logout);
      NavigateTo("/login");
    }

    /** `clearError`. */
    method ClearError()
      requires Valid()
      modifies this
      ensures Valid()
      ensures state == old(state).(error := None)
      ensures storage == old(storage) && effects == old(effects) + [Dispatched(AuthAction.ClearError)]
    {
      Dispatch(AuthAction.ClearError);
    }

    /** The mount-time `verifyToken` effect. Without a stored token it only ends loading. With
        one, a successful `/auth/me` installs the user and that token; a failed one removes both
        stored tokens and logs out. Either way it ends with loading false. */
    method VerifyToken(me: ApiReply<User>)
      requires Valid()
      modifies this
      ensures Valid()
      ensures !state.isLoading
      ensures !Truthy(Get(old(storage), TokenKey)) ==>
                && storage == old(storage)
                && state == old(state).(isLoading := false)
                && effects == old(effects) + [Dispatched(SetLoading(false))]
      ensures Truthy(Get(old(storage), TokenKey)) && me.Answered? ==>
                var t := old(storage)[TokenKey];
                && storage == old(storage)
                && state == Reduce(Reduce(old(state), AuthSuccess(me.data, t)), SetLoading(false))
                && state.isAuthenticated && state.token == Some(t)
                && effects == old(effects) + [Dispatched(AuthSuccess(me.data, t)), Dispatched(SetLoading(false))]
      ensures Truthy(Get(old(storage), TokenKey)) && me.Failed? ==>
                && storage == old(storage) - {TokenKey, RefreshTokenKey}
                && state == Reduce(Reduce(old(state), AuthAction.Logout), SetLoading(false))
                && !state.isAuthenticated
                && effects == old(effects) + [Removed(TokenKey), Removed(RefreshTokenKey),
                                               Dispatched(AuthAction.Logout), Dispatched(SetLoading(false))]
    {
      var token := Get(storage, TokenKey);
      if !Truthy(token) {
        Dispatch(SetLoading(false));
        return;
      }
      match me {
        case Answered(user) =>
          Dispatch(AuthSuccess(user, token.value));
        case Failed(_) =>
          RemoveItem(TokenKey);
          RemoveItem(RefreshTokenKey);
          Dispatch(AuthAction.Logout);
      }
      Dispatch(SetLoading(false));
    }
  }
}
