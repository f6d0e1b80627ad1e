/** The client's authentication state and the reducer that moves it on each
    dispatched action. The state is a JavaScript object, modelled as a map
    from property name to value. */
module Auth {
  import opened Common

  /** The JavaScript values the state and the payloads hold. */
  datatype Value = Null | Bool(b: bool) | Str(s: string) | Obj(fields: map<string, Value>)

  type State = map<string, Value>

  datatype Action = Action(kind: string, payload: Value)

  const TokenKey := "token"
  const AuthenticatedKey := "isAuthenticated"
  const LoadingKey := "loading"
  const UserKey := "user"

  /** `initialState`: the token kept in browser storage (null when there is
      none), authentication not yet known, loading, and no user. */
  function InitialState(storedToken: Option<string>): (s: State)
    ensures s.Keys == {TokenKey, AuthenticatedKey, LoadingKey, UserKey}
    ensures s[TokenKey] == (if storedToken.Some? then Str(storedToken.value) else Null)
    ensures s[AuthenticatedKey] == Null && s[LoadingKey] == Bool(true) && s[UserKey] == Null
  {
    map[TokenKey := if storedToken.Some? then Str(storedToken.value) else Null,
        AuthenticatedKey := Null, LoadingKey := Bool(true), UserKey := Null]
  }

  /** The four actions that end a session or report that none could start. */
  predicate IsFailure(kind: string) {
    kind == "AUTH_ERROR" || kind == "LOGIN_FAIL" || kind == "REGISTER_FAIL" || kind == "LOGOUT"
  }

  predicate IsSuccess(kind: string) {
    kind == "LOGIN_SUCCESS" || kind == "REGISTER_SUCCESS"
  }

  /** The properties `{...v}` copies from a payload: an object's own ones. */
  function Spread(v: Value): map<string, Value> {
    if v.Obj? then v.fields else map[]
  }

  /** `authReducer(state, action)`. */
  function Reduce(state: State, action: Action): (s: State)
    ensures action.kind == "USER_LOADED" ==>
      && AuthenticatedKey in s && LoadingKey in s && UserKey in s
      && s[AuthenticatedKey] == Bool(true) && s[LoadingKey] == Bool(false) && s[UserKey] == action.payload
      && forall k :: k != AuthenticatedKey && k != LoadingKey && k != UserKey ==>
           (k in s <==> k in state) && (k in state ==> s[k] == state[k])
    ensures IsSuccess(action.kind) ==>
      && AuthenticatedKey in s && LoadingKey in s
      && s[AuthenticatedKey] == Bool(true) && s[LoadingKey] == Bool(false)
      && (forall k :: k in Spread(action.payload) && k != AuthenticatedKey && k != LoadingKey ==>
            k in s && s[k] == Spread(action.payload)[k])
      && (forall k :: k !in Spread(action.payload) && k != AuthenticatedKey && k != LoadingKey ==>
            (k in s <==> k in state) && (k in state ==> s[k] == state[k]))
    ensures IsFailure(action.kind) ==>
      && TokenKey in s && AuthenticatedKey in s && LoadingKey in s && UserKey in s
      && s[TokenKey] == Null && s[AuthenticatedKey] == Bool(false)
      && s[LoadingKey] == Bool(false) && s[UserKey] == Null
      && forall k :: k != TokenKey && k != AuthenticatedKey && k != LoadingKey && k != UserKey ==>
           (k in s <==> k in state) && (k in state ==> s[k] == state[k])
    ensures !(action.kind == "USER_LOADED" || IsSuccess(action.kind) || IsFailure(action.kind)) ==> s == state
  {
    if action.kind == "USER_LOADED" then
      state[AuthenticatedKey := Bool(true)][LoadingKey := Bool(false)][UserKey := action.payload]
    else if IsSuccess(action.kind) then
      (state + Spread(action.payload))[AuthenticatedKey := Bool(true)][LoadingKey := Bool(false)]
    else if IsFailure(action.kind) then
      state[TokenKey := Null][AuthenticatedKey := Bool(false)][LoadingKey := Bool(false)][UserKey := Null]
    else state
  }

  /** Once a failure or logout has been applied, any further one changes
      nothing: applying such an action twice is applying it once. */
  lemma FailureIdempotent(state: State, first: Action, second: Action)
    requires IsFailure(first.kind) && IsFailure(second.kind)
    ensures Reduce(Reduce(state, first), second) == Reduce(state, first)
  {
    var s1 := Reduce(state, first);
    var s2 := Reduce(s1, second);
    assert s2.Keys == s1.Keys;
    assert forall k :: k in s2 ==> s2[k] == s1[k];
  }

  /** A failure after a login leaves no token, no user and no
      authentication, whatever the login's payload brought. */
  lemma SessionEnds(state: State, login: Action, failure: Action)
    requires IsSuccess(login.kind) && IsFailure(failure.kind)
    ensures var s := Reduce(Reduce(state, login), failure);
      s[TokenKey] == Null && s[UserKey] == Null && s[AuthenticatedKey] == Bool(false) && s[LoadingKey] == Bool(false)
  {
  }

  /** Loading the user on top of the initial state keeps the stored token
      and records the user as authenticated. */
  lemma LoadedKeepsToken(storedToken: Option<string>, user: Value)
    ensures var s := Reduce(InitialState(storedToken), Action("USER_LOADED", user));
      && s[TokenKey] == InitialState(storedToken)[TokenKey]
      && s[AuthenticatedKey] == Bool(true) && s[LoadingKey] == Bool(false) && s[UserKey] == user
  {
  }
}
