/** The client's authentication store of client/src/services/authSlice.js:
    the session check performed at start-up and the reducers, which update
    the slice state in place. Browser storage and the HTTP client are
    inputs. */
module AuthSlice {
  import opened Wrappers
  import opened JsValue
  import opened Http

  /** `token || null` for a stored token. */
  function TokenOrNull(token: Option<string>): (r: Option<string>)
    ensures r.Some? <==> token.Some? && token.value != []
    ensures r.Some? ==> r == token
  {
    if token.Some? && token.value != [] then token else None
  }

  /** What the checkAuth thunk did: whether it called `/auth/me`, what it
      resolved to, and whether it removed the stored token and user. */
  datatype CheckAuthOutcome = CheckAuthOutcome(apiCalled: bool, payload: Json, clearedStorage: bool)

  /** checkAuth. `storedUser` is the stored user after `JSON.parse` (None
      when parsing throws); `me` is the `user` of the `/auth/me` reply. */
  function CheckAuth(storedToken: Option<string>, storedUser: Option<Json>, me: Settled<Json>): (o: CheckAuthOutcome)
    ensures o.apiCalled <==> storedUser.Some? && Truthy(storedUser.value) && TokenOrNull(storedToken).Some?
    ensures !o.apiCalled ==> o.payload == JNull
    ensures o.apiCalled && me.Resolved? ==> o.payload == me.value
    ensures o.clearedStorage <==> storedUser.None? || (o.apiCalled && me.Rejected?)
    ensures o.clearedStorage ==> o.payload == JNull
  {
    if storedUser.None? then CheckAuthOutcome(false, JNull, true)
    else if TokenOrNull(storedToken).Some? && Truthy(storedUser.value) then
      match me
      case Resolved(u) => CheckAuthOutcome(true, u, false)
      case Rejected => CheckAuthOutcome(true, JNull, true)
    else CheckAuthOutcome(false, JNull, false)
  }

  /** The `data` of a register or login reply. */
  datatype AuthReply = AuthReply(user: Json, token: Option<string>)

  class AuthState {
    var user: Json
    var token: Option<string>
    var isLoading: bool
    var isError: bool
    var isSuccess: bool
    var message: string

    /** The initial state, from the stored user and token. */
    constructor (storedUser: Json, storedToken: Option<string>)
      ensures user == (if Truthy(storedUser) then storedUser else JNull)
      ensures token == TokenOrNull(storedToken)
      ensures !isLoading && !isError && !isSuccess && message == ""
    {
      user := if Truthy(storedUser) then storedUser else JNull;
      token := TokenOrNull(storedToken);
      isLoading := false;
      isError := false;
      isSuccess := false;
      message := "";
    }

    /** `reset`: the flags and message; the session is untouched. */
    method Reset()
      modifies this
      ensures !isLoading && !isError && !isSuccess && message == ""
      ensures user == old(user) && token == old(token)
    {
      isLoading := false;
      isError := false;
      isSuccess := false;
      message := "";
    }

    /** The pending case of checkAuth, register and login. */
    method Pending()
      modifies this
      ensures isLoading
      ensures user == old(user) && token == old(token)
      ensures isError == old(isError) && isSuccess == old(isSuccess) && message == old(message)
    {
      isLoading := true;
    }

    /** checkAuth fulfilled: a truthy user keeps the session with the stored
        token; anything else ends it. */
    method CheckAuthFulfilled(payload: Json, storedToken: Option<string>)
      modifies this
      ensures !isLoading
      ensures Truthy(payload) ==> user == payload && token == storedToken
      ensures !Truthy(payload) ==> user == JNull && token.None?
      ensures isError == old(isError) && isSuccess == old(isSuccess) && message == old(message)
    {
      isLoading := false;
      if Truthy(payload) {
        user := payload;
        token := storedToken;
      } else {
        user := JNull;
        token := None;
      }
    }

    /** checkAuth rejected: the session ends. */
    method CheckAuthRejected()
      modifies this
      ensures !isLoading && user == JNull && token.None?
      ensures isError == old(isError) && isSuccess == old(isSuccess) && message == old(message)
    {
      isLoading := false;
      user := JNull;
      token := None;
    }

    /** register or login fulfilled: the session comes from the reply. */
    method SignedIn(payload: AuthReply)
      modifies this
      ensures !isLoading && isSuccess
      ensures user == payload.user && token == payload.token
      ensures isError == old(isError) && message == old(message)
    {
      isLoading := false;
      isSuccess := true;
      user := payload.user;
      token := payload.token;
    }

    /** register or login rejected: the error is recorded; the session is untouched. */
    method SignInRejected(payload: string)
      modifies this
      ensures !isLoading && isError && message == payload
      ensures user == old(user) && token == old(token) && isSuccess == old(isSuccess)
    {
      isLoading := false;
      isError := true;
      message := payload;
    }

    /** logout fulfilled: the session ends; `isLoading` and `message` stay. */
    method LogoutFulfilled()
      modifies this
      ensures user == JNull && token.None? && !isSuccess && !isError
      ensures isLoading == old(isLoading) && message == old(message)
    {
      user := JNull;
      token := None;
      isSuccess := false;
      isError := false;
    }
  }
}
