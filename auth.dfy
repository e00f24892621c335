/** The session context (src/context/AuthContext.tsx): the signed-in user and token, kept in
    memory and mirrored in the browser's `localStorage`, which is modelled as a map from keys
    to strings. */
module Auth {
  import opened Common

  datatype User = User(id: string, username: string, role: string)

  const TokenKey: string := "authToken"
  const UserKey: string := "authUser"
  const LoginFailed: string := "Đăng nhập thất bại."
  const RegisterFailed: string := "Đăng ký thất bại."

  /** What a call to the auth API comes to: the fetch or the JSON decoding threw (with that
      error's message), the server answered with an error status (and maybe a `message`), or
      it accepted the request. */
  datatype Reply<T> = Thrown(message: string) | Refused(serverMessage: Option<string>) | Accepted(value: T)

  /** A successful login's body: the token, the user, and `JSON.stringify(user)` as stored. */
  datatype Session = Session(token: string, user: User, userJson: string)

  /** The bodies of the two requests. */
  datatype Credentials = Credentials(username: string, password: string)
  datatype Registration = Registration(username: string, password: string, role: string)

  /** The message of the error a failed call throws: `data.message || fallback` for an error
      status, the thrown error's own message otherwise. */
  function FailureMessage<T>(reply: Reply<T>, fallback: string): (m: string)
    requires !reply.Accepted?
    ensures reply.Refused? && Truthy(reply.serverMessage) ==> m == reply.serverMessage.value
    ensures reply.Refused? && !Truthy(reply.serverMessage) ==> m == fallback
    ensures reply.Thrown? ==> m == reply.message
  {
    match reply
    case Thrown(message) => message
    case Refused(serverMessage) => if Truthy(serverMessage) then serverMessage.value else fallback
  }

  /** The restore effect's test: a non-empty token and a non-empty user are stored, and the
      user is not the string 'undefined'. */
  predicate HasStoredSession(storage: map<string, string>) {
    && TokenKey in storage && storage[TokenKey] != ""
    && UserKey in storage && storage[UserKey] != "" && storage[UserKey] != "undefined"
  }

  /** The provider's state; `route` is the last path the router was sent to. */
  class AuthProvider {
    var user: Option<User>
    var token: Option<string>
    var isLoading: bool
    var error: Option<string>
    var storage: map<string, string>
    var route: Option<string>

    constructor(storage: map<string, string>)
      ensures user.None? && token.None? && isLoading && error.None?
      ensures this.storage == storage && route.None?
    {
      user := None;
      token := None;
      isLoading := true;
      error := None;
      this.storage := storage;
      route := None;
    }

    /** The token in memory is the stored one. */
    predicate TokenMirrored()
      reads this
    {
      token.Some? ==> TokenKey in storage && storage[TokenKey] == token.value
    }

    /** The mount effect. `parsed` is what `JSON.parse` makes of the stored user: a user,
        `null`, or a thrown error. With a valid stored session the token is taken first and
        the user then parsed; a parse error leaves that token in memory but clears both keys,
        so only then does the token in memory stop matching storage. Without a valid stored
        session both keys are removed. Loading ends in every case. */
    method Restore(parsed: Result<Option<User>>)
      modifies this
      ensures HasStoredSession(old(storage)) ==>
        && token == Some(old(storage)[TokenKey])
        && user == (if parsed.Ok? then parsed.value else old(user))
        && storage == (if parsed.Ok? then old(storage) else old(storage) - {TokenKey, UserKey})
      ensures !HasStoredSession(old(storage)) ==>
        token == old(token) && user == old(user) && storage == old(storage) - {TokenKey, UserKey}
      ensures !isLoading && error == old(error) && route == old(route)
      ensures HasStoredSession(old(storage)) ==> (TokenMirrored() <==> parsed.Ok?)
      ensures !HasStoredSession(old(storage)) ==> !HasStoredSession(storage)
    {
      var storedToken := if TokenKey in storage then Some(storage[TokenKey]) else None;
      var storedUser := if UserKey in storage then Some(storage[UserKey]) else None;
      if Truthy(storedToken) && Truthy(storedUser) && storedUser.value != "undefined" {
        token := storedToken;
        if parsed.Ok? {
          user := parsed.value;
        } else {
          storage := storage - {TokenKey};
          storage := storage - {UserKey};
        }
      } else {
        storage := storage - {TokenKey};
        storage := storage - {UserKey};
      }
      isLoading := false;
    }

    /** `clearError` */
    method ClearError()
      modifies this
      ensures error.None?
      ensures user == old(user) && token == old(token) && isLoading == old(isLoading)
      ensures storage == old(storage) && route == old(route)
    {
      error := None;
    }

    /** `login`; `reply` is the API's answer to the credentials it sends. Success stores the
        token and user in memory and in storage and goes to '/'; failure records the error's
        message and rethrows it, leaving the session as it was. The error is cleared at the
        start and loading ends either way. */
    method Login(username: string, password: string, reply: Reply<Session>)
      returns (request: Credentials, outcome: Outcome)
      modifies this
      ensures request == Credentials(username, password)
      ensures reply.Accepted? ==>
        && outcome == Done && error.None?
        && token == Some(reply.value.token) && user == Some(reply.value.user)
        && storage == old(storage)[TokenKey := reply.value.token][UserKey := reply.value.userJson]
        && route == Some("/") && TokenMirrored()
      ensures !reply.Accepted? ==>
        && outcome == Failed(FailureMessage(reply, LoginFailed))
        && error == Some(FailureMessage(reply, LoginFailed))
        && token == old(token) && user == old(user) && storage == old(storage) && route == old(route)
      ensures !isLoading
    {
      isLoading := true;
      error := None;
      request := Credentials(username, password);
      if !reply.Accepted? {
        var message := FailureMessage(reply, LoginFailed);
        error := Some(message);
        outcome := Failed(message);
      } else {
        var data := reply.value;
        token := Some(data.token);
        user := Some(data.user);
        storage := storage[TokenKey := data.token];
        storage := storage[UserKey := data.userJson];
        route := Some("/");
        outcome := Done;
      }
      isLoading := false;
    }

    /** `register`: it always asks for the role 'user'; when the server accepts, it logs in
        with the same credentials (`loginReply` being the answer to that), and otherwise it
        records the error and rethrows without touching the session. */
    method Register(username: string, password: string, registerReply: Reply<()>, loginReply: Reply<Session>)
      returns (request: Registration, login: Option<Credentials>, outcome: Outcome)
      modifies this
      ensures request == Registration(username, password, "user")
      ensures login == if registerReply.Accepted? then Some(Credentials(username, password)) else None
      ensures registerReply.Accepted? && loginReply.Accepted? ==>
        && outcome == Done && error.None?
        && token == Some(loginReply.value.token) && user == Some(loginReply.value.user)
        && storage == old(storage)[TokenKey := loginReply.value.token][UserKey := loginReply.value.userJson]
        && route == Some("/")
      ensures registerReply.Accepted? && !loginReply.Accepted? ==>
        && outcome == Failed(FailureMessage(loginReply, LoginFailed))
        && error == Some(FailureMessage(loginReply, LoginFailed))
        && token == old(token) && user == old(user) && storage == old(storage) && route == old(route)
      ensures !registerReply.Accepted? ==>
        && outcome == Failed(FailureMessage(registerReply, RegisterFailed))
        && error == Some(FailureMessage(registerReply, RegisterFailed))
        && token == old(token) && user == old(user) && storage == old(storage) && route == old(route)
      ensures !isLoading
    {
      isLoading := true;
      error := None;
      request := Registration(username, password, "user");
      if !registerReply.Accepted? {
        var message := FailureMessage(registerReply, RegisterFailed);
        error := Some(message);
        outcome := Failed(message);
        login := None;
      } else {
        var credentials;
        credentials, outcome := Login(username, password, loginReply);
        login := Some(credentials);
        if outcome.Failed? {
          error := Some(outcome.message);
        }
      }
      isLoading := false;
    }

    /** `logout`: no user, no token, neither key stored, and the router goes to '/login'. */
    method Logout()
      modifies this
      ensures user.None? && token.None?
      ensures storage == old(storage) - {TokenKey, UserKey}
      ensures TokenKey !in storage && UserKey !in storage
      ensures route == Some("/login") && TokenMirrored()
      ensures isLoading == old(isLoading) && error == old(error)
    {
      user := None;
      token := None;
      storage := storage - {TokenKey};
      storage := storage - {UserKey};
      route := Some("/login");
    }
  }

  /** A restore that finds no valid stored session leaves nothing stored that a later restore
      could pick up. */
  lemma ClearedStorageHasNoSession(storage: map<string, string>)
    ensures !HasStoredSession(storage - {TokenKey, UserKey})
  {
  }

  /** `useAuth`: the context, or the error it throws outside a provider. */
  function UseAuth<T>(context: Option<T>): (r: Result<T>)
    ensures r.Ok? <==> context.Some?
    ensures r.Ok? ==> r.value == context.value
    ensures r.Err? ==> r.message == "useAuth must be used within an AuthProvider"
  {
    match context
    case Some(c) => Ok(c)
    case None => Err("useAuth must be used within an AuthProvider")
  }
}
