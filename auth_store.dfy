/** The client authentication store (`authStore.ts`): the signed-in user, the
    authenticated flag, a loading flag, the last error, and the API token kept
    in `localStorage` (a plain field here). The outcome of each call is an input. */
module AuthStore {
  import opened Wrappers

  /** The user object the auth endpoints return. */
  datatype AuthUser = AuthUser(id: int, email: string, name: string, createdAt: string)

  /** The JSON body of an auth endpoint's answer; every key may be missing. */
  datatype AuthBody = AuthBody(error: Option<string>, token: Option<string>, user: Option<AuthUser>)

  /** How the call settled: it threw before a body was read, or it answered
      (2xx or not) with a body. */
  datatype AuthReply = Rejected(message: string) | Answered(ok: bool, body: AuthBody)

  predicate Succeeded(reply: AuthReply)
  {
    reply.Answered? && reply.ok
  }

  /** `data.error || fallback` for a non-2xx answer; the thrown message otherwise. */
  function ErrorMessage(reply: AuthReply, fallback: string): (m: string)
    requires !Succeeded(reply)
    ensures reply.Rejected? ==> m == reply.message
    ensures reply.Answered? && (reply.body.error.None? || reply.body.error.value == "") ==> m == fallback
    ensures reply.Answered? && reply.body.error.Some? && reply.body.error.value != "" ==> m == reply.body.error.value
  {
    if reply.Rejected? then reply.message
    else if reply.body.error.Some? && reply.body.error.value != "" then reply.body.error.value
    else fallback
  }

  /** `localStorage.setItem('token', data.token)` stores the string "undefined"
      when the body has no token. */
  function StoredToken(t: Option<string>): string
  {
    t.GetOr("undefined")
  }

  class Store {
    var user: Option<AuthUser>
    var isAuthenticated: bool
    var isLoading: bool
    var error: Option<string>
    var token: Option<string>

    constructor(storedToken: Option<string>)
      ensures user == None && !isAuthenticated && !isLoading && error == None
      ensures token == storedToken
    {
      user := None;
      isAuthenticated := false;
      isLoading := false;
      error := None;
      token := storedToken;
    }

    /** Shared settling of `login` and `register`. */
    method SignIn(reply: AuthReply, fallback: string)
      requires isLoading && error == None
      modifies this
      ensures !isLoading
      ensures Succeeded(reply) ==>
                token == Some(StoredToken(reply.body.token)) && user == reply.body.user &&
                isAuthenticated && error == None
      ensures !Succeeded(reply) ==>
                token == None && error == Some(ErrorMessage(reply, fallback)) &&
                user == old(user) && isAuthenticated == old(isAuthenticated)
    {
      if Succeeded(reply) {
        token := Some(StoredToken(reply.body.token));
        user := reply.body.user;
        isAuthenticated := true;
        isLoading := false;
      } else {
        token := None;
        error := Some(ErrorMessage(reply, fallback));
        isLoading := false;
      }
    }

    /** On success the token is stored and the returned user signed in; on
        failure the token is removed and the user kept. */
    method Login(reply: AuthReply)
      modifies this
      ensures !isLoading
      ensures Succeeded(reply) ==>
                token == Some(StoredToken(reply.body.token)) && user == reply.body.user &&
                isAuthenticated && error == None
      ensures !Succeeded(reply) ==>
                token == None && error == Some(ErrorMessage(reply, "Login failed")) &&
                user == old(user) && isAuthenticated == old(isAuthenticated)
    {
      isLoading := true;
      error := None;
      SignIn(reply, "Login failed");
    }

    method Register(reply: AuthReply)
      modifies this
      ensures !isLoading
      ensures Succeeded(reply) ==>
                token == Some(StoredToken(reply.body.token)) && user == reply.body.user &&
                isAuthenticated && error == None
      ensures !Succeeded(reply) ==>
                token == None && error == Some(ErrorMessage(reply, "Registration failed")) &&
                user == old(user) && isAuthenticated == old(isAuthenticated)
    {
      isLoading := true;
      error := None;
      SignIn(reply, "Registration failed");
    }

    /** Logging out sets the loading flag without clearing an earlier error. On
        success the token and the user go; on failure everything but the error stays. */
    method Logout(reply: AuthReply)
      modifies this
      ensures !isLoading
      ensures Succeeded(reply) ==>
                token == None && user == None && !isAuthenticated && error == old(error)
      ensures !Succeeded(reply) ==>
                token == old(token) && user == old(user) && isAuthenticated == old(isAuthenticated) &&
                error == Some(ErrorMessage(reply, "Logout failed"))
    {
      isLoading := true;
      if Succeeded(reply) {
        token := None;
        user := None;
        isAuthenticated := false;
        isLoading := false;
      } else {
        error := Some(ErrorMessage(reply, "Logout failed"));
        isLoading := false;
      }
    }

    /** Not implemented: no state changes. */
    method ResetPassword(email: string)
      ensures unchanged(this)
    {
    }
  }
}
