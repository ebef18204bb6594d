/** The account endpoints (`users/views.py`): registration, login and logout
    over the user table (keyed by username, which registration sets to the
    email) and the API token table (one token per username). A request body
    is a JSON object of strings, or `None` when it is not one, which makes the
    view fail with 500. An object with a number, list or nested object as a
    value cannot be written here. Token keys are random: the new key is a
    parameter. */
module UserViews {
  import opened Wrappers

  datatype Account = Account(id: int, username: string, email: string, password: string, name: string, dateJoined: int)

  /** A `JsonResponse`: its status and the fields the body carries. */
  datatype Response = Response(status: int, error: Option<string>, message: Option<string>,
                               account: Option<Account>, token: Option<string>)

  type Data = map<string, string>

  const InvalidMethod: string := "Invalid HTTP method"
  const MissingFields: string := "Missing required fields"
  const EmailTaken: string := "User with this email already exists"
  const MissingCredentials: string := "Missing email or password"
  const BadCredentials: string := "Invalid email or password"
  const Registered: string := "User registered successfully"
  const LoggedIn: string := "User logged in successfully"
  const LoggedOut: string := "User logged out successfully"
  /** Stands for `str(e)` of the exception that parsing the body raised; the
      exact text is not modelled. */
  const BadBody: string := "request body is not a JSON object"

  /** `data.get(key)` is truthy: present and not empty. */
  predicate Given(data: Data, key: string)
  {
    key in data && data[key] != ""
  }

  /** The status `register_view` answers, in the order the view decides. */
  function RegisterStatus(accounts: map<string, Account>, httpMethod: string, data: Option<Data>): int
  {
    if httpMethod != "POST" then 405
    else if data.None? then 500
    else if !(Given(data.value, "email") && Given(data.value, "password") && Given(data.value, "name")) then 400
    else if data.value["email"] in accounts then 400
    else 201
  }

  /** `authenticate`: an account with that username and password. */
  predicate Authenticates(accounts: map<string, Account>, username: string, password: string)
  {
    username in accounts && accounts[username].password == password
  }

  /** The status `login_view` answers, in the order the view decides. */
  function LoginStatus(accounts: map<string, Account>, httpMethod: string, data: Option<Data>): int
  {
    if httpMethod != "POST" then 405
    else if data.None? then 500
    else if !(Given(data.value, "email") && Given(data.value, "password")) then 400
    else if !Authenticates(accounts, data.value["email"], data.value["password"]) then 400
    else 200
  }

  /** `Token.objects.get_or_create(user=user)`: the stored key, or the new one. */
  function TokenFor(tokens: map<string, string>, username: string, newKey: string): string
  {
    if username in tokens then tokens[username] else newKey
  }

  /** A non-POST request is refused first, a body that is not an object
      fails next, missing fields are reported before a taken email, and only
      a new email with every field succeeds. */
  lemma RegisterDecisionOrder(accounts: map<string, Account>, httpMethod: string, data: Option<Data>)
    ensures RegisterStatus(accounts, httpMethod, data) in {201, 400, 405, 500}
    ensures RegisterStatus(accounts, httpMethod, data) == 405 <==> httpMethod != "POST"
    ensures RegisterStatus(accounts, httpMethod, data) == 500 <==> httpMethod == "POST" && data.None?
    ensures RegisterStatus(accounts, httpMethod, data) == 201 <==>
              httpMethod == "POST" && data.Some? && Given(data.value, "email") && Given(data.value, "password") &&
              Given(data.value, "name") && data.value["email"] !in accounts
    ensures httpMethod == "POST" && data.Some? && !Given(data.value, "name") ==>
              RegisterStatus(accounts, httpMethod, data) == 400 &&
              RegisterStatus(map[], httpMethod, data) == 400
  {
  }

  /** After a successful registration the same email cannot register again,
      whatever the other fields, and can log in with its password. */
  lemma RegisterThenAgain(accounts: map<string, Account>, data: Data, id: int, now: int, again: Data)
    requires RegisterStatus(accounts, "POST", Some(data)) == 201
    requires Given(again, "email") && Given(again, "password") && Given(again, "name")
    requires again["email"] == data["email"]
    ensures var email := data["email"];
            var after := accounts[email := Account(id, email, email, data["password"], data["name"], now)];
            RegisterStatus(after, "POST", Some(again)) == 400 &&
            LoginStatus(after, "POST", Some(map["email" := email, "password" := data["password"]])) == 200
  {
    var email := data["email"];
    var login := map["email" := email, "password" := data["password"]];
    assert login["email"] == email && login["password"] == data["password"];
  }

  /** A login stores the token it answers with, so every later login answers
      the same token, whatever new key it would have made. */
  lemma RepeatedLoginSameToken(tokens: map<string, string>, username: string, key1: string, key2: string)
    ensures var first := TokenFor(tokens, username, key1);
            TokenFor(tokens[username := first], username, key2) == first
    ensures username in tokens ==> TokenFor(tokens, username, key1) == tokens[username]
  {
  }

  /** Login decides in the view's order: method, body, missing fields, then
      the credentials. */
  lemma LoginDecisionOrder(accounts: map<string, Account>, httpMethod: string, data: Option<Data>)
    ensures LoginStatus(accounts, httpMethod, data) in {200, 400, 405, 500}
    ensures LoginStatus(accounts, httpMethod, data) == 405 <==> httpMethod != "POST"
    ensures LoginStatus(accounts, httpMethod, data) == 500 <==> httpMethod == "POST" && data.None?
    ensures LoginStatus(accounts, httpMethod, data) == 200 <==>
              httpMethod == "POST" && data.Some? && Given(data.value, "email") && Given(data.value, "password") &&
              Authenticates(accounts, data.value["email"], data.value["password"])
  {
  }

  /** The user and token tables. */
  class Backend {
    var accounts: map<string, Account>
    var tokens: map<string, string>
    var nextId: int

    constructor()
      ensures accounts == map[] && tokens == map[] && nextId == 1
    {
      accounts := map[];
      tokens := map[];
      nextId := 1;
    }

    /** `register_view`. */
    method Register(httpMethod: string, data: Option<Data>, newKey: string, now: int) returns (r: Response)
      modifies this
      ensures r.status == RegisterStatus(old(accounts), httpMethod, data)
      ensures r.status != 201 ==> accounts == old(accounts) && tokens == old(tokens) && nextId == old(nextId)
      ensures r.status != 201 ==> r.error.Some? && r.token.None? && r.account.None?
      ensures r.status == 400 ==>
                r.error == Some(if Given(data.value, "email") && Given(data.value, "password") && Given(data.value, "name")
                                then EmailTaken else MissingFields)
      ensures r.status == 201 ==>
                var email := data.value["email"];
                var acc := Account(old(nextId), email, email, data.value["password"], data.value["name"], now);
                accounts == old(accounts)[email := acc] && tokens == old(tokens)[email := newKey] &&
                nextId == old(nextId) + 1 &&
                r == Response(201, None, Some(Registered), Some(acc), Some(newKey))
    {
      if httpMethod != "POST" {
        return Response(405, Some(InvalidMethod), None, None, None);
      }
      if data.None? {
        return Response(500, Some(BadBody), None, None, None);
      }
      var d := data.value;
      if !(Given(d, "email") && Given(d, "password") && Given(d, "name")) {
        return Response(400, Some(MissingFields), None, None, None);
      }
      var email := d["email"];
      if email in accounts {
        return Response(400, Some(EmailTaken), None, None, None);
      }
      var acc := Account(nextId, email, email, d["password"], d["name"], now);
      accounts := accounts[email := acc];
      nextId := nextId + 1;
      tokens := tokens[email := newKey];
      r := Response(201, None, Some(Registered), Some(acc), Some(newKey));
    }

    /** `login_view`. */
    method Login(httpMethod: string, data: Option<Data>, newKey: string) returns (r: Response)
      modifies this
      ensures r.status == LoginStatus(old(accounts), httpMethod, data)
      ensures accounts == old(accounts) && nextId == old(nextId)
      ensures r.status != 200 ==> tokens == old(tokens) && r.error.Some? && r.token.None?
      ensures r.status == 400 ==>
                r.error == Some(if Given(data.value, "email") && Given(data.value, "password")
                                then BadCredentials else MissingCredentials)
      ensures r.status == 200 ==>
                var email := data.value["email"];
                var key := TokenFor(old(tokens), email, newKey);
                tokens == old(tokens)[email := key] &&
                r == Response(200, None, Some(LoggedIn), Some(accounts[email]), Some(key))
    {
      if httpMethod != "POST" {
        return Response(405, Some(InvalidMethod), None, None, None);
      }
      if data.None? {
        return Response(500, Some(BadBody), None, None, None);
      }
      var d := data.value;
      if !(Given(d, "email") && Given(d, "password")) {
        return Response(400, Some(MissingCredentials), None, None, None);
      }
      var email := d["email"];
      if !Authenticates(accounts, email, d["password"]) {
        return Response(400, Some(BadCredentials), None, None, None);
      }
      var key := TokenFor(tokens, email, newKey);
      tokens := tokens[email := key];
      r := Response(200, None, Some(LoggedIn), Some(accounts[email]), Some(key));
    }

    /** `logout_view`: ends the session only; the API token stays valid. */
    method Logout(httpMethod: string) returns (r: Response)
      ensures r.status == (if httpMethod == "POST" then 200 else 405)
      ensures r.status == 200 ==> r.message == Some(LoggedOut)
      ensures r.status == 405 ==> r.error == Some(InvalidMethod)
    {
      if httpMethod != "POST" {
        return Response(405, Some(InvalidMethod), None, None, None);
      }
      r := Response(200, None, Some(LoggedOut), None, None);
    }
  }
}
