/** `POST /api/auth/login`: a plain-text credential check against the user
    table, answering with the public part of the user and a fixed token. */
module AuthRoute {
  import opened Options
  import opened Http
  import Tables

  datatype User = User(id: string, username: string, password: string, role: string)

  /** What the response carries about a user: never the password. */
  datatype PublicUser = PublicUser(id: string, username: string, role: string)

  datatype Session = Session(user: PublicUser, token: string)

  const Token := "mock-jwt-token"
  const InvalidCredentials := "Invalid credentials"
  const LoginFailed := "Login failed"

  function Username(u: User): string { u.username }

  function Public(u: User): PublicUser
  {
    PublicUser(u.id, u.username, u.role)
  }

  /** The login handler. A body without a username makes the unique lookup
      fail (500); an unknown user and a wrong or missing password give the
      same 401. The user table is only read. */
  function Login(users: seq<User>, username: Option<string>, password: Option<string>): (r: Response<Session>)
    requires Tables.UniqueKeys(users, Username)
    ensures username.None? ==> r == Fail(ServerError, LoginFailed)
    ensures r.Ok? <==> username.Some? && exists i :: 0 <= i < |users| && users[i].username == username.value && password == Some(users[i].password)
    ensures r.Ok? ==> r.body.token == Token
    ensures r.Ok? ==> exists i :: 0 <= i < |users| && users[i].username == username.value && r.body.user == Public(users[i])
    ensures r.Fail? && username.Some? ==> r == Fail(Unauthorized, InvalidCredentials)
  {
    match username
    case None => Fail(ServerError, LoginFailed)
    case Some(name) =>
      match Tables.Find(users, Username, name)
      case None =>
        assert forall i :: 0 <= i < |users| ==> users[i].username != name by {
          forall i | 0 <= i < |users| ensures users[i].username != name {
            assert Username(users[i]) in Tables.Keys(users, Username);
          }
        }
        Fail(Unauthorized, InvalidCredentials)
      case Some(i) =>
        if password != Some(users[i].password) then Fail(Unauthorized, InvalidCredentials)
        else Ok(Session(Public(users[i]), Token))
  }

  /** Each stored user logs in with exactly its own password, and gets back
      its own id, name and role. */
  lemma {:induction false} LoginPerUser(users: seq<User>, i: nat, password: string)
    requires Tables.UniqueKeys(users, Username) && i < |users|
    ensures password == users[i].password ==>
      Login(users, Some(users[i].username), Some(password)) == Ok(Session(Public(users[i]), Token))
    ensures password != users[i].password ==>
      Login(users, Some(users[i].username), Some(password)) == Fail(Unauthorized, InvalidCredentials)
  {
    var r := Login(users, Some(users[i].username), Some(password));
    if r.Ok? {
      var j :| 0 <= j < |users| && users[j].username == users[i].username && r.body.user == Public(users[j]);
      assert j == i;
      var k :| 0 <= k < |users| && users[k].username == users[i].username && Some(password) == Some(users[k].password);
      assert k == i;
    }
  }

  /** An unknown name and a known name with a wrong password answer alike. */
  lemma UnknownAndWrongAlike(users: seq<User>, unknown: string, i: nat, wrong: string)
    requires Tables.UniqueKeys(users, Username) && i < |users|
    requires forall j :: 0 <= j < |users| ==> users[j].username != unknown
    requires wrong != users[i].password
    ensures Login(users, Some(unknown), Some(wrong)) == Login(users, Some(users[i].username), Some(wrong))
  {
    LoginPerUser(users, i, wrong);
  }
}
