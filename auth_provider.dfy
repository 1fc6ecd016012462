/** The auth provider: a small state machine over one stored credential,
    the `auth` entry of the browser's local storage. Login stores it (for
    administrators only), logout and authorisation errors remove it, and the
    other operations read it. The login endpoint's reply is a parameter: the
    network call itself is not modelled. */
module AuthProvider {
  import opened Values

  /** The user record the login endpoint returns. */
  datatype LoginUser = LoginUser(
    id: string,
    userType: Option<string>,
    accessToken: Option<string>,
    firstName: Option<string>,
    lastName: Option<string>,
    profileImage: Option<string>)

  /** The `auth` entry: `{token, user}`. A missing access token is dropped by
      `JSON.stringify`, which is why `token` is optional. */
  datatype AuthEntry = AuthEntry(token: Option<string>, user: LoginUser)

  /** What the login form passes in. */
  datatype Credentials = Credentials(username: Option<string>, password: Option<string>, email: Option<string>)

  /** The HTTP reply to the login request: its status, status text and
      decoded JSON body. */
  datatype LoginReply = LoginReply(status: int, statusText: string, body: LoginUser)

  /** How a provider promise settles; a rejection may carry a message. */
  datatype Outcome = Resolved | Rejected(message: Option<string>)

  /** What `getIdentity` resolves to. */
  datatype Identity = Identity(id: string, fullName: string, avatar: Option<string>)

  const AdminRequired := "Access denied. Admin privileges required."

  /** The JSON body posted to `/auth/login`: the email, or the username when
      the email is falsy, and the password; undefined fields are dropped. */
  function LoginBody(c: Credentials): (body: Fields)
    ensures "email" in body <==> (Truthy(c.email) || c.username.Some?)
    ensures Truthy(c.email) ==> body["email"] == JStr(c.email.value)
    ensures !Truthy(c.email) && c.username.Some? ==> body["email"] == JStr(c.username.value)
    ensures "password" in body <==> c.password.Some?
    ensures body.Keys <= {"email", "password"}
  {
    var login := if Truthy(c.email) then c.email else c.username;
    (if login.Some? then map["email" := JStr(login.value)] else map[])
    + (if c.password.Some? then map["password" := JStr(c.password.value)] else map[])
  }

  /** A status that `fetch` treats as success. */
  predicate IsSuccess(status: int)
  {
    200 <= status < 300
  }

  /** A reply that makes login succeed: a 2xx status and an administrator. */
  predicate Admits(reply: LoginReply)
  {
    IsSuccess(reply.status) && reply.body.userType == Some("admin")
  }

  /** `${user.firstName} ${user.lastName}`. */
  function FullName(u: LoginUser): (name: string)
    ensures u.firstName.Some? && u.lastName.Some? ==> name == u.firstName.value + " " + u.lastName.value
    ensures |name| == |Template(u.firstName)| + 1 + |Template(u.lastName)|
  {
    Template(u.firstName) + " " + Template(u.lastName)
  }

  class AuthProvider {
    /** The `auth` entry in local storage; `None` when it is absent. */
    var auth: Option<AuthEntry>

    constructor (stored: Option<AuthEntry>)
      ensures auth == stored
    {
      auth := stored;
    }

    /** `login`: posts the credentials and, on a 2xx reply from an
        administrator, stores `{token: accessToken, user: reply}`. A network
        failure (`reply == None`), a non-2xx status or a non-admin user
        rejects and leaves the stored entry as it was. */
    method Login(c: Credentials, reply: Option<LoginReply>) returns (body: Fields, outcome: Outcome)
      modifies this
      ensures body == LoginBody(c)
      ensures outcome == Resolved <==> reply.Some? && Admits(reply.value)
      ensures outcome == Resolved ==> auth == Some(AuthEntry(reply.value.body.accessToken, reply.value.body))
      ensures outcome != Resolved ==> auth == old(auth)
      ensures reply.Some? && !IsSuccess(reply.value.status) ==> outcome == Rejected(Some(reply.value.statusText))
      ensures reply.Some? && IsSuccess(reply.value.status) && !Admits(reply.value) ==> outcome == Rejected(Some(AdminRequired))
    {
      body := LoginBody(c);
      if reply.None? {
        outcome := Rejected(None);
        return;
      }
      var r := reply.value;
      if r.status < 200 || r.status >= 300 {
        outcome := Rejected(Some(r.statusText));
        return;
      }
      if r.body.userType != Some("admin") {
        outcome := Rejected(Some(AdminRequired));
        return;
      }
      auth := Some(AuthEntry(r.body.accessToken, r.body));
      outcome := Resolved;
    }

    /** `logout`: removes the entry and always resolves. */
    method Logout() returns (outcome: Outcome)
      modifies this
      ensures auth == None && outcome == Resolved
    {
      auth := None;
      outcome := Resolved;
    }

    /** `checkAuth`: resolves exactly when an entry is stored. */
    method CheckAuth() returns (outcome: Outcome)
      ensures outcome == Resolved <==> auth.Some?
      ensures outcome != Resolved ==> outcome == Rejected(None)
    {
      outcome := if auth.Some? then Resolved else Rejected(None);
    }

    /** `checkError`: a 401 or 403 removes the entry and rejects; any other
        status (or none) resolves and changes nothing. */
    method CheckError(status: Option<int>) returns (outcome: Outcome)
      modifies this
      ensures status == Some(401) || status == Some(403) ==> auth == None && outcome == Rejected(None)
      ensures !(status == Some(401) || status == Some(403)) ==> auth == old(auth) && outcome == Resolved
    {
      if status == Some(401) || status == Some(403) {
        auth := None;
        outcome := Rejected(None);
      } else {
        outcome := Resolved;
      }
    }

    /** `getIdentity`: rejects without an entry; otherwise the stored user's
        id, "first last" as full name, and profile image as avatar. */
    method GetIdentity() returns (r: Result<Identity, Outcome>)
      ensures r.Err? <==> auth.None?
      ensures r.Ok? ==>
        && r.value.id == auth.value.user.id
        && r.value.fullName == FullName(auth.value.user)
        && r.value.avatar == auth.value.user.profileImage
    {
      if auth.None? {
        return Err(Rejected(None));
      }
      var user := auth.value.user;
      r := Ok(Identity(user.id, FullName(user), user.profileImage));
    }

    /** `getPermissions`: rejects without an entry; otherwise the stored
        user's `userType`. */
    method GetPermissions() returns (r: Result<Option<string>, Outcome>)
      ensures r.Err? <==> auth.None?
      ensures r.Ok? ==> r.value == auth.value.user.userType
    {
      if auth.None? {
        return Err(Rejected(None));
      }
      r := Ok(auth.value.user.userType);
    }
  }

  /** After a successful login, `checkAuth` resolves and `getPermissions`
      resolves to "admin", whatever was stored before. */
  method LoginThenPermissions(stored: Option<AuthEntry>, c: Credentials, reply: LoginReply)
    returns (login: Outcome, check: Outcome, permissions: Result<Option<string>, Outcome>)
    requires Admits(reply)
    ensures login == Resolved && check == Resolved
    ensures permissions == Ok(Some("admin"))
  {
    var p := new AuthProvider(stored);
    var body;
    body, login := p.Login(c, Some(reply));
    check := p.CheckAuth();
    permissions := p.GetPermissions();
  }

  /** A rejected login leaves the session as it was: `checkAuth` answers as
      it did before the attempt. */
  method RejectedLoginKeepsSession(stored: Option<AuthEntry>, c: Credentials, reply: Option<LoginReply>)
    returns (before: Outcome, login: Outcome, after: Outcome)
    requires reply.None? || !Admits(reply.value)
    ensures login.Rejected?
    ensures after == before
    ensures after == Resolved <==> stored.Some?
  {
    var p := new AuthProvider(stored);
    before := p.CheckAuth();
    var body;
    body, login := p.Login(c, reply);
    after := p.CheckAuth();
  }

  /** `logout` is idempotent: a second call resolves too and both leave no
      session, so `checkAuth` and `getIdentity` reject. */
  method LogoutTwice(stored: Option<AuthEntry>)
    returns (first: Outcome, second: Outcome, check: Outcome, identity: Result<Identity, Outcome>)
    ensures first == Resolved && second == Resolved
    ensures check == Rejected(None) && identity.Err?
  {
    var p := new AuthProvider(stored);
    first := p.Logout();
    second := p.Logout();
    check := p.CheckAuth();
    identity := p.GetIdentity();
  }

  /** An authorisation error ends the session; any other error keeps it. */
  method ErrorThenCheckAuth(stored: Option<AuthEntry>, status: Option<int>)
    returns (error: Outcome, check: Outcome)
    ensures error.Rejected? <==> status == Some(401) || status == Some(403)
    ensures check == Resolved <==> stored.Some? && error == Resolved
  {
    var p := new AuthProvider(stored);
    error := p.CheckError(status);
    check := p.CheckAuth();
  }
}
