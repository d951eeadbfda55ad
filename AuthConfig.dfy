/** The edge authentication configuration: the `authorized` guard deciding
    per request path whether to allow, refuse (send to the sign-in page) or
    redirect, and the `jwt`/`session` callbacks copying the account id and
    role from the signed-in user into the token and from the token into the
    session. */
module AuthConfig {
  import opened Common
  import opened Db

  datatype AuthDecision = Allow | Deny | Redirect(to: string)

  predicate IsAdminLoginPage(path: string) {
    path == "/admin/login" || path == "/admin/signup"
  }

  /** The `authorized` callback. */
  function Authorized(path: string, isLoggedIn: bool): AuthDecision {
    if IsAdminLoginPage(path) then (if isLoggedIn then Redirect("/admin/dashboard") else Allow)
    else if StartsWith(path, "/admin") then (if isLoggedIn then Allow else Deny)
    else Allow
  }

  /** The sign-in and sign-up pages are open to visitors and send signed-in
      users to the dashboard. */
  lemma LoginPagesRedirectSignedIn(path: string, isLoggedIn: bool)
    requires IsAdminLoginPage(path)
    ensures Authorized(path, isLoggedIn) == (if isLoggedIn then Redirect("/admin/dashboard") else Allow)
  {
  }

  /** Any other path under the "/admin" prefix is allowed exactly when
      signed in; every path outside it is always allowed; nothing is ever
      redirected except from the two sign-in pages. */
  lemma AdminPrefixRequiresSignIn(path: string, isLoggedIn: bool)
    ensures !IsAdminLoginPage(path) && StartsWith(path, "/admin") ==>
              (Authorized(path, isLoggedIn) == Allow <==> isLoggedIn)
    ensures !StartsWith(path, "/admin") ==> Authorized(path, isLoggedIn) == Allow
    ensures Authorized(path, isLoggedIn).Redirect? ==> IsAdminLoginPage(path) && isLoggedIn
  {
    if IsAdminLoginPage(path) {
      assert StartsWith(path, "/admin");
    }
  }

  /** The test is a plain prefix test, so a path such as "/administrator" is
      protected too. */
  lemma PrefixAlsoCoversAdministrator()
    ensures Authorized("/administrator", false) == Deny
  {
    assert "/administrator"[..6] == "/admin";
  }

  /** The JWT claims the callbacks read and write. */
  class Token {
    var id: Option<string>
    var role: Option<Role>

    constructor (id: Option<string>, role: Option<Role>)
      ensures this.id == id && this.role == role
    {
      this.id, this.role := id, role;
    }
  }

  /** The `jwt` callback: on sign-in (a user is present) copy its id and
      role into the token; otherwise return the token unchanged. */
  method Jwt(token: Token, user: Option<User>) returns (result: Token)
    modifies token
    ensures result == token
    ensures user.Some? ==> token.id == Some(user.value.id) && token.role == Some(user.value.role)
    ensures user.None? ==> token.id == old(token.id) && token.role == old(token.role)
  {
    if user.Some? {
      token.id := Some(user.value.id);
      token.role := Some(user.value.role);
    }
    return token;
  }

  class SessionUser {
    var id: Option<string>
    var role: Option<Role>
    var name: Option<string>
    var email: Option<string>

    constructor (name: Option<string>, email: Option<string>)
      ensures this.name == name && this.email == email && id == None && role == None
    {
      this.name, this.email := name, email;
      id, role := None, None;
    }
  }

  class Session {
    var user: SessionUser?

    constructor (user: SessionUser?)
      ensures this.user == user
    {
      this.user := user;
    }
  }

  /** The `session` callback: when the session has a user, copy the id and
      role from the token into it; the user's other fields are kept. */
  method SessionCallback(session: Session, token: Token) returns (result: Session)
    modifies session.user
    ensures result == session && session.user == old(session.user)
    ensures session.user != null ==>
              session.user.id == token.id && session.user.role == token.role
              && session.user.name == old(session.user.name) && session.user.email == old(session.user.email)
  {
    if session.user != null {
      session.user.id := token.id;
      session.user.role := token.role;
    }
    return session;
  }

  /** Signing in and then opening a session exposes the user's id and role. */
  method SignInThenSession(user: User, sessionUser: SessionUser)
    returns (session: Session)
    ensures session.user == sessionUser
    ensures sessionUser.id == Some(user.id) && sessionUser.role == Some(user.role)
    modifies sessionUser
  {
    var token := new Token(None, None);
    token := Jwt(token, Some(user));
    session := new Session(sessionUser);
    session := SessionCallback(session, token);
  }
}
