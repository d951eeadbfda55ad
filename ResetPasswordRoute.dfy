/** `POST /api/auth/reset-password`: redeem a reset token for a new
    password. Unknown tokens are refused, expired ones are deleted and
    refused, and a redeemed token is deleted, so each token works once. The
    bcrypt hash is a parameter. */
module ResetPasswordRoute {
  import opened Common
  import opened Db

  datatype ResetResponse =
    | ValidationError   // 400
    | InvalidLink       // 400, no such token
    | LinkExpired       // 400, the token was deleted
    | UserNotFound      // 404
    | PasswordReset     // 200
  {
    function StatusCode(): int {
      match this
      case UserNotFound => 404
      case PasswordReset => 200
      case _ => 400
    }
  }

  /** `ResetPasswordSchema`. */
  predicate ValidReset(token: string, password: string) {
    |token| >= 1 && |password| >= 8
  }

  /** The user and token tables a handler reads and writes. */
  datatype AuthTables = AuthTables(users: map<string, User>, tokens: map<string, ResetToken>)

  /** The handler's response and the tables afterwards. */
  function Reset(t: AuthTables, token: string, password: string, now: int, hash: string -> string)
    : (ResetResponse, AuthTables)
  {
    if !ValidReset(token, password) then (ValidationError, t)
    else if token !in t.tokens then (InvalidLink, t)
    else if t.tokens[token].expires < now then (LinkExpired, t.(tokens := t.tokens - {token}))
    else if t.tokens[token].email !in t.users then (UserNotFound, t)
    else
      var email := t.tokens[token].email;
      (PasswordReset, AuthTables(t.users[email := t.users[email].(password := hash(password))], t.tokens - {token}))
  }

  /** The handler as one sequential step over the store. */
  method ResetPassword(db: Store, token: string, password: string, now: int, hash: string -> string)
    returns (response: ResetResponse)
    requires db.Valid()
    modifies db
    ensures db.Valid()
    ensures (response, AuthTables(db.users, db.resetTokens))
            == Reset(AuthTables(old(db.users), old(db.resetTokens)), token, password, now, hash)
    ensures db.borrowers == old(db.borrowers) && db.loans == old(db.loans) && db.applications == old(db.applications)
    ensures db.profiles == old(db.profiles) && db.audit == old(db.audit)
  {
    if !ValidReset(token, password) {
      return ValidationError;
    }
    if token !in db.resetTokens {
      return InvalidLink;
    }
    var resetToken := db.resetTokens[token];
    if resetToken.expires < now {
      db.resetTokens := db.resetTokens - {token};
      return LinkExpired;
    }
    if resetToken.email !in db.users {
      return UserNotFound;
    }
    var user := db.users[resetToken.email];
    var hashedPassword := hash(password);
    db.users := db.users[resetToken.email := user.(password := hashedPassword)];
    db.resetTokens := db.resetTokens - {token};
    response := PasswordReset;
  }

  /** A short password or an unknown token is refused and nothing changes. */
  lemma RefusalsChangeNothing(t: AuthTables, token: string, password: string, now: int, hash: string -> string)
    requires |password| < 8 || token !in t.tokens
    ensures Reset(t, token, password, now, hash).1 == t
    ensures Reset(t, token, password, now, hash).0.StatusCode() == 400
  {
  }

  /** An expired token is deleted, the request refused and no password changes. */
  lemma ExpiredTokenDeleted(t: AuthTables, token: string, password: string, now: int, hash: string -> string)
    requires ValidReset(token, password) && token in t.tokens && t.tokens[token].expires < now
    ensures var (r, t') := Reset(t, token, password, now, hash);
            r == LinkExpired && token !in t'.tokens && t'.users == t.users
  {
  }

  /** The expiry test is strict: a token expiring exactly now still works. */
  lemma ExpiryInstantAccepted(t: AuthTables, token: string, password: string, now: int, hash: string -> string)
    requires ValidReset(token, password) && token in t.tokens && t.tokens[token].expires == now
    requires t.tokens[token].email in t.users
    ensures Reset(t, token, password, now, hash).0 == PasswordReset
  {
  }

  /** A missing user is answered with 404 and the token stays usable. */
  lemma MissingUserKeepsToken(t: AuthTables, token: string, password: string, now: int, hash: string -> string)
    requires ValidReset(token, password) && token in t.tokens && t.tokens[token].expires >= now
    requires t.tokens[token].email !in t.users
    ensures Reset(t, token, password, now, hash) == (UserNotFound, t)
  {
  }

  /** A successful reset stores the hash of the new password for the token's
      user only, and consumes the token: using it again is refused. */
  lemma SuccessfulResetIsSingleUse(t: AuthTables, token: string, password: string, password2: string,
                                   now: int, later: int, hash: string -> string)
    requires Reset(t, token, password, now, hash).0 == PasswordReset
    ensures var t' := Reset(t, token, password, now, hash).1;
            var email := t.tokens[token].email;
            && email in t'.users && t'.users[email].password == hash(password)
            && t'.users[email].(password := t.users[email].password) == t.users[email]
            && (forall e :: e in t.users && e != email ==> e in t'.users && t'.users[e] == t.users[e])
            && t'.users.Keys == t.users.Keys
            && token !in t'.tokens
            && Reset(t', token, password2, later, hash).0.StatusCode() == 400
  {
  }
}
