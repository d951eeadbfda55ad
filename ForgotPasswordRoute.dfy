/** `POST /api/auth/forgot-password`: for a known account, replace every
    reset token of that e-mail by one fresh token valid for an hour and send
    the reset link; answer with the same message whether or not the account
    exists. The random token and the outcome of the e-mail call are
    parameters. */
module ForgotPasswordRoute {
  import opened Common
  import opened Db

  const TokenLifetime: int := 60 * 60 * 1000

  const ResetMessage: string := "If an account exists, a password reset link has been sent."

  datatype ForgotResponse =
    | InvalidEmail          // 400
    | LinkMessage           // 200, the same body for known and unknown accounts
    | SomethingWentWrong    // 500

  /** The token table after `deleteMany({ where: { email } })`. */
  function WithoutTokensOf(tokens: map<string, ResetToken>, email: string): (r: map<string, ResetToken>)
    ensures forall t :: t in r <==> t in tokens && tokens[t].email != email
    ensures forall t :: t in r ==> r[t] == tokens[t]
  {
    map t | t in tokens && tokens[t].email != email :: tokens[t]
  }

  /** The handler's effect on the token table and its response, given the
      user table, the clock, the generated token and whether the reset-mail
      call throws. A token that collides with a kept one makes the insert
      fail after the deletion. */
  function Forgot(users: map<string, User>, tokens: map<string, ResetToken>, email: string,
                  token: string, now: int, sendThrows: bool): (ForgotResponse, map<string, ResetToken>)
  {
    if !ValidEmail(email) then (InvalidEmail, tokens)
    else if email !in users then (LinkMessage, tokens)
    else
      var kept := WithoutTokensOf(tokens, email);
      if token in kept then (SomethingWentWrong, kept)
      else
        var tokens' := kept[token := ResetToken(email, token, now + TokenLifetime)];
        (if sendThrows then SomethingWentWrong else LinkMessage, tokens')
  }

  /** The handler as one sequential step over the store. */
  method ForgotPassword(db: Store, email: string, token: string, now: int, sendThrows: bool)
    returns (response: ForgotResponse)
    requires db.Valid()
    modifies db
    ensures db.Valid()
    ensures (response, db.resetTokens) == Forgot(old(db.users), old(db.resetTokens), email, token, now, sendThrows)
    ensures db.users == old(db.users) && db.borrowers == old(db.borrowers) && db.loans == old(db.loans)
    ensures db.applications == old(db.applications) && db.profiles == old(db.profiles) && db.audit == old(db.audit)
  {
    if !ValidEmail(email) {
      return InvalidEmail;
    }
    if email !in db.users {
      return LinkMessage;
    }
    db.resetTokens := WithoutTokensOf(db.resetTokens, email);
    if token in db.resetTokens {
      return SomethingWentWrong;
    }
    var expires := now + TokenLifetime;
    db.resetTokens := db.resetTokens[token := ResetToken(email, token, expires)];
    if sendThrows {
      return SomethingWentWrong;
    }
    response := LinkMessage;
  }

  /** An invalid address or an unknown account leaves the token table as it was. */
  lemma UnknownAccountChangesNothing(users: map<string, User>, tokens: map<string, ResetToken>, email: string,
                                     token: string, now: int, sendThrows: bool)
    requires !ValidEmail(email) || email !in users
    ensures Forgot(users, tokens, email, token, now, sendThrows).1 == tokens
    ensures Forgot(users, tokens, email, token, now, sendThrows).0 == (if ValidEmail(email) then LinkMessage else InvalidEmail)
  {
  }

  /** For a known account the e-mail ends up with exactly one token, the new
      one, expiring one hour from now; every other e-mail's tokens are kept. */
  lemma KnownAccountGetsOneFreshToken(users: map<string, User>, tokens: map<string, ResetToken>, email: string,
                                      token: string, now: int, sendThrows: bool)
    requires ValidEmail(email) && email in users
    requires token !in tokens || tokens[token].email == email
    ensures var tokens' := Forgot(users, tokens, email, token, now, sendThrows).1;
            && token in tokens' && tokens'[token] == ResetToken(email, token, now + 3600000)
            && (forall t :: t in tokens' && tokens'[t].email == email ==> t == token)
            && (forall t :: t in tokens && tokens[t].email != email ==> t in tokens' && tokens'[t] == tokens[t])
  {
  }

  /** As written, the reset-mail call throws for a known account (the helper
      it imports is not among the mail functions), so a known address gets a
      500 while an unknown one gets the usual message: the responses differ. */
  lemma ResponseRevealsAccount(users: map<string, User>, tokens: map<string, ResetToken>, known: string,
                               unknown: string, token: string, now: int)
    requires ValidEmail(known) && known in users && ValidEmail(unknown) && unknown !in users
    ensures Forgot(users, tokens, known, token, now, true).0 == SomethingWentWrong
    ensures Forgot(users, tokens, unknown, token, now, true).0 == LinkMessage
  {
  }

  /** With a reset-mail helper that returns instead of throwing (as the other
      mail helpers do) and a token that does not collide, known and unknown
      addresses get the same response, so accounts cannot be enumerated. */
  lemma ResponseHidesAccount(users: map<string, User>, tokens: map<string, ResetToken>, email: string,
                             other: string, token: string, now: int)
    requires ValidEmail(email) && ValidEmail(other) && token !in tokens
    ensures Forgot(users, tokens, email, token, now, false).0 == Forgot(users, tokens, other, token, now, false).0
    ensures Forgot(users, tokens, email, token, now, false).0 == LinkMessage
  {
  }
}
