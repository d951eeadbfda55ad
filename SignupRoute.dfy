/** `POST /api/auth/signup`: create a staff account under a new e-mail
    address with the VOLUNTEER role and a hashed password, answering with
    the account's id, name, e-mail and role only. The bcrypt hash is a
    parameter. */
module SignupRoute {
  import opened Common
  import opened Db

  /** `SignupSchema`. */
  predicate ValidSignup(name: string, email: string, password: string) {
    |name| >= 2 && ValidEmail(email) && |password| >= 6
  }

  /** The selected columns of the created user: there is no password field. */
  datatype PublicUser = PublicUser(id: string, name: Option<string>, email: string, role: Role)

  datatype SignupResponse =
    | SignupInvalid         // 400 "Validation failed"
    | EmailTaken            // 400 "User with this email already exists"
    | SignedUp(user: PublicUser)   // 201
  {
    function StatusCode(): int {
      if SignedUp? then 201 else 400
    }
  }

  /** The response and the user table afterwards; `id` is the id the store
      generates. */
  function Signup(users: map<string, User>, name: string, email: string, password: string,
                  id: string, hash: string -> string): (SignupResponse, map<string, User>)
  {
    if !ValidSignup(name, email, password) then (SignupInvalid, users)
    else if email in users then (EmailTaken, users)
    else
      var user := User(id, Some(name), email, hash(password), Volunteer, false);
      (SignedUp(PublicUser(user.id, user.name, user.email, user.role)), users[email := user])
  }

  /** The handler as one sequential step over the store. */
  method SignupUser(db: Store, name: string, email: string, password: string, id: string, hash: string -> string)
    returns (response: SignupResponse)
    requires db.Valid()
    modifies db
    ensures db.Valid()
    ensures (response, db.users) == Signup(old(db.users), name, email, password, id, hash)
    ensures db.borrowers == old(db.borrowers) && db.loans == old(db.loans) && db.applications == old(db.applications)
    ensures db.resetTokens == old(db.resetTokens) && db.profiles == old(db.profiles) && db.audit == old(db.audit)
  {
    if !ValidSignup(name, email, password) {
      return SignupInvalid;
    }
    if email in db.users {
      return EmailTaken;
    }
    var hashedPassword := hash(password);
    var user := User(id, Some(name), email, hashedPassword, Volunteer, false);
    db.users := db.users[email := user];
    response := SignedUp(PublicUser(user.id, user.name, user.email, user.role));
  }

  /** A taken address is refused with 400 and the user table is unchanged. */
  lemma TakenEmailRefused(users: map<string, User>, name: string, email: string, password: string,
                          id: string, hash: string -> string)
    requires ValidSignup(name, email, password) && email in users
    ensures Signup(users, name, email, password, id, hash) == (EmailTaken, users)
  {
  }

  /** Too short a name or password is refused before the table is read. */
  lemma ShortFieldsRefused(users: map<string, User>, name: string, email: string, password: string,
                           id: string, hash: string -> string)
    requires |name| < 2 || |password| < 6
    ensures Signup(users, name, email, password, id, hash) == (SignupInvalid, users)
  {
  }

  /** A new account is a non-banned VOLUNTEER whose stored password is the
      hash of the one given; the response echoes its public fields; every
      other account is untouched; and exactly one account has the address. */
  lemma NewAccountIsVolunteer(users: map<string, User>, name: string, email: string, password: string,
                              id: string, hash: string -> string)
    requires ValidSignup(name, email, password) && email !in users
    requires forall e :: e in users ==> users[e].email == e
    ensures var (r, users') := Signup(users, name, email, password, id, hash);
            && r == SignedUp(PublicUser(id, Some(name), email, Volunteer))
            && email in users' && users'[email].role == Volunteer && !users'[email].isBanned
            && users'[email].password == hash(password)
            && users'.Keys == users.Keys + {email}
            && (forall e :: e in users ==> users'[e] == users[e])
            && (forall e :: e in users' && users'[e].email == email ==> e == email)
  {
  }
}
