/** `/api/borrower/profile`: the e-mail-keyed borrower profile table. GET
    reads a profile, POST creates one unless the address already has one
    (409), PUT updates the named fields of an existing one. Date parsing is a
    parameter; an unparseable date is refused by the store. */
module ProfileRoute {
  import opened Common
  import opened Db

  /** The POST/PUT body. */
  datatype ProfileRequest = ProfileRequest(
    email: string,
    fullName: string,
    phone: Option<string>,
    address: Option<string>,
    dateOfBirth: Option<string>)

  /** `BorrowerProfileSchema`. */
  predicate ValidProfile(req: ProfileRequest) {
    ValidEmail(req.email) && |req.fullName| >= 1
  }

  datatype ProfileResponse =
    | ProfileOk(profile: BorrowerProfile)     // 200, or 201 for a creation
    | EmailRequired                           // 400
    | ProfileInvalid                          // 400
    | ProfileNotFound                         // 404
    | ProfileExists                           // 409
    | ProfileFailed                           // 500
  {
    function StatusCode(created: bool): int {
      match this
      case ProfileOk(_) => if created then 201 else 200
      case EmailRequired => 400
      case ProfileInvalid => 400
      case ProfileNotFound => 404
      case ProfileExists => 409
      case ProfileFailed => 500
    }
  }

  /** `dateOfBirth ? new Date(dateOfBirth) : null`: Some(None) is a null
      date, None a date the store cannot accept. */
  function BirthDate(dateOfBirth: Option<string>, parseDate: string -> Option<int>): Option<Option<int>> {
    if !Truthy(dateOfBirth) then Some(None)
    else match parseDate(dateOfBirth.value)
      case None => None
      case Some(ms) => Some(Some(ms))
  }

  /** GET with the `email` query parameter. */
  function GetProfile(profiles: map<string, BorrowerProfile>, email: Option<string>): ProfileResponse {
    if !Truthy(email) then EmailRequired
    else if email.value !in profiles then ProfileNotFound
    else ProfileOk(profiles[email.value])
  }

  /** POST: the response and the table afterwards. */
  function PostProfile(profiles: map<string, BorrowerProfile>, req: ProfileRequest, parseDate: string -> Option<int>)
    : (ProfileResponse, map<string, BorrowerProfile>)
  {
    if !ValidProfile(req) then (ProfileInvalid, profiles)
    else if req.email in profiles then (ProfileExists, profiles)
    else match BirthDate(req.dateOfBirth, parseDate)
      case None => (ProfileFailed, profiles)
      case Some(dob) =>
        var p := BorrowerProfile(req.email, req.fullName, req.phone, req.address, dob);
        (ProfileOk(p), profiles[req.email := p])
  }

  /** PUT: fields left out of the body keep their stored value, except the
      date of birth, which becomes null. An unknown address makes the update
      fail with a 500. */
  function PutProfile(profiles: map<string, BorrowerProfile>, req: ProfileRequest, parseDate: string -> Option<int>)
    : (ProfileResponse, map<string, BorrowerProfile>)
  {
    if !ValidProfile(req) then (ProfileInvalid, profiles)
    else if req.email !in profiles then (ProfileFailed, profiles)
    else match BirthDate(req.dateOfBirth, parseDate)
      case None => (ProfileFailed, profiles)
      case Some(dob) =>
        var current := profiles[req.email];
        var p := current.(fullName := req.fullName,
                      phone := if req.phone.Some? then req.phone else current.phone,
                      address := if req.address.Some? then req.address else current.address,
                      dateOfBirth := dob);
        (ProfileOk(p), profiles[req.email := p])
  }

  method CreateProfile(db: Store, req: ProfileRequest, parseDate: string -> Option<int>)
    returns (response: ProfileResponse)
    requires db.Valid()
    modifies db
    ensures db.Valid()
    ensures (response, db.profiles) == PostProfile(old(db.profiles), req, parseDate)
    ensures db.borrowers == old(db.borrowers) && db.loans == old(db.loans) && db.applications == old(db.applications)
    ensures db.users == old(db.users) && db.resetTokens == old(db.resetTokens) && db.audit == old(db.audit)
  {
    if !ValidProfile(req) {
      return ProfileInvalid;
    }
    if req.email in db.profiles {
      return ProfileExists;
    }
    var dob := BirthDate(req.dateOfBirth, parseDate);
    if dob.None? {
      return ProfileFailed;
    }
    var profile := BorrowerProfile(req.email, req.fullName, req.phone, req.address, dob.value);
    db.profiles := db.profiles[req.email := profile];
    response := ProfileOk(profile);
  }

  method UpdateProfile(db: Store, req: ProfileRequest, parseDate: string -> Option<int>)
    returns (response: ProfileResponse)
    requires db.Valid()
    modifies db
    ensures db.Valid()
    ensures (response, db.profiles) == PutProfile(old(db.profiles), req, parseDate)
    ensures db.borrowers == old(db.borrowers) && db.loans == old(db.loans) && db.applications == old(db.applications)
    ensures db.users == old(db.users) && db.resetTokens == old(db.resetTokens) && db.audit == old(db.audit)
  {
    if !ValidProfile(req) {
      return ProfileInvalid;
    }
    if req.email !in db.profiles {
      return ProfileFailed;
    }
    var dob := BirthDate(req.dateOfBirth, parseDate);
    if dob.None? {
      return ProfileFailed;
    }
    var current := db.profiles[req.email];
    var profile := current.(fullName := req.fullName, dateOfBirth := dob.value);
    if req.phone.Some? {
      profile := profile.(phone := req.phone);
    }
    if req.address.Some? {
      profile := profile.(address := req.address);
    }
    db.profiles := db.profiles[req.email := profile];
    response := ProfileOk(profile);
  }

  /** GET without an address is a 400, and for an unknown one a 404. */
  lemma GetRefusals(profiles: map<string, BorrowerProfile>, email: Option<string>)
    ensures !Truthy(email) ==> GetProfile(profiles, email).StatusCode(false) == 400
    ensures Truthy(email) && email.value !in profiles ==> GetProfile(profiles, email).StatusCode(false) == 404
  {
  }

  /** A second POST for the same address is a 409 and changes nothing. */
  lemma DuplicatePostConflicts(profiles: map<string, BorrowerProfile>, req: ProfileRequest, parseDate: string -> Option<int>)
    requires ValidProfile(req) && req.email in profiles
    ensures PostProfile(profiles, req, parseDate) == (ProfileExists, profiles)
  {
  }

  /** After a successful POST, GET for that address returns the created
      fields, with an absent or empty date of birth stored as null. */
  lemma PostThenGet(profiles: map<string, BorrowerProfile>, req: ProfileRequest, parseDate: string -> Option<int>)
    requires PostProfile(profiles, req, parseDate).0.ProfileOk?
    ensures var p := GetProfile(PostProfile(profiles, req, parseDate).1, Some(req.email));
            && p.ProfileOk?
            && p.profile.email == req.email && p.profile.fullName == req.fullName
            && p.profile.phone == req.phone && p.profile.address == req.address
            && (!Truthy(req.dateOfBirth) ==> p.profile.dateOfBirth == None)
  {
    assert req.email != "";
  }

  /** PUT keeps the e-mail key, replaces the full name, keeps a phone or
      address the body leaves out, nulls an absent date of birth, and touches
      no other profile. */
  lemma PutKeepsKeyAndOthers(profiles: map<string, BorrowerProfile>, req: ProfileRequest, parseDate: string -> Option<int>)
    requires forall e :: e in profiles ==> profiles[e].email == e
    requires PutProfile(profiles, req, parseDate).0.ProfileOk?
    ensures var (r, profiles') := PutProfile(profiles, req, parseDate);
            var before := profiles[req.email];
            && profiles'.Keys == profiles.Keys
            && r.profile == profiles'[req.email]
            && r.profile.email == before.email == req.email
            && r.profile.fullName == req.fullName
            && (req.phone.None? ==> r.profile.phone == before.phone)
            && (req.address.None? ==> r.profile.address == before.address)
            && (!Truthy(req.dateOfBirth) ==> r.profile.dateOfBirth == None)
            && (forall e :: e in profiles && e != req.email ==> profiles'[e] == profiles[e])
  {
  }

  /** PUT for an address with no profile fails and creates nothing. */
  lemma PutUnknownFails(profiles: map<string, BorrowerProfile>, req: ProfileRequest, parseDate: string -> Option<int>)
    requires req.email !in profiles
    ensures PutProfile(profiles, req, parseDate).1 == profiles
    ensures !PutProfile(profiles, req, parseDate).0.ProfileOk?
  {
  }
}
