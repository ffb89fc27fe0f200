/** The authentication routes: registration with a role-dependent profile,
    and login. Password hashing, user authentication and token signing are
    parameters: `hash` maps a password to its stored hash, `authenticate`
    checks credentials against the users table, and `issue` signs a token for
    a subject. */
module AuthRoutes {
  import opened Wrappers
  import opened SeqUtil
  import opened Records

  /** The request body of `POST /auth/register`; the role defaults to patient. */
  datatype UserCreate = UserCreate(
    email: string,
    password: string,
    fullName: string,
    phone: Option<string>,
    role: UserRole)

  /** The response of both routes. */
  datatype TokenResponse = TokenResponse(accessToken: string, tokenType: string, user: User)

  const EMAIL_TAKEN := "Email already registered"
  const BAD_CREDENTIALS := "Incorrect email or password"

  predicate EmailTaken(users: seq<User>, email: string) {
    exists j :: 0 <= j < |users| && users[j].email == email
  }

  /** The user row `register` stores: the given fields, the password only as
      its hash, active, without an avatar. */
  function NewUser(data: UserCreate, id: string, hash: string -> string): (r: User)
    ensures r.id == id && r.email == data.email && r.fullName == data.fullName
    ensures r.phone == data.phone && r.role == data.role
    ensures r.hashedPassword == hash(data.password)
    ensures r.isActive && r.avatarUrl.None?
  {
    User(id, data.email, hash(data.password), data.fullName, data.phone, data.role, None, true)
  }

  /** Which profile a new account gets: patients a patient profile, doctors
      and health workers a provider profile, pharmacies and clinics none. */
  function PatientProfilesFor(role: UserRole, userId: string, profileId: string): (r: seq<RoleProfile>)
    ensures |r| == if role == Patient then 1 else 0
    ensures forall i :: 0 <= i < |r| ==> r[i].userId == userId && r[i].attrs == map[]
  {
    if role == Patient then [RoleProfile(profileId, userId, map[])] else []
  }

  function ProviderProfilesFor(role: UserRole, userId: string, profileId: string): (r: seq<RoleProfile>)
    ensures |r| == if IsHealthcareWorker(role) then 1 else 0
    ensures forall i :: 0 <= i < |r| ==> r[i].userId == userId && r[i].attrs == map[]
  {
    if IsHealthcareWorker(role) then [RoleProfile(profileId, userId, map[])] else []
  }

  /** Every account gets at most one profile, and exactly one unless it is a
      pharmacy or a clinic. */
  lemma OneProfilePerAccount(role: UserRole, userId: string, profileId: string)
    ensures |PatientProfilesFor(role, userId, profileId)| + |ProviderProfilesFor(role, userId, profileId)|
            == if role == Pharmacy || role == Clinic then 0 else 1
  {
  }

  /** `register`: a duplicate email is refused with nothing stored; otherwise
      the user and its profile are stored and a token for the new id is issued. */
  method Register(db: Session, data: UserCreate, newUserId: string, newProfileId: string,
                  hash: string -> string, issue: string -> string)
    returns (r: Result<TokenResponse, HttpError>)
    requires forall j :: 0 <= j < |db.users| ==> db.users[j].id != newUserId
    modifies db
    ensures EmailTaken(old(db.users), data.email) ==>
              r == Failure(HttpError(400, EMAIL_TAKEN))
              && db.users == old(db.users)
              && db.patientProfiles == old(db.patientProfiles)
              && db.providerProfiles == old(db.providerProfiles)
    ensures !EmailTaken(old(db.users), data.email) ==>
              r == Success(TokenResponse(issue(newUserId), "bearer", NewUser(data, newUserId, hash)))
              && db.users == old(db.users) + [NewUser(data, newUserId, hash)]
              && db.patientProfiles == old(db.patientProfiles) + PatientProfilesFor(data.role, newUserId, newProfileId)
              && db.providerProfiles == old(db.providerProfiles) + ProviderProfilesFor(data.role, newUserId, newProfileId)
    ensures db.consultations == old(db.consultations) && db.emergencies == old(db.emergencies)
  {
    var existing := FirstIndex(db.users, (u: User) => u.email == data.email);
    if existing.Some? {
      return Failure(HttpError(400, EMAIL_TAKEN));
    }
    var user := User(newUserId, data.email, hash(data.password), data.fullName, data.phone, data.role, None, true);
    db.users := db.users + [user];
    if data.role == Patient {
      db.patientProfiles := db.patientProfiles + [RoleProfile(newProfileId, user.id, map[])];
    } else if data.role == Doctor || data.role == CommunityHealthWorker {
      db.providerProfiles := db.providerProfiles + [RoleProfile(newProfileId, user.id, map[])];
    }
    r := Success(TokenResponse(issue(user.id), "bearer", user));
  }

  /** A refused login: the 401 and its `WWW-Authenticate` challenge. */
  datatype Denied = Denied(error: HttpError, challenge: string)

  /** `login`: a token for the authenticated user, or a 401 without a token. */
  function Login(authenticate: (string, string) -> Option<User>, issue: string -> string,
                 email: string, password: string): (r: Result<TokenResponse, Denied>)
    ensures authenticate(email, password).None? <==> r.Failure?
    ensures r.Failure? ==> r.error == Denied(HttpError(401, BAD_CREDENTIALS), "Bearer")
    ensures r.Success? ==> r.value.user == authenticate(email, password).value
                           && r.value.accessToken == issue(r.value.user.id)
                           && r.value.tokenType == "bearer"
  {
    match authenticate(email, password)
    case None => Failure(Denied(HttpError(401, BAD_CREDENTIALS), "Bearer"))
    case Some(user) => Success(TokenResponse(issue(user.id), "bearer", user))
  }
}
