/** The backend's persistent entities and the ORM session holding them.
    Each table is a sequence of rows in insertion order; a row's `id` is its
    primary key. Timestamps are integers supplied by the caller of an
    operation (the database clock is not modelled). */
module Records {
  import opened Wrappers
  import opened JsonValue
  import opened SeqUtil

  datatype UserRole = Patient | Doctor | CommunityHealthWorker | Pharmacy | Clinic

  /** Doctors and community health workers, the roles the routers treat as
      healthcare workers. */
  predicate IsHealthcareWorker(role: UserRole) {
    role == Doctor || role == CommunityHealthWorker
  }

  datatype User = User(
    id: string,
    email: string,
    hashedPassword: string,
    fullName: string,
    phone: Option<string>,
    role: UserRole,
    avatarUrl: Option<string>,
    isActive: bool)

  /** A patient or provider profile: its key, its owner and the columns that
      have been assigned explicitly (unassigned columns keep their defaults). */
  datatype RoleProfile = RoleProfile(id: string, userId: string, attrs: map<string, Json>)

  datatype ConsultationStatus = Pending | Accepted | InProgress | Completed | Cancelled

  datatype Consultation = Consultation(
    id: string,
    patientId: string,
    providerId: Option<string>,
    consultationType: string,
    status: ConsultationStatus,
    symptoms: Option<string>,
    diagnosis: Option<string>,
    prescription: Option<string>,
    notes: Option<string>,
    scheduledAt: Option<int>,
    createdAt: int)

  datatype EmergencyStatus = Active | Responded | Resolved | Cancelled

  datatype EmergencySOS = EmergencySOS(
    id: string,
    patientId: string,
    responderId: Option<string>,
    latitude: real,
    longitude: real,
    address: Option<string>,
    emergencyType: string,
    description: Option<string>,
    status: EmergencyStatus,
    respondedAt: Option<int>,
    resolvedAt: Option<int>,
    createdAt: int)

  /** An `HTTPException` raised by a route: its status code and detail. */
  datatype HttpError = HttpError(code: nat, detail: string)

  /** The ORM session: one sequence of rows per table. */
  class Session {
    var users: seq<User>
    var patientProfiles: seq<RoleProfile>
    var providerProfiles: seq<RoleProfile>
    var consultations: seq<Consultation>
    var emergencies: seq<EmergencySOS>

    constructor ()
      ensures users == [] && patientProfiles == [] && providerProfiles == []
      ensures consultations == [] && emergencies == []
    {
      users := [];
      patientProfiles := [];
      providerProfiles := [];
      consultations := [];
      emergencies := [];
    }
  }

  /** The row whose primary key is `id`, as `query(...).filter(id == ...).first()` finds it. */
  function UserById(users: seq<User>, id: string): (r: Option<nat>)
    ensures r.Some? ==> r.value < |users| && users[r.value].id == id
    ensures r.Some? ==> forall j :: 0 <= j < r.value ==> users[j].id != id
    ensures r.None? ==> forall j :: 0 <= j < |users| ==> users[j].id != id
  {
    FirstIndex(users, (u: User) => u.id == id)
  }

  function ProfileOf(profiles: seq<RoleProfile>, userId: string): (r: Option<nat>)
    ensures r.Some? ==> r.value < |profiles| && profiles[r.value].userId == userId
    ensures r.Some? ==> forall j :: 0 <= j < r.value ==> profiles[j].userId != userId
    ensures r.None? ==> forall j :: 0 <= j < |profiles| ==> profiles[j].userId != userId
  {
    FirstIndex(profiles, (p: RoleProfile) => p.userId == userId)
  }

  function ConsultationById(rows: seq<Consultation>, id: string): (r: Option<nat>)
    ensures r.Some? ==> r.value < |rows| && rows[r.value].id == id
    ensures r.Some? ==> forall j :: 0 <= j < r.value ==> rows[j].id != id
    ensures r.None? ==> forall j :: 0 <= j < |rows| ==> rows[j].id != id
  {
    FirstIndex(rows, (c: Consultation) => c.id == id)
  }

  function EmergencyById(rows: seq<EmergencySOS>, id: string): (r: Option<nat>)
    ensures r.Some? ==> r.value < |rows| && rows[r.value].id == id
    ensures r.Some? ==> forall j :: 0 <= j < r.value ==> rows[j].id != id
    ensures r.None? ==> forall j :: 0 <= j < |rows| ==> rows[j].id != id
  {
    FirstIndex(rows, (e: EmergencySOS) => e.id == id)
  }
}
