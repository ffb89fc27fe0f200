/** The profile routes: reading the caller's profile with its role-specific
    data, and updating it. */
module ProfileRoutes {
  import opened Wrappers
  import opened JsonValue
  import opened Strings
  import opened Records

  /** The response of `GET /profile`. */
  datatype FullProfile = FullProfile(profile: User, additionalData: Option<RoleProfile>)

  /** The role-specific row a route reads for a user: its patient profile for a
      patient, its provider profile for a doctor or health worker, none otherwise. */
  function RoleData(patientProfiles: seq<RoleProfile>, providerProfiles: seq<RoleProfile>, user: User)
    : (r: Option<RoleProfile>)
    ensures r.Some? ==> r.value.userId == user.id
    ensures r.Some? && user.role == Patient ==> r.value in patientProfiles
    ensures r.Some? && user.role != Patient ==> IsHealthcareWorker(user.role) && r.value in providerProfiles
    ensures user.role == Patient ==> (r.None? <==> ProfileOf(patientProfiles, user.id).None?)
    ensures IsHealthcareWorker(user.role) ==> (r.None? <==> ProfileOf(providerProfiles, user.id).None?)
  {
    if user.role == Patient then
      match ProfileOf(patientProfiles, user.id)
      case None => None
      case Some(j) => Some(patientProfiles[j])
    else if IsHealthcareWorker(user.role) then
      match ProfileOf(providerProfiles, user.id)
      case None => None
      case Some(j) => Some(providerProfiles[j])
    else None
  }

  /** `get_profile`. */
  function GetProfile(patientProfiles: seq<RoleProfile>, providerProfiles: seq<RoleProfile>, caller: User)
    : (r: FullProfile)
    ensures r.profile == caller
    ensures r.additionalData == RoleData(patientProfiles, providerProfiles, caller)
    ensures caller.role == Pharmacy || caller.role == Clinic ==> r.additionalData.None?
  {
    FullProfile(caller, RoleData(patientProfiles, providerProfiles, caller))
  }

  /** The body of `PUT /profile`: the user fields; each applies only when truthy. */
  datatype UserUpdate = UserUpdate(fullName: Option<string>, phone: Option<string>, avatarUrl: Option<string>)

  /** The user after the truthy fields of `d` overwrite its own. */
  function UpdatedUser(u: User, d: UserUpdate): (r: User)
    ensures r.fullName == (if Truthy(d.fullName) then d.fullName.value else u.fullName)
    ensures r.phone == (if Truthy(d.phone) then d.phone else u.phone)
    ensures r.avatarUrl == (if Truthy(d.avatarUrl) then d.avatarUrl else u.avatarUrl)
    ensures r.(fullName := u.fullName, phone := u.phone, avatarUrl := u.avatarUrl) == u
  {
    var u1 := if Truthy(d.fullName) then u.(fullName := d.fullName.value) else u;
    var u2 := if Truthy(d.phone) then u1.(phone := d.phone) else u1;
    if Truthy(d.avatarUrl) then u2.(avatarUrl := d.avatarUrl) else u2
  }

  /** The explicitly supplied fields of a profile body, in order
      (`model_dump(exclude_unset=True).items()`). */
  type Fields = seq<(string, Json)>

  /** The columns after `setattr` has assigned the supplied fields in order. */
  function Assign(attrs: map<string, Json>, fields: Fields): map<string, Json>
  {
    if |fields| == 0 then attrs
    else Assign(attrs, fields[..|fields| - 1])[fields[|fields| - 1].0 := fields[|fields| - 1].1]
  }

  /** A column no supplied field names keeps its value, or stays unassigned. */
  lemma {:induction false} AssignKeepsUnset(attrs: map<string, Json>, fields: Fields, k: string)
    requires forall i :: 0 <= i < |fields| ==> fields[i].0 != k
    ensures (k in Assign(attrs, fields)) == (k in attrs)
    ensures k in attrs ==> Assign(attrs, fields)[k] == attrs[k]
  {
    if |fields| > 0 {
      AssignKeepsUnset(attrs, fields[..|fields| - 1], k);
    }
  }

  /** A supplied field that is not named again later ends up in its column. */
  lemma {:induction false} AssignSetsField(attrs: map<string, Json>, fields: Fields, i: nat)
    requires i < |fields|
    requires forall j :: i < j < |fields| ==> fields[j].0 != fields[i].0
    ensures fields[i].0 in Assign(attrs, fields)
    ensures Assign(attrs, fields)[fields[i].0] == fields[i].1
  {
    if i < |fields| - 1 {
      AssignSetsField(attrs, fields[..|fields| - 1], i);
    }
  }

  /** The `setattr` loop over the supplied fields. */
  method SetAttributes(attrs: map<string, Json>, fields: Fields) returns (r: map<string, Json>)
    ensures r == Assign(attrs, fields)
  {
    r := attrs;
    var i := 0;
    while i < |fields|
      invariant 0 <= i <= |fields|
      invariant r == Assign(attrs, fields[..i])
    {
      assert fields[..i + 1][..i] == fields[..i];
      var (field, value) := fields[i];
      r := r[field := value];
      i := i + 1;
    }
    assert fields[..|fields|] == fields;
  }

  /** A role profile table after the owner's fields are applied, creating the
      profile first when the owner has none. */
  function WithFields(profiles: seq<RoleProfile>, userId: string, newId: string, fields: Fields)
    : (r: seq<RoleProfile>)
    ensures ProfileOf(profiles, userId).None? ==>
              r == profiles + [RoleProfile(newId, userId, Assign(map[], fields))]
    ensures ProfileOf(profiles, userId).Some? ==>
              var j := ProfileOf(profiles, userId).value;
              |r| == |profiles| && r[j] == profiles[j].(attrs := Assign(profiles[j].attrs, fields))
              && forall m :: 0 <= m < |r| && m != j ==> r[m] == profiles[m]
  {
    match ProfileOf(profiles, userId)
    case None => profiles + [RoleProfile(newId, userId, Assign(map[], fields))]
    case Some(j) => profiles[j := profiles[j].(attrs := Assign(profiles[j].attrs, fields))]
  }

  /** After the update the owner has a profile holding the supplied fields. */
  lemma WithFieldsFindsProfile(profiles: seq<RoleProfile>, userId: string, newId: string, fields: Fields)
    ensures ProfileOf(WithFields(profiles, userId, newId, fields), userId).Some?
    ensures var r := WithFields(profiles, userId, newId, fields);
            var j := ProfileOf(r, userId).value;
            r[j].userId == userId
            && r[j].attrs == Assign(if ProfileOf(profiles, userId).Some?
                                    then profiles[ProfileOf(profiles, userId).value].attrs else map[], fields)
  {
    var r := WithFields(profiles, userId, newId, fields);
    match ProfileOf(profiles, userId)
    case None =>
      assert r[|profiles|].userId == userId;
    case Some(j) =>
      assert r[j].userId == userId;
  }

  /** The profile table that applies the role data, if the data is given and
      the role matches; any other table or role leaves it as it was. */
  function ProfileTableAfter(profiles: seq<RoleProfile>, applies: bool, userId: string, newId: string,
                             data: Option<Fields>): seq<RoleProfile>
  {
    if data.Some? && applies then WithFields(profiles, userId, newId, data.value) else profiles
  }

  /** `update_profile`: truthy user fields overwrite the caller's row; patient
      data reaches only a patient's profile, provider data only a doctor's or
      health worker's, and a missing profile is created first. */
  method UpdateProfile(db: Session, callerId: string, d: UserUpdate,
                       patientData: Option<Fields>, providerData: Option<Fields>, newProfileId: string)
    requires UserById(db.users, callerId).Some?
    modifies db
    ensures var k := UserById(old(db.users), callerId).value;
            var role := old(db.users)[k].role;
            db.users == old(db.users)[k := UpdatedUser(old(db.users)[k], d)]
            && db.patientProfiles
               == ProfileTableAfter(old(db.patientProfiles), role == Patient, callerId, newProfileId, patientData)
            && db.providerProfiles
               == ProfileTableAfter(old(db.providerProfiles), IsHealthcareWorker(role), callerId, newProfileId, providerData)
    ensures db.consultations == old(db.consultations) && db.emergencies == old(db.emergencies)
  {
    var k := UserById(db.users, callerId).value;
    var user := ApplyUserUpdate(db.users[k], d);
    db.users := db.users[k := user];

    if patientData.Some? && user.role == Patient {
      db.patientProfiles := ApplyRoleData(db.patientProfiles, callerId, newProfileId, patientData.value);
    }
    if providerData.Some? && (user.role == Doctor || user.role == CommunityHealthWorker) {
      db.providerProfiles := ApplyRoleData(db.providerProfiles, callerId, newProfileId, providerData.value);
    }
  }

  /** The conditional assignments to the caller's user fields. */
  method ApplyUserUpdate(u: User, d: UserUpdate) returns (r: User)
    ensures r == UpdatedUser(u, d)
  {
    r := u;
    if Truthy(d.fullName) {
      r := r.(fullName := d.fullName.value);
    }
    if Truthy(d.phone) {
      r := r.(phone := d.phone);
    }
    if Truthy(d.avatarUrl) {
      r := r.(avatarUrl := d.avatarUrl);
    }
  }

  /** Finds or creates the owner's profile and runs the `setattr` loop on it. */
  method ApplyRoleData(profiles: seq<RoleProfile>, userId: string, newId: string, fields: Fields)
    returns (r: seq<RoleProfile>)
    ensures r == WithFields(profiles, userId, newId, fields)
  {
    var found := ProfileOf(profiles, userId);
    if found.None? {
      var attrs := SetAttributes(map[], fields);
      r := profiles + [RoleProfile(newId, userId, attrs)];
    } else {
      var j := found.value;
      var attrs := SetAttributes(profiles[j].attrs, fields);
      r := profiles[j := profiles[j].(attrs := attrs)];
    }
  }
}
