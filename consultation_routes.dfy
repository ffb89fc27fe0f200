/** The consultation routes: booking, listing, reading and updating a
    consultation, each restricted to its patient and its provider. */
module ConsultationRoutes {
  import opened Wrappers
  import opened SeqUtil
  import opened Strings
  import opened Records

  /** The request body of `POST /consultations`. */
  datatype ConsultationCreate = ConsultationCreate(
    providerId: Option<string>,
    consultationType: string,
    scheduledAt: Option<int>,
    symptoms: Option<string>,
    notes: Option<string>)

  /** The consultation `create_consultation` stores for `callerId`. */
  function NewConsultation(callerId: string, data: ConsultationCreate, id: string, now: int): (r: Consultation)
    ensures r.status == Pending && r.patientId == callerId && r.id == id
    ensures r.providerId == data.providerId && r.consultationType == data.consultationType
    ensures r.scheduledAt == data.scheduledAt && r.symptoms == data.symptoms && r.notes == data.notes
    ensures r.diagnosis.None? && r.prescription.None? && r.createdAt == now
  {
    Consultation(id, callerId, data.providerId, data.consultationType, Pending,
                 data.symptoms, None, None, data.notes, data.scheduledAt, now)
  }

  /** `create_consultation`: one new pending row owned by the caller, which is
      also what the route returns after reloading it. */
  method CreateConsultation(db: Session, caller: User, data: ConsultationCreate, newId: string, now: int)
    returns (r: Consultation)
    requires forall j :: 0 <= j < |db.consultations| ==> db.consultations[j].id != newId
    modifies db
    ensures r == NewConsultation(caller.id, data, newId, now)
    ensures db.consultations == old(db.consultations) + [r]
    ensures ConsultationById(db.consultations, newId) == Some(|old(db.consultations)|)
    ensures db.users == old(db.users) && db.emergencies == old(db.emergencies)
    ensures db.patientProfiles == old(db.patientProfiles) && db.providerProfiles == old(db.providerProfiles)
  {
    var row := NewConsultation(caller.id, data, newId, now);
    db.consultations := db.consultations + [row];
    assert db.consultations[|db.consultations| - 1].id == newId;
    var reloaded := ConsultationById(db.consultations, newId);
    r := db.consultations[reloaded.value];
  }

  /** The caller is the consultation's patient or its provider. */
  predicate Participates(callerId: string, c: Consultation) {
    c.patientId == callerId || c.providerId == Some(callerId)
  }

  predicate NewerOrSame(a: Consultation, b: Consultation) {
    a.createdAt >= b.createdAt
  }

  lemma NewestFirstIsPreorder()
    ensures TotalPreorder(NewerOrSame)
  {
  }

  function Involving(rows: seq<Consultation>, callerId: string): seq<Consultation> {
    Filter(rows, (c: Consultation) => Participates(callerId, c))
  }

  /** `get_consultations`: exactly the caller's consultations, newest first. */
  function ConsultationList(rows: seq<Consultation>, callerId: string): (r: seq<Consultation>)
    ensures multiset(r) == multiset(Involving(rows, callerId))
    ensures forall i :: 0 <= i < |r| ==> r[i] in rows && Participates(callerId, r[i])
    ensures forall i :: 0 <= i < |rows| && Participates(callerId, rows[i]) ==> rows[i] in r
    ensures forall i, j :: 0 <= i < j < |r| ==> r[i].createdAt >= r[j].createdAt
  {
    var involving := Involving(rows, callerId);
    NewestFirstIsPreorder();
    SortSorted(involving, NewerOrSame);
    var r := SortBy(involving, NewerOrSame);
    forall i | 0 <= i < |r| ensures r[i] in rows && Participates(callerId, r[i]) {
      assert r[i] in multiset(r);
    }
    forall i | 0 <= i < |rows| && Participates(callerId, rows[i]) ensures rows[i] in r {
      assert rows[i] in multiset(involving);
    }
    r
  }

  const NOT_FOUND := "Consultation not found"
  const VIEW_FORBIDDEN := "Not authorized to view this consultation"
  const UPDATE_FORBIDDEN := "Not authorized to update this consultation"

  /** `get_consultation`: the row, or 404 for an unknown id, or 403 for a
      caller outside the consultation. */
  function GetConsultation(rows: seq<Consultation>, callerId: string, id: string): (r: Result<Consultation, HttpError>)
    ensures r.Success? <==> exists k :: 0 <= k < |rows| && rows[k].id == id && Participates(callerId, rows[k])
                                        && forall j :: 0 <= j < k ==> rows[j].id != id
    ensures r.Success? ==> r.value in rows && r.value.id == id && Participates(callerId, r.value)
    ensures ConsultationById(rows, id).None? ==> r == Failure(HttpError(404, NOT_FOUND))
    ensures r.Failure? && ConsultationById(rows, id).Some? ==> r == Failure(HttpError(403, VIEW_FORBIDDEN))
  {
    match ConsultationById(rows, id)
    case None => Failure(HttpError(404, NOT_FOUND))
    case Some(k) =>
      if !Participates(callerId, rows[k]) then Failure(HttpError(403, VIEW_FORBIDDEN))
      else Success(rows[k])
  }

  /** The arguments of `update_consultation`; each one is applied only when truthy. */
  datatype ConsultationUpdate = ConsultationUpdate(
    status: Option<ConsultationStatus>,
    diagnosis: Option<string>,
    prescription: Option<string>,
    notes: Option<string>)

  /** The row after the truthy arguments overwrite their fields. */
  function Overwrite(c: Consultation, u: ConsultationUpdate): (r: Consultation)
    ensures r.status == (if u.status.Some? then u.status.value else c.status)
    ensures r.diagnosis == (if Truthy(u.diagnosis) then u.diagnosis else c.diagnosis)
    ensures r.prescription == (if Truthy(u.prescription) then u.prescription else c.prescription)
    ensures r.notes == (if Truthy(u.notes) then u.notes else c.notes)
    ensures r.(status := c.status, diagnosis := c.diagnosis, prescription := c.prescription, notes := c.notes) == c
  {
    var c1 := if u.status.Some? then c.(status := u.status.value) else c;
    var c2 := if Truthy(u.diagnosis) then c1.(diagnosis := u.diagnosis) else c1;
    var c3 := if Truthy(u.prescription) then c2.(prescription := u.prescription) else c2;
    if Truthy(u.notes) then c3.(notes := u.notes) else c3
  }

  /** An update whose arguments are all falsy leaves the row as it was. */
  lemma EmptyUpdateKeeps(c: Consultation, u: ConsultationUpdate)
    requires u.status.None? && !Truthy(u.diagnosis) && !Truthy(u.prescription) && !Truthy(u.notes)
    ensures Overwrite(c, u) == c
  {
  }

  /** Applying the same update twice is applying it once. */
  lemma OverwriteIdempotent(c: Consultation, u: ConsultationUpdate)
    ensures Overwrite(Overwrite(c, u), u) == Overwrite(c, u)
  {
  }

  /** What `update_consultation` evidently means to do: 404 for an unknown id,
      403 for an outsider, otherwise the row overwritten. */
  function UpdateOutcome(rows: seq<Consultation>, callerId: string, id: string, u: ConsultationUpdate)
    : (r: Result<seq<Consultation>, HttpError>)
    ensures ConsultationById(rows, id).None? ==> r == Failure(HttpError(404, NOT_FOUND))
    ensures ConsultationById(rows, id).Some? && !Participates(callerId, rows[ConsultationById(rows, id).value])
            ==> r == Failure(HttpError(403, UPDATE_FORBIDDEN))
    ensures r.Success? <==> ConsultationById(rows, id).Some? && Participates(callerId, rows[ConsultationById(rows, id).value])
    ensures r.Success? ==> exists k :: 0 <= k < |rows| && rows[k].id == id && Participates(callerId, rows[k])
                                       && (forall j :: 0 <= j < k ==> rows[j].id != id)
                                       && r.value == rows[k := Overwrite(rows[k], u)]
  {
    match ConsultationById(rows, id)
    case None => Failure(HttpError(404, NOT_FOUND))
    case Some(k) =>
      if !Participates(callerId, rows[k]) then Failure(HttpError(403, UPDATE_FORBIDDEN))
      else Success(rows[k := Overwrite(rows[k], u)])
  }

  /** What escapes a route: an `HTTPException`, or an `AttributeError`. */
  datatype Raised = Raised(error: HttpError) | AttributeError(attribute: string)

  /** `update_consultation` as written. Its parameter named `status` hides
      the `status` constants module, so `status.HTTP_404_NOT_FOUND` and
      `status.HTTP_403_FORBIDDEN` are looked up on `None` or on a status value,
      neither of which has them: an `AttributeError` escapes instead of the
      intended exception, and nothing is changed. */
  function UpdateOutcomeAsWritten(rows: seq<Consultation>, callerId: string, id: string, u: ConsultationUpdate)
    : (r: Result<seq<Consultation>, Raised>)
    ensures r.Failure? ==> r.error.AttributeError?
    ensures r.Success? <==> UpdateOutcome(rows, callerId, id, u).Success?
  {
    match ConsultationById(rows, id)
    case None => Failure(AttributeError("HTTP_404_NOT_FOUND"))
    case Some(k) =>
      if !Participates(callerId, rows[k]) then Failure(AttributeError("HTTP_403_FORBIDDEN"))
      else Success(rows[k := Overwrite(rows[k], u)])
  }

  /** On an empty table the route as written reports an attribute error,
      not the intended 404. */
  lemma UnknownIdNotReported(callerId: string, id: string, u: ConsultationUpdate)
    ensures UpdateOutcomeAsWritten([], callerId, id, u) == Failure(AttributeError("HTTP_404_NOT_FOUND"))
    ensures UpdateOutcome([], callerId, id, u) == Failure(HttpError(404, NOT_FOUND))
  {
  }

  /** `update_consultation`, with the intended error codes. */
  method UpdateConsultation(db: Session, caller: User, id: string, u: ConsultationUpdate)
    returns (r: Result<(), HttpError>)
    modifies db
    ensures var outcome := UpdateOutcome(old(db.consultations), caller.id, id, u);
            (outcome.Failure? ==> r == Failure(outcome.error) && db.consultations == old(db.consultations))
            && (outcome.Success? ==> r == Success(()) && db.consultations == outcome.value)
    ensures db.users == old(db.users) && db.emergencies == old(db.emergencies)
    ensures db.patientProfiles == old(db.patientProfiles) && db.providerProfiles == old(db.providerProfiles)
  {
    var found := ConsultationById(db.consultations, id);
    if found.None? {
      return Failure(HttpError(404, NOT_FOUND));
    }
    var k := found.value;
    var c := db.consultations[k];
    if c.patientId != caller.id && c.providerId != Some(caller.id) {
      return Failure(HttpError(403, UPDATE_FORBIDDEN));
    }
    if u.status.Some? {
      c := c.(status := u.status.value);
    }
    if Truthy(u.diagnosis) {
      c := c.(diagnosis := u.diagnosis);
    }
    if Truthy(u.prescription) {
      c := c.(prescription := u.prescription);
    }
    if Truthy(u.notes) {
      c := c.(notes := u.notes);
    }
    db.consultations := db.consultations[k := c];
    r := Success(());
  }
}
