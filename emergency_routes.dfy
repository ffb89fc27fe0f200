/** The emergency SOS routes: raising an alert, listing alerts and
    updating an alert's status. */
module EmergencyRoutes {
  import opened Wrappers
  import opened SeqUtil
  import opened Records

  /** The request body of `POST /emergency`. */
  datatype EmergencyCreate = EmergencyCreate(
    latitude: real,
    longitude: real,
    location: Option<string>,
    emergencyType: string,
    description: Option<string>)

  /** The alert `create_emergency` stores for `caller`. */
  function NewEmergency(callerId: string, data: EmergencyCreate, id: string, now: int): (r: EmergencySOS)
    ensures r.status == Active && r.patientId == callerId && r.id == id
    ensures r.responderId.None? && r.respondedAt.None? && r.resolvedAt.None?
    ensures r.latitude == data.latitude && r.longitude == data.longitude
    ensures r.address == data.location && r.emergencyType == data.emergencyType
    ensures r.description == data.description && r.createdAt == now
  {
    EmergencySOS(id, callerId, None, data.latitude, data.longitude, data.location,
                 data.emergencyType, data.description, Active, None, None, now)
  }

  /** `create_emergency`: one new row, owned by the caller and active. */
  method CreateEmergency(db: Session, caller: User, data: EmergencyCreate, newId: string, now: int)
    returns (r: EmergencySOS)
    requires forall j :: 0 <= j < |db.emergencies| ==> db.emergencies[j].id != newId
    modifies db
    ensures r == NewEmergency(caller.id, data, newId, now)
    ensures db.emergencies == old(db.emergencies) + [r]
    ensures db.users == old(db.users) && db.consultations == old(db.consultations)
    ensures db.patientProfiles == old(db.patientProfiles) && db.providerProfiles == old(db.providerProfiles)
  {
    r := NewEmergency(caller.id, data, newId, now);
    db.emergencies := db.emergencies + [r];
  }

  /** Healthcare workers see every alert, anyone else only their own. */
  predicate SeesEmergency(caller: User, e: EmergencySOS) {
    IsHealthcareWorker(caller.role) || e.patientId == caller.id
  }

  function Visible(rows: seq<EmergencySOS>, caller: User): (r: seq<EmergencySOS>)
    ensures forall i :: 0 <= i < |r| ==> r[i] in rows && SeesEmergency(caller, r[i])
    ensures forall i :: 0 <= i < |rows| && SeesEmergency(caller, rows[i]) ==> rows[i] in r
  {
    Filter(rows, (e: EmergencySOS) => SeesEmergency(caller, e))
  }

  /** `order_by(created_at.desc())`. */
  predicate NewerOrSame(a: EmergencySOS, b: EmergencySOS) {
    a.createdAt >= b.createdAt
  }

  const FEED_LIMIT := 50

  /** The newest-first order is a total preorder. */
  lemma NewestFirstIsPreorder()
    ensures TotalPreorder(NewerOrSame)
  {
  }

  /** Cutting a newest-first list after `n` leaves out only alerts no newer
      than any it keeps. */
  lemma LeftOutAreOlder(sorted: seq<EmergencySOS>, n: nat)
    requires n <= |sorted| && SortedBy(sorted, NewerOrSame)
    ensures forall e :: e in multiset(sorted) && e !in multiset(sorted[..n]) ==>
              forall i :: 0 <= i < n ==> e.createdAt <= sorted[i].createdAt
  {
    assert sorted == sorted[..n] + sorted[n..];
    forall e | e in multiset(sorted) && e !in multiset(sorted[..n])
      ensures forall i :: 0 <= i < n ==> e.createdAt <= sorted[i].createdAt
    {
      assert e in multiset(sorted[n..]);
      var j :| 0 <= j < |sorted[n..]| && sorted[n..][j] == e;
      assert sorted[n + j] == e;
    }
  }

  /** `get_emergencies`: the caller's visible alerts, newest first, at most 50. */
  function EmergencyFeed(rows: seq<EmergencySOS>, caller: User): (r: seq<EmergencySOS>)
    ensures |r| == if |Visible(rows, caller)| < FEED_LIMIT then |Visible(rows, caller)| else FEED_LIMIT
    ensures forall i :: 0 <= i < |r| ==> r[i] in rows && SeesEmergency(caller, r[i])
    ensures forall i, j :: 0 <= i < j < |r| ==> r[i].createdAt >= r[j].createdAt
    ensures multiset(r) <= multiset(Visible(rows, caller))
    ensures |Visible(rows, caller)| <= FEED_LIMIT ==> multiset(r) == multiset(Visible(rows, caller))
    ensures forall e :: e in multiset(Visible(rows, caller)) && e !in multiset(r) ==>
              forall i :: 0 <= i < |r| ==> e.createdAt <= r[i].createdAt
  {
    var visible := Visible(rows, caller);
    var n := if |visible| < FEED_LIMIT then |visible| else FEED_LIMIT;
    NewestCut(visible, n);
    var r := SortBy(visible, NewerOrSame)[..n];
    forall i | 0 <= i < n ensures r[i] in rows && SeesEmergency(caller, r[i]) {
      assert r[i] in visible;
    }
    r
  }

  /** The first `n` alerts of the newest-first order: sorted, drawn from the
      list, all of it when `n` covers it, and never older than one left out. */
  lemma NewestCut(visible: seq<EmergencySOS>, n: nat)
    requires n <= |visible|
    ensures var r := SortBy(visible, NewerOrSame)[..n];
            |r| == n
            && (forall i :: 0 <= i < n ==> r[i] in multiset(visible))
            && (forall i, j :: 0 <= i < j < n ==> r[i].createdAt >= r[j].createdAt)
            && multiset(r) <= multiset(visible)
            && (n == |visible| ==> multiset(r) == multiset(visible))
            && forall e :: e in multiset(visible) && e !in multiset(r) ==>
                 forall i :: 0 <= i < n ==> e.createdAt <= r[i].createdAt
  {
    var sorted := SortBy(visible, NewerOrSame);
    NewestFirstIsPreorder();
    SortSorted(visible, NewerOrSame);
    PrefixMultiset(sorted, n);
    LeftOutAreOlder(sorted, n);
    assert sorted[..|sorted|] == sorted;
    forall i | 0 <= i < n ensures sorted[..n][i] in multiset(visible) {
      assert sorted[..n][i] in multiset(sorted[..n]);
    }
  }

  /** The alert after `update_emergency` assigns `status`: a responder and a
      response time for "responded", a resolution time for "resolved". */
  function WithStatus(e: EmergencySOS, status: EmergencyStatus, responder: string, now: int): (r: EmergencySOS)
    ensures r.status == status
    ensures status == Responded ==> r == e.(status := status, responderId := Some(responder), respondedAt := Some(now))
    ensures status == Resolved ==> r == e.(status := status, resolvedAt := Some(now))
    ensures status != Responded && status != Resolved ==> r == e.(status := status)
  {
    match status
    case Responded => e.(status := status, responderId := Some(responder), respondedAt := Some(now))
    case Resolved => e.(status := status, resolvedAt := Some(now))
    case _ => e.(status := status)
  }

  /** The outcome of `update_emergency` on a table: the rejection, or the new table. */
  function UpdateOutcome(rows: seq<EmergencySOS>, caller: User, id: string, status: EmergencyStatus, now: int)
    : (r: Result<seq<EmergencySOS>, HttpError>)
    ensures !IsHealthcareWorker(caller.role) ==> r == Failure(HttpError(403, FORBIDDEN))
    ensures IsHealthcareWorker(caller.role) && EmergencyById(rows, id).None? ==> r == Failure(HttpError(404, NOT_FOUND))
    ensures r.Success? <==> IsHealthcareWorker(caller.role) && EmergencyById(rows, id).Some?
    ensures r.Success? ==>
              exists k :: 0 <= k < |rows| && rows[k].id == id && (forall j :: 0 <= j < k ==> rows[j].id != id)
                && r.value == rows[k := WithStatus(rows[k], status, caller.id, now)]
  {
    if !IsHealthcareWorker(caller.role) then Failure(HttpError(403, FORBIDDEN))
    else match EmergencyById(rows, id)
      case None => Failure(HttpError(404, NOT_FOUND))
      case Some(k) => Success(rows[k := WithStatus(rows[k], status, caller.id, now)])
  }

  const FORBIDDEN := "Only healthcare workers can update emergency status"
  const NOT_FOUND := "Emergency not found"

  /** Any status may follow any other: a healthcare worker addressing a known
      alert succeeds whatever its current status, and the alert then has the
      new status with its identity and creation time kept. */
  lemma AnyTransition(rows: seq<EmergencySOS>, caller: User, id: string, status: EmergencyStatus, now: int)
    requires IsHealthcareWorker(caller.role) && EmergencyById(rows, id).Some?
    ensures var r := UpdateOutcome(rows, caller, id, status, now);
            var k := EmergencyById(rows, id).value;
            r.Success? && |r.value| == |rows| && r.value[k].status == status
            && r.value[k].id == rows[k].id && r.value[k].patientId == rows[k].patientId
            && r.value[k].createdAt == rows[k].createdAt
  {
  }

  /** A caller who is not a healthcare worker is refused whatever the id. */
  lemma NonWorkerRefused(rows: seq<EmergencySOS>, caller: User, id: string, status: EmergencyStatus, now: int)
    requires !IsHealthcareWorker(caller.role)
    ensures UpdateOutcome(rows, caller, id, status, now).Failure?
    ensures UpdateOutcome(rows, caller, id, status, now).error.code == 403
  {
  }

  /** An update changes only the addressed row. */
  lemma UpdateTouchesOneRow(rows: seq<EmergencySOS>, caller: User, id: string, status: EmergencyStatus, now: int, j: nat)
    requires UpdateOutcome(rows, caller, id, status, now).Success?
    requires j < |rows| && rows[j].id != id
    ensures |UpdateOutcome(rows, caller, id, status, now).value| == |rows|
    ensures UpdateOutcome(rows, caller, id, status, now).value[j] == rows[j]
  {
  }

  /** `update_emergency`: on success the addressed row changes as `WithStatus`
      says; on a rejection nothing changes. */
  method UpdateEmergency(db: Session, caller: User, id: string, status: EmergencyStatus, now: int)
    returns (r: Result<(), HttpError>)
    modifies db
    ensures var outcome := UpdateOutcome(old(db.emergencies), caller, id, status, now);
            (outcome.Failure? ==> r == Failure(outcome.error) && db.emergencies == old(db.emergencies))
            && (outcome.Success? ==> r == Success(()) && db.emergencies == outcome.value)
    ensures db.users == old(db.users) && db.consultations == old(db.consultations)
    ensures db.patientProfiles == old(db.patientProfiles) && db.providerProfiles == old(db.providerProfiles)
  {
    if !IsHealthcareWorker(caller.role) {
      return Failure(HttpError(403, FORBIDDEN));
    }
    var found := EmergencyById(db.emergencies, id);
    if found.None? {
      return Failure(HttpError(404, NOT_FOUND));
    }
    var k := found.value;
    var e := db.emergencies[k].(status := status);
    if status == Responded {
      e := e.(responderId := Some(caller.id), respondedAt := Some(now));
    } else if status == Resolved {
      e := e.(resolvedAt := Some(now));
    }
    db.emergencies := db.emergencies[k := e];
    r := Success(());
  }
}
