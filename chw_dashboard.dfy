/** The community health worker dashboard: the case list merged from the
    server and from offline records, its ordering, the severity buckets, the
    search filter and the high-risk count.

    Records arrive already decoded: a field the page reads with `?.` is an
    `Option`, and `x || d` on a text is `d` when the text is empty. Turning a
    value into a number (`>=` on a severity) and a timestamp into milliseconds
    (`new Date(t).getTime()`) are the parameters `toNumber` and `time`. */
module ChwDashboard {
  import opened Wrappers
  import opened JsonValue
  import opened Strings
  import opened SeqUtil

  datatype PatientCase = PatientCase(
    id: string,
    patientName: string,
    age: real,
    riskLevel: string,
    symptoms: seq<string>,
    location: string,
    timestamp: string,
    hasVoiceMessage: bool,
    phone: Option<string>)

  /** `getSeverityLevel`. */
  function SeverityLevel(severity: real): (r: string)
    ensures r == "emergency" <==> severity >= 9.0
    ensures r == "high" <==> 7.0 <= severity < 9.0
    ensures r == "medium" <==> 4.0 <= severity < 7.0
    ensures r == "low" <==> severity < 4.0
  {
    if severity >= 9.0 then "emergency"
    else if severity >= 7.0 then "high"
    else if severity >= 4.0 then "medium"
    else "low"
  }

  /** The position of a level in the order low < medium < high < emergency. */
  function LevelRank(level: string): nat {
    if level == "emergency" then 3 else if level == "high" then 2 else if level == "medium" then 1 else 0
  }

  /** A higher severity never gives a lower level. */
  lemma SeverityMonotone(a: real, b: real)
    requires a <= b
    ensures LevelRank(SeverityLevel(a)) <= LevelRank(SeverityLevel(b))
  {
  }

  /** `x || fallback` on a text. */
  function OrText(x: string, fallback: string): (r: string)
    ensures x != "" ==> r == x
    ensures x == "" ==> r == fallback
  {
    if x != "" then x else fallback
  }

  /** A symptom check from `/api/symptom-check`. */
  datatype ServerCheck = ServerCheck(id: string, severity: Json, symptoms: Option<seq<string>>, createdAt: string)

  /** An alert from `/api/emergency`, with its patient's name and phone. */
  datatype ServerEmergency = ServerEmergency(
    id: string,
    patient: Option<(string, string)>,
    description: Option<string>,
    emergencyType: string,
    locationAddress: string,
    createdAt: string)

  /** A symptom check saved offline: its input's age and symptoms, its result's level. */
  datatype OfflineCheck = OfflineCheck(id: string, age: real, riskLevel: string, symptoms: Option<seq<string>>, date: string)

  /** The report inside an offline emergency record. */
  datatype SosReport = SosReport(patientName: string, age: real, symptoms: Option<seq<string>>, location: string)

  datatype OfflineEmergency = OfflineEmergency(id: string, data: Option<SosReport>, timestamp: string)

  /** The level of a server check: `getSeverityLevel(check.severity || 5)`. A
      value that is not a number compares false everywhere and lands on "low". */
  function ServerRisk(severity: Json, toNumber: Json -> Option<real>): (r: string)
    ensures !JsTruthy(severity) ==> r == "medium"
    ensures JsTruthy(severity) && toNumber(severity).None? ==> r == "low"
    ensures JsTruthy(severity) && toNumber(severity).Some? ==> r == SeverityLevel(toNumber(severity).value)
  {
    if !JsTruthy(severity) then SeverityLevel(5.0)
    else match toNumber(severity)
      case None => "low"
      case Some(n) => SeverityLevel(n)
  }

  function FromServerCheck(c: ServerCheck, toNumber: Json -> Option<real>): (r: PatientCase)
    ensures r.id == c.id && r.timestamp == c.createdAt && r.location == "Unknown"
    ensures r.patientName == "Patient " + LastChars(c.id, 4)
  {
    PatientCase(c.id, "Patient " + LastChars(c.id, 4), 0.0, ServerRisk(c.severity, toNumber),
                c.symptoms.GetOr([]), "Unknown", c.createdAt, false, None)
  }

  /** The symptoms of a server alert: its description split at ", ", or else
      its type (or "Emergency") alone. */
  function AlertSymptoms(e: ServerEmergency): (r: seq<string>)
    ensures |r| >= 1
    ensures e.description.Some? ==> Join(r, ", ") == e.description.value
    ensures e.description.None? ==> r == [OrText(e.emergencyType, "Emergency")]
  {
    match e.description
    case Some(d) =>
      SplitSepJoin(d, ", ");
      SplitSep(d, ", ")
    case None => [OrText(e.emergencyType, "Emergency")]
  }

  function FromServerEmergency(e: ServerEmergency): (r: PatientCase)
    ensures r.riskLevel == "emergency" && r.id == e.id && r.timestamp == e.createdAt
    ensures r.patientName == if e.patient.Some? then OrText(e.patient.value.0, "Unknown Patient") else "Unknown Patient"
    ensures r.phone.Some? <==> e.patient.Some? && e.patient.value.1 != ""
  {
    var name := if e.patient.Some? then OrText(e.patient.value.0, "Unknown Patient") else "Unknown Patient";
    var phone := if e.patient.Some? && e.patient.value.1 != "" then Some(e.patient.value.1) else None;
    PatientCase(e.id, name, 0.0, "emergency", AlertSymptoms(e), OrText(e.locationAddress, "Unknown"),
                e.createdAt, false, phone)
  }

  function FromOfflineCheck(c: OfflineCheck): (r: PatientCase)
    ensures r.id == c.id && r.timestamp == c.date
    ensures r.riskLevel == OrText(c.riskLevel, "low")
  {
    PatientCase(c.id, "Patient " + LastChars(c.id, 4), c.age, OrText(c.riskLevel, "low"),
                c.symptoms.GetOr([]), "Unknown", c.date, false, None)
  }

  function FromOfflineEmergency(e: OfflineEmergency): (r: PatientCase)
    ensures r.riskLevel == "emergency" && r.id == e.id && r.timestamp == e.timestamp
  {
    match e.data
    case None => PatientCase(e.id, "Unknown", 0.0, "emergency", [], "Unknown", e.timestamp, false, None)
    case Some(d) =>
      PatientCase(e.id, OrText(d.patientName, "Unknown"), d.age, "emergency", d.symptoms.GetOr([]),
                  OrText(d.location, "Unknown"), e.timestamp, false, None)
  }

  /** Some case in `cases` has this id (`cases.find(c => c.id === id)`). */
  predicate HasId(cases: seq<PatientCase>, id: string) {
    exists k :: 0 <= k < |cases| && cases[k].id == id
  }

  /** Appends each extra case whose id is not yet present, in order. */
  function Merge(cases: seq<PatientCase>, extra: seq<PatientCase>): seq<PatientCase>
  {
    if |extra| == 0 then cases
    else
      var acc := Merge(cases, extra[..|extra| - 1]);
      var c := extra[|extra| - 1];
      if HasId(acc, c.id) then acc else acc + [c]
  }

  /** The merge keeps every case it started from, in front, and adds only
      extra cases whose id was absent: no added case repeats an id already
      present, and every extra id ends up present. */
  lemma {:induction false} MergeShape(cases: seq<PatientCase>, extra: seq<PatientCase>)
    ensures |Merge(cases, extra)| >= |cases|
    ensures Merge(cases, extra)[..|cases|] == cases
    ensures forall i :: |cases| <= i < |Merge(cases, extra)| ==>
              Merge(cases, extra)[i] in extra && !HasId(Merge(cases, extra)[..i], Merge(cases, extra)[i].id)
    ensures forall i :: 0 <= i < |extra| ==> HasId(Merge(cases, extra), extra[i].id)
    decreases |extra|
  {
    if |extra| > 0 {
      var init := extra[..|extra| - 1];
      var acc := Merge(cases, init);
      var c := extra[|extra| - 1];
      MergeShape(cases, init);
      var r := Merge(cases, extra);
      assert r == if HasId(acc, c.id) then acc else acc + [c];
      forall i | |cases| <= i < |r| ensures r[i] in extra && !HasId(r[..i], r[i].id) {
        if i < |acc| {
          assert r[..i] == acc[..i];
          assert r[i] == acc[i];
          assert acc[i] in init;
        } else {
          assert r[..i] == acc;
        }
      }
      forall i | 0 <= i < |extra| ensures HasId(r, extra[i].id) {
        if i < |extra| - 1 {
          assert extra[i] == init[i];
          var k :| 0 <= k < |acc| && acc[k].id == extra[i].id;
          assert r[k] == acc[k];
        } else if !HasId(acc, c.id) {
          assert r[|acc|] == c;
        }
      }
    }
  }

  /** The body of one offline `forEach`: push the case unless its id is present. */
  method AddIfMissing(cases: seq<PatientCase>, c: PatientCase) returns (r: seq<PatientCase>)
    ensures r == if HasId(cases, c.id) then cases else cases + [c]
  {
    r := cases;
    var k := 0;
    while k < |cases|
      invariant 0 <= k <= |cases|
      invariant forall j :: 0 <= j < k ==> cases[j].id != c.id
    {
      if cases[k].id == c.id {
        return;
      }
      k := k + 1;
    }
    r := cases + [c];
  }

  /** An offline `forEach` loop. */
  method AddAllMissing(cases: seq<PatientCase>, extra: seq<PatientCase>) returns (r: seq<PatientCase>)
    ensures r == Merge(cases, extra)
  {
    r := cases;
    var i := 0;
    while i < |extra|
      invariant 0 <= i <= |extra|
      invariant r == Merge(cases, extra[..i])
    {
      assert extra[..i + 1][..i] == extra[..i];
      r := AddIfMissing(r, extra[i]);
      i := i + 1;
    }
    assert extra[..|extra|] == extra;
  }

  function CheckCases(checks: seq<ServerCheck>, toNumber: Json -> Option<real>): (r: seq<PatientCase>)
    ensures |r| == |checks| && forall i :: 0 <= i < |checks| ==> r[i] == FromServerCheck(checks[i], toNumber)
  {
    seq(|checks|, i requires 0 <= i < |checks| => FromServerCheck(checks[i], toNumber))
  }

  function AlertCases(alerts: seq<ServerEmergency>): (r: seq<PatientCase>)
    ensures |r| == |alerts| && forall i :: 0 <= i < |alerts| ==> r[i] == FromServerEmergency(alerts[i])
  {
    seq(|alerts|, i requires 0 <= i < |alerts| => FromServerEmergency(alerts[i]))
  }

  function OfflineCheckCases(checks: seq<OfflineCheck>): (r: seq<PatientCase>)
    ensures |r| == |checks| && forall i :: 0 <= i < |checks| ==> r[i] == FromOfflineCheck(checks[i])
  {
    seq(|checks|, i requires 0 <= i < |checks| => FromOfflineCheck(checks[i]))
  }

  function OfflineAlertCases(alerts: seq<OfflineEmergency>): (r: seq<PatientCase>)
    ensures |r| == |alerts| && forall i :: 0 <= i < |alerts| ==> r[i] == FromOfflineEmergency(alerts[i])
  {
    seq(|alerts|, i requires 0 <= i < |alerts| => FromOfflineEmergency(alerts[i]))
  }

  /** The server cases: every check, then every alert, of the responses that were ok. */
  function ServerCases(checks: Option<seq<ServerCheck>>, alerts: Option<seq<ServerEmergency>>,
                       toNumber: Json -> Option<real>): seq<PatientCase>
  {
    CheckCases(checks.GetOr([]), toNumber) + AlertCases(alerts.GetOr([]))
  }

  /** The case list before sorting: the server cases, then the offline checks
      and alerts whose ids are new. */
  function Collected(checks: Option<seq<ServerCheck>>, alerts: Option<seq<ServerEmergency>>,
                     offlineChecks: seq<OfflineCheck>, offlineAlerts: seq<OfflineEmergency>,
                     toNumber: Json -> Option<real>): seq<PatientCase>
  {
    Merge(Merge(ServerCases(checks, alerts, toNumber), OfflineCheckCases(offlineChecks)),
          OfflineAlertCases(offlineAlerts))
  }

  /** The comparator of `cases.sort`: the later timestamp first. */
  function LaterFirst(time: string -> int): (PatientCase, PatientCase) -> bool {
    (a: PatientCase, b: PatientCase) => time(a.timestamp) >= time(b.timestamp)
  }

  lemma LaterFirstIsPreorder(time: string -> int)
    ensures TotalPreorder(LaterFirst(time))
  {
  }

  /** Sorting the cases keeps them all and puts them newest first. */
  lemma SortedNewestFirst(cases: seq<PatientCase>, time: string -> int)
    ensures multiset(SortBy(cases, LaterFirst(time))) == multiset(cases)
    ensures var r := SortBy(cases, LaterFirst(time));
            forall i, j :: 0 <= i < j < |r| ==> time(r[i].timestamp) >= time(r[j].timestamp)
  {
    var r := SortBy(cases, LaterFirst(time));
    LaterFirstIsPreorder(time);
    SortSorted(cases, LaterFirst(time));
    assert forall i, j :: 0 <= i < j < |r| ==> LaterFirst(time)(r[i], r[j]);
  }

  /** Every server case is kept, in front and in order, and the offline
      cases added after them never repeat an id already listed. */
  lemma CollectedShape(checks: Option<seq<ServerCheck>>, alerts: Option<seq<ServerEmergency>>,
                       offlineChecks: seq<OfflineCheck>, offlineAlerts: seq<OfflineEmergency>,
                       toNumber: Json -> Option<real>)
    ensures var server := ServerCases(checks, alerts, toNumber);
            var r := Collected(checks, alerts, offlineChecks, offlineAlerts, toNumber);
            |r| >= |server| && r[..|server|] == server
            && forall i :: |server| <= i < |r| ==> !HasId(r[..i], r[i].id)
  {
    MergeTwiceShape(ServerCases(checks, alerts, toNumber), OfflineCheckCases(offlineChecks),
                    OfflineAlertCases(offlineAlerts));
  }

  /** Two merges in a row keep the first list in front and add no repeated id. */
  lemma MergeTwiceShape(server: seq<PatientCase>, first: seq<PatientCase>, second: seq<PatientCase>)
    ensures var r := Merge(Merge(server, first), second);
            |r| >= |server| && r[..|server|] == server
            && forall i :: |server| <= i < |r| ==> !HasId(r[..i], r[i].id)
  {
    var m := Merge(server, first);
    var r := Merge(m, second);
    MergeShape(server, first);
    MergeShape(m, second);
    assert r[..|server|] == r[..|m|][..|server|];
    forall i | |server| <= i < |r| ensures !HasId(r[..i], r[i].id) {
      if i < |m| {
        assert r[..i] == m[..i];
        assert r[i] == m[i];
      }
    }
  }

  /** The server check loop. */
  method PushChecks(checks: seq<ServerCheck>, toNumber: Json -> Option<real>) returns (cases: seq<PatientCase>)
    ensures cases == CheckCases(checks, toNumber)
  {
    cases := [];
    var i := 0;
    while i < |checks|
      invariant 0 <= i <= |checks|
      invariant cases == CheckCases(checks[..i], toNumber)
    {
      cases := cases + [FromServerCheck(checks[i], toNumber)];
      i := i + 1;
    }
    assert checks[..|checks|] == checks;
  }

  /** The server alert loop. */
  method PushAlerts(cases: seq<PatientCase>, alerts: seq<ServerEmergency>) returns (r: seq<PatientCase>)
    ensures r == cases + AlertCases(alerts)
  {
    r := cases;
    var i := 0;
    while i < |alerts|
      invariant 0 <= i <= |alerts|
      invariant r == cases + AlertCases(alerts[..i])
    {
      r := r + [FromServerEmergency(alerts[i])];
      i := i + 1;
    }
    assert alerts[..|alerts|] == alerts;
  }

  /** `loadPatients`. The server part is `None` for a response that was not ok
      (and both are `None` when the fetch failed). */
  method LoadPatients(checks: Option<seq<ServerCheck>>, alerts: Option<seq<ServerEmergency>>,
                      offlineChecks: seq<OfflineCheck>, offlineAlerts: seq<OfflineEmergency>,
                      toNumber: Json -> Option<real>, time: string -> int)
    returns (cases: seq<PatientCase>)
    ensures cases == SortBy(Collected(checks, alerts, offlineChecks, offlineAlerts, toNumber), LaterFirst(time))
  {
    cases := PushChecks(checks.GetOr([]), toNumber);
    cases := PushAlerts(cases, alerts.GetOr([]));
    cases := AddAllMissing(cases, OfflineCheckCases(offlineChecks));
    cases := AddAllMissing(cases, OfflineAlertCases(offlineAlerts));
    cases := SortBy(cases, LaterFirst(time));
  }

  /** The patient name or location contains the query, ignoring case. */
  predicate MatchesQuery(p: PatientCase, query: string) {
    Contains(Lower(p.patientName), Lower(query)) || Contains(Lower(p.location), Lower(query))
  }

  function Matching(patients: seq<PatientCase>, query: string): seq<PatientCase> {
    Filter(patients, (p: PatientCase) => MatchesQuery(p, query))
  }

  /** Every case contains the empty query. */
  lemma EmptyQueryKeepsAll(patients: seq<PatientCase>)
    ensures Matching(patients, "") == patients
  {
    forall p | p in patients ensures MatchesQuery(p, "") {
      ContainsEmpty(Lower(p.patientName));
    }
    FilterAll(patients, (p: PatientCase) => MatchesQuery(p, ""));
  }

  /** `filteredPatients`: the matching cases, in order. */
  function FilteredPatients(patients: seq<PatientCase>, query: string): (r: seq<PatientCase>)
    ensures IsSubseq(r, patients)
    ensures forall p :: p in r <==> p in patients && MatchesQuery(p, query)
    ensures query == "" ==> r == patients
  {
    FilterIsSubseq(patients, (p: PatientCase) => MatchesQuery(p, query));
    EmptyQueryKeepsAll(patients);
    Matching(patients, query)
  }

  predicate IsHighRisk(p: PatientCase) {
    p.riskLevel == "high" || p.riskLevel == "emergency"
  }

  /** `highRiskCount`: the high and emergency cases, never more than all cases. */
  function HighRiskCount(patients: seq<PatientCase>): (r: nat)
    ensures r <= |patients|
    ensures r == |patients| <==> forall p :: p in patients ==> IsHighRisk(p)
    ensures r == 0 <==> forall p :: p in patients ==> !IsHighRisk(p)
  {
    HighRiskCountBounds(patients);
    |Filter(patients, IsHighRisk)|
  }

  lemma {:induction false} HighRiskCountBounds(patients: seq<PatientCase>)
    ensures |Filter(patients, IsHighRisk)| == |patients| <==> forall p :: p in patients ==> IsHighRisk(p)
    ensures |Filter(patients, IsHighRisk)| == 0 <==> forall p :: p in patients ==> !IsHighRisk(p)
  {
    if |patients| > 0 {
      HighRiskCountBounds(patients[1..]);
      assert forall p :: p in patients <==> p == patients[0] || p in patients[1..];
    }
  }
}
