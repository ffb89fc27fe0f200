/** The volunteer doctors page: its constant table of eight doctors in the
    hill districts, the search and district filters over it, and the
    districts it offers for selection. */
module Volunteers {
  import opened Strings
  import opened SeqUtil

  datatype Volunteer = Volunteer(
    id: string,
    name: string,
    specialization: string,
    phone: string,
    location: string,
    district: string,
    latitude: real,
    longitude: real,
    availability: string,
    languages: seq<string>,
    experience: string)

  /** The doctors of `volunteerDoctors`, one constructor each. */
  datatype Doctor = RahmanAhmed | FatimaKhan | KamalHossain | NusratJahan
                  | AmirAli | SabinaAkter | MizanurRahman | AyeshaSiddique

  /** The record the table holds for each doctor. */
  function Entry(d: Doctor): Volunteer {
    match d
    case RahmanAhmed => Volunteer("1", "Dr. Rahman Ahmed", "General Physician", "+880 1712-345678",
      "Bandarban Sadar", "Bandarban", 22.1953, 92.2184, "9 AM - 5 PM", ["Bengali", "Chakma", "English"], "15 years")
    case FatimaKhan => Volunteer("2", "Dr. Fatima Khan", "Pediatrician", "+880 1812-456789",
      "Thanchi", "Bandarban", 21.9167, 92.4667, "10 AM - 6 PM", ["Bengali", "Marma"], "10 years")
    case KamalHossain => Volunteer("3", "Dr. Kamal Hossain", "Surgeon", "+880 1912-567890",
      "Khagrachari Sadar", "Khagrachari", 23.1193, 91.9847, "8 AM - 4 PM", ["Bengali", "Tripura", "English"], "20 years")
    case NusratJahan => Volunteer("4", "Dr. Nusrat Jahan", "Gynecologist", "+880 1612-678901",
      "Rangamati Sadar", "Rangamati", 22.6372, 92.2061, "9 AM - 3 PM", ["Bengali", "Chakma"], "12 years")
    case AmirAli => Volunteer("5", "Dr. Amir Ali", "Cardiologist", "+880 1512-789012",
      "Ruma", "Bandarban", 22.0167, 92.4000, "10 AM - 4 PM", ["Bengali", "English"], "18 years")
    case SabinaAkter => Volunteer("6", "Dr. Sabina Akter", "Dermatologist", "+880 1712-890123",
      "Dighinala", "Khagrachari", 23.1700, 92.1600, "11 AM - 7 PM", ["Bengali", "Chakma", "English"], "8 years")
    case MizanurRahman => Volunteer("7", "Dr. Mizanur Rahman", "Orthopedic Surgeon", "+880 1812-901234",
      "Belaichhari", "Rangamati", 23.0167, 92.3167, "9 AM - 5 PM", ["Bengali", "Marma"], "14 years")
    case AyeshaSiddique => Volunteer("8", "Dr. Ayesha Siddique", "ENT Specialist", "+880 1912-012345",
      "Lama", "Bandarban", 21.7833, 92.2000, "8 AM - 2 PM", ["Bengali", "Tripura", "English"], "11 years")
  }

  /** The district of each doctor, as the table records it. */
  function DistrictOf(d: Doctor): (r: string)
    ensures r == Entry(d).district
  {
    match d
    case RahmanAhmed => "Bandarban"
    case FatimaKhan => "Bandarban"
    case KamalHossain => "Khagrachari"
    case NusratJahan => "Rangamati"
    case AmirAli => "Bandarban"
    case SabinaAkter => "Khagrachari"
    case MizanurRahman => "Rangamati"
    case AyeshaSiddique => "Bandarban"
  }

  function DoctorAt(i: nat): Doctor
    requires i < 8
  {
    [RahmanAhmed, FatimaKhan, KamalHossain, NusratJahan, AmirAli, SabinaAkter, MizanurRahman, AyeshaSiddique][i]
  }

  /** `volunteerDoctors`, in table order; the ids are "1" to "8". */
  function VolunteerDoctors(): (r: seq<Volunteer>)
    ensures |r| == 8
    ensures forall i :: 0 <= i < 8 ==> r[i] == Entry(DoctorAt(i))
  {
    seq(8, i requires 0 <= i < 8 => Entry(DoctorAt(i)))
  }

  /** The search term occurs, ignoring case, in the name, the specialization
      or the location. */
  predicate MatchesSearch(v: Volunteer, term: string) {
    Contains(Lower(v.name), Lower(term))
    || Contains(Lower(v.specialization), Lower(term))
    || Contains(Lower(v.location), Lower(term))
  }

  /** A volunteer passes both filters; an empty term and "all" select everyone. */
  predicate Selected(v: Volunteer, term: string, district: string) {
    (term == "" || MatchesSearch(v, term)) && (district == "all" || v.district == district)
  }

  /** The search filter, which an empty term skips. */
  function Searched(table: seq<Volunteer>, term: string): (r: seq<Volunteer>)
    ensures term == "" ==> r == table
    ensures IsSubseq(r, table)
    ensures forall i :: 0 <= i < |r| ==> r[i] in table && (term == "" || MatchesSearch(r[i], term))
    ensures forall k :: 0 <= k < |table| && (term == "" || MatchesSearch(table[k], term)) ==> table[k] in r
  {
    if term == "" then
      SubseqRefl(table);
      table
    else
      FilterIsSubseq(table, (v: Volunteer) => MatchesSearch(v, term));
      Filter(table, (v: Volunteer) => MatchesSearch(v, term))
  }

  /** The district filter, which "all" skips. */
  function InDistrict(table: seq<Volunteer>, district: string): (r: seq<Volunteer>)
    ensures district == "all" ==> r == table
    ensures IsSubseq(r, table)
    ensures forall i :: 0 <= i < |r| ==> r[i] in table && (district == "all" || r[i].district == district)
    ensures forall k :: 0 <= k < |table| && (district == "all" || table[k].district == district) ==> table[k] in r
  {
    if district == "all" then
      SubseqRefl(table);
      table
    else
      FilterIsSubseq(table, (v: Volunteer) => v.district == district);
      Filter(table, (v: Volunteer) => v.district == district)
  }

  /** The filter effect, over any table: the selected volunteers, in table order. */
  function FilterVolunteers(table: seq<Volunteer>, term: string, district: string): (r: seq<Volunteer>)
    ensures IsSubseq(r, table)
    ensures forall i :: 0 <= i < |r| ==> r[i] in table && Selected(r[i], term, district)
    ensures forall k :: 0 <= k < |table| && Selected(table[k], term, district) ==> table[k] in r
  {
    var searched := Searched(table, term);
    SubseqTrans(InDistrict(searched, district), searched, table);
    InDistrict(searched, district)
  }

  /** An empty term and "all" show the whole table. */
  lemma NoFilterShowsAll(table: seq<Volunteer>)
    ensures FilterVolunteers(table, "", "all") == table
  {
  }

  /** The position of each doctor in the table. */
  function Position(d: Doctor): (r: nat)
    ensures r < 8 && DoctorAt(r) == d
  {
    match d
    case RahmanAhmed => 0
    case FatimaKhan => 1
    case KamalHossain => 2
    case NusratJahan => 3
    case AmirAli => 4
    case SabinaAkter => 5
    case MizanurRahman => 6
    case AyeshaSiddique => 7
  }

  /** Choosing a doctor's district, with an empty search, shows that doctor. */
  lemma DistrictShowsItsDoctors(d: Doctor)
    ensures Entry(d) in FilterVolunteers(VolunteerDoctors(), "", DistrictOf(d))
  {
    var table := VolunteerDoctors();
    assert table[Position(d)] == Entry(d);
    assert Selected(table[Position(d)], "", DistrictOf(d));
  }

  /** `volunteerDoctors.map((d) => d.district)`. The facility pages project
      their own record type, in `Facilities.DistrictNames`. */
  function DistrictNames(table: seq<Volunteer>): (r: seq<string>)
    ensures |r| == |table| && forall i :: 0 <= i < |table| ==> r[i] == table[i].district
  {
    seq(|table|, i requires 0 <= i < |table| => table[i].district)
  }

  /** `districts`, over any table: each district once, in the order of its
      first appearance. */
  function Districts(table: seq<Volunteer>): (r: seq<string>)
    ensures NoDups(r) && IsSubseq(r, DistrictNames(table))
    ensures forall i :: 0 <= i < |r| ==> exists k :: 0 <= k < |table| && table[k].district == r[i]
    ensures forall k :: 0 <= k < |table| ==> table[k].district in r
    ensures InFirstOccurrenceOrder(r, DistrictNames(table))
  {
    DedupIsSubseq(DistrictNames(table));
    DedupOrder(DistrictNames(table));
    Dedup(DistrictNames(table))
  }

  /** The page offers the three hill districts, in this order. */
  lemma TableDistricts()
    ensures Districts(VolunteerDoctors()) == ["Bandarban", "Khagrachari", "Rangamati"]
  {
    var names := DistrictNames(VolunteerDoctors());
    var listed := ["Bandarban", "Bandarban", "Khagrachari", "Rangamati",
                   "Bandarban", "Khagrachari", "Rangamati", "Bandarban"];
    forall i | 0 <= i < 8 ensures names[i] == listed[i] {
      assert names[i] == DistrictOf(DoctorAt(i));
    }
    assert names == listed;
    DedupListed(listed);
  }

  lemma DedupListed(listed: seq<string>)
    requires listed == ["Bandarban", "Bandarban", "Khagrachari", "Rangamati",
                        "Bandarban", "Khagrachari", "Rangamati", "Bandarban"]
    ensures Dedup(listed) == ["Bandarban", "Khagrachari", "Rangamati"]
  {
    var b, k, r := "Bandarban", "Khagrachari", "Rangamati";
    assert b[0] != k[0] && b[0] != r[0] && k[0] != r[0];
    DedupThree(b, k, r);
  }

  /** De-duplicating the table's pattern of three distinct districts. */
  lemma DedupThree(b: string, k: string, r: string)
    requires b != k && b != r && k != r
    ensures Dedup([b, b, k, r, b, k, r, b]) == [b, k, r]
  {
    DedupFirstFour(b, k, r);
    DedupAppendSeen([b, b, k, r], [b, k, r, b]);
    assert [b, b, k, r] + [b, k, r, b] == [b, b, k, r, b, k, r, b];
  }

  lemma DedupFirstFour(b: string, k: string, r: string)
    requires b != k && b != r && k != r
    ensures Dedup([b, b, k, r]) == [b, k, r]
  {
    var s1, s2, s3, s4 := [b], [b, b], [b, b, k], [b, b, k, r];
    assert s1[..0] == [];
    assert Dedup(s1) == [b];
    assert s2[..1] == s1;
    assert Dedup(s2) == [b];
    assert s3[..2] == s2 && k !in [b];
    assert Dedup(s3) == [b, k];
    assert s4[..3] == s3 && r !in [b, k];
    assert Dedup(s4) == [b, k] + [r];
  }
}
