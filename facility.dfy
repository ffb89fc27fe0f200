/** The medical facility records the two facility pages list, and the type
    and district selections they share. */
module Facilities {
  import opened Wrappers
  import opened SeqUtil

  datatype FacilityType = Hospital | ClinicSite | PharmacySite | DiagnosticCenter

  /** The wire value of a facility type. */
  function TypeName(t: FacilityType): string {
    match t
    case Hospital => "hospital"
    case ClinicSite => "clinic"
    case PharmacySite => "pharmacy"
    case DiagnosticCenter => "diagnostic_center"
  }

  /** The fields of a facility the pages filter and sort on. */
  datatype Facility = Facility(
    id: string,
    name: string,
    facilityType: FacilityType,
    village: Option<string>,
    district: string,
    latitude: Option<real>,
    longitude: Option<real>)

  /** The select value that turns a filter off. */
  const ALL := "all"

  /** The type filter: skipped for "all", otherwise exact matches only. */
  function OfType(fs: seq<Facility>, selected: string): (r: seq<Facility>)
    ensures selected == ALL ==> r == fs
    ensures selected != ALL ==> forall i :: 0 <= i < |r| ==> TypeName(r[i].facilityType) == selected
    ensures forall i :: 0 <= i < |r| ==> r[i] in fs
    ensures forall i :: 0 <= i < |fs| && (selected == ALL || TypeName(fs[i].facilityType) == selected)
                        ==> fs[i] in r
    ensures IsSubseq(r, fs)
  {
    if selected == ALL then
      SubseqRefl(fs);
      fs
    else
      FilterIsSubseq(fs, (f: Facility) => TypeName(f.facilityType) == selected);
      Filter(fs, (f: Facility) => TypeName(f.facilityType) == selected)
  }

  /** The district filter: skipped for "all", otherwise exact matches only. */
  function InDistrict(fs: seq<Facility>, selected: string): (r: seq<Facility>)
    ensures selected == ALL ==> r == fs
    ensures selected != ALL ==> forall i :: 0 <= i < |r| ==> r[i].district == selected
    ensures forall i :: 0 <= i < |r| ==> r[i] in fs
    ensures forall i :: 0 <= i < |fs| && (selected == ALL || fs[i].district == selected) ==> fs[i] in r
    ensures IsSubseq(r, fs)
  {
    if selected == ALL then
      SubseqRefl(fs);
      fs
    else
      FilterIsSubseq(fs, (f: Facility) => f.district == selected);
      Filter(fs, (f: Facility) => f.district == selected)
  }

  /** `facilities.map(f => f.district)`. */
  function DistrictNames(fs: seq<Facility>): (r: seq<string>)
    ensures |r| == |fs| && forall i :: 0 <= i < |fs| ==> r[i] == fs[i].district
  {
    seq(|fs|, i requires 0 <= i < |fs| => fs[i].district)
  }
}
