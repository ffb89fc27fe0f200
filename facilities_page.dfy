/** The facilities dashboard page: the type and district filters over the
    loaded list, and the districts it offers for selection. */
module FacilitiesPage {
  import opened SeqUtil
  import opened Facilities

  /** `filterFacilities`: it filters a copy of the loaded list, so the list
      itself stays as it was; the result keeps, in order, exactly the
      facilities of the selected type and district ("all" selects any). */
  function FilterFacilities(facilities: seq<Facility>, typeFilter: string, districtFilter: string)
    : (r: seq<Facility>)
    ensures IsSubseq(r, facilities)
    ensures forall i :: 0 <= i < |r| ==>
              r[i] in facilities
              && (typeFilter == ALL || TypeName(r[i].facilityType) == typeFilter)
              && (districtFilter == ALL || r[i].district == districtFilter)
    ensures forall k :: 0 <= k < |facilities|
                        && (typeFilter == ALL || TypeName(facilities[k].facilityType) == typeFilter)
                        && (districtFilter == ALL || facilities[k].district == districtFilter)
                        ==> facilities[k] in r
    ensures typeFilter == ALL && districtFilter == ALL ==> r == facilities
  {
    var typed := OfType(facilities, typeFilter);
    SubseqTrans(InDistrict(typed, districtFilter), typed, facilities);
    InDistrict(typed, districtFilter)
  }

  /** Filtering an already filtered list with the same selection changes nothing. */
  lemma FilterIdempotent(facilities: seq<Facility>, typeFilter: string, districtFilter: string)
    ensures var once := FilterFacilities(facilities, typeFilter, districtFilter);
            FilterFacilities(once, typeFilter, districtFilter) == once
  {
    var once := FilterFacilities(facilities, typeFilter, districtFilter);
    if typeFilter != ALL {
      FilterAll(once, (f: Facility) => TypeName(f.facilityType) == typeFilter);
    }
    assert OfType(once, typeFilter) == once;
    if districtFilter != ALL {
      FilterAll(once, (f: Facility) => f.district == districtFilter);
    }
  }

  /** `districts`: each district of a loaded facility once, in the order of
      its first appearance. */
  function PageDistricts(facilities: seq<Facility>): (r: seq<string>)
    ensures NoDups(r)
    ensures IsSubseq(r, DistrictNames(facilities))
    ensures forall i :: 0 <= i < |r| ==> exists k :: 0 <= k < |facilities| && facilities[k].district == r[i]
    ensures forall k :: 0 <= k < |facilities| ==> facilities[k].district in r
    ensures InFirstOccurrenceOrder(r, DistrictNames(facilities))
  {
    var names := DistrictNames(facilities);
    DedupIsSubseq(names);
    DedupOrder(names);
    Dedup(names)
  }
}
