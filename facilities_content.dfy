/** The facility directory component: the search, type and district filters,
    the sort by name, and the list of districts offered for selection. The
    name comparison (`localeCompare`) is a parameter. */
module FacilitiesContent {
  import opened Wrappers
  import opened Strings
  import opened SeqUtil
  import opened Facilities

  /** The search term occurs, ignoring case, in the name, the district or the
      village; a facility without a village cannot match on it. */
  predicate MatchesSearch(f: Facility, term: string) {
    Contains(Lower(f.name), Lower(term))
    || Contains(Lower(f.district), Lower(term))
    || (f.village.Some? && Contains(Lower(f.village.value), Lower(term)))
  }

  /** The search filter, which an empty term skips. */
  function BySearch(fs: seq<Facility>, term: string): (r: seq<Facility>)
    ensures term == "" ==> r == fs
    ensures term != "" ==> forall i :: 0 <= i < |r| ==> MatchesSearch(r[i], term)
    ensures forall i :: 0 <= i < |r| ==> r[i] in fs
    ensures forall i :: 0 <= i < |fs| && (term == "" || MatchesSearch(fs[i], term)) ==> fs[i] in r
    ensures IsSubseq(r, fs)
  {
    if term == "" then
      SubseqRefl(fs);
      fs
    else
      FilterIsSubseq(fs, (f: Facility) => MatchesSearch(f, term));
      Filter(fs, (f: Facility) => MatchesSearch(f, term))
  }

  /** A facility passes all three filters. */
  predicate Selected(f: Facility, term: string, selectedType: string, selectedDistrict: string) {
    (term == "" || MatchesSearch(f, term))
    && (selectedType == ALL || TypeName(f.facilityType) == selectedType)
    && (selectedDistrict == ALL || f.district == selectedDistrict)
  }

  /** The facilities that survive the three filters, in their original order:
      exactly those that pass all three. */
  function Shown(fs: seq<Facility>, term: string, selectedType: string, selectedDistrict: string)
    : (r: seq<Facility>)
    ensures IsSubseq(r, fs)
    ensures forall i :: 0 <= i < |r| ==> r[i] in fs && Selected(r[i], term, selectedType, selectedDistrict)
    ensures forall i :: 0 <= i < |fs| && Selected(fs[i], term, selectedType, selectedDistrict) ==> fs[i] in r
  {
    var searched := BySearch(fs, term);
    var typed := OfType(searched, selectedType);
    var r := InDistrict(typed, selectedDistrict);
    SubseqTrans(typed, searched, fs);
    SubseqTrans(r, typed, fs);
    r
  }

  /** No filter applies: an empty term and "all" for both selections. */
  predicate NoFilter(term: string, selectedType: string, selectedDistrict: string) {
    term == "" && selectedType == ALL && selectedDistrict == ALL
  }

  /** With no filter every facility is shown, in its original order. */
  lemma NoFilterShowsAll(fs: seq<Facility>, term: string, selectedType: string, selectedDistrict: string)
    requires NoFilter(term, selectedType, selectedDistrict)
    ensures Shown(fs, term, selectedType, selectedDistrict) == fs
  {
  }

  lemma {:induction false} FilterExt<T>(s: seq<T>, p: T -> bool, q: T -> bool)
    requires forall i :: 0 <= i < |s| ==> p(s[i]) == q(s[i])
    ensures Filter(s, p) == Filter(s, q)
  {
    if |s| > 0 {
      FilterExt(s[1..], p, q);
    }
  }

  lemma LowerTwice(s: string)
    ensures Lower(Lower(s)) == Lower(s)
  {
  }

  /** The search ignores the case of the term. */
  lemma SearchIgnoresCase(fs: seq<Facility>, term: string)
    ensures BySearch(fs, Lower(term)) == BySearch(fs, term)
  {
    LowerTwice(term);
    assert (term == "") == (Lower(term) == "");
    FilterExt(fs, (f: Facility) => MatchesSearch(f, Lower(term)), (f: Facility) => MatchesSearch(f, term));
  }

  /** The order of `a.name.localeCompare(b.name)`. */
  function ByName(collate: (string, string) -> int): (Facility, Facility) -> bool {
    (a: Facility, b: Facility) => collate(a.name, b.name) <= 0
  }

  /** `sort` on an array: its elements rearranged, in place, into the stable
      order of the comparator. */
  method SortByNameInPlace(a: array<Facility>, collate: (string, string) -> int)
    modifies a
    ensures a[..] == SortBy(old(a[..]), ByName(collate))
  {
    var sorted := SortBy(a[..], ByName(collate));
    var i := 0;
    while i < a.Length
      invariant 0 <= i <= a.Length
      invariant forall k :: 0 <= k < i ==> a[k] == sorted[k]
    {
      a[i] := sorted[i];
      i := i + 1;
    }
    assert a[..] == sorted;
  }

  /** The filter-and-sort effect. Each filter that applies yields a new array;
      when none applies, the sort reorders the component's own `facilities`
      array, otherwise that array is left as it was. */
  method FilterAndSort(facilities: array<Facility>, term: string, selectedType: string,
                       selectedDistrict: string, collate: (string, string) -> int)
    returns (shown: seq<Facility>)
    modifies facilities
    ensures shown == SortBy(Shown(old(facilities[..]), term, selectedType, selectedDistrict), ByName(collate))
    ensures NoFilter(term, selectedType, selectedDistrict) ==> facilities[..] == shown
    ensures !NoFilter(term, selectedType, selectedDistrict) ==> facilities[..] == old(facilities[..])
  {
    if NoFilter(term, selectedType, selectedDistrict) {
      SortByNameInPlace(facilities, collate);
      shown := facilities[..];
    } else {
      var s := Shown(facilities[..], term, selectedType, selectedDistrict);
      var filtered := new Facility[|s|](i requires 0 <= i < |s| => s[i]);
      assert filtered[..] == s;
      SortByNameInPlace(filtered, collate);
      shown := filtered[..];
    }
  }

  /** For a consistent name comparison the shown list is ordered by name and
      holds exactly the selected facilities. */
  lemma ShownOrderedByName(fs: seq<Facility>, term: string, selectedType: string, selectedDistrict: string,
                           collate: (string, string) -> int)
    requires TotalPreorder(ByName(collate))
    ensures var r := SortBy(Shown(fs, term, selectedType, selectedDistrict), ByName(collate));
            (forall i, j :: 0 <= i < j < |r| ==> collate(r[i].name, r[j].name) <= 0)
            && multiset(r) == multiset(Shown(fs, term, selectedType, selectedDistrict))
  {
    var shown := Shown(fs, term, selectedType, selectedDistrict);
    SortSorted(shown, ByName(collate));
    var r := SortBy(shown, ByName(collate));
    assert forall i, j :: 0 <= i < j < |r| ==> ByName(collate)(r[i], r[j]);
  }

  lemma LexIsPreorder()
    ensures TotalPreorder(LexLe)
  {
    forall a, b ensures LexLe(a, b) || LexLe(b, a) {
      LexTotal(a, b);
    }
    forall a, b, c | LexLe(a, b) && LexLe(b, c) ensures LexLe(a, c) {
      LexTrans(a, b, c);
    }
  }

  /** `districts`: each district of a facility once, in ascending order. */
  function Districts(fs: seq<Facility>): (r: seq<string>)
    ensures forall i, j :: 0 <= i < j < |r| ==> LexLe(r[i], r[j]) && r[i] != r[j]
    ensures forall i :: 0 <= i < |r| ==> exists k :: 0 <= k < |fs| && fs[k].district == r[i]
    ensures forall k :: 0 <= k < |fs| ==> fs[k].district in r
  {
    var names := DistrictNames(fs);
    SortedDistinct(Dedup(names));
    SortedSameElements(Dedup(names), names);
    SortBy(Dedup(names), LexLe)
  }

  lemma SortedDistinct(unique: seq<string>)
    requires NoDups(unique)
    ensures var r := SortBy(unique, LexLe);
            forall i, j :: 0 <= i < j < |r| ==> LexLe(r[i], r[j]) && r[i] != r[j]
  {
    LexIsPreorder();
    SortSorted(unique, LexLe);
    PermutationNoDups(unique, SortBy(unique, LexLe));
  }

  lemma SortedSameElements(unique: seq<string>, names: seq<string>)
    requires forall i :: 0 <= i < |unique| ==> unique[i] in names
    requires forall k :: 0 <= k < |names| ==> names[k] in unique
    ensures var r := SortBy(unique, LexLe);
            (forall i :: 0 <= i < |r| ==> r[i] in names) && (forall k :: 0 <= k < |names| ==> names[k] in r)
  {
    var r := SortBy(unique, LexLe);
    forall i | 0 <= i < |r| ensures r[i] in names {
      assert r[i] in multiset(unique);
    }
    forall k | 0 <= k < |names| ensures names[k] in r {
      assert names[k] in multiset(r);
    }
  }
}
