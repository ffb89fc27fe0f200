/** The medicine extractor of the prescription scanner
    (components/prescription-scanner/prescription-scanner-content.tsx,
    `parseMedicines`): a main pass over the lines of the recognised text that
    opens a medicine at each line matching a medicine pattern and fills in its
    frequency and duration from later lines, and a fallback pass used only when
    the main pass found nothing. The regular expressions are matchers given as
    parameters; splitting, trimming and lowercasing are modelled. */
module PrescriptionScanner {
  import opened Wrappers
  import opened Strings

  datatype Medicine = Medicine(name: string, dosage: string, frequency: string, duration: string)

  /** The regular expressions of `parseMedicines`, each as the text of its first match. */
  datatype Matchers = Matchers(
    medicinePatterns: seq<string -> Option<string>>,  // `medicinePatterns`, in order: the whole first match
    cleanName: string -> string,                      // the two `replace` calls on a match
    dosage: string -> Option<string>,                 // the strength pattern, on the name
    frequency: string -> Option<string>,              // `dosagePattern`: the whole first match
    duration: string -> Option<string>,               // the duration pattern: its first group
    listItem: string -> bool,                         // the numbered or bulleted line tests
    listStrip: string -> string)                      // the replace removing the list marker

  const MEDICINE_KEYWORDS: seq<string> := ["medicine", "tablet", "capsule", "syrup", "injection", "rx", "medication"]

  /** The first medicine pattern that matches the line, if any. */
  function FirstMatch(patterns: seq<string -> Option<string>>, line: string): (r: Option<string>)
    ensures r.Some? <==> exists i :: 0 <= i < |patterns| && patterns[i](line).Some?
    ensures r.Some? ==> exists i :: 0 <= i < |patterns| && patterns[i](line) == r
                                    && forall j :: 0 <= j < i ==> patterns[j](line).None?
  {
    if |patterns| == 0 then None
    else if patterns[0](line).Some? then patterns[0](line)
    else
      var r := FirstMatch(patterns[1..], line);
      assert forall i :: 1 <= i < |patterns| ==> patterns[i] == patterns[1..][i - 1];
      r
  }

  /** The main pass so far: the medicines pushed and `currentMedicine`. */
  datatype PassState = PassState(medicines: seq<Medicine>, current: Option<Medicine>)

  /** The medicine being filled in, pushed only when it has a name. */
  function Pending(current: Option<Medicine>): seq<Medicine> {
    if current.Some? && current.value.name != "" then [current.value] else []
  }

  /** A medicine opened by a pattern match. */
  function Opened(matched: string, m: Matchers): Medicine {
    var name := Trim(m.cleanName(matched));
    Medicine(name, m.dosage(name).GetOr(""), "", "")
  }

  /** A line matching a medicine pattern closes the current medicine and opens a new one. */
  function MatchStage(st: PassState, line: string, m: Matchers): PassState {
    match FirstMatch(m.medicinePatterns, line)
    case None => st
    case Some(matched) => PassState(st.medicines + Pending(st.current), Some(Opened(matched, m)))
  }

  /** A frequency match fills in the current medicine, if there is one. */
  function FrequencyStage(st: PassState, line: string, m: Matchers): PassState {
    if m.frequency(line).Some? && st.current.Some?
    then st.(current := Some(st.current.value.(frequency := m.frequency(line).value)))
    else st
  }

  /** A duration match fills in the current medicine, if there is one. */
  function DurationStage(st: PassState, line: string, m: Matchers): PassState {
    if m.duration(line).Some? && st.current.Some?
    then st.(current := Some(st.current.value.(duration := m.duration(line).value)))
    else st
  }

  /** One iteration of the main loop, on a raw line. */
  function StepLine(st: PassState, rawLine: string, m: Matchers): PassState {
    var line := Trim(rawLine);
    if |line| < 3 then st
    else DurationStage(FrequencyStage(MatchStage(st, line, m), line, m), line, m)
  }

  /** The main loop over `lines`. */
  function MainPass(lines: seq<string>, m: Matchers): PassState {
    if |lines| == 0 then PassState([], None)
    else StepLine(MainPass(lines[..|lines| - 1], m), lines[|lines| - 1], m)
  }

  /** What the main pass returns: its medicines, then the last one if it has a name. */
  function MainResult(lines: seq<string>, m: Matchers): seq<Medicine> {
    var st := MainPass(lines, m);
    st.medicines + Pending(st.current)
  }

  /** The text between the first and second `:` or `-` of a line, trimmed, if
      the line has a separator. */
  function SeparatedName(line: string): Option<string> {
    var parts := SplitOn(line, {':', '-'});
    if |parts| > 1 then Some(Trim(parts[1])) else None
  }

  /** The entry one keyword adds for a line, given the lowercased line and its
      separated name: the name, when the line contains the keyword and the name
      is longer than two characters. */
  function KeywordEntry(lowerLine: string, name: Option<string>, keyword: string): seq<Medicine> {
    if Contains(lowerLine, keyword) && name.Some? && |name.value| > 2
    then [Medicine(name.value, "", "", "")] else []
  }

  /** The entries of all keywords, in keyword order. */
  function KeywordEntries(lowerLine: string, name: Option<string>, keywords: seq<string>): seq<Medicine> {
    if |keywords| == 0 then []
    else KeywordEntries(lowerLine, name, keywords[..|keywords| - 1]) + KeywordEntry(lowerLine, name, keywords[|keywords| - 1])
  }

  predicate NameTaken(medicines: seq<Medicine>, name: string) {
    exists i :: 0 <= i < |medicines| && medicines[i].name == name
  }

  /** The entry the list test adds for one line, if any. */
  function ListEntry(medicines: seq<Medicine>, line: string, m: Matchers): seq<Medicine> {
    if m.listItem(line) then
      var name := Trim(m.listStrip(line));
      if |name| > 3 && !NameTaken(medicines, name) then [Medicine(name, "", "", "")] else []
    else []
  }

  /** One iteration of the fallback loop. */
  function FallbackLine(medicines: seq<Medicine>, line: string, m: Matchers): seq<Medicine> {
    var withKeywords := medicines + KeywordEntries(Lower(line), SeparatedName(line), MEDICINE_KEYWORDS);
    withKeywords + ListEntry(withKeywords, line, m)
  }

  /** The fallback loop over `lines`, from no medicines. */
  function Fallback(lines: seq<string>, m: Matchers): seq<Medicine> {
    if |lines| == 0 then []
    else FallbackLine(Fallback(lines[..|lines| - 1], m), lines[|lines| - 1], m)
  }

  /** `parseMedicines(text)`. */
  function ParseResult(text: string, m: Matchers): seq<Medicine> {
    var lines := SplitOn(text, {'\n'});
    var main := MainResult(lines, m);
    if |main| == 0 then Fallback(lines, m) else main
  }

  /** The inner loop over `medicinePatterns`, stopping at the first match. */
  method MatchLine(patterns: seq<string -> Option<string>>, line: string) returns (r: Option<string>)
    ensures r == FirstMatch(patterns, line)
  {
    var k := 0;
    r := None;
    while k < |patterns|
      invariant 0 <= k <= |patterns|
      invariant FirstMatch(patterns, line) == FirstMatch(patterns[k..], line)
      decreases |patterns| - k
    {
      var medMatch := patterns[k](line);
      if medMatch.Some? {
        r := medMatch;
        break;
      }
      assert patterns[k..][1..] == patterns[k + 1..];
      k := k + 1;
    }
  }

  /** The body of the first loop of `parseMedicines`, for one line. */
  method AdvanceLine(medicines: seq<Medicine>, currentMedicine: Option<Medicine>, rawLine: string, m: Matchers)
    returns (medicines': seq<Medicine>, currentMedicine': Option<Medicine>)
    ensures PassState(medicines', currentMedicine') == StepLine(PassState(medicines, currentMedicine), rawLine, m)
  {
    medicines', currentMedicine' := medicines, currentMedicine;
    var line := Trim(rawLine);
    if |line| < 3 {
      return;
    }
    var medMatch := MatchLine(m.medicinePatterns, line);
    if medMatch.Some? {
      if currentMedicine'.Some? && currentMedicine'.value.name != "" {
        medicines' := medicines' + [currentMedicine'.value];
      }
      var medicineName := Trim(m.cleanName(medMatch.value));
      var dosageMatch := m.dosage(medicineName);
      var dosageStr := if dosageMatch.Some? then dosageMatch.value else "";
      currentMedicine' := Some(Medicine(medicineName, dosageStr, "", ""));
    }
    assert PassState(medicines', currentMedicine') == MatchStage(PassState(medicines, currentMedicine), line, m);
    var freqMatch := m.frequency(line);
    if freqMatch.Some? && currentMedicine'.Some? {
      currentMedicine' := Some(currentMedicine'.value.(frequency := freqMatch.value));
    }
    var durationMatch := m.duration(line);
    if durationMatch.Some? && currentMedicine'.Some? {
      currentMedicine' := Some(currentMedicine'.value.(duration := durationMatch.value));
    }
  }

  /** The first loop of `parseMedicines` and the final push. */
  method ParseMain(lines: seq<string>, m: Matchers) returns (medicines: seq<Medicine>)
    ensures medicines == MainResult(lines, m)
  {
    medicines := [];
    var currentMedicine: Option<Medicine> := None;
    var i := 0;
    while i < |lines|
      invariant 0 <= i <= |lines|
      invariant PassState(medicines, currentMedicine) == MainPass(lines[..i], m)
    {
      assert lines[..i + 1][..i] == lines[..i];
      medicines, currentMedicine := AdvanceLine(medicines, currentMedicine, lines[i], m);
      i := i + 1;
    }
    assert lines[..|lines|] == lines;
    if currentMedicine.Some? && currentMedicine.value.name != "" {
      medicines := medicines + [currentMedicine.value];
    }
  }

  /** The body of the keyword loop, for one keyword. */
  method AddKeywordEntry(medicines: seq<Medicine>, line: string, lowerLine: string, keyword: string) returns (r: seq<Medicine>)
    requires lowerLine == Lower(line)
    ensures r == medicines + KeywordEntry(lowerLine, SeparatedName(line), keyword)
  {
    r := medicines;
    if Contains(lowerLine, keyword) {
      var parts := SplitOn(line, {':', '-'});
      if |parts| > 1 {
        var medName := Trim(parts[1]);
        if |medName| > 2 {
          r := r + [Medicine(medName, "", "", "")];
        }
      }
    }
  }

  /** The keyword loop of the fallback, for one line. */
  method AddKeywordEntries(medicines: seq<Medicine>, line: string, keywords: seq<string>) returns (r: seq<Medicine>)
    ensures r == medicines + KeywordEntries(Lower(line), SeparatedName(line), keywords)
  {
    r := medicines;
    var lowerLine := Lower(line);
    ghost var name := SeparatedName(line);
    var k := 0;
    while k < |keywords|
      invariant 0 <= k <= |keywords|
      invariant r == medicines + KeywordEntries(lowerLine, name, keywords[..k])
    {
      assert keywords[..k + 1][..k] == keywords[..k];
      assert KeywordEntries(lowerLine, name, keywords[..k + 1])
             == KeywordEntries(lowerLine, name, keywords[..k]) + KeywordEntry(lowerLine, name, keywords[k]);
      r := AddKeywordEntry(r, line, lowerLine, keywords[k]);
      k := k + 1;
    }
    assert keywords[..|keywords|] == keywords;
  }

  /** The fallback loop of `parseMedicines`. */
  method ParseFallback(lines: seq<string>, m: Matchers) returns (medicines: seq<Medicine>)
    ensures medicines == Fallback(lines, m)
  {
    medicines := [];
    var i := 0;
    while i < |lines|
      invariant 0 <= i <= |lines|
      invariant medicines == Fallback(lines[..i], m)
    {
      assert lines[..i + 1][..i] == lines[..i];
      var line := lines[i];
      medicines := AddKeywordEntries(medicines, line, MEDICINE_KEYWORDS);
      if m.listItem(line) {
        var medName := Trim(m.listStrip(line));
        if |medName| > 3 && !NameTaken(medicines, medName) {
          medicines := medicines + [Medicine(medName, "", "", "")];
        }
      }
      i := i + 1;
    }
    assert lines[..|lines|] == lines;
  }

  /** `parseMedicines(text)`. */
  method ParseMedicines(text: string, m: Matchers) returns (medicines: seq<Medicine>)
    ensures medicines == ParseResult(text, m)
  {
    var lines := SplitOn(text, {'\n'});
    medicines := ParseMain(lines, m);
    if |medicines| == 0 {
      medicines := ParseFallback(lines, m);
    }
  }

  predicate AllNamed(medicines: seq<Medicine>) {
    forall i :: 0 <= i < |medicines| ==> medicines[i].name != ""
  }

  /** One line of the main pass only pushes named medicines. */
  lemma StepKeepsNamed(st: PassState, rawLine: string, m: Matchers)
    requires AllNamed(st.medicines)
    ensures AllNamed(StepLine(st, rawLine, m).medicines)
  {
    var line := Trim(rawLine);
    if |line| >= 3 {
      var a := MatchStage(st, line, m);
      assert AllNamed(a.medicines);
      assert FrequencyStage(a, line, m).medicines == a.medicines;
      assert DurationStage(FrequencyStage(a, line, m), line, m).medicines == a.medicines;
    }
  }

  /** Every medicine the main pass produces has a non-empty name. */
  lemma {:induction false} MainPassNamed(lines: seq<string>, m: Matchers)
    ensures AllNamed(MainPass(lines, m).medicines)
    ensures AllNamed(MainResult(lines, m))
    decreases |lines|
  {
    if |lines| > 0 {
      MainPassNamed(lines[..|lines| - 1], m);
      StepKeepsNamed(MainPass(lines[..|lines| - 1], m), lines[|lines| - 1], m);
    }
  }

  /** A line shorter than three characters once trimmed changes nothing. */
  lemma ShortLineIgnored(lines: seq<string>, line: string, m: Matchers)
    requires |Trim(line)| < 3
    ensures MainPass(lines + [line], m) == MainPass(lines, m)
  {
    assert (lines + [line])[..|lines|] == lines;
  }

  /** A line that matches a medicine pattern closes the current medicine,
      pushing it only when it has a name, and opens one from the first
      matching pattern, with the strength found in its name and the frequency
      and duration found on the same line. */
  lemma MatchOpensMedicine(st: PassState, line: string, m: Matchers, matched: string)
    requires |Trim(line)| >= 3 && FirstMatch(m.medicinePatterns, Trim(line)) == Some(matched)
    ensures StepLine(st, line, m).medicines == st.medicines + Pending(st.current)
    ensures StepLine(st, line, m).current.Some?
    ensures var name := Trim(m.cleanName(matched));
            var c := StepLine(st, line, m).current.value;
            c.name == name && c.dosage == m.dosage(name).GetOr("")
            && c.frequency == m.frequency(Trim(line)).GetOr("")
            && c.duration == m.duration(Trim(line)).GetOr("")
  {
  }

  /** Frequency and duration only fill in a medicine that is already open, and
      a later matching line overwrites an earlier one. */
  lemma FrequencyAndDuration(st: PassState, line: string, m: Matchers)
    requires |Trim(line)| >= 3 && FirstMatch(m.medicinePatterns, Trim(line)).None?
    ensures StepLine(st, line, m).medicines == st.medicines
    ensures StepLine(st, line, m).current.None? <==> st.current.None?
    ensures st.current.Some? ==>
              var c := StepLine(st, line, m).current.value;
              c.name == st.current.value.name && c.dosage == st.current.value.dosage
              && c.frequency == m.frequency(Trim(line)).GetOr(st.current.value.frequency)
              && c.duration == m.duration(Trim(line)).GetOr(st.current.value.duration)
  {
  }

  /** The fallback runs only when the main pass produced nothing. */
  lemma FallbackOnlyWhenEmpty(text: string, m: Matchers)
    ensures MainResult(SplitOn(text, {'\n'}), m) != [] ==> ParseResult(text, m) == MainResult(SplitOn(text, {'\n'}), m)
    ensures MainResult(SplitOn(text, {'\n'}), m) == [] ==> ParseResult(text, m) == Fallback(SplitOn(text, {'\n'}), m)
  {
  }

  /** Keyword entries are the part after the first separator, up to the next
      one, trimmed, and longer than two characters. */
  lemma {:induction false} KeywordEntriesShape(lowerLine: string, name: Option<string>, keywords: seq<string>)
    ensures KeywordEntries(lowerLine, name, keywords) != [] ==>
              name.Some? && |name.value| > 2
              && forall i :: 0 <= i < |KeywordEntries(lowerLine, name, keywords)| ==>
                   KeywordEntries(lowerLine, name, keywords)[i] == Medicine(name.value, "", "", "")
    ensures |KeywordEntries(lowerLine, name, keywords)| <= |keywords|
    decreases |keywords|
  {
    if |keywords| > 0 {
      var init := KeywordEntries(lowerLine, name, keywords[..|keywords| - 1]);
      var last := KeywordEntry(lowerLine, name, keywords[|keywords| - 1]);
      KeywordEntriesShape(lowerLine, name, keywords[..|keywords| - 1]);
      var all := KeywordEntries(lowerLine, name, keywords);
      assert all == init + last;
      if all != [] {
        forall i | 0 <= i < |all|
          ensures all[i] == Medicine(name.value, "", "", "")
        {
          if i < |init| {
            assert all[i] == init[i];
          } else {
            assert all[i] == last[i - |init|];
          }
        }
      }
    }
  }

  /** A fallback entry: a name longer than two characters, nothing else filled in. */
  predicate FallbackEntry(med: Medicine) {
    |med.name| > 2 && med.dosage == "" && med.frequency == "" && med.duration == ""
  }

  predicate AllFallbackEntries(medicines: seq<Medicine>) {
    forall i :: 0 <= i < |medicines| ==> FallbackEntry(medicines[i])
  }

  lemma FallbackLineShape(medicines: seq<Medicine>, line: string, m: Matchers)
    requires AllFallbackEntries(medicines)
    ensures AllFallbackEntries(FallbackLine(medicines, line, m))
  {
    KeywordPassShape(medicines, line, m, MEDICINE_KEYWORDS);
  }

  lemma KeywordPassShape(medicines: seq<Medicine>, line: string, m: Matchers, keywords: seq<string>)
    requires AllFallbackEntries(medicines)
    ensures var withKeywords := medicines + KeywordEntries(Lower(line), SeparatedName(line), keywords);
            AllFallbackEntries(withKeywords + ListEntry(withKeywords, line, m))
  {
    var name := SeparatedName(line);
    var keyworded := KeywordEntries(Lower(line), name, keywords);
    KeywordEntriesShape(Lower(line), name, keywords);
    assert AllFallbackEntries(keyworded);
    AppendFallbackEntries(medicines, keyworded);
    var withKeywords := medicines + keyworded;
    AppendFallbackEntries(withKeywords, ListEntry(withKeywords, line, m));
  }

  lemma AppendFallbackEntries(a: seq<Medicine>, b: seq<Medicine>)
    requires AllFallbackEntries(a) && AllFallbackEntries(b)
    ensures AllFallbackEntries(a + b)
  {
    forall i | 0 <= i < |a + b| ensures FallbackEntry((a + b)[i]) {
      if i < |a| { assert (a + b)[i] == a[i]; } else { assert (a + b)[i] == b[i - |a|]; }
    }
  }

  /** Every fallback entry has a name longer than two characters and no
      dosage, frequency or duration. */
  lemma {:induction false} FallbackShape(lines: seq<string>, m: Matchers)
    ensures AllFallbackEntries(Fallback(lines, m))
    decreases |lines|
  {
    if |lines| > 0 {
      FallbackShape(lines[..|lines| - 1], m);
      FallbackLineShape(Fallback(lines[..|lines| - 1], m), lines[|lines| - 1], m);
    }
  }

  /** A list entry never repeats a name already found. */
  lemma ListEntryIsNew(medicines: seq<Medicine>, line: string, m: Matchers)
    ensures ListEntry(medicines, line, m) != [] ==>
              m.listItem(line) && |ListEntry(medicines, line, m)| == 1
              && !NameTaken(medicines, ListEntry(medicines, line, m)[0].name)
              && |ListEntry(medicines, line, m)[0].name| > 3
  {
  }
}
