/** Emergency message texts (lib/emergency/sms-generator.ts): an SMS body
    built from the emergency data, and a shareable text that adds a map link.
    Number rendering (`toFixed(4)` and the default number-to-string) is given
    as a parameter. */
module EmergencySms {
  import opened Wrappers
  import opened Strings
  import opened Locale

  datatype Coordinates = Coordinates(lat: real, lng: real)

  /** `EmergencySMSData`; absent optional fields are None. */
  datatype EmergencySmsData = EmergencySmsData(
    patientName: string,
    age: real,
    location: string,
    coordinates: Option<Coordinates>,
    emergency: string,
    symptoms: Option<seq<string>>,
    medicalHistory: Option<string>)

  /** How numbers are rendered: `String(x)` and `x.toFixed(4)`. */
  datatype NumberFormat = NumberFormat(show: real -> string, fixed4: real -> string)

  /** The fixed words of one language's message. */
  datatype SmsWords = SmsWords(head: string, age: string, at: string, emergency: string, symptoms: string, tail: string)

  function Words(language: Language): SmsWords {
    match language
    case En => SmsWords("EMERGENCY: ", ", age ", ", at ", ". Emergency: ", ". Symptoms: ", ". Immediate help needed!")
    case Bn => SmsWords("জরুরি: ", ", বয়স ", ", অবস্থান: ", ". জরুরি: ", ". লক্ষণ: ", ". অবিলম্বে সাহায্য প্রয়োজন!")
  }

  /** The coordinates part: present exactly when coordinates are given. */
  function CoordinatesPart(d: EmergencySmsData, fmt: NumberFormat): string {
    match d.coordinates
    case None => ""
    case Some(c) => " (" + fmt.fixed4(c.lat) + "," + fmt.fixed4(c.lng) + ")"
  }

  predicate HasSymptoms(d: EmergencySmsData) {
    d.symptoms.Some? && |d.symptoms.value| > 0
  }

  /** The symptoms part: present exactly when symptoms are given and non-empty. */
  function SymptomsPart(d: EmergencySmsData, w: SmsWords): string {
    if HasSymptoms(d) then w.symptoms + Join(d.symptoms.value, ", ") else ""
  }

  /** The pieces of the message template, in order. */
  function SmsParts(d: EmergencySmsData, language: Language, fmt: NumberFormat): seq<string> {
    var w := Words(language);
    [w.head, d.patientName, w.age, fmt.show(d.age), w.at, d.location, CoordinatesPart(d, fmt),
     w.emergency, d.emergency, SymptomsPart(d, w), w.tail]
  }

  /** `generateEmergencySMS(data, language)`. */
  function GenerateEmergencySms(d: EmergencySmsData, language: Language, fmt: NumberFormat): (r: string)
    ensures StartsWith(r, Words(language).head + d.patientName)
    ensures EndsWith(r, Words(language).tail)
  {
    ConcatPrefix(SmsParts(d, language, fmt));
    ConcatSuffix(SmsParts(d, language, fmt));
    Concat(SmsParts(d, language, fmt))
  }

  /** The medical history never reaches the message. */
  lemma MedicalHistoryIgnored(d: EmergencySmsData, history: Option<string>, language: Language, fmt: NumberFormat)
    ensures GenerateEmergencySms(d.(medicalHistory := history), language, fmt) == GenerateEmergencySms(d, language, fmt)
  {
    assert SmsParts(d.(medicalHistory := history), language, fmt) == SmsParts(d, language, fmt);
  }

  /** Coordinates add exactly their part to the message, and that part shows both values. */
  lemma CoordinatesSegment(d: EmergencySmsData, c: Coordinates, language: Language, fmt: NumberFormat)
    ensures var part := " (" + fmt.fixed4(c.lat) + "," + fmt.fixed4(c.lng) + ")";
            |GenerateEmergencySms(d.(coordinates := Some(c)), language, fmt)|
            == |GenerateEmergencySms(d.(coordinates := None), language, fmt)| + |part|
            && Contains(GenerateEmergencySms(d.(coordinates := Some(c)), language, fmt), part)
  {
    var part := " (" + fmt.fixed4(c.lat) + "," + fmt.fixed4(c.lng) + ")";
    var with, without := d.(coordinates := Some(c)), d.(coordinates := None);
    assert SmsParts(with, language, fmt) == SmsParts(without, language, fmt)[6 := part];
    ConcatReplace(SmsParts(without, language, fmt), 6, part);
    ConcatContains(SmsParts(with, language, fmt), 6);
  }

  /** Symptoms add exactly their part, which holds every symptom; an empty
      list reads as no symptoms. */
  lemma SymptomsSegment(d: EmergencySmsData, s: seq<string>, language: Language, fmt: NumberFormat)
    ensures s == [] ==> GenerateEmergencySms(d.(symptoms := Some(s)), language, fmt)
                        == GenerateEmergencySms(d.(symptoms := None), language, fmt)
    ensures |GenerateEmergencySms(d.(symptoms := Some(s)), language, fmt)|
            == |GenerateEmergencySms(d.(symptoms := None), language, fmt)|
               + (if s == [] then 0 else |Words(language).symptoms + Join(s, ", ")|)
    ensures forall k :: 0 <= k < |s| ==> Contains(GenerateEmergencySms(d.(symptoms := Some(s)), language, fmt), s[k])
  {
    var w := Words(language);
    var with, without := d.(symptoms := Some(s)), d.(symptoms := None);
    var part := SymptomsPart(with, w);
    assert SmsParts(with, language, fmt) == SmsParts(without, language, fmt)[9 := part];
    ConcatReplace(SmsParts(without, language, fmt), 9, part);
    if s != [] {
      ConcatContains(SmsParts(with, language, fmt), 9);
      forall k | 0 <= k < |s| ensures Contains(GenerateEmergencySms(with, language, fmt), s[k]) {
        JoinContains(s, ", ", k);
        ContainsIn(w.symptoms, Join(s, ", "), "", s[k]);
        assert w.symptoms + Join(s, ", ") + "" == part;
        ContainsTrans(GenerateEmergencySms(with, language, fmt), part, s[k]);
      }
    } else {
      assert SmsParts(with, language, fmt) == SmsParts(without, language, fmt);
    }
  }

  /** The label in front of the map link. */
  function LinkLabel(language: Language): string {
    if language == En then "Location" else "অবস্থান"
  }

  /** The map link of `generateShareableEmergencyText`: present exactly when coordinates are given. */
  function MapsLink(d: EmergencySmsData, language: Language, fmt: NumberFormat): string {
    match d.coordinates
    case None => ""
    case Some(c) =>
      "\n\n" + LinkLabel(language) + ": https://maps.google.com/?q="
      + fmt.show(c.lat) + "," + fmt.show(c.lng)
  }

  /** `generateShareableEmergencyText(data, language)`: the SMS text, then the map
      link when coordinates are given. */
  function GenerateShareableEmergencyText(d: EmergencySmsData, language: Language, fmt: NumberFormat): (r: string)
    ensures StartsWith(r, GenerateEmergencySms(d, language, fmt))
    ensures d.coordinates.None? ==> r == GenerateEmergencySms(d, language, fmt)
    ensures d.coordinates.Some? ==>
              r[|GenerateEmergencySms(d, language, fmt)|..]
              == "\n\n" + (if language == En then "Location" else "অবস্থান") + ": https://maps.google.com/?q="
                 + fmt.show(d.coordinates.value.lat) + "," + fmt.show(d.coordinates.value.lng)
  {
    var sms := GenerateEmergencySms(d, language, fmt);
    assert (sms + MapsLink(d, language, fmt))[..|sms|] == sms;
    assert (sms + MapsLink(d, language, fmt))[|sms|..] == MapsLink(d, language, fmt);
    sms + MapsLink(d, language, fmt)
  }
}
