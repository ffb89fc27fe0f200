/** The client-side triage engine (lib/ai/triage-engine.ts): three keyword
    lists matched as substrings of the lowercased symptom text, numeric
    thresholds on severity and temperature, a four-level priority chain, and
    result builders that push English and Bengali reasons in pairs. */
module TriageEngine {
  import opened Wrappers
  import opened Strings
  import opened Locale

  datatype RiskLevel = Low | Medium | High | Emergency

  /** `SymptomInput`; an absent `temperature` is None, an absent `isPregnant` false. */
  datatype SymptomInput = SymptomInput(
    symptoms: seq<string>,
    duration: string,
    severity: int,
    age: int,
    temperature: Option<real>,
    hasChronicConditions: bool,
    isPregnant: bool,
    additionalInfo: Option<string>)

  datatype TriageResult = TriageResult(
    riskLevel: RiskLevel,
    urgency: string,
    urgencyBn: string,
    recommendation: string,
    recommendationBn: string,
    reasons: seq<string>,
    reasonsBn: seq<string>,
    advice: seq<string>,
    adviceBn: seq<string>,
    warningSigns: seq<string>,
    warningSignsBn: seq<string>,
    shouldSeekImmediate: bool)

  const EMERGENCY_KEYWORDS: seq<string> := ["chest pain", "difficulty breathing", "unconscious", "severe bleeding", "snake bite", "poisoning", "stroke", "heart attack", "severe burn", "head injury", "বুকে ব্যথা", "শ্বাসকষ্ট", "অজ্ঞান", "রক্তপাত", "সাপে কাটা", "বিষক্রিয়া"]
  const HIGH_RISK_KEYWORDS: seq<string> := ["high fever", "persistent vomiting", "severe pain", "confusion", "seizure", "blood in stool", "blood in urine", "severe headache", "তীব্র জ্বর", "বমি", "তীব্র ব্যথা", "খিঁচুনি", "মাথাব্যথা"]
  const MEDIUM_RISK_KEYWORDS: seq<string> := ["fever", "cough", "diarrhea", "nausea", "rash", "joint pain", "fatigue", "headache", "জ্বর", "কাশি", "ডায়রিয়া", "ফুসকুড়ি", "ক্লান্তি"]
  const MORE_THAN_WEEK := "more-than-week"

  /** `keywords.some((keyword) => text.includes(keyword))`. */
  predicate AnyKeyword(keywords: seq<string>, text: string) {
    exists k :: 0 <= k < |keywords| && Contains(text, keywords[k])
  }

  /** The lowercased symptoms joined by spaces, a space, and the lowercased additional text. */
  function AllText(input: SymptomInput): string {
    Lower(Join(input.symptoms, " ")) + " " + Lower(match input.additionalInfo case None => "" case Some(s) => s)
  }

  /** `input.temperature && input.temperature > x`: a temperature of 0 counts as absent. */
  predicate FeverAbove(t: Option<real>, x: real) {
    t.Some? && t.value != 0.0 && t.value > x
  }

  predicate HasEmergencySymptoms(text: string, input: SymptomInput) {
    AnyKeyword(EMERGENCY_KEYWORDS, text) || FeverAbove(input.temperature, 104.0)
    || input.severity >= 9 || (input.isPregnant && input.severity >= 7)
  }

  predicate HasHighRiskSymptoms(text: string, input: SymptomInput) {
    AnyKeyword(HIGH_RISK_KEYWORDS, text) || FeverAbove(input.temperature, 102.0)
    || (input.severity >= 7 && input.duration == MORE_THAN_WEEK)
    || (input.hasChronicConditions && input.severity >= 6)
  }

  predicate HasMediumRiskSymptoms(text: string, input: SymptomInput) {
    AnyKeyword(MEDIUM_RISK_KEYWORDS, text)
    || (FeverAbove(input.temperature, 100.0) && input.temperature.value <= 102.0)
    || (input.severity >= 5 && input.severity < 7)
  }

  /** Position of each level in the order `assess` tests them. */
  function Rank(l: RiskLevel): nat {
    match l
    case Emergency => 0
    case High => 1
    case Medium => 2
    case Low => 3
  }

  /** The test that leads to each level (low needs none). */
  predicate Indicated(l: RiskLevel, text: string, input: SymptomInput) {
    match l
    case Emergency => HasEmergencySymptoms(text, input)
    case High => HasHighRiskSymptoms(text, input)
    case Medium => HasMediumRiskSymptoms(text, input)
    case Low => true
  }

  /** The level `assess` returns: the first level, in test order, whose test holds. */
  function Level(input: SymptomInput): (l: RiskLevel)
    ensures Indicated(l, AllText(input), input)
    ensures forall m :: Rank(m) < Rank(l) ==> !Indicated(m, AllText(input), input)
  {
    var text := AllText(input);
    if HasEmergencySymptoms(text, input) then Emergency
    else if HasHighRiskSymptoms(text, input) then High
    else if HasMediumRiskSymptoms(text, input) then Medium
    else Low
  }

  /** The reasons a result can give; each has an English and a Bengali text. */
  datatype ReasonId =
    | ChestPainDetected | BreathingDifficulty | ExtremeSeverity | DangerousFever | HighFever | HighSeverity | ChronicCondition | ModerateFever | ModerateSeverity | Persisting
    | LowSeverity | NoEmergencyIndicators | ManageableAtHome

  function ReasonEn(id: ReasonId): string {
    match id
    case ChestPainDetected => "Chest pain detected - possible cardiac emergency"
    case BreathingDifficulty => "Severe breathing difficulty"
    case ExtremeSeverity => "Extremely high pain/severity level"
    case DangerousFever => "Dangerously high fever"
    case HighFever => "High fever above 102°F"
    case HighSeverity => "High symptom severity"
    case ChronicCondition => "Pre-existing chronic condition"
    case ModerateFever => "Moderate fever"
    case ModerateSeverity => "Moderate symptom severity"
    case Persisting => "Symptoms persisting for over a week"
    case LowSeverity => "Low severity symptoms"
    case NoEmergencyIndicators => "No emergency indicators"
    case ManageableAtHome => "Manageable with home care"
  }

  function ReasonBn(id: ReasonId): string {
    match id
    case ChestPainDetected => "বুকে ব্যথা সনাক্ত - হৃদরোগের জরুরি অবস্থা সম্ভব"
    case BreathingDifficulty => "তীব্র শ্বাসকষ্ট"
    case ExtremeSeverity => "অত্যন্ত উচ্চ ব্যথা/তীব্রতা স্তর"
    case DangerousFever => "বিপজ্জনক উচ্চ জ্বর"
    case HighFever => "১০২°ফা এর উপরে উচ্চ জ্বর"
    case HighSeverity => "উচ্চ লক্ষণ তীব্রতা"
    case ChronicCondition => "পূর্ব-বিদ্যমান দীর্ঘমেয়াদী অবস্থা"
    case ModerateFever => "মধ্যম জ্বর"
    case ModerateSeverity => "মধ্যম লক্ষণ তীব্রতা"
    case Persisting => "এক সপ্তাহেরও বেশি সময় ধরে লক্ষণ"
    case LowSeverity => "কম তীব্রতার লক্ষণ"
    case NoEmergencyIndicators => "কোন জরুরি ইঙ্গিত নেই"
    case ManageableAtHome => "ঘরোয়া যত্নে পরিচালনাযোগ্য"
  }

  function English(ids: seq<ReasonId>): (r: seq<string>)
    ensures |r| == |ids|
  {
    seq(|ids|, i requires 0 <= i < |ids| => ReasonEn(ids[i]))
  }

  function Bengali(ids: seq<ReasonId>): (r: seq<string>)
    ensures |r| == |ids|
  {
    seq(|ids|, i requires 0 <= i < |ids| => ReasonBn(ids[i]))
  }

  predicate MentionsChestPain(text: string) {
    Contains(text, "chest pain") || Contains(text, "বুকে ব্যথা")
  }

  predicate MentionsBreathing(text: string) {
    Contains(text, "difficulty breathing") || Contains(text, "শ্বাসকষ্ট")
  }

  function When(c: bool, r: ReasonId): seq<ReasonId> {
    if c then [r] else []
  }

  /** The two `push` calls of one `if` in the builders: the English and the Bengali
      reason lists grow together, so they stay the texts of one list of reasons. */
  method PushReason(reasons: seq<string>, reasonsBn: seq<string>, ghost ids: seq<ReasonId>, c: bool, id: ReasonId)
    returns (reasons': seq<string>, reasonsBn': seq<string>, ghost ids': seq<ReasonId>)
    requires reasons == English(ids) && reasonsBn == Bengali(ids)
    ensures ids' == ids + When(c, id)
    ensures reasons' == English(ids') && reasonsBn' == Bengali(ids')
  {
    reasons', reasonsBn', ids' := reasons, reasonsBn, ids + When(c, id);
    if c {
      reasons' := reasons' + [ReasonEn(id)];
      reasonsBn' := reasonsBn' + [ReasonBn(id)];
    } else {
      assert ids + When(c, id) == ids;
    }
  }

  /** Reasons for an emergency: each listed exactly when its condition holds, in a fixed order. */
  function EmergencyReasons(input: SymptomInput, text: string): seq<ReasonId>
  {
    When(MentionsChestPain(text), ChestPainDetected)
    + When(MentionsBreathing(text), BreathingDifficulty)
    + When(input.severity >= 9, ExtremeSeverity)
    + When(FeverAbove(input.temperature, 104.0), DangerousFever)
  }

  /** Reasons for a high risk: fever above 102, severity 7 or more, a chronic condition. */
  function HighRiskReasons(input: SymptomInput): seq<ReasonId>
  {
    When(FeverAbove(input.temperature, 102.0), HighFever)
    + When(input.severity >= 7, HighSeverity)
    + When(input.hasChronicConditions, ChronicCondition)
  }

  /** Reasons for a medium risk: fever above 100, severity 5 or more, over a week. */
  function MediumRiskReasons(input: SymptomInput): seq<ReasonId>
  {
    When(FeverAbove(input.temperature, 100.0), ModerateFever)
    + When(input.severity >= 5, ModerateSeverity)
    + When(input.duration == MORE_THAN_WEEK, Persisting)
  }

  /** Each reason of `EmergencyReasons` is listed exactly when its condition holds, and no other is. */
  lemma EmergencyReasonsListed(input: SymptomInput, text: string)
    ensures ChestPainDetected in EmergencyReasons(input, text) <==> MentionsChestPain(text)
    ensures BreathingDifficulty in EmergencyReasons(input, text) <==> MentionsBreathing(text)
    ensures ExtremeSeverity in EmergencyReasons(input, text) <==> input.severity >= 9
    ensures DangerousFever in EmergencyReasons(input, text) <==> FeverAbove(input.temperature, 104.0)
    ensures forall id :: id in EmergencyReasons(input, text) ==> id in {ChestPainDetected, BreathingDifficulty, ExtremeSeverity, DangerousFever}
  {
  }

  /** Each reason of `HighRiskReasons` is listed exactly when its condition holds, and no other is. */
  lemma HighRiskReasonsListed(input: SymptomInput)
    ensures HighFever in HighRiskReasons(input) <==> FeverAbove(input.temperature, 102.0)
    ensures HighSeverity in HighRiskReasons(input) <==> input.severity >= 7
    ensures ChronicCondition in HighRiskReasons(input) <==> input.hasChronicConditions
    ensures forall id :: id in HighRiskReasons(input) ==> id in {HighFever, HighSeverity, ChronicCondition}
  {
  }

  /** Each reason of `MediumRiskReasons` is listed exactly when its condition holds, and no other is. */
  lemma MediumRiskReasonsListed(input: SymptomInput)
    ensures ModerateFever in MediumRiskReasons(input) <==> FeverAbove(input.temperature, 100.0)
    ensures ModerateSeverity in MediumRiskReasons(input) <==> input.severity >= 5
    ensures Persisting in MediumRiskReasons(input) <==> input.duration == MORE_THAN_WEEK
    ensures forall id :: id in MediumRiskReasons(input) ==> id in {ModerateFever, ModerateSeverity, Persisting}
  {
  }

  const LOW_RISK_REASONS: seq<ReasonId> := [LowSeverity, NoEmergencyIndicators, ManageableAtHome]

  /** The reasons a result of level `l` carries. */
  function ReasonsFor(l: RiskLevel, input: SymptomInput, text: string): seq<ReasonId> {
    match l
    case Emergency => EmergencyReasons(input, text)
    case High => HighRiskReasons(input)
    case Medium => MediumRiskReasons(input)
    case Low => LOW_RISK_REASONS
  }

  /** The fixed texts of a result of each level. */
  datatype ResultTexts = ResultTexts(
    urgency: string, urgencyBn: string, recommendation: string, recommendationBn: string,
    advice: seq<string>, adviceBn: seq<string>, warningSigns: seq<string>, warningSignsBn: seq<string>)

  const EMERGENCY_TEXTS := ResultTexts(
    "IMMEDIATE EMERGENCY", "জরুরি জরুরি",
    "Call emergency services NOW or go to nearest hospital immediately",
    "এখনই জরুরি সেবায় কল করুন বা অবিলম্বে নিকটতম হাসপাতালে যান",
    ["Do NOT wait", "Call emergency hotline: 999", "Have someone accompany you", "Bring any medications you\'re taking"],
    ["অপেক্ষা করবেন না", "জরুরি হটলাইনে কল করুন: ৯৯৯", "কাউকে সাথে নিন", "আপনার ওষুধ সাথে নিন"],
    ["Loss of consciousness", "Severe chest pain", "Difficulty breathing", "Uncontrolled bleeding"],
    ["অজ্ঞান হওয়া", "তীব্র বুকে ব্যথা", "শ্বাসকষ্ট", "অনিয়ন্ত্রিত রক্তপাত"])

  const HIGH_RISK_TEXTS := ResultTexts(
    "URGENT - Seek medical care within 24 hours", "জরুরি - ২৪ ঘণ্টার মধ্যে চিকিৎসা নিন",
    "Visit a doctor or healthcare facility within 24 hours",
    "২৪ ঘণ্টার মধ্যে ডাক্তার বা স্বাস্থ্য কেন্দ্রে যান",
    ["Monitor symptoms closely", "Keep track of temperature", "Stay hydrated", "Rest adequately", "Contact local health worker"],
    ["লক্ষণ নিবিড়ভাবে পর্যবেক্ষণ করুন", "তাপমাত্রা নোট রাখুন", "প্রচুর পানি পান করুন", "পর্যাপ্ত বিশ্রাম নিন", "স্থানীয় স্বাস্থ্যকর্মীর সাথে যোগাযোগ করুন"],
    ["Symptoms worsen rapidly", "Fever increases above 103°F", "New severe symptoms appear", "Unable to keep fluids down"],
    ["লক্ষণ দ্রুত খারাপ হয়", "জ্বর ১০৩°ফা এর উপরে বৃদ্ধি পায়", "নতুন তীব্র লক্ষণ দেখা দেয়", "তরল খাবার খেতে পারছেন না"])

  const MEDIUM_RISK_TEXTS := ResultTexts(
    "See a doctor within 2-3 days", "২-৩ দিনের মধ্যে ডাক্তার দেখান",
    "Schedule a medical consultation soon. Symptoms should be evaluated.",
    "শীঘ্রই চিকিৎসা পরামর্শ নিন। লক্ষণগুলি মূল্যায়ন করা উচিত।",
    ["Monitor symptoms daily", "Stay well hydrated", "Get adequate rest", "Avoid strenuous activities", "Keep a symptom diary"],
    ["প্রতিদিন লক্ষণ পর্যবেক্ষণ করুন", "ভালভাবে হাইড্রেটেড থাকুন", "পর্যাপ্ত বিশ্রাম নিন", "কঠিন কাজ এড়িয়ে চলুন", "লক্ষণ ডায়েরি রাখুন"],
    ["Symptoms suddenly worsen", "Fever develops", "Severe pain begins", "New concerning symptoms"],
    ["লক্ষণ হঠাৎ খারাপ হয়", "জ্বর হয়", "তীব্র ব্যথা শুরু হয়", "নতুন উদ্বেগজনক লক্ষণ"])

  const LOW_RISK_TEXTS := ResultTexts(
    "Monitor and self-care", "পর্যবেক্ষণ ও স্ব-পরিচর্যা",
    "These symptoms are likely minor. Monitor and practice self-care. See a doctor if worsens.",
    "এই লক্ষণগুলি সম্ভবত ছোটখাটো। পর্যবেক্ষণ করুন এবং স্ব-পরিচর্যা অনুশীলন করুন। খারাপ হলে ডাক্তার দেখান।",
    ["Rest and stay hydrated", "Take over-the-counter medications if needed", "Maintain good hygiene", "Eat nutritious foods", "Monitor for any changes"],
    ["বিশ্রাম নিন এবং হাইড্রেটেড থাকুন", "প্রয়োজনে ওভার-দ্য-কাউন্টার ওষুধ নিন", "ভাল স্বাস্থ্যবিধি বজায় রাখুন", "পুষ্টিকর খাবার খান", "যেকোনো পরিবর্তনের জন্য পর্যবেক্ষণ করুন"],
    ["Symptoms persist beyond a week", "Fever develops", "Pain increases", "New symptoms appear"],
    ["লক্ষণ এক সপ্তাহের বেশি স্থায়ী হয়", "জ্বর হয়", "ব্যথা বৃদ্ধি পায়", "নতুন লক্ষণ দেখা দেয়"])

  /** The fixed texts of each level's result. */
  function TextsFor(l: RiskLevel): ResultTexts {
    match l
    case Emergency => EMERGENCY_TEXTS
    case High => HIGH_RISK_TEXTS
    case Medium => MEDIUM_RISK_TEXTS
    case Low => LOW_RISK_TEXTS
  }

  function Build(l: RiskLevel, t: ResultTexts, reasons: seq<string>, reasonsBn: seq<string>, immediate: bool): TriageResult {
    TriageResult(l, t.urgency, t.urgencyBn, t.recommendation, t.recommendationBn, reasons, reasonsBn,
                 t.advice, t.adviceBn, t.warningSigns, t.warningSignsBn, immediate)
  }

  /** `createEmergencyResult`: reasons pushed pair by pair. */
  method CreateEmergencyResult(input: SymptomInput, text: string) returns (r: TriageResult)
    ensures r.riskLevel == Emergency && r.shouldSeekImmediate
    ensures r.reasons == English(EmergencyReasons(input, text)) && r.reasonsBn == Bengali(EmergencyReasons(input, text))
    ensures r == Build(Emergency, TextsFor(Emergency), r.reasons, r.reasonsBn, r.shouldSeekImmediate)
  {
    var reasons: seq<string> := [];
    var reasonsBn: seq<string> := [];
    assert English([]) == [] && Bengali([]) == [];
    ghost var ids: seq<ReasonId> := [];
    reasons, reasonsBn, ids := PushReason(reasons, reasonsBn, ids, MentionsChestPain(text), ChestPainDetected);
    reasons, reasonsBn, ids := PushReason(reasons, reasonsBn, ids, MentionsBreathing(text), BreathingDifficulty);
    reasons, reasonsBn, ids := PushReason(reasons, reasonsBn, ids, input.severity >= 9, ExtremeSeverity);
    reasons, reasonsBn, ids := PushReason(reasons, reasonsBn, ids, FeverAbove(input.temperature, 104.0), DangerousFever);
    assert ids == EmergencyReasons(input, text);
    r := Build(Emergency, EMERGENCY_TEXTS, reasons, reasonsBn, true);
  }

  /** `createHighRiskResult`. */
  method CreateHighRiskResult(input: SymptomInput) returns (r: TriageResult)
    ensures r.riskLevel == High && !r.shouldSeekImmediate
    ensures r.reasons == English(HighRiskReasons(input)) && r.reasonsBn == Bengali(HighRiskReasons(input))
    ensures r == Build(High, TextsFor(High), r.reasons, r.reasonsBn, r.shouldSeekImmediate)
  {
    var reasons: seq<string> := [];
    var reasonsBn: seq<string> := [];
    assert English([]) == [] && Bengali([]) == [];
    ghost var ids: seq<ReasonId> := [];
    reasons, reasonsBn, ids := PushReason(reasons, reasonsBn, ids, FeverAbove(input.temperature, 102.0), HighFever);
    reasons, reasonsBn, ids := PushReason(reasons, reasonsBn, ids, input.severity >= 7, HighSeverity);
    reasons, reasonsBn, ids := PushReason(reasons, reasonsBn, ids, input.hasChronicConditions, ChronicCondition);
    assert ids == HighRiskReasons(input);
    r := Build(High, HIGH_RISK_TEXTS, reasons, reasonsBn, false);
  }

  /** `createMediumRiskResult`. */
  method CreateMediumRiskResult(input: SymptomInput) returns (r: TriageResult)
    ensures r.riskLevel == Medium && !r.shouldSeekImmediate
    ensures r.reasons == English(MediumRiskReasons(input)) && r.reasonsBn == Bengali(MediumRiskReasons(input))
    ensures r == Build(Medium, TextsFor(Medium), r.reasons, r.reasonsBn, r.shouldSeekImmediate)
  {
    var reasons: seq<string> := [];
    var reasonsBn: seq<string> := [];
    assert English([]) == [] && Bengali([]) == [];
    ghost var ids: seq<ReasonId> := [];
    reasons, reasonsBn, ids := PushReason(reasons, reasonsBn, ids, FeverAbove(input.temperature, 100.0), ModerateFever);
    reasons, reasonsBn, ids := PushReason(reasons, reasonsBn, ids, input.severity >= 5, ModerateSeverity);
    reasons, reasonsBn, ids := PushReason(reasons, reasonsBn, ids, input.duration == MORE_THAN_WEEK, Persisting);
    assert ids == MediumRiskReasons(input);
    r := Build(Medium, MEDIUM_RISK_TEXTS, reasons, reasonsBn, false);
  }

  /** `createLowRiskResult`. */
  method CreateLowRiskResult() returns (r: TriageResult)
    ensures r.riskLevel == Low && !r.shouldSeekImmediate
    ensures r.reasons == English(LOW_RISK_REASONS) && r.reasonsBn == Bengali(LOW_RISK_REASONS)
    ensures r == Build(Low, TextsFor(Low), r.reasons, r.reasonsBn, r.shouldSeekImmediate)
  {
    r := Build(Low, LOW_RISK_TEXTS, English(LOW_RISK_REASONS), Bengali(LOW_RISK_REASONS), false);
  }

  /** `TriageEngine.assess`. */
  method Assess(input: SymptomInput) returns (r: TriageResult)
    ensures r.riskLevel == Level(input)
    ensures r.shouldSeekImmediate <==> r.riskLevel == Emergency
    ensures r.reasons == English(ReasonsFor(r.riskLevel, input, AllText(input)))
    ensures r.reasonsBn == Bengali(ReasonsFor(r.riskLevel, input, AllText(input)))
    ensures |r.reasons| == |r.reasonsBn|
    ensures r == Build(r.riskLevel, TextsFor(r.riskLevel), r.reasons, r.reasonsBn, r.shouldSeekImmediate)
  {
    var text := AllText(input);
    if HasEmergencySymptoms(text, input) {
      r := CreateEmergencyResult(input, text);
      return;
    }
    if HasHighRiskSymptoms(text, input) {
      r := CreateHighRiskResult(input);
      return;
    }
    if HasMediumRiskSymptoms(text, input) {
      r := CreateMediumRiskResult(input);
      return;
    }
    r := CreateLowRiskResult();
  }

  /** A temperature of 0 is the same as no temperature. */
  lemma ZeroTemperatureIsAbsent(input: SymptomInput)
    ensures Level(input.(temperature := Some(0.0))) == Level(input.(temperature := None))
    ensures ReasonsFor(Level(input.(temperature := Some(0.0))), input.(temperature := Some(0.0)), AllText(input))
            == ReasonsFor(Level(input.(temperature := None)), input.(temperature := None), AllText(input))
  {
    assert AllText(input.(temperature := Some(0.0))) == AllText(input) == AllText(input.(temperature := None));
  }

  /** Severity 7 or 8 with nothing else to go on is classified low, below severity 5 or 6. */
  lemma SevenOrEightAloneIsLow(input: SymptomInput)
    requires 7 <= input.severity <= 8
    requires !AnyKeyword(EMERGENCY_KEYWORDS, AllText(input)) && !AnyKeyword(HIGH_RISK_KEYWORDS, AllText(input))
             && !AnyKeyword(MEDIUM_RISK_KEYWORDS, AllText(input))
    requires input.temperature.None? && !input.hasChronicConditions && !input.isPregnant
    requires input.duration != MORE_THAN_WEEK
    ensures Level(input) == Low
    ensures Level(input.(severity := 6)) == Medium
  {
    assert AllText(input.(severity := 6)) == AllText(input);
  }

  /** A pregnant patient with severity 7 is an emergency for which no reason is listed. */
  lemma EmergencyWithoutReasons(input: SymptomInput)
    requires input.isPregnant && input.severity == 7 && input.temperature.None?
    requires !MentionsChestPain(AllText(input)) && !MentionsBreathing(AllText(input))
    ensures Level(input) == Emergency
    ensures ReasonsFor(Level(input), input, AllText(input)) == []
  {
  }

  /** Every emergency keyword, anywhere in the text, makes the case an emergency. */
  lemma KeywordAnywhereIsEmergency(input: SymptomInput, k: nat)
    requires k < |EMERGENCY_KEYWORDS| && Contains(AllText(input), EMERGENCY_KEYWORDS[k])
    ensures Level(input) == Emergency
  {
  }

  /** `explainRiskLevel`: one fixed, non-empty text for each of the four
      levels in each of the two languages. */
  function ExplainRiskLevel(level: RiskLevel, language: Language): (r: string)
    ensures r != []
  {
    match (language, level)
    case (En, Emergency) => EXPLAIN_EN_EMERGENCY
    case (En, High) => EXPLAIN_EN_HIGH
    case (En, Medium) => EXPLAIN_EN_MEDIUM
    case (En, Low) => EXPLAIN_EN_LOW
    case (Bn, Emergency) => EXPLAIN_BN_EMERGENCY
    case (Bn, High) => EXPLAIN_BN_HIGH
    case (Bn, Medium) => EXPLAIN_BN_MEDIUM
    case (Bn, Low) => EXPLAIN_BN_LOW
  }

  /** Within one language, distinct levels are explained by distinct texts, and
      the two languages never share a text. */
  lemma ExplanationsDistinct(l1: RiskLevel, l2: RiskLevel, language: Language)
    ensures l1 != l2 ==> ExplainRiskLevel(l1, language) != ExplainRiskLevel(l2, language)
    ensures ExplainRiskLevel(l1, En) != ExplainRiskLevel(l2, Bn)
  {
    // The eight texts have eight different lengths.
    assert |EXPLAIN_EN_EMERGENCY| == 102 && |EXPLAIN_EN_HIGH| == 104 && |EXPLAIN_EN_MEDIUM| == 86 && |EXPLAIN_EN_LOW| == 93;
    assert |EXPLAIN_BN_EMERGENCY| == 100 && |EXPLAIN_BN_HIGH| == 108 && |EXPLAIN_BN_MEDIUM| == 95 && |EXPLAIN_BN_LOW| == 113;
  }

  const EXPLAIN_EN_EMERGENCY := "This is a life-threatening emergency requiring immediate medical attention. Do not delay seeking help."
  const EXPLAIN_EN_HIGH := "Your symptoms indicate a potentially serious condition that requires medical evaluation within 24 hours."
  const EXPLAIN_EN_MEDIUM := "Your symptoms warrant medical attention soon. Schedule a doctor visit within 2-3 days."
  const EXPLAIN_EN_LOW := "Your symptoms appear manageable with self-care. Monitor closely and seek help if they worsen."
  const EXPLAIN_BN_EMERGENCY := "এটি একটি জীবন-হুমকির জরুরী অবস্থা যা অবিলম্বে চিকিৎসা মনোযোগ প্রয়োজন। সাহায্য নিতে বিলম্ব করবেন না।"
  const EXPLAIN_BN_HIGH := "আপনার লক্ষণগুলি একটি সম্ভাব্য গুরুতর অবস্থা নির্দেশ করে যার জন্য ২৪ ঘন্টার মধ্যে চিকিৎসা মূল্যায়ন প্রয়োজন।"
  const EXPLAIN_BN_MEDIUM := "আপনার লক্ষণগুলি শীঘ্রই চিকিৎসা মনোযোগ নিশ্চিত করে। ২-৩ দিনের মধ্যে ডাক্তার ভিজিট নির্ধারণ করুন।"
  const EXPLAIN_BN_LOW := "আপনার লক্ষণগুলি স্ব-যত্নের সাথে পরিচালনযোগ্য বলে মনে হচ্ছে। নিবিড়ভাবে পর্যবেক্ষণ করুন এবং খারাপ হলে সাহায্য নিন।"
}
