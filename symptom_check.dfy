/** The rule-based offline symptom analysis of the backend
    (backend/app/routers/symptom_check.py): exact keyword membership over the
    lowercased symptoms, an if/elif priority chain of seven categories, and a
    final adjustment for severity "severe"; plus the request-side splitting
    of the comma-separated symptom text and the defaults for missing fields. */
module SymptomCheck {
  import opened Wrappers
  import opened Strings

  /** `urgency_level`: always one of four values. */
  datatype Urgency = Emergency | High | Moderate | Low

  function UrgencyName(u: Urgency): string {
    match u
    case Emergency => "emergency"
    case High => "high"
    case Moderate => "moderate"
    case Low => "low"
  }

  /** `should_see_doctor`: a boolean, or the empty duration string itself
      where the body-pain branch evaluates `duration and (...)`. */
  datatype SeeDoctor = Flag(b: bool) | EmptyDuration

  predicate Truthy(s: SeeDoctor) {
    s == Flag(true)
  }

  /** The fixed texts of one branch. */
  datatype Advice = Advice(diagnosis: string, conditions: seq<string>, recommendations: string,
                           homeRemedies: seq<string>, warningSigns: seq<string>)

  /** The seven keys of the returned dictionary. */
  datatype LocalAnalysis = LocalAnalysis(
    diagnosis: string,
    suggestedConditions: seq<string>,
    recommendations: string,
    urgency: Urgency,
    homeRemedies: seq<string>,
    warningSigns: seq<string>,
    shouldSeeDoctor: SeeDoctor)

  const EMERGENCY_KEYS: seq<string> := ["chest pain", "difficulty breathing", "severe bleeding", "unconscious", "seizure"]

  const EMERGENCY_ADVICE := Advice(
    "Emergency Medical Condition",
    ["Requires Immediate Medical Attention"],
    "🚨 জরুরি! অবিলম্বে নিকটতম হাসপাতালে যান অথবা জরুরি সেবায় কল করুন। এই লক্ষণগুলি গুরুতর অবস্থা নির্দেশ করতে পারে।",
    ["Keep patient calm", "Loosen tight clothing", "Monitor breathing"],
    ["Do not delay treatment", "Call emergency services immediately"])

  const FEVER_RESPIRATORY_KEYS: seq<string> := ["cough", "cold", "runny nose", "sore throat", "কাশি"]

  const FEVER_RESPIRATORY_ADVICE := Advice(
    "Viral Upper Respiratory Infection (Common Cold/Flu)",
    ["Common Cold (সাধারণ ঠান্ডা)", "Influenza (ফ্লু)", "Viral Fever (ভাইরাল জ্বর)"],
    "\n🏠 ঘরে থাকুন এবং বিশ্রাম নিন।\n💧 প্রচুর পরিমাণে পানি এবং তরল খাবার খান।\n🍵 গরম পানি, আদা চা, মধু ও লেবু খান।\n💊 জ্বরের জন্য প্যারাসিটামল (৫০০mg) প্রতি ৬ ঘন্টায় নিতে পারেন।\n⚠️ ৩ দিনের বেশি জ্বর থাকলে ডাক্তার দেখান।\n",
    ["গরম পানিতে গার্গল করুন", "আদা-মধু-লেবু চা পান করুন", "বাষ্প নিন (Steam inhalation)", "হালকা গরম খাবার খান", "পর্যাপ্ত ঘুমান"],
    ["High fever above 103°F (39.4°C)", "Difficulty breathing", "Chest pain", "Confusion"])

  const FEVER_UNKNOWN_ADVICE := Advice(
    "Fever (Unknown Origin)",
    ["Viral Fever", "Bacterial Infection", "Typhoid (if prolonged)"],
    "\n💊 প্যারাসিটামল নিন এবং শরীর মুছুন।\n💧 প্রচুর পানি পান করুন।\n🛏️ বিশ্রাম নিন।\n⚠️ ২-৩ দিনের মধ্যে ভালো না হলে রক্ত পরীক্ষা করান।\n",
    ["শরীর কুসুম গরম পানিতে মুছুন", "হালকা পোশাক পরুন", "বেশি করে পানি খান"],
    ["Fever lasting more than 3 days", "Very high fever", "Rash", "Severe headache"])

  const GASTRO_KEYS: seq<string> := ["diarrhea", "vomiting", "stomach pain", "nausea", "পেট ব্যথা", "বমি", "পাতলা পায়খানা"]

  const GASTRO_ADVICE := Advice(
    "Gastrointestinal Infection",
    ["Gastroenteritis (পেটের অসুখ)", "Food Poisoning (খাদ্যে বিষক্রিয়া)", "Stomach Flu"],
    "\n💧 ORS (খাওয়ার স্যালাইন) খান - এটা সবচেয়ে গুরুত্বপূর্ণ!\n🍌 কলা, ভাত, টোস্ট, আপেল (BRAT diet) খান।\n❌ তেলে ভাজা ও মসলাযুক্ত খাবার এড়িয়ে চলুন।\n💊 প্রয়োজনে Flagyl বা Ciprofloxacin ডাক্তারের পরামর্শে নিন।\n⚠️ রক্ত পায়খানা হলে অবশ্যই ডাক্তার দেখান।\n",
    ["ঘরে তৈরি স্যালাইন (১ লিটার পানি + ৬ চা চামচ চিনি + ½ চা চামচ লবণ)", "আদা চা", "পুদিনা পাতার রস", "নারিকেল পানি"],
    ["Blood in stool", "Severe dehydration", "High fever", "Unable to keep fluids down"])

  const HEADACHE_KEYS: seq<string> := ["headache", "মাথা ব্যথা", "migraine"]

  const HEADACHE_ADVICE := Advice(
    "Headache / Migraine",
    ["Tension Headache (টেনশন মাথা ব্যথা)", "Migraine (মাইগ্রেন)", "Sinus Headache"],
    "\n🛏️ অন্ধকার, শান্ত ঘরে বিশ্রাম নিন।\n💊 প্যারাসিটামল বা Ibuprofen নিতে পারেন।\n💧 পর্যাপ্ত পানি পান করুন।\n☕ ক্যাফেইন সাময়িক আরাম দিতে পারে।\n🧘 চাপ কমান, পর্যাপ্ত ঘুমান।\n",
    ["কপালে ঠান্ডা কাপড় দিন", "পিপারমিন্ট তেল মালিশ করুন", "গরম আদা চা", "চোখ বন্ধ করে বিশ্রাম নিন"],
    ["Sudden severe headache", "Headache with fever and stiff neck", "Vision problems", "Confusion"])

  const SKIN_KEYS: seq<string> := ["rash", "itching", "skin", "চুলকানি", "ফুসকুড়ি"]

  const SKIN_ADVICE := Advice(
    "Skin Condition / Allergic Reaction",
    ["Allergic Dermatitis", "Fungal Infection", "Eczema", "Scabies (খোস-পাঁচড়া)"],
    "\n🧴 ক্যালামাইন লোশন লাগান।\n💊 অ্যান্টিহিস্টামিন (Cetirizine/Fexofenadine) খেতে পারেন।\n🚿 ঠান্ডা পানিতে গোসল করুন।\n❌ আঁচড়াবেন না।\n👕 ঢিলা সুতি কাপড় পরুন।\n",
    ["নিম পাতা সেদ্ধ পানি দিয়ে ধুয়ে নিন", "অ্যালোভেরা জেল লাগান", "নারিকেল তেল", "ঠান্ডা সেঁক দিন"],
    ["Spreading rash", "Difficulty breathing", "Swelling of face/throat", "Fever with rash"])

  const BODY_KEYS: seq<string> := ["body ache", "weakness", "fatigue", "শরীর ব্যথা", "দুর্বলতা"]

  const BODY_ADVICE := Advice(
    "General Weakness / Body Pain",
    ["Viral Infection", "Fatigue", "Anemia (রক্তশূন্যতা)", "Vitamin Deficiency"],
    "\n🛏️ পর্যাপ্ত বিশ্রাম নিন।\n🥗 পুষ্টিকর খাবার খান - শাকসবজি, ফল, ডিম, মাছ।\n💧 পানি বেশি খান।\n💊 মাল্টিভিটামিন খেতে পারেন।\n⚠️ দুর্বলতা অনেকদিন থাকলে রক্ত পরীক্ষা করান।\n",
    ["কলিজা/মাংস খান (আয়রনের জন্য)", "লেবু পানি", "খেজুর", "দুধ-কলা"],
    ["Extreme fatigue", "Shortness of breath", "Rapid heartbeat", "Dizziness when standing"])

  const GENERAL_ADVICE := Advice(
    "General Health Concern",
    ["Requires Professional Evaluation", "General Illness"],
    "\nআপনার লক্ষণগুলি আরও মূল্যায়নের প্রয়োজন।\n🏥 নিকটতম স্বাস্থ্যকেন্দ্রে যোগাযোগ করুন।\n📝 আপনার সব লক্ষণ লিখে রাখুন।\n💊 নিজে ওষুধ না খেয়ে ডাক্তারের পরামর্শ নিন।\n",
    ["বিশ্রাম নিন", "পানি খান", "পুষ্টিকর খাবার খান"],
    ["Worsening symptoms", "New symptoms developing", "Persistent discomfort"])
  const FEVER_KEYS: seq<string> := ["fever", "জ্বর"]

  /** `any(s in symptoms_lower for s in keys)`: some key is an element, compared exactly. */
  predicate AnyIn(keys: seq<string>, symptoms: seq<string>) {
    exists k :: 0 <= k < |keys| && keys[k] in symptoms
  }

  datatype Category = EmergencyCase | FeverRespiratory | FeverUnknown | Gastro | Headache | Skin | BodyPain | General

  /** Position in the if/elif chain (the two fever cases share one test). */
  function Rank(c: Category): nat {
    match c
    case EmergencyCase => 0
    case FeverRespiratory => 1
    case FeverUnknown => 1
    case Gastro => 2
    case Headache => 3
    case Skin => 4
    case BodyPain => 5
    case General => 6
  }

  /** The test that selects each category, taken on its own. */
  predicate Matches(c: Category, low: seq<string>) {
    match c
    case EmergencyCase => AnyIn(EMERGENCY_KEYS, low)
    case FeverRespiratory => AnyIn(FEVER_KEYS, low) && AnyIn(FEVER_RESPIRATORY_KEYS, low)
    case FeverUnknown => AnyIn(FEVER_KEYS, low) && !AnyIn(FEVER_RESPIRATORY_KEYS, low)
    case Gastro => AnyIn(GASTRO_KEYS, low)
    case Headache => AnyIn(HEADACHE_KEYS, low)
    case Skin => AnyIn(SKIN_KEYS, low)
    case BodyPain => AnyIn(BODY_KEYS, low)
    case General => true
  }

  /** The branch taken: the first category of the chain whose test holds. */
  function Classify(low: seq<string>): (c: Category)
    ensures Matches(c, low)
    ensures forall d :: Rank(d) < Rank(c) ==> !Matches(d, low)
  {
    if AnyIn(EMERGENCY_KEYS, low) then EmergencyCase
    else if "fever" in low || "জ্বর" in low then
      assert AnyIn(FEVER_KEYS, low) by {
        if "fever" in low { assert FEVER_KEYS[0] in low; } else { assert FEVER_KEYS[1] in low; }
      }
      if AnyIn(FEVER_RESPIRATORY_KEYS, low) then FeverRespiratory else FeverUnknown
    else if AnyIn(GASTRO_KEYS, low) then Gastro
    else if AnyIn(HEADACHE_KEYS, low) then Headache
    else if AnyIn(SKIN_KEYS, low) then Skin
    else if AnyIn(BODY_KEYS, low) then BodyPain
    else General
  }

  function Build(a: Advice, urgency: Urgency, see: SeeDoctor): LocalAnalysis {
    LocalAnalysis(a.diagnosis, a.conditions, a.recommendations, urgency, a.homeRemedies, a.warningSigns, see)
  }

  /** The branch's own result, before the severity adjustment. */
  function BranchResult(c: Category, low: seq<string>, severity: string, duration: string): LocalAnalysis {
    var joined := Join(low, " ");
    match c
    case EmergencyCase => Build(EMERGENCY_ADVICE, Emergency, Flag(true))
    case FeverRespiratory =>
      Build(FEVER_RESPIRATORY_ADVICE, if severity == "severe" then Moderate else Low, Flag(severity == "severe"))
    case FeverUnknown => Build(FEVER_UNKNOWN_ADVICE, Moderate, Flag(true))
    case Gastro => Build(GASTRO_ADVICE, Moderate, Flag(Contains(joined, "blood") || severity == "severe"))
    case Headache => Build(HEADACHE_ADVICE, Low, Flag(severity == "severe" || Contains(joined, "vision")))
    case Skin => Build(SKIN_ADVICE, Low, Flag(Contains(joined, "breathing") || Contains(joined, "swelling")))
    case BodyPain =>
      Build(BODY_ADVICE, Low,
            if duration == "" then EmptyDuration
            else Flag(Contains(Lower(duration), "week") || Contains(Lower(duration), "weeks")))
    case General => Build(GENERAL_ADVICE, Moderate, Flag(true))
  }

  /** `analyze_symptoms_locally` (the notes argument is accepted and unused). */
  function AnalyzeLocally(symptoms: seq<string>, severity: string, duration: string, notes: string): (r: LocalAnalysis)
    ensures r.urgency == Emergency <==> AnyIn(EMERGENCY_KEYS, LowerAll(symptoms))
    ensures r.urgency == Emergency ==>
              r.suggestedConditions == ["Requires Immediate Medical Attention"] && r.shouldSeeDoctor == Flag(true)
    ensures r.urgency != Emergency && severity == "severe" ==> r.urgency == High && r.shouldSeeDoctor == Flag(true)
    ensures r.urgency == High ==> severity == "severe"
    ensures r.diagnosis == BranchResult(Classify(LowerAll(symptoms)), LowerAll(symptoms), severity, duration).diagnosis
  {
    var low := LowerAll(symptoms);
    var c := Classify(low);
    var base := BranchResult(c, low, severity, duration);
    if severity == "severe" && base.urgency != Emergency then base.(urgency := High, shouldSeeDoctor := Flag(true))
    else base
  }

  /** The additional notes never influence the analysis. */
  lemma NotesIgnored(symptoms: seq<string>, severity: string, duration: string, n1: string, n2: string)
    ensures AnalyzeLocally(symptoms, severity, duration, n1) == AnalyzeLocally(symptoms, severity, duration, n2)
  {
  }

  /** Fever outranks every later category: fever with diarrhea is a fever. */
  lemma FeverOutranksGastro(symptoms: seq<string>, severity: string, duration: string, notes: string)
    requires !AnyIn(EMERGENCY_KEYS, LowerAll(symptoms)) && "fever" in LowerAll(symptoms)
    ensures AnalyzeLocally(symptoms, severity, duration, notes).diagnosis
            in {FEVER_RESPIRATORY_ADVICE.diagnosis, FEVER_UNKNOWN_ADVICE.diagnosis}
  {
    var low := LowerAll(symptoms);
    assert FEVER_KEYS[0] in low;
    assert Matches(FeverRespiratory, low) || Matches(FeverUnknown, low);
  }

  /** Matching is by whole element: an emergency is declared exactly when some
      lowercased symptom equals one of the emergency phrases, so a symptom that
      only contains such a phrase, or differs from it only in case, is treated
      by its lowercased text alone. */
  lemma EmergencyIsWholeElement(symptoms: seq<string>, severity: string, duration: string, notes: string)
    ensures AnalyzeLocally(symptoms, severity, duration, notes).urgency == Emergency
            <==> exists i :: 0 <= i < |symptoms| && Lower(symptoms[i]) in EMERGENCY_KEYS
  {
    KeyAmongLowered(EMERGENCY_KEYS, symptoms);
  }

  /** Some key occurs among the lowercased symptoms exactly when some
      lowercased symptom is a key. */
  lemma KeyAmongLowered(keys: seq<string>, symptoms: seq<string>)
    ensures AnyIn(keys, LowerAll(symptoms)) <==> exists i :: 0 <= i < |symptoms| && Lower(symptoms[i]) in keys
  {
    var low := LowerAll(symptoms);
    if AnyIn(keys, low) {
      var k :| 0 <= k < |keys| && keys[k] in low;
      var i :| 0 <= i < |low| && low[i] == keys[k];
      assert Lower(symptoms[i]) in keys;
    }
    if exists i :: 0 <= i < |symptoms| && Lower(symptoms[i]) in keys {
      var i :| 0 <= i < |symptoms| && Lower(symptoms[i]) in keys;
      var k :| 0 <= k < |keys| && keys[k] == Lower(symptoms[i]);
      assert low[i] == keys[k];
    }
  }

  /** Keys are compared after lowercasing: symptom lists that differ only in
      letter case get the same analysis. */
  lemma CaseIsIgnored(s1: seq<string>, s2: seq<string>, severity: string, duration: string, notes: string)
    requires |s1| == |s2|
    requires forall i :: 0 <= i < |s1| ==> Lower(s1[i]) == Lower(s2[i])
    ensures AnalyzeLocally(s1, severity, duration, notes) == AnalyzeLocally(s2, severity, duration, notes)
  {
    assert LowerAll(s1) == LowerAll(s2);
  }

  /** The branch taken depends only on which lowercased texts occur among the
      symptoms, not on their order or repetition. */
  lemma ClassifyByMembership(s1: seq<string>, s2: seq<string>)
    requires forall x :: x in LowerAll(s1) <==> x in LowerAll(s2)
    ensures Classify(LowerAll(s1)) == Classify(LowerAll(s2))
  {
  }

  /** With nothing recognised the default branch applies and always advises a doctor. */
  lemma DefaultAdvisesDoctor(symptoms: seq<string>, severity: string, duration: string, notes: string)
    requires Classify(LowerAll(symptoms)) == General
    ensures var r := AnalyzeLocally(symptoms, severity, duration, notes);
            r.diagnosis == "General Health Concern" && Truthy(r.shouldSeeDoctor)
  {
  }

  /** In the body-pain branch an empty duration yields the empty string, not False. */
  lemma BodyPainEmptyDuration(symptoms: seq<string>, severity: string, notes: string)
    requires Classify(LowerAll(symptoms)) == BodyPain && severity != "severe"
    ensures AnalyzeLocally(symptoms, severity, "", notes).shouldSeeDoctor == EmptyDuration
  {
  }

  /** `[s.strip() for s in text.split(",")]`: every piece, empty ones included. */
  function SplitSymptoms(text: string): (r: seq<string>)
    ensures |r| == |SplitOn(text, {','})| && |r| >= 1
    ensures forall k :: 0 <= k < |r| ==> r[k] == Trim(SplitOn(text, {','})[k])
  {
    var pieces := SplitOn(text, {','});
    seq(|pieces|, k requires 0 <= k < |pieces| => Trim(pieces[k]))
  }

  /** When no piece carries surrounding spaces, stripping changes nothing. */
  lemma SplitSymptomsUntrimmed(text: string)
    requires forall k :: 0 <= k < |SplitOn(text, {','})| ==>
               var p := SplitOn(text, {','})[k]; p == [] || (!IsSpace(p[0]) && !IsSpace(p[|p| - 1]))
    ensures SplitSymptoms(text) == SplitOn(text, {','})
  {
    var pieces := SplitOn(text, {','});
    forall k | 0 <= k < |pieces| ensures SplitSymptoms(text)[k] == pieces[k] {
      TrimIdentity(pieces[k]);
    }
  }

  /** When no piece carries surrounding spaces, the pieces join back to the text. */
  lemma SplitSymptomsJoin(text: string)
    requires forall k :: 0 <= k < |SplitOn(text, {','})| ==>
               var p := SplitOn(text, {','})[k]; p == [] || (!IsSpace(p[0]) && !IsSpace(p[|p| - 1]))
    ensures Join(SplitSymptoms(text), ",") == text
  {
    SplitSymptomsUntrimmed(text);
    SplitJoin(text, ',');
  }

  /** Empty pieces are kept: two commas in a row give an empty symptom
      between the pieces around them. */
  lemma EmptyPiecesKept(a: string, b: string)
    requires ',' !in a
    requires ',' !in b
    requires a == [] || (!IsSpace(a[0]) && !IsSpace(a[|a| - 1]))
    requires b == [] || (!IsSpace(b[0]) && !IsSpace(b[|b| - 1]))
    ensures SplitSymptoms(a + ",," + b) == [a, "", b]
  {
    var text := a + ",," + b;
    assert text[..|a|] == a;
    assert text[|a| + 2..] == b;
    SplitTwoSepsAt(text, |a|, {','});
    SplitSymptomsUntrimmed(text);
  }

  /** The request body of `create_symptom_check`; absent fields are None. */
  datatype SymptomCheckCreate = SymptomCheckCreate(symptoms: string, severity: Option<string>,
                                                   duration: Option<string>, notes: Option<string>)

  /** Python's `value or default` for an optional string. */
  function OrDefault(o: Option<string>, default: string): (r: string)
    ensures o.Some? && o.value != "" ==> r == o.value
    ensures (o.None? || o.value == "") ==> r == default
  {
    if o.Some? && o.value != "" then o.value else default
  }

  /** The analysis `create_symptom_check` asks for. */
  function CheckAnalysis(req: SymptomCheckCreate): LocalAnalysis {
    AnalyzeLocally(SplitSymptoms(req.symptoms), OrDefault(req.severity, "moderate"),
                   OrDefault(req.duration, ""), OrDefault(req.notes, ""))
  }

  /** The severity stored with the check: the given one, else the computed urgency. */
  function StoredSeverity(req: SymptomCheckCreate): string {
    OrDefault(req.severity, UrgencyName(CheckAnalysis(req).urgency))
  }

  /** A missing severity is analysed as "moderate", so it is never raised to "high". */
  lemma MissingSeverityNotRaised(req: SymptomCheckCreate)
    requires req.severity.None?
    ensures CheckAnalysis(req).urgency != High
    ensures StoredSeverity(req) in {"emergency", "moderate", "low"}
  {
  }
}
