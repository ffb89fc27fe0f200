/** The offline medical knowledge base (lib/offline/knowledge-base.ts): a
    constant table of eight bilingual articles, searched by case-insensitive
    substring over the article text of one language or over its keywords. */
module KnowledgeBase {
  import opened Strings
  import opened SeqUtil
  import opened Locale

  /** `MedicalKnowledge`. */
  datatype MedicalKnowledge = MedicalKnowledge(
    id: string, category: string,
    title: string, titleBn: string,
    content: string, contentBn: string,
    keywords: seq<string>)

  /** The articles of `medicalKnowledgeBase`, one constructor each; the text
      of each is given field by field by the functions below. */
  datatype Article = FeverBasics | DiarrheaTreatment | CoughCold | WoundsCuts | SnakeBite | PregnancyWarning | ChestPain | DiabetesBasics

  function Id(a: Article): string {
    match a
    case FeverBasics => "fever-basics"
    case DiarrheaTreatment => "diarrhea-treatment"
    case CoughCold => "cough-cold"
    case WoundsCuts => "wounds-cuts"
    case SnakeBite => "snake-bite"
    case PregnancyWarning => "pregnancy-warning"
    case ChestPain => "chest-pain"
    case DiabetesBasics => "diabetes-basics"
  }

  function CategoryOf(a: Article): string {
    match a
    case FeverBasics => "common-symptoms"
    case DiarrheaTreatment => "common-symptoms"
    case CoughCold => "respiratory"
    case WoundsCuts => "first-aid"
    case SnakeBite => "emergency"
    case PregnancyWarning => "maternal-health"
    case ChestPain => "emergency"
    case DiabetesBasics => "chronic-disease"
  }

  function Title(a: Article): string {
    match a
    case FeverBasics => "Fever - When to Worry"
    case DiarrheaTreatment => "Diarrhea - Home Treatment"
    case CoughCold => "Cough and Cold"
    case WoundsCuts => "Wound Care"
    case SnakeBite => "Snake Bite First Aid"
    case PregnancyWarning => "Pregnancy Warning Signs"
    case ChestPain => "Chest Pain - Emergency"
    case DiabetesBasics => "Diabetes Management"
  }

  function TitleBn(a: Article): string {
    match a
    case FeverBasics => "জ্বর - কখন চিন্তিত হবেন"
    case DiarrheaTreatment => "ডায়রিয়া - ঘরোয়া চিকিৎসা"
    case CoughCold => "কাশি ও সর্দি"
    case WoundsCuts => "ক্ষত পরিচর্যা"
    case SnakeBite => "সাপে কাটা প্রাথমিক চিকিৎসা"
    case PregnancyWarning => "গর্ভাবস্থায় বিপদ চিহ্ন"
    case ChestPain => "বুকে ব্যথা - জরুরি"
    case DiabetesBasics => "ডায়াবেটিস ব্যবস্থাপনা"
  }

  function Content(a: Article): string {
    match a
    case FeverBasics => "Fever is body temperature above 100.4°F (38°C). Mild fever helps fight infection. Seek medical help if fever is above 103°F, lasts more than 3 days, or accompanied by severe symptoms."
    case DiarrheaTreatment => "Stay hydrated with ORS (Oral Rehydration Solution). Mix 6 teaspoons sugar + 1/2 teaspoon salt in 1 liter clean water. Drink frequently. Avoid dairy and spicy foods. Seek help if blood in stool or severe dehydration."
    case CoughCold => "Most colds resolve in 7-10 days. Rest, drink warm fluids, gargle with salt water. Honey can soothe cough (not for babies under 1 year). See doctor if difficulty breathing, chest pain, or high fever."
    case WoundsCuts => "Clean wound with clean water and soap. Apply pressure if bleeding. Cover with clean cloth or bandage. Change dressing daily. Watch for signs of infection: increased pain, redness, swelling, pus, or fever."
    case SnakeBite => "IMMEDIATELY go to hospital. Keep affected limb still and below heart level. Remove jewelry/tight clothing. DO NOT cut wound, apply tourniquet, or try to suck venom. Note snake appearance if safe to do so."
    case PregnancyWarning => "Seek immediate help for: severe headache, vision problems, severe abdominal pain, vaginal bleeding, fluid leakage, decreased fetal movement, high fever, severe swelling of face/hands."
    case ChestPain => "Chest pain can be serious. Call for emergency help if pain is severe, crushing, spreading to arm/jaw/back, with sweating, nausea, or shortness of breath. Could be heart attack. Chew aspirin if available while waiting."
    case DiabetesBasics => "Monitor blood sugar regularly. Take medications as prescribed. Eat balanced diet with controlled portions. Exercise regularly. Check feet daily for wounds. Watch for symptoms: increased thirst, frequent urination, blurred vision, fatigue."
  }

  function ContentBn(a: Article): string {
    match a
    case FeverBasics => "জ্বর হল শরীরের তাপমাত্রা ১০০.৪°ফা (৩৮°সে) এর উপরে। হালকা জ্বর সংক্রমণের বিরুদ্ধে লড়াই করতে সাহায্য করে। জ্বর ১০৩°ফা এর উপরে হলে, ৩ দিনের বেশি স্থায়ী হলে বা গুরুতর লক্ষণ থাকলে চিকিৎসা নিন।"
    case DiarrheaTreatment => "ওআরএস (মুখে খাওয়ার স্যালাইন) দিয়ে শরীরে পানির পরিমাণ ঠিক রাখুন। ১ লিটার বিশুদ্ধ পানিতে ৬ চা চামচ চিনি + ১/২ চা চামচ লবণ মিশান। ঘন ঘন পান করুন। দুধ ও ঝাল খাবার এড়িয়ে চলুন। মলে রক্ত বা মারাত্মক পানিশূন্যতা হলে সাহায্য নিন।"
    case CoughCold => "বেশিরভাগ সর্দি ৭-১০ দিনে সেরে যায়। বিশ্রাম নিন, গরম তরল পান করুন, লবণ পানিতে গার্গল করুন। মধু কাশি কমায় (১ বছরের কম বাচ্চাদের জন্য নয়)। শ্বাস নিতে কষ্ট, বুকে ব্যথা বা তীব্র জ্বর হলে ডাক্তার দেখান।"
    case WoundsCuts => "ক্ষতটি পরিষ্কার পানি ও সাবান দিয়ে ধুয়ে নিন। রক্তপাত হলে চাপ দিন। পরিষ্কার কাপড় বা ব্যান্ডেজ দিয়ে ঢেকে রাখুন। প্রতিদিন ড্রেসিং পরিবর্তন করুন। সংক্রমণের লক্ষণ দেখুন: ব্যথা বৃদ্ধি, লাল হওয়া, ফোলা, পুঁজ বা জ্বর।"
    case SnakeBite => "অবিলম্বে হাসপাতালে যান। ক্ষতিগ্রস্ত অঙ্গটি স্থির রাখুন এবং হৃদয়ের নিচে রাখুন। গহনা/আঁটসাঁট পোশাক সরিয়ে ফেলুন। ক্ষত কাটবেন না, টর্নিকেট প্রয়োগ করবেন না বা বিষ চুষে বের করার চেষ্টা করবেন না। নিরাপদ হলে সাপের চেহারা মনে রাখুন।"
    case PregnancyWarning => "অবিলম্বে সাহায্য নিন যদি: তীব্র মাথাব্যথা, দৃষ্টি সমস্যা, তীব্র পেট ব্যথা, যোনিপথে রক্তপাত, তরল নিঃসরণ, শিশুর নড়াচড়া কমে যাওয়া, তীব্র জ্বর, মুখ/হাত মারাত্মক ফুলে যাওয়া।"
    case ChestPain => "বুকে ব্যথা গুরুতর হতে পারে। জরুরি সাহায্য ডাকুন যদি ব্যথা তীব্র হয়, চাপা লাগে, বাহু/চোয়াল/পিঠে ছড়ায়, ঘাম, বমি বমি ভাব বা শ্বাসকষ্ট হয়। হার্ট অ্যাটাক হতে পারে। অপেক্ষা করার সময় অ্যাসপিরিন চিবান।"
    case DiabetesBasics => "নিয়মিত রক্তে চিনি পরীক্ষা করুন। নির্দেশিত ওষুধ খান। নিয়ন্ত্রিত পরিমাণে সুষম খাবার খান। নিয়মিত ব্যায়াম করুন। প্রতিদিন পায়ে ক্ষত আছে কিনা পরীক্ষা করুন। লক্ষণগুলি লক্ষ্য করুন: অতিরিক্ত তৃষ্ণা, ঘন ঘন প্রস্রাব, ঝাপসা দৃষ্টি, ক্লান্তি।"
  }

  function Keywords(a: Article): seq<string> {
    match a
    case FeverBasics => ["fever", "temperature", "জ্বর"]
    case DiarrheaTreatment => ["diarrhea", "dehydration", "ors", "ডায়রিয়া", "স্যালাইন"]
    case CoughCold => ["cough", "cold", "flu", "কাশি", "সর্দি"]
    case WoundsCuts => ["wound", "cut", "bleeding", "ক্ষত", "রক্তপাত"]
    case SnakeBite => ["snake", "bite", "venom", "emergency", "সাপ", "কামড়"]
    case PregnancyWarning => ["pregnancy", "maternal", "warning", "গর্ভাবস্থা", "মা"]
    case ChestPain => ["chest pain", "heart attack", "cardiac", "বুকে ব্যথা", "হার্ট"]
    case DiabetesBasics => ["diabetes", "blood sugar", "insulin", "ডায়াবেটিস", "চিনি"]
  }

  /** The record `medicalKnowledgeBase` holds for an article. */
  function Item(a: Article): (r: MedicalKnowledge)
    ensures r.id == Id(a) && r.category == CategoryOf(a)
  {
    MedicalKnowledge(Id(a), CategoryOf(a), Title(a), TitleBn(a), Content(a), ContentBn(a), Keywords(a))
  }

  /** The position of each article in `medicalKnowledgeBase`. */
  function Position(a: Article): nat {
    match a
    case FeverBasics => 0
    case DiarrheaTreatment => 1
    case CoughCold => 2
    case WoundsCuts => 3
    case SnakeBite => 4
    case PregnancyWarning => 5
    case ChestPain => 6
    case DiabetesBasics => 7
  }

  function ArticleAt(i: nat): (a: Article)
    requires i < 8
    ensures Position(a) == i
  {
    if i == 0 then FeverBasics
    else if i == 1 then DiarrheaTreatment
    else if i == 2 then CoughCold
    else if i == 3 then WoundsCuts
    else if i == 4 then SnakeBite
    else if i == 5 then PregnancyWarning
    else if i == 6 then ChestPain
    else DiabetesBasics
  }

  /** `medicalKnowledgeBase`, in table order. */
  function MedicalKnowledgeBase(): (r: seq<MedicalKnowledge>)
    ensures |r| == 8
    ensures forall i :: 0 <= i < 8 ==> r[i] == Item(ArticleAt(i))
  {
    seq(8, i requires 0 <= i < 8 => Item(ArticleAt(i)))
  }

  /** An entry of `getAllCategories()`; `caption` and `captionBn` are its `label` and `labelBn`. */
  datatype CategoryInfo = CategoryInfo(id: string, caption: string, captionBn: string)

  /** `getAllCategories()`. */
  const ALL_CATEGORIES: seq<CategoryInfo> := [
    CategoryInfo("common-symptoms", "Common Symptoms", "সাধারণ লক্ষণ"),
    CategoryInfo("respiratory", "Respiratory Issues", "শ্বাসযন্ত্রের সমস্যা"),
    CategoryInfo("first-aid", "First Aid", "প্রাথমিক চিকিৎসা"),
    CategoryInfo("emergency", "Emergency", "জরুরি"),
    CategoryInfo("maternal-health", "Maternal Health", "মাতৃস্বাস্থ্য"),
    CategoryInfo("chronic-disease", "Chronic Disease", "দীর্ঘমেয়াদী রোগ")]

  /** The text searched for one language: title, a space, content. */
  function SearchText(item: MedicalKnowledge, language: Language): string {
    match language
    case Bn => item.titleBn + " " + item.contentBn
    case En => item.title + " " + item.content
  }

  /** The filter condition of `searchKnowledgeBase`. */
  predicate Matches(item: MedicalKnowledge, query: string, language: Language) {
    Contains(Lower(SearchText(item, language)), Lower(query)) || Contains(Lower(Join(item.keywords, " ")), Lower(query))
  }

  /** The filter of `searchKnowledgeBase`, over any table: the matching items, in table order. */
  function Search(kb: seq<MedicalKnowledge>, query: string, language: Language): (r: seq<MedicalKnowledge>)
    ensures IsSubseq(r, kb)
    ensures forall item :: item in r <==> item in kb && Matches(item, query, language)
  {
    FilterIsSubseq(kb, item => Matches(item, query, language));
    Filter(kb, item => Matches(item, query, language))
  }

  /** `searchKnowledgeBase(query, language)`. */
  function SearchKnowledgeBase(query: string, language: Language): (r: seq<MedicalKnowledge>)
    ensures IsSubseq(r, MedicalKnowledgeBase())
    ensures r == Search(MedicalKnowledgeBase(), query, language)
  {
    Search(MedicalKnowledgeBase(), query, language)
  }

  /** The empty query returns the whole table, in either language. */
  lemma EmptyQueryReturnsAll(kb: seq<MedicalKnowledge>, language: Language)
    ensures Search(kb, "", language) == kb
  {
    assert Lower("") == "";
    forall item | item in kb ensures Matches(item, "", language) {
      ContainsEmpty(Lower(SearchText(item, language)));
    }
    FilterAll(kb, item => Matches(item, "", language));
  }

  /** Searching for any keyword of an item, whatever its case and in either
      language, finds that item: keywords are searched regardless of language. */
  lemma KeywordFindsItem(kb: seq<MedicalKnowledge>, item: MedicalKnowledge, k: nat, query: string, language: Language)
    requires item in kb && k < |item.keywords| && Lower(query) == Lower(item.keywords[k])
    ensures item in Search(kb, query, language)
  {
    JoinContains(item.keywords, " ", k);
    LowerContains(Join(item.keywords, " "), item.keywords[k]);
  }

  /** The filter of `getKnowledgeByCategory`, over any table: exactly the items of that category, in order. */
  function ByCategory(kb: seq<MedicalKnowledge>, category: string): (r: seq<MedicalKnowledge>)
    ensures IsSubseq(r, kb)
    ensures forall item :: item in r <==> item in kb && item.category == category
  {
    FilterIsSubseq(kb, (item: MedicalKnowledge) => item.category == category);
    Filter(kb, (item: MedicalKnowledge) => item.category == category)
  }

  /** `getKnowledgeByCategory(category)`. */
  function GetKnowledgeByCategory(category: string): (r: seq<MedicalKnowledge>)
    ensures IsSubseq(r, MedicalKnowledgeBase())
    ensures r == ByCategory(MedicalKnowledgeBase(), category)
  {
    ByCategory(MedicalKnowledgeBase(), category)
  }

  predicate IsCategoryId(c: string) {
    exists k :: 0 <= k < |ALL_CATEGORIES| && ALL_CATEGORIES[k].id == c
  }

  /** Every article's category is one of the ids `getAllCategories` lists. */
  lemma CategoriesListed(a: Article)
    ensures IsCategoryId(CategoryOf(a))
  {
    var k := match a
      case FeverBasics => 0 case DiarrheaTreatment => 0 case CoughCold => 1 case WoundsCuts => 2
      case SnakeBite => 3 case PregnancyWarning => 4 case ChestPain => 3 case DiabetesBasics => 5;
    assert ALL_CATEGORIES[k].id == CategoryOf(a);
  }

  /** Every listed category holds at least one article. */
  lemma CategoriesInhabited(k: nat)
    requires k < |ALL_CATEGORIES|
    ensures exists a :: CategoryOf(a) == ALL_CATEGORIES[k].id
  {
    var owner := [FeverBasics, CoughCold, WoundsCuts, SnakeBite, PregnancyWarning, DiabetesBasics];
    assert CategoryOf(owner[k]) == ALL_CATEGORIES[k].id;
  }

  /** Every item of the table has a listed category. */
  lemma TableCategories()
    ensures forall i :: 0 <= i < |MedicalKnowledgeBase()| ==> IsCategoryId(MedicalKnowledgeBase()[i].category)
  {
    forall i | 0 <= i < 8 ensures IsCategoryId(MedicalKnowledgeBase()[i].category) {
      CategoriesListed(ArticleAt(i));
    }
  }

  /** A category that some item of a table carries gets a non-empty `getKnowledgeByCategory`;
      so, with `CategoriesInhabited`, does every listed category. */
  lemma CategoryWithItem(kb: seq<MedicalKnowledge>, item: MedicalKnowledge)
    requires item in kb
    ensures ByCategory(kb, item.category) != []
  {
  }

  /** Every article is in the table, so `Search` and `ByCategory` over the
      table select articles by their condition alone. */
  lemma ArticleListed(a: Article)
    ensures Item(a) in MedicalKnowledgeBase()
  {
    var i := Position(a);
    AtPosition(a);
    assert MedicalKnowledgeBase()[i] == Item(ArticleAt(i));
  }

  lemma AtPosition(a: Article)
    ensures Position(a) < 8 && ArticleAt(Position(a)) == a
  {
  }

  /** Article ids are distinct, and so are category ids. */
  lemma IdsDistinct()
    ensures forall a, b :: Id(a) == Id(b) ==> a == b
    ensures forall i, j :: 0 <= i < j < |ALL_CATEGORIES| ==> ALL_CATEGORIES[i].id != ALL_CATEGORIES[j].id
  {
  }
}
