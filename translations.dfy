/** The interface translations: a constant table giving each key an
    English and a Bengali text, and the lookup `t`, which falls back to the
    key itself when the key is unknown or its text is empty. */
module Translations {
  import opened Wrappers
  import opened Locale

  /** The keys of `translations`, in table order. */
  datatype Key =
    Dashboard | CheckSymptoms | Emergency | Facilities | Consultations | Records | Profile
    | Settings | Submit | Cancel | Save | Edit | Delete | Back | Next | Previous | Close | Search
    | Online | Offline | Syncing | Synced | Pending | Completed | Cancelled | Symptoms | Diagnosis
    | Prescription | Medicine | Treatment | Doctor | Patient | Hospital | Clinic | Pharmacy
    | CallEmergency | SendAlert | GetLocation | Ambulance | HelpNeeded

  /** An entry of the table: its two texts. */
  datatype Entry = Entry(en: string, bn: string)

  /** The property name of each key. */
  function KeyName(k: Key): string {
    match k
    case Dashboard => "dashboard"
    case CheckSymptoms => "checkSymptoms"
    case Emergency => "emergency"
    case Facilities => "facilities"
    case Consultations => "consultations"
    case Records => "records"
    case Profile => "profile"
    case Settings => "settings"
    case Submit => "submit"
    case Cancel => "cancel"
    case Save => "save"
    case Edit => "edit"
    case Delete => "delete"
    case Back => "back"
    case Next => "next"
    case Previous => "previous"
    case Close => "close"
    case Search => "search"
    case Online => "online"
    case Offline => "offline"
    case Syncing => "syncing"
    case Synced => "synced"
    case Pending => "pending"
    case Completed => "completed"
    case Cancelled => "cancelled"
    case Symptoms => "symptoms"
    case Diagnosis => "diagnosis"
    case Prescription => "prescription"
    case Medicine => "medicine"
    case Treatment => "treatment"
    case Doctor => "doctor"
    case Patient => "patient"
    case Hospital => "hospital"
    case Clinic => "clinic"
    case Pharmacy => "pharmacy"
    case CallEmergency => "callEmergency"
    case SendAlert => "sendAlert"
    case GetLocation => "getLocation"
    case Ambulance => "ambulance"
    case HelpNeeded => "helpNeeded"
  }

  /** The entry of each key. */
  function EntryOf(k: Key): Entry {
    match k
    case Dashboard => Entry("Dashboard", "ড্যাশবোর্ড")
    case CheckSymptoms => Entry("Check Symptoms", "লক্ষণ পরীক্ষা করুন")
    case Emergency => Entry("Emergency", "জরুরি")
    case Facilities => Entry("Facilities", "সুবিধা")
    case Consultations => Entry("Consultations", "পরামর্শ")
    case Records => Entry("Medical Records", "চিকিৎসা রেকর্ড")
    case Profile => Entry("Profile", "প্রোফাইল")
    case Settings => Entry("Settings", "সেটিংস")
    case Submit => Entry("Submit", "জমা দিন")
    case Cancel => Entry("Cancel", "বাতিল")
    case Save => Entry("Save", "সংরক্ষণ করুন")
    case Edit => Entry("Edit", "সম্পাদনা")
    case Delete => Entry("Delete", "মুছুন")
    case Back => Entry("Back", "ফিরে যান")
    case Next => Entry("Next", "পরবর্তী")
    case Previous => Entry("Previous", "পূর্ববর্তী")
    case Close => Entry("Close", "বন্ধ")
    case Search => Entry("Search", "অনুসন্ধান")
    case Online => Entry("Online", "অনলাইন")
    case Offline => Entry("Offline", "অফলাইন")
    case Syncing => Entry("Syncing", "সিঙ্ক হচ্ছে")
    case Synced => Entry("Synced", "সিঙ্ক হয়েছে")
    case Pending => Entry("Pending", "অপেক্ষমাণ")
    case Completed => Entry("Completed", "সম্পন্ন")
    case Cancelled => Entry("Cancelled", "বাতিল")
    case Symptoms => Entry("Symptoms", "লক্ষণ")
    case Diagnosis => Entry("Diagnosis", "রোগ নির্ণয়")
    case Prescription => Entry("Prescription", "প্রেসক্রিপশন")
    case Medicine => Entry("Medicine", "ওষুধ")
    case Treatment => Entry("Treatment", "চিকিৎসা")
    case Doctor => Entry("Doctor", "ডাক্তার")
    case Patient => Entry("Patient", "রোগী")
    case Hospital => Entry("Hospital", "হাসপাতাল")
    case Clinic => Entry("Clinic", "ক্লিনিক")
    case Pharmacy => Entry("Pharmacy", "ফার্মেসি")
    case CallEmergency => Entry("Call Emergency", "জরুরি কল করুন")
    case SendAlert => Entry("Send Alert", "সতর্কতা পাঠান")
    case GetLocation => Entry("Get Location", "অবস্থান পান")
    case Ambulance => Entry("Ambulance", "অ্যাম্বুলেন্স")
    case HelpNeeded => Entry("Help Needed", "সাহায্য প্রয়োজন")
  }

  /** The key a property name denotes, if any (a property lookup on the
      table, arranged by the length of the name). */
  function KeyOf(name: string): Option<Key> {
    if |name| == 4 then
      if name == "save" then Some(Save)
      else if name == "edit" then Some(Edit)
      else if name == "back" then Some(Back)
      else if name == "next" then Some(Next)
      else None
    else if |name| == 5 then
      if name == "close" then Some(Close)
      else None
    else if |name| == 6 then
      if name == "submit" then Some(Submit)
      else if name == "cancel" then Some(Cancel)
      else if name == "delete" then Some(Delete)
      else if name == "search" then Some(Search)
      else if name == "online" then Some(Online)
      else if name == "synced" then Some(Synced)
      else if name == "doctor" then Some(Doctor)
      else if name == "clinic" then Some(Clinic)
      else None
    else if |name| == 7 then
      if name == "records" then Some(Records)
      else if name == "profile" then Some(Profile)
      else if name == "offline" then Some(Offline)
      else if name == "syncing" then Some(Syncing)
      else if name == "pending" then Some(Pending)
      else if name == "patient" then Some(Patient)
      else None
    else if |name| == 8 then
      if name == "settings" then Some(Settings)
      else if name == "previous" then Some(Previous)
      else if name == "symptoms" then Some(Symptoms)
      else if name == "medicine" then Some(Medicine)
      else if name == "hospital" then Some(Hospital)
      else if name == "pharmacy" then Some(Pharmacy)
      else None
    else if |name| == 9 then
      if name == "dashboard" then Some(Dashboard)
      else if name == "emergency" then Some(Emergency)
      else if name == "completed" then Some(Completed)
      else if name == "cancelled" then Some(Cancelled)
      else if name == "diagnosis" then Some(Diagnosis)
      else if name == "treatment" then Some(Treatment)
      else if name == "sendAlert" then Some(SendAlert)
      else if name == "ambulance" then Some(Ambulance)
      else None
    else if |name| == 10 then
      if name == "facilities" then Some(Facilities)
      else if name == "helpNeeded" then Some(HelpNeeded)
      else None
    else if |name| == 11 then
      if name == "getLocation" then Some(GetLocation)
      else None
    else if |name| == 12 then
      if name == "prescription" then Some(Prescription)
      else None
    else if |name| == 13 then
      if name == "checkSymptoms" then Some(CheckSymptoms)
      else if name == "consultations" then Some(Consultations)
      else if name == "callEmergency" then Some(CallEmergency)
      else None
    else None
  }

  /** `entry?.[language]`, with the empty text standing for `undefined`. */
  function Text(entry: Option<Entry>, language: Language): string {
    match entry
    case None => ""
    case Some(e) => match language case En => e.en case Bn => e.bn
  }

  /** `translations[key]?.[language] || key`: the text when there is a
      non-empty one, otherwise the key. */
  function Lookup(entry: Option<Entry>, key: string, language: Language): (r: string)
    ensures Text(entry, language) != "" ==> r == Text(entry, language)
    ensures Text(entry, language) == "" ==> r == key
    ensures entry.None? ==> r == key
  {
    if Text(entry, language) != "" then Text(entry, language) else key
  }

  /** `t(key, language)`; the language defaults to English. */
  function T(key: string, language: Language := En): (r: string)
    ensures KeyOf(key).None? ==> r == key
  {
    match KeyOf(key)
    case None => Lookup(None, key, language)
    case Some(k) => Lookup(Some(EntryOf(k)), key, language)
  }

  /** Every key has a non-empty text in both languages. */
  lemma EntriesComplete(k: Key)
    ensures EntryOf(k).en != "" && EntryOf(k).bn != ""
  {
    EnglishComplete(k);
    BengaliComplete(k);
  }

  lemma EnglishComplete(k: Key)
    ensures EntryOf(k).en != ""
  {
    match k {
      case Dashboard =>
      case CheckSymptoms =>
      case Emergency =>
      case Facilities =>
      case Consultations =>
      case Records =>
      case Profile =>
      case Settings =>
      case Submit =>
      case Cancel =>
      case Save =>
      case Edit =>
      case Delete =>
      case Back =>
      case Next =>
      case Previous =>
      case Close =>
      case Search =>
      case Online =>
      case Offline =>
      case Syncing =>
      case Synced =>
      case Pending =>
      case Completed =>
      case Cancelled =>
      case Symptoms =>
      case Diagnosis =>
      case Prescription =>
      case Medicine =>
      case Treatment =>
      case Doctor =>
      case Patient =>
      case Hospital =>
      case Clinic =>
      case Pharmacy =>
      case CallEmergency =>
      case SendAlert =>
      case GetLocation =>
      case Ambulance =>
      case HelpNeeded =>
    }
  }

  lemma BengaliComplete(k: Key)
    ensures EntryOf(k).bn != ""
  {
    match k {
      case Dashboard =>
      case CheckSymptoms =>
      case Emergency =>
      case Facilities =>
      case Consultations =>
      case Records =>
      case Profile =>
      case Settings =>
      case Submit =>
      case Cancel =>
      case Save =>
      case Edit =>
      case Delete =>
      case Back =>
      case Next =>
      case Previous =>
      case Close =>
      case Search =>
      case Online =>
      case Offline =>
      case Syncing =>
      case Synced =>
      case Pending =>
      case Completed =>
      case Cancelled =>
      case Symptoms =>
      case Diagnosis =>
      case Prescription =>
      case Medicine =>
      case Treatment =>
      case Doctor =>
      case Patient =>
      case Hospital =>
      case Clinic =>
      case Pharmacy =>
      case CallEmergency =>
      case SendAlert =>
      case GetLocation =>
      case Ambulance =>
      case HelpNeeded =>
    }
  }

  /** Each key's name denotes that key. */
  lemma KeyOfName(k: Key)
    ensures KeyOf(KeyName(k)) == Some(k)
  {
    match k {
      case Save | Edit | Back | Next => NamesOfLength4(k);
      case Close => NamesOfLength5(k);
      case Submit | Cancel | Delete | Search | Online | Synced | Doctor | Clinic => NamesOfLength6(k);
      case Records | Profile | Offline | Syncing | Pending | Patient => NamesOfLength7(k);
      case Settings | Previous | Symptoms | Medicine | Hospital | Pharmacy => NamesOfLength8(k);
      case Dashboard | Emergency | Completed | Cancelled | Diagnosis | Treatment | SendAlert | Ambulance => NamesOfLength9(k);
      case Facilities | HelpNeeded => NamesOfLength10(k);
      case GetLocation => NamesOfLength11(k);
      case Prescription => NamesOfLength12(k);
      case CheckSymptoms | Consultations | CallEmergency => NamesOfLength13(k);
    }
  }

  lemma NamesOfLength4(k: Key)
    requires k.Save? || k.Edit? || k.Back? || k.Next?
    ensures KeyOf(KeyName(k)) == Some(k)
  {
  }

  lemma NamesOfLength5(k: Key)
    requires k.Close?
    ensures KeyOf(KeyName(k)) == Some(k)
  {
  }

  lemma NamesOfLength6(k: Key)
    requires k.Submit? || k.Cancel? || k.Delete? || k.Search? || k.Online? || k.Synced? || k.Doctor? || k.Clinic?
    ensures KeyOf(KeyName(k)) == Some(k)
  {
  }

  lemma NamesOfLength7(k: Key)
    requires k.Records? || k.Profile? || k.Offline? || k.Syncing? || k.Pending? || k.Patient?
    ensures KeyOf(KeyName(k)) == Some(k)
  {
  }

  lemma NamesOfLength8(k: Key)
    requires k.Settings? || k.Previous? || k.Symptoms? || k.Medicine? || k.Hospital? || k.Pharmacy?
    ensures KeyOf(KeyName(k)) == Some(k)
  {
  }

  lemma NamesOfLength9(k: Key)
    requires k.Dashboard? || k.Emergency? || k.Completed? || k.Cancelled? || k.Diagnosis? || k.Treatment? || k.SendAlert? || k.Ambulance?
    ensures KeyOf(KeyName(k)) == Some(k)
  {
  }

  lemma NamesOfLength10(k: Key)
    requires k.Facilities? || k.HelpNeeded?
    ensures KeyOf(KeyName(k)) == Some(k)
  {
  }

  lemma NamesOfLength11(k: Key)
    requires k.GetLocation?
    ensures KeyOf(KeyName(k)) == Some(k)
  {
  }

  lemma NamesOfLength12(k: Key)
    requires k.Prescription?
    ensures KeyOf(KeyName(k)) == Some(k)
  {
  }

  lemma NamesOfLength13(k: Key)
    requires k.CheckSymptoms? || k.Consultations? || k.CallEmergency?
    ensures KeyOf(KeyName(k)) == Some(k)
  {
  }

  /** For a key of the table, `t` gives that key's text in the requested language. */
  lemma KnownKeyTranslated(k: Key, language: Language)
    ensures T(KeyName(k), language) == Text(Some(EntryOf(k)), language)
    ensures T(KeyName(k)) == EntryOf(k).en
  {
    KeyOfName(k);
    EntriesComplete(k);
  }
}
