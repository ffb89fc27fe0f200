/** The client-side symptom checker (components/symptom-checker/symptom-checker-content.tsx):
    the selected-symptom list and its editing operations, the offline rule-based
    analysis that pushes suggested conditions, and the validation and saving
    on submission. */
module SymptomChecker {
  import opened Wrappers
  import opened Strings
  import opened SeqUtil

  /** The symptoms offered as checkboxes. */
  const COMMON_SYMPTOMS: seq<string> := ["Fever", "Cough", "Headache", "Fatigue", "Body aches", "Sore throat", "Runny nose", "Shortness of breath", "Nausea", "Vomiting", "Diarrhea", "Abdominal pain", "Chest pain", "Dizziness", "Rash", "Joint pain"]

  /** `toggleSymptom`: a selected symptom is removed (every copy of it), any
      other is appended. */
  function ToggleSymptom(prev: seq<string>, symptom: string): (r: seq<string>)
    ensures symptom in prev ==> symptom !in r && IsSubseq(r, prev)
    ensures symptom in prev ==> forall x :: x in prev && x != symptom ==> x in r
    ensures symptom !in prev ==> r == prev + [symptom]
  {
    if symptom in prev then
      FilterIsSubseq(prev, s => s != symptom);
      Filter(prev, s => s != symptom)
    else prev + [symptom]
  }

  /** Toggling the same symptom twice restores whether each symptom is selected. */
  lemma ToggleTwice(prev: seq<string>, symptom: string)
    ensures forall x :: x in ToggleSymptom(ToggleSymptom(prev, symptom), symptom) <==> x in prev
  {
    var once := ToggleSymptom(prev, symptom);
    if symptom in prev {
      assert symptom !in once;
      forall x | x in once ensures x in prev {
        SubseqMembers(once, prev, x);
      }
    }
  }

  lemma {:induction false} SubseqMembers<T>(a: seq<T>, b: seq<T>, x: T)
    requires IsSubseq(a, b) && x in a
    ensures x in b
    decreases |b|
  {
    if a[0] == b[0] {
      if x != a[0] {
        SubseqMembers(a[1..], b[1..], x);
      }
    } else {
      SubseqMembers(a, b[1..], x);
    }
  }

  /** A list without duplicates keeps that property under toggling. */
  lemma ToggleKeepsNoDups(prev: seq<string>, symptom: string)
    requires NoDups(prev)
    ensures NoDups(ToggleSymptom(prev, symptom))
  {
    if symptom in prev {
      SubseqNoDups(ToggleSymptom(prev, symptom), prev);
    }
  }

  lemma {:induction false} SubseqNoDups<T>(a: seq<T>, b: seq<T>)
    requires IsSubseq(a, b) && NoDups(b)
    ensures NoDups(a)
    decreases |b|
  {
    if |a| > 0 {
      if a[0] == b[0] {
        SubseqNoDups(a[1..], b[1..]);
        forall j | 0 < j < |a| ensures a[0] != a[j] {
          SubseqMembers(a[1..], b[1..], a[j]);
          var m :| 0 <= m < |b[1..]| && b[1..][m] == a[j];
          assert b[0] != b[1 + m];
        }
      } else {
        SubseqNoDups(a, b[1..]);
      }
    }
  }

  /** The symptom list and the custom-symptom input field. */
  datatype Selection = Selection(selected: seq<string>, custom: string)

  /** `addCustomSymptom`: the trimmed input is appended, and the field cleared,
      only when it is non-blank and not selected yet; otherwise nothing changes. */
  function AddCustomSymptom(s: Selection): (r: Selection)
    ensures var t := Trim(s.custom);
            if t != "" && t !in s.selected then r == Selection(s.selected + [t], "") else r == s
  {
    var t := Trim(s.custom);
    if t != "" && t !in s.selected then Selection(s.selected + [t], "") else s
  }

  /** Adding a custom symptom never creates a duplicate, and whatever it adds is trimmed. */
  lemma AddCustomKeepsNoDups(s: Selection)
    requires NoDups(s.selected)
    ensures NoDups(AddCustomSymptom(s).selected)
    ensures forall x :: x in AddCustomSymptom(s).selected && x !in s.selected ==>
              x == Trim(x) && x != ""
  {
    var t := Trim(s.custom);
    if t != "" && t !in s.selected {
      TrimIdentity(t);
    }
  }

  /** The result of `analyzeSymptoms`. */
  datatype Analysis = Analysis(conditions: seq<string>, recommendations: string)

  const UPPER_RESPIRATORY := "Upper Respiratory Infection (Common Cold/Flu)"
  const ALLERGIC_RHINITIS := "Allergic Rhinitis"
  const COMMON_COLD := "Common Cold"
  const GASTROENTERITIS := "Gastroenteritis"
  const FOOD_POISONING := "Food Poisoning"
  const IMMEDIATE_ATTENTION := "Requires Immediate Medical Attention"
  const GENERAL_ILLNESS := "General Illness"
  const PROFESSIONAL_EVALUATION := "Requires Professional Evaluation"

  const URGENT_ADVICE := "URGENT: Please seek immediate medical attention or call emergency services. These symptoms may indicate a serious condition."
  const HIGH_ADVICE := "We recommend scheduling a consultation with a doctor within 24 hours. Your symptoms require professional medical evaluation."
  const MEDIUM_ADVICE := "Consider scheduling a consultation with a healthcare provider within 2-3 days if symptoms persist or worsen. Rest, stay hydrated, and monitor your symptoms."
  const MILD_ADVICE := "Your symptoms appear mild. Rest, stay hydrated, and monitor your condition. If symptoms worsen or persist beyond a few days, consult a healthcare provider."

  /** `s.includes(k)` for one of the keys. */
  predicate IncludesAny(s: string, keys: seq<string>) {
    exists k :: 0 <= k < |keys| && Contains(s, keys[k])
  }

  /** `symptomsLower.some((s) => ...includes...)`: a substring test on some symptom. */
  predicate SomeIncludes(symptoms: seq<string>, keys: seq<string>) {
    exists i :: 0 <= i < |symptoms| && IncludesAny(symptoms[i], keys)
  }

  const RESPIRATORY_KEYS: seq<string> := ["cough", "throat", "nose"]
  const GASTRO_KEYS: seq<string> := ["nausea", "vomiting", "diarrhea"]
  /** The severe symptoms, matched as whole list elements. */
  const SEVERE_SYMPTOMS: seq<string> := ["chest pain", "shortness of breath", "severe headache"]

  predicate IsSevere(low: seq<string>) {
    exists k :: 0 <= k < |SEVERE_SYMPTOMS| && SEVERE_SYMPTOMS[k] in low
  }

  /** Conditions pushed by the respiratory test. */
  function RespiratoryConditions(low: seq<string>): seq<string> {
    if !SomeIncludes(low, RESPIRATORY_KEYS) then []
    else if "fever" in low then [UPPER_RESPIRATORY]
    else [ALLERGIC_RHINITIS, COMMON_COLD]
  }

  /** Conditions pushed by the gastrointestinal test. */
  function GastroConditions(low: seq<string>): seq<string> {
    if SomeIncludes(low, GASTRO_KEYS) then [GASTROENTERITIS, FOOD_POISONING] else []
  }

  /** The recommendation for a non-severe case: anything but "high" or "medium" is mild. */
  function SeverityAdvice(severityLevel: string): string {
    if severityLevel == "high" then HIGH_ADVICE
    else if severityLevel == "medium" then MEDIUM_ADVICE
    else MILD_ADVICE
  }

  /** What `analyzeSymptoms` returns: the respiratory and gastrointestinal
      conditions in that order; then either the urgent outcome, which keeps
      those conditions and adds one, or the severity advice, with a general
      pair of conditions when nothing else was found. */
  function Diagnosis(symptoms: seq<string>, severityLevel: string): (r: Analysis)
    ensures |r.conditions| > 0
    ensures IsSevere(LowerAll(symptoms)) <==> r.recommendations == URGENT_ADVICE
    ensures IsSevere(LowerAll(symptoms)) ==> r.conditions[|r.conditions| - 1] == IMMEDIATE_ATTENTION
    ensures !IsSevere(LowerAll(symptoms)) ==> r.recommendations == SeverityAdvice(severityLevel)
    // The conditions found so far, which a severe symptom keeps in front of its own.
    ensures IsSevere(LowerAll(symptoms)) ==>
              r.conditions == RespiratoryConditions(LowerAll(symptoms)) + GastroConditions(LowerAll(symptoms))
                              + [IMMEDIATE_ATTENTION]
    ensures !SomeIncludes(LowerAll(symptoms), RESPIRATORY_KEYS) && !SomeIncludes(LowerAll(symptoms), GASTRO_KEYS) ==>
              r.conditions == if IsSevere(LowerAll(symptoms)) then [IMMEDIATE_ATTENTION]
                              else [GENERAL_ILLNESS, PROFESSIONAL_EVALUATION]
  {
    var low := LowerAll(symptoms);
    var found := RespiratoryConditions(low) + GastroConditions(low);
    if IsSevere(low) then Analysis(found + [IMMEDIATE_ATTENTION], URGENT_ADVICE)
    else if found == [] then Analysis([GENERAL_ILLNESS, PROFESSIONAL_EVALUATION], SeverityAdvice(severityLevel))
    else Analysis(found, SeverityAdvice(severityLevel))
  }

  /** Where each finding lands: the respiratory conditions first (one
      infection with "fever", otherwise an allergy and a cold), then the
      gastrointestinal pair, then the urgent one; nothing else is listed. */
  lemma ConditionsInOrder(symptoms: seq<string>, severityLevel: string)
    requires SomeIncludes(LowerAll(symptoms), RESPIRATORY_KEYS) || SomeIncludes(LowerAll(symptoms), GASTRO_KEYS)
    ensures var low := LowerAll(symptoms);
            var c := Diagnosis(symptoms, severityLevel).conditions;
            var resp := SomeIncludes(low, RESPIRATORY_KEYS);
            var gastro := SomeIncludes(low, GASTRO_KEYS);
            var n := if !resp then 0 else if "fever" in low then 1 else 2;
            |c| == n + (if gastro then 2 else 0) + (if IsSevere(low) then 1 else 0)
            && (resp && "fever" in low ==> c[0] == UPPER_RESPIRATORY)
            && (resp && "fever" !in low ==> c[..2] == [ALLERGIC_RHINITIS, COMMON_COLD])
            && (gastro ==> c[n..n + 2] == [GASTROENTERITIS, FOOD_POISONING])
  {
    var low := LowerAll(symptoms);
    var found := RespiratoryConditions(low) + GastroConditions(low);
    assert found != [];
    var c := Diagnosis(symptoms, severityLevel).conditions;
    assert c == found + [IMMEDIATE_ATTENTION] || c == found;
    assert c[..|found|] == found;
    assert found[..|RespiratoryConditions(low)|] == RespiratoryConditions(low);
    assert found[|RespiratoryConditions(low)|..] == GastroConditions(low);
  }

  /** `analyzeSymptoms`: conditions pushed step by step, with an early return
      on a severe symptom. */
  method AnalyzeSymptoms(symptoms: seq<string>, severityLevel: string) returns (r: Analysis)
    ensures r == Diagnosis(symptoms, severityLevel)
  {
    var symptomsLower := LowerAll(symptoms);
    var conditions: seq<string> := [];
    var recommendations := "";
    if SomeIncludes(symptomsLower, RESPIRATORY_KEYS) {
      if "fever" in symptomsLower {
        conditions := conditions + [UPPER_RESPIRATORY];
      } else {
        conditions := conditions + [ALLERGIC_RHINITIS, COMMON_COLD];
      }
    }
    if SomeIncludes(symptomsLower, GASTRO_KEYS) {
      conditions := conditions + [GASTROENTERITIS, FOOD_POISONING];
    }
    assert conditions == RespiratoryConditions(symptomsLower) + GastroConditions(symptomsLower);
    if "chest pain" in symptomsLower || "shortness of breath" in symptomsLower || "severe headache" in symptomsLower {
      assert IsSevere(symptomsLower) by {
        if "chest pain" in symptomsLower { assert SEVERE_SYMPTOMS[0] in symptomsLower; }
        else if "shortness of breath" in symptomsLower { assert SEVERE_SYMPTOMS[1] in symptomsLower; }
        else { assert SEVERE_SYMPTOMS[2] in symptomsLower; }
      }
      conditions := conditions + [IMMEDIATE_ATTENTION];
      recommendations := URGENT_ADVICE;
      return Analysis(conditions, recommendations);
    }
    if severityLevel == "high" {
      recommendations := HIGH_ADVICE;
    } else if severityLevel == "medium" {
      recommendations := MEDIUM_ADVICE;
    } else {
      recommendations := MILD_ADVICE;
    }
    if |conditions| == 0 {
      conditions := conditions + [GENERAL_ILLNESS, PROFESSIONAL_EVALUATION];
    }
    r := Analysis(conditions, recommendations);
  }

  /** A respiratory symptom leads the conditions: an infection when "fever" is
      one of the symptoms, otherwise an allergy and a cold. */
  lemma RespiratoryComesFirst(symptoms: seq<string>, severityLevel: string)
    requires SomeIncludes(LowerAll(symptoms), RESPIRATORY_KEYS)
    ensures "fever" in LowerAll(symptoms) ==> Diagnosis(symptoms, severityLevel).conditions[0] == UPPER_RESPIRATORY
    ensures "fever" !in LowerAll(symptoms) ==>
              var c := Diagnosis(symptoms, severityLevel).conditions;
              |c| >= 2 && c[0] == ALLERGIC_RHINITIS && c[1] == COMMON_COLD
  {
  }

  /** "fever" must be a whole symptom: the infection is diagnosed exactly when
      a respiratory key occurs and some symptom, lowercased, is "fever"; so
      "high fever" with a cough reads as an allergy or a cold. */
  lemma FeverInsideTextIgnored(symptoms: seq<string>, severityLevel: string)
    ensures UPPER_RESPIRATORY in Diagnosis(symptoms, severityLevel).conditions
            <==> SomeIncludes(LowerAll(symptoms), RESPIRATORY_KEYS)
                 && exists i :: 0 <= i < |symptoms| && Lower(symptoms[i]) == "fever"
  {
    var low := LowerAll(symptoms);
    var c := Diagnosis(symptoms, severityLevel).conditions;
    var found := RespiratoryConditions(low) + GastroConditions(low);
    assert UPPER_RESPIRATORY != ALLERGIC_RHINITIS && UPPER_RESPIRATORY != COMMON_COLD;
    assert UPPER_RESPIRATORY != GASTROENTERITIS && UPPER_RESPIRATORY != FOOD_POISONING;
    assert UPPER_RESPIRATORY != IMMEDIATE_ATTENTION;
    assert UPPER_RESPIRATORY != GENERAL_ILLNESS && UPPER_RESPIRATORY != PROFESSIONAL_EVALUATION;
    assert c == found + [IMMEDIATE_ATTENTION] || c == found || c == [GENERAL_ILLNESS, PROFESSIONAL_EVALUATION];
    assert ("fever" in low) <==> exists i :: 0 <= i < |symptoms| && Lower(symptoms[i]) == "fever" by {
      if "fever" in low {
        var i :| 0 <= i < |low| && low[i] == "fever";
        assert Lower(symptoms[i]) == "fever";
      }
    }
  }

  /** The severe test is on whole elements, after lowercasing: the urgent
      advice is given exactly when some symptom, lowercased, is one of the
      severe symptoms (so "severe chest pain" is not recognised). */
  lemma SevereIsExactElement(symptoms: seq<string>, severityLevel: string)
    ensures Diagnosis(symptoms, severityLevel).recommendations == URGENT_ADVICE
            <==> exists i :: 0 <= i < |symptoms| && Lower(symptoms[i]) in SEVERE_SYMPTOMS
  {
    var low := LowerAll(symptoms);
    if IsSevere(low) {
      var k :| 0 <= k < |SEVERE_SYMPTOMS| && SEVERE_SYMPTOMS[k] in low;
      var i :| 0 <= i < |low| && low[i] == SEVERE_SYMPTOMS[k];
      assert Lower(symptoms[i]) in SEVERE_SYMPTOMS;
    }
    if exists i :: 0 <= i < |symptoms| && Lower(symptoms[i]) in SEVERE_SYMPTOMS {
      var i :| 0 <= i < |symptoms| && Lower(symptoms[i]) in SEVERE_SYMPTOMS;
      var k :| 0 <= k < |SEVERE_SYMPTOMS| && SEVERE_SYMPTOMS[k] == Lower(symptoms[i]);
      assert low[i] == SEVERE_SYMPTOMS[k];
      assert IsSevere(low);
    }
  }

  /** The step the page shows. */
  datatype Step = InputStep | ResultsStep

  /** The record saved to the database or queued in localStorage; an empty
      duration or note is stored as null. */
  datatype SymptomRecord = SymptomRecord(
    userId: string, symptoms: seq<string>, severity: string, duration: Option<string>,
    additionalNotes: Option<string>, suggestedConditions: seq<string>, recommendations: string, synced: bool)

  /** What a submission does: a rejection with its toast, or the results it
      shows, the record it queues for later sync, and the step it ends on. */
  datatype Submission =
    | Rejected(message: string)
    | Submitted(conditions: seq<string>, recommendations: string, severity: string,
                queued: Option<SymptomRecord>, step: Step, message: string)

  const NO_SYMPTOMS_MESSAGE := "Please select at least one symptom"
  const NO_SEVERITY_MESSAGE := "Please select symptom severity"
  const QUEUED_MESSAGE := "Saved locally. Will sync when online."
  const ERROR_MESSAGE := "An error occurred. Please try again."

  function OrNull(s: string): Option<string> {
    if s == "" then None else Some(s)
  }

  /** `handleSubmit`. Online, the database client is the legacy null client, so
      saving throws after the results are set: the error toast is shown and the
      page stays on the input step. Offline, the record is queued unsynced and
      the results step is shown. */
  function HandleSubmit(userId: string, selected: seq<string>, severity: string, duration: string,
                        notes: string, isOffline: bool): (r: Submission)
    ensures |selected| == 0 ==> r == Rejected(NO_SYMPTOMS_MESSAGE)
    ensures |selected| > 0 && severity == "" ==> r == Rejected(NO_SEVERITY_MESSAGE)
    ensures r.Submitted? <==> |selected| > 0 && severity != ""
    ensures r.Submitted? ==> Analysis(r.conditions, r.recommendations) == Diagnosis(selected, severity)
    ensures r.Submitted? ==> (r.step == ResultsStep <==> isOffline)
    ensures r.Submitted? ==> (r.queued.Some? <==> isOffline)
    ensures r.Submitted? && r.queued.Some? ==> !r.queued.value.synced && r.queued.value.symptoms == selected
  {
    if |selected| == 0 then Rejected(NO_SYMPTOMS_MESSAGE)
    else if severity == "" then Rejected(NO_SEVERITY_MESSAGE)
    else
      var analysis := Diagnosis(selected, severity);
      if isOffline then
        var record := SymptomRecord(userId, selected, severity, OrNull(duration), OrNull(notes),
                                    analysis.conditions, analysis.recommendations, false);
        Submitted(analysis.conditions, analysis.recommendations, severity, Some(record), ResultsStep, QUEUED_MESSAGE)
      else
        Submitted(analysis.conditions, analysis.recommendations, severity, None, InputStep, ERROR_MESSAGE)
  }
}
