# Bisheshoggo core, modelled in Dafny

Bisheshoggo is a healthcare platform for the Chittagong Hill Tracts of
Bangladesh. It has a FastAPI backend and a Next.js client. This project models
the logic at its core and proves properties about that logic.

**Backend**
- The MedGemma service: a single model load, message formatting, and a
  two-tier fallback from the local model to the Gemma API. Replies are
  normalised from JSON.
- The rule-based symptom analyser behind `POST /symptom-check`.
- The emergency, consultation, authentication and profile routers. Each request
  handler works on a session of table rows, with its access checks and its
  error codes.

**Client**
- The triage engine and the symptom-checker page.
- The offline layer: an encrypted localStorage table, a sync manager, and the
  offline knowledge base.
- The emergency SMS generator and the prescription parser.
- The community-health-worker dashboard.
- The facility, consultation and volunteer listings.
- The translation table.
- The API client's token cache, request headers and error handling.

**How the model is built**
- Each source file is one Dafny module: `storage.dfy` for
  `lib/offline/storage.ts`, and so on. The one exception is
  `backend/app/medgemma_service.py`, which becomes two modules:
  `MedGemmaService` (`medgemma_service.dfy`) for loading, chat and the
  tiers, and `MedGemmaNormalizer` (`medgemma_normalize.dfy`) for the JSON
  extraction of analysis replies.
- Each module takes the form of its source:
  - Objects whose fields change become classes: `ModelState`,
    `OfflineStorage`, `SyncManager`, the router `Session` and the API
    `Client`.
  - Loops that build lists become methods with loop invariants. Each is
    proved equal to a specification function.
  - Filters, switches and templates become functions.
- Language models, regular expressions, the JSON parser, number formatting,
  the clock, random keys and HTTP calls become function-typed or plain
  parameters.
- Seven modules are shared by the rest:
  - `Wrappers`: Option and Result.
  - `JsonValue`: JSON values and JavaScript truthiness.
  - `Strings`: lower-casing, trimming, splitting, containment and
    lexicographic order.
  - `SeqUtil`: filter, dedup, stable insertion sort, subsequences.
  - `Records`: the backend's table rows and the session, used by the four
    routers.
  - `Facilities`: the facility record and the type and district selections
    of the two facility pages.
  - `Locale`: the two interface languages.

## Model

| member | source | states |
|---|---|---|
| MedGemmaService.AttemptLoad | backend/app/medgemma_service.py:49-137 | a load succeeds exactly when the import works, CUDA is present, free RAM is not below 3.5 GB and both handles load; it is refused, leaving the globals untouched, exactly when CUDA is missing or RAM is short |
| MedGemmaService.ModelState.constructor | backend/app/medgemma_service.py:29-33 | initially nothing is attempted, loaded or recorded as an error |
| MedGemmaService.ModelState.IsModelLoaded | backend/app/medgemma_service.py:153-155 | loaded iff model and processor are both present; under the state invariant, iff an attempt was made and no error was recorded |
| MedGemmaService.ModelState.GetModelStatus | backend/app/medgemma_service.py:158-173 | the loaded report iff loaded, naming the model id and display name; otherwise it reports the recorded error and the attempted flag |
| MedGemmaService.ModelState.LoadModel | backend/app/medgemma_service.py:42-137 | every call after the first changes nothing and returns whether a model is present; the first call records the attempt's outcome (loaded handles, a refusal's error with the handles untouched, or an exception's error with both handles cleared) |
| MedGemmaService.FormatMessages | backend/app/medgemma_service.py:183-187 | every message keeps its role; string content becomes one text part and structured content passes through unchanged |
| MedGemmaService.FormatAll | backend/app/medgemma_service.py:183-187 | the formatting loop builds exactly `FormatMessages` |
| MedGemmaService.ModelState.GenerateText | backend/app/medgemma_service.py:177-217 | the reply is the local generation on the formatted messages, failing when no model is loaded and loading fails; the globals change only through a first load attempt |
| MedGemmaService.GemmaTier | backend/app/medgemma_service.py:221-226 | without an API key the Gemma tier fails with the missing-key error; otherwise it is the remote call |
| MedGemmaService.LocalChatMessages | backend/app/medgemma_service.py:264-267 | one system message first, then every turn in order, with "user" kept and every other role mapped to "assistant" |
| MedGemmaService.BuildLocalChat | backend/app/medgemma_service.py:264-267 | the local-tier loop builds exactly `LocalChatMessages` for the system text it is given (`Chat` gives it `SYSTEM_INSTRUCTION`) |
| MedGemmaService.GemmaChatContents | backend/app/medgemma_service.py:278-290 | the fixed two-message preamble, then every turn in order with non-"user" roles mapped to "model" |
| MedGemmaService.BuildGemmaContents | backend/app/medgemma_service.py:278-290 | the Gemma-tier loop builds exactly `GemmaChatContents` for the system text it is given (`Chat` gives it `SYSTEM_INSTRUCTION`) |
| MedGemmaService.ServeTiers | backend/app/medgemma_service.py:263-301 | a successful local tier answers tagged `medgemma-4b-it`; otherwise the fallback answers tagged `gemma-3-27b-it`; the call fails iff both tiers fail, with the fallback's error |
| MedGemmaService.LocalTierWins | backend/app/medgemma_service.py:263-270 | when the local tier succeeds, the fallback's result is irrelevant |
| MedGemmaService.ModelState.Chat | backend/app/medgemma_service.py:257-301 | the reply is `ServeTiers` of the local generation on the mapped messages and of the Gemma request with preamble, temperature 0.3 and 2048 tokens |
| MedGemmaService.ServeAnalysis | backend/app/medgemma_service.py:333-386 | a reply from the local tier is normalised with the local model's identifier, and only when that tier fails is the Gemma reply normalised with the Gemma identifier; the analysis is that normalisation, and a normaliser error escapes as `Malformed`; when both tiers fail, the fallback's error escapes |
| MedGemmaService.ModelState.Analyse | backend/app/medgemma_service.py:333-386 | an analysis is `ServeAnalysis` of the local generation at temperature 0.2 and of the Gemma request with the system text prefixed |
| MedGemmaService.SymptomPromptMentions | backend/app/medgemma_service.py:306-312 | every reported symptom occurs in the prompt |
| MedGemmaService.ModelState.SymptomAnalysis | backend/app/medgemma_service.py:304-386 | the symptom analysis with the triage system text, the symptom prompt and the conservative default |
| MedGemmaService.ModelState.MedicineAnalysis | backend/app/medgemma_service.py:389-465 | the medicine analysis with the pharmacology system text, the medicine prompt and the empty-suggestions default |
| MedGemmaService.FailedLoadIsFinal | backend/app/medgemma_service.py:45-46 | once a load attempt has failed, the local tier fails whatever the environment or generator |
| MedGemmaNormalizer.StripFence | backend/app/medgemma_service.py:360-364 | an unfenced reply is only stripped; a fenced reply without a newline raises; otherwise the fence line is removed, making the text shorter |
| MedGemmaNormalizer.BraceSpan | backend/app/medgemma_service.py:369 | no span iff there is no `{` before a `}`; otherwise the span runs from the leftmost `{` to the last `}` |
| MedGemmaNormalizer.SpanOfSurrounded | backend/app/medgemma_service.py:369 | a braced text with no `{` before it and no `}` after it is exactly the span found |
| MedGemmaNormalizer.Decode | backend/app/medgemma_service.py:366-383 | a direct parse wins; with neither a parse nor a span, the default object is returned |
| MedGemmaNormalizer.Normalize | backend/app/medgemma_service.py:360-386 | every successful result is an object whose "model" is the serving tag |
| MedGemmaNormalizer.PlainObject | backend/app/medgemma_service.py:366-367 | an unfenced object reply is returned as parsed, with only "model" overridden |
| MedGemmaNormalizer.FencedObject | backend/app/medgemma_service.py:361-367 | a fenced reply yields the parse of its body, tagged |
| MedGemmaNormalizer.EmbeddedObject | backend/app/medgemma_service.py:368-371 | an object inside prose is recovered through the brace span |
| MedGemmaNormalizer.NoJsonGivesFallback | backend/app/medgemma_service.py:372-383 | with no parse and no span, the default object of the stripped text is returned, tagged |
| MedGemmaNormalizer.SymptomFallbackConservative | backend/app/medgemma_service.py:372-383 | the symptom default has urgency "moderate", advises a doctor and keeps the reply text as recommendations |
| MedGemmaNormalizer.MedicineFallbackEmpty | backend/app/medgemma_service.py:457-462 | the medicine default has an empty suggestion list |
| MedGemmaNormalizer.SpanFailureEscapes | backend/app/medgemma_service.py:371 | a span that does not parse raises; the error is not caught |
| MedGemmaNormalizer.NonObjectRejected | backend/app/medgemma_service.py:385 | a reply that parses to something other than an object cannot be tagged and fails |
| MedGemmaNormalizer.BareFenceFails | backend/app/medgemma_service.py:362 | an opening fence with no newline raises before any parsing |
| MedGemmaNormalizer.TrailingFenceAloneKept | backend/app/medgemma_service.py:360-364 | a stripped reply of three or more characters that does not open with a fence but ends with one is kept whole, trailing fence included |
| MedGemmaNormalizer.UnclosedFenceKeepsRest | backend/app/medgemma_service.py:361-364 | after an opening fence line, a rest that does not end in a fence is kept whole |
| SymptomCheck.Classify | backend/app/routers/symptom_check.py:57-189 | the branch taken is the first one in chain order whose test holds |
| SymptomCheck.AnalyzeLocally | backend/app/routers/symptom_check.py:19-204 | emergency iff an emergency symptom is an element of the lower-cased list, with its fixed conditions and a doctor advised; "severe" raises any other result to "high" with a doctor advised |
| SymptomCheck.NotesIgnored | backend/app/routers/symptom_check.py:19 | the additional notes never affect the result |
| SymptomCheck.FeverOutranksGastro | backend/app/routers/symptom_check.py:57-93 | "fever" takes a fever branch even when gastrointestinal symptoms are present |
| SymptomCheck.CaseIsIgnored | backend/app/routers/symptom_check.py:24 | symptom lists that are equal once lower-cased get the same analysis |
| SymptomCheck.EmergencyIsWholeElement | backend/app/routers/symptom_check.py:38 | an emergency iff some lower-cased symptom is exactly an emergency phrase, so a symptom that only contains one is none |
| SymptomCheck.ClassifyByMembership | backend/app/routers/symptom_check.py:38-156 | the branch taken depends only on which lower-cased texts occur among the symptoms |
| SymptomCheck.DefaultAdvisesDoctor | backend/app/routers/symptom_check.py:177-189 | the default branch is "General Health Concern" and advises a doctor |
| SymptomCheck.BodyPainEmptyDuration | backend/app/routers/symptom_check.py:174 | in the body-pain branch an empty duration makes `should_see_doctor` the empty string |
| SymptomCheck.SplitSymptoms | backend/app/routers/symptom_check.py:223 | one stripped piece per comma-separated piece, at least one |
| SymptomCheck.SplitSymptomsJoin | backend/app/routers/symptom_check.py:223 | pieces without surrounding spaces join back to the text |
| SymptomCheck.EmptyPiecesKept | backend/app/routers/symptom_check.py:223 | empty pieces are kept: two commas in a row give an empty symptom between the stripped pieces around them |
| SymptomCheck.OrDefault | backend/app/routers/symptom_check.py:236 | Python's `or`: a non-empty value, else the default |
| SymptomCheck.MissingSeverityNotRaised | backend/app/routers/symptom_check.py:236-249 | a missing severity is analysed as "moderate", so it is never raised to "high" |
| TriageEngine.Level | lib/ai/triage-engine.ts:83-131 | the level is the first level in test order whose test holds |
| TriageEngine.PushReason | lib/ai/triage-engine.ts:137-152 | each paired push extends the English and Bengali lists with the texts of one reason |
| TriageEngine.EmergencyReasonsListed | lib/ai/triage-engine.ts:137-152 | each emergency reason is listed iff its condition holds, and no other reason is |
| TriageEngine.HighRiskReasonsListed | lib/ai/triage-engine.ts:179-190 | each high-risk reason is listed iff its condition holds, and no other reason is |
| TriageEngine.MediumRiskReasonsListed | lib/ai/triage-engine.ts:229-240 | each medium-risk reason is listed iff its condition holds, and no other reason is |
| TriageEngine.CreateEmergencyResult | lib/ai/triage-engine.ts:133-173 | level emergency, immediate care, with the emergency reasons in both languages |
| TriageEngine.CreateHighRiskResult | lib/ai/triage-engine.ts:175-223 | level high, no immediate care, with the high-risk reasons in both languages |
| TriageEngine.CreateMediumRiskResult | lib/ai/triage-engine.ts:225-268 | level medium, no immediate care, with the medium-risk reasons in both languages |
| TriageEngine.CreateLowRiskResult | lib/ai/triage-engine.ts:270-297 | level low, no immediate care, with the fixed low-risk reasons |
| TriageEngine.Assess | lib/ai/triage-engine.ts:83-105 | the level is `Level(input)`; immediate care iff the level is emergency; the reason lists are the two languages of one list and so have equal length; urgency, recommendation, advice and warning signs are the level's fixed texts |
| TriageEngine.ZeroTemperatureIsAbsent | lib/ai/triage-engine.ts:107-131 | a temperature of 0 gives the same level and reasons as no temperature |
| TriageEngine.SevenOrEightAloneIsLow | lib/ai/triage-engine.ts:116-131 | severity 7 or 8 with nothing else to go on is classified low |
| TriageEngine.EmergencyWithoutReasons | lib/ai/triage-engine.ts:111-152 | a pregnant patient with severity 7 is an emergency with no reasons listed |
| TriageEngine.KeywordAnywhereIsEmergency | lib/ai/triage-engine.ts:108 | any emergency keyword occurring anywhere in the text makes an emergency |
| TriageEngine.ExplainRiskLevel | lib/ai/triage-engine.ts:299-318 | one fixed, non-empty text for each level and language |
| TriageEngine.ExplanationsDistinct | lib/ai/triage-engine.ts:299-318 | within a language distinct levels get distinct texts, and no English text is a Bengali one |
| SymptomChecker.ToggleSymptom | components/symptom-checker/symptom-checker-content.tsx:64-66 | a present symptom is removed, with every other symptom kept in order; an absent one is appended |
| SymptomChecker.ToggleTwice | components/symptom-checker/symptom-checker-content.tsx:64-66 | toggling twice restores which symptoms are selected |
| SymptomChecker.ToggleKeepsNoDups | components/symptom-checker/symptom-checker-content.tsx:64-66 | toggling keeps a duplicate-free list duplicate-free |
| SymptomChecker.AddCustomSymptom | components/symptom-checker/symptom-checker-content.tsx:68-73 | the trimmed input is appended and the field cleared iff it is non-empty and new; otherwise nothing changes |
| SymptomChecker.AddCustomKeepsNoDups | components/symptom-checker/symptom-checker-content.tsx:68-73 | adding never creates a duplicate, and whatever is added is trimmed and non-empty |
| SymptomChecker.Diagnosis | components/symptom-checker/symptom-checker-content.tsx:75-130 | conditions are never empty; with a severe symptom they are the respiratory ones, then the gastrointestinal ones, then immediate attention; with no respiratory or gastrointestinal key they are immediate attention alone or the general pair; urgent advice iff a severe symptom is an element, otherwise the advice follows the severity |
| SymptomChecker.ConditionsInOrder | components/symptom-checker/symptom-checker-content.tsx:87-111 | the respiratory conditions come first (the infection with "fever", else allergy and cold), then the gastrointestinal pair; the list holds exactly these, plus one more entry when a severe symptom is present |
| SymptomChecker.AnalyzeSymptoms | components/symptom-checker/symptom-checker-content.tsx:75-130 | the push-and-return method builds exactly `Diagnosis` |
| SymptomChecker.RespiratoryComesFirst | components/symptom-checker/symptom-checker-content.tsx:88-95 | a respiratory symptom puts an infection first when "fever" is an element, and allergy then cold otherwise |
| SymptomChecker.FeverInsideTextIgnored | components/symptom-checker/symptom-checker-content.tsx:88-94 | the upper respiratory infection is diagnosed iff a respiratory key occurs and some symptom is exactly "fever" once lower-cased, so "high fever" does not count |
| SymptomChecker.SevereIsExactElement | components/symptom-checker/symptom-checker-content.tsx:102-106 | urgent advice iff some symptom, lower-cased, is exactly one of the severe symptoms |
| SymptomChecker.HandleSubmit | components/symptom-checker/symptom-checker-content.tsx:132-201 | no symptoms or no severity is rejected with the matching toast; otherwise the results are the diagnosis, and offline exactly an unsynced record is queued and the results step shown |
| OfflineStore.IndexOf | lib/offline/storage.ts:59 | the first position holding the key, or none when no entry holds it |
| OfflineStore.Put | lib/offline/storage.ts:53 | after `setItem` the key reads the new value, every other key reads as before, and keys stay unique |
| OfflineStore.Without | lib/offline/storage.ts:94 | removal never adds entries |
| OfflineStore.WithoutMembers | lib/offline/storage.ts:94 | an entry survives removal iff its key is not listed |
| OfflineStore.WithoutKeys | lib/offline/storage.ts:94 | after removal keys stay unique, listed keys read as absent and others as before |
| OfflineStore.LookupMembers | lib/offline/storage.ts:59 | with unique keys a lookup finds exactly the stored entry |
| OfflineStore.WithDeviceKey | lib/offline/storage.ts:15-26 | the device key is present afterwards and every other key reads as before |
| OfflineStore.GetAfterSet | lib/offline/storage.ts:43-64 | `get(k)` after `set(k, v)` is `v`, stored with the given timestamp and synced flag |
| OfflineStore.DeviceKeyInvisible | lib/offline/storage.ts:17-22 | storing the device key never changes the data read under any key |
| OfflineStore.SetLeavesOthers | lib/offline/storage.ts:43-54 | `set(k, …)` leaves the data of every other key |
| OfflineStore.MarkKeepsData | lib/offline/storage.ts:119-124 | marking keeps the data; truthy data becomes synced, falsy data leaves the table unchanged |
| OfflineStore.PendingOfEntry | lib/offline/storage.ts:103-112 | an entry yields a pending item iff it is an unsynced record under "sb_", keyed without the prefix |
| OfflineStore.UnsyncedFrom | lib/offline/storage.ts:97-117 | an item is pending iff some entry of the table yields it |
| OfflineStore.UnsyncedMembers | lib/offline/storage.ts:97-117 | an item is pending iff its prefixed key holds an unsynced record with that data |
| OfflineStore.MarkedNotPending | lib/offline/storage.ts:119-124 | once a truthy record is marked, its key is no longer pending |
| OfflineStore.MarkLeavesOthersPending | lib/offline/storage.ts:119-124 | marking one key leaves every other key's pending status |
| OfflineStore.RemoveDeletesOnly | lib/offline/storage.ts:80-83 | `remove(k)` deletes "sb_"+k and nothing else |
| OfflineStore.AllUnderTruthy | lib/offline/storage.ts:73-74 | every result of `getAll` is truthy |
| OfflineStore.AllUnderFrom | lib/offline/storage.ts:70-76 | every result of `getAll` is the data of a record stored under the full prefix |
| OfflineStore.PrefixedKeys | lib/offline/storage.ts:87-93 | the collected keys are exactly the keys present that start with "sb_" |
| OfflineStore.ClearRemovesPrefixed | lib/offline/storage.ts:85-95 | after `clear` a key is present iff it does not start with "sb_"; the device key is gone |
| OfflineStore.OfflineStorage.constructor | lib/offline/storage.ts:14 | the storage starts over the given table |
| OfflineStore.OfflineStorage.SetItem | lib/offline/storage.ts:53 | the table becomes `Put` of the old one |
| OfflineStore.OfflineStorage.EnsureDeviceKey | lib/offline/storage.ts:15-26 | the table becomes `WithDeviceKey` of the old one |
| OfflineStore.OfflineStorage.Set | lib/offline/storage.ts:43-54 | the table becomes `AfterSet` of the old one |
| OfflineStore.OfflineStorage.Get | lib/offline/storage.ts:56-64 | the data of the record stored under "sb_"+key, or null when there is none; `GetAfterSet` gives the round trip with `Set` |
| OfflineStore.OfflineStorage.GetAll | lib/offline/storage.ts:66-78 | the index loop returns exactly `AllUnder` the full prefix |
| OfflineStore.OfflineStorage.Remove | lib/offline/storage.ts:80-83 | the table becomes the old one without "sb_"+key |
| OfflineStore.OfflineStorage.PrefixedKeysOf | lib/offline/storage.ts:87-93 | the first loop of `clear` collects exactly `PrefixedKeys` |
| OfflineStore.OfflineStorage.RemoveAll | lib/offline/storage.ts:94 | the table becomes the old one without the listed keys |
| OfflineStore.OfflineStorage.Clear | lib/offline/storage.ts:85-95 | the table becomes its entries not under "sb_" |
| OfflineStore.OfflineStorage.GetUnsyncedItems | lib/offline/storage.ts:97-117 | the index loop returns exactly `UnsyncedOf` the table |
| OfflineStore.OfflineStorage.MarkAsSynced | lib/offline/storage.ts:119-124 | the table becomes `AfterMark` of the old one |
| SyncManagement.SyncItem | lib/offline/sync-manager.ts:90-127 | null data throws; data without a truthy type, or with an unknown type, succeeds with no request; known types post their data to their endpoint and succeed iff the response is ok |
| SyncManagement.UnsyncedKeysDistinct | lib/offline/storage.ts:97-117 | the unsynced items name distinct keys |
| SyncManagement.MarkAllUnique | lib/offline/sync-manager.ts:74-81 | the sync loop keeps the storage keys unique |
| SyncManagement.MarkAllOthers | lib/offline/sync-manager.ts:74-81 | a key that is not among the items synced keeps its pending status |
| SyncManagement.PendingData | lib/offline/sync-manager.ts:74-77 | a pending item's data is the data stored under its key, so `markAsSynced` acts on the record that was sent |
| SyncManagement.SetLeavesOthersPending | lib/offline/sync-manager.ts:83 | writing `last_sync_time` leaves every other key's pending status |
| SyncManagement.MarkAllItem | lib/offline/sync-manager.ts:74-81 | after the loop, an item whose sync failed, or whose data is falsy, stays pending; an accepted item with truthy data does not |
| SyncManagement.FailedItemStaysPending | lib/offline/sync-manager.ts:74-81 | after a sync, an item whose `syncItem` failed is still unsynced |
| SyncManagement.AcceptedItemLeaves | lib/offline/sync-manager.ts:76-77 | after a sync, an accepted item with truthy data is no longer pending |
| SyncManagement.LastSyncNeverPending | lib/offline/sync-manager.ts:83 | `last_sync_time` is written as synced with the sync time, so it never counts as pending |
| SyncManagement.Unsubscribed | lib/offline/sync-manager.ts:42-44 | the returned function drops the callback and keeps every other in order |
| SyncManagement.SubscribeThenUnsubscribe | lib/offline/sync-manager.ts:39-45 | subscribing a new callback and unsubscribing it restores the list |
| SyncManagement.Notices | lib/offline/sync-manager.ts:47-50 | one delivery per subscriber, in order, with one status |
| SyncManagement.SyncManager.constructor | lib/offline/sync-manager.ts:18-24 | starts with the given online flag, not syncing, with no callbacks |
| SyncManagement.SyncManager.GetStatus | lib/offline/sync-manager.ts:52-62 | reports the flags, the number of unsynced items and the stored last sync time |
| SyncManagement.SyncManager.NotifyListeners | lib/offline/sync-manager.ts:47-50 | every subscriber receives the current status; the flags are unchanged |
| SyncManagement.SyncManager.Subscribe | lib/offline/sync-manager.ts:39-41 | the callback is appended and called once at once with the current status |
| SyncManagement.SyncManager.Unsubscribe | lib/offline/sync-manager.ts:42-44 | the callback list becomes `Unsubscribed`; nothing is delivered |
| SyncManagement.SyncManager.SyncItems | lib/offline/sync-manager.ts:74-81 | the loop leaves the table as `MarkAll` says |
| SyncManagement.SyncManager.SyncNow | lib/offline/sync-manager.ts:64-88 | offline or already syncing: nothing changes; otherwise the table becomes `AfterSync`, syncing ends false, and the subscribers hear the syncing status and then the final one |
| SyncManagement.SyncManager.HandleOnline | lib/offline/sync-manager.ts:26-31 | the flag is raised and announced to every listener; when no sync was running a sync leaves the table as `AfterSync` with its two announcements, otherwise the table is unchanged |
| SyncManagement.SyncManager.HandleOffline | lib/offline/sync-manager.ts:33-37 | only the online flag changes, to false, and it is announced |
| KnowledgeBase.Item | lib/offline/knowledge-base.ts:13-102 | the record of each article carries its id and category |
| KnowledgeBase.MedicalKnowledgeBase | lib/offline/knowledge-base.ts:13-102 | the table holds the eight articles in table order |
| KnowledgeBase.Search | lib/offline/knowledge-base.ts:104-111 | the results are a subsequence of the table, holding exactly the matching items |
| KnowledgeBase.SearchKnowledgeBase | lib/offline/knowledge-base.ts:104-111 | `Search` applied to the eight-article table, so a subsequence of it |
| KnowledgeBase.EmptyQueryReturnsAll | lib/offline/knowledge-base.ts:109 | the empty query returns the whole table |
| KnowledgeBase.KeywordFindsItem | lib/offline/knowledge-base.ts:108-109 | searching for any keyword of an item, in any case and either language, finds it |
| KnowledgeBase.ByCategory | lib/offline/knowledge-base.ts:113-115 | a subsequence holding exactly the items of that category |
| KnowledgeBase.GetKnowledgeByCategory | lib/offline/knowledge-base.ts:113-115 | `ByCategory` applied to the eight-article table, so a subsequence of it |
| KnowledgeBase.CategoriesListed | lib/offline/knowledge-base.ts:117-126 | every article's category is one of the listed ids |
| KnowledgeBase.CategoriesInhabited | lib/offline/knowledge-base.ts:13-126 | every listed category holds some article |
| KnowledgeBase.TableCategories | lib/offline/knowledge-base.ts:13-126 | every item of the table has a listed category |
| KnowledgeBase.CategoryWithItem | lib/offline/knowledge-base.ts:113-115 | a category carried by some item gives a non-empty result |
| KnowledgeBase.ArticleListed | lib/offline/knowledge-base.ts:13-102 | every article is in the table |
| KnowledgeBase.AtPosition | lib/offline/knowledge-base.ts:13-102 | every article sits at its own position among the eight |
| KnowledgeBase.IdsDistinct | lib/offline/knowledge-base.ts:13-126 | article ids are distinct, and so are category ids |
| EmergencySms.GenerateEmergencySms | lib/emergency/sms-generator.ts:19-25 | the message starts with the language's head and the name, and ends with the language's closing words |
| EmergencySms.MedicalHistoryIgnored | lib/emergency/sms-generator.ts:16-25 | the medical history never affects the message |
| EmergencySms.CoordinatesSegment | lib/emergency/sms-generator.ts:21-24 | coordinates add exactly their part, which shows both values |
| EmergencySms.SymptomsSegment | lib/emergency/sms-generator.ts:21-24 | an empty list adds nothing; non-empty symptoms add exactly their part, holding every symptom |
| EmergencySms.GenerateShareableEmergencyText | lib/emergency/sms-generator.ts:27-34 | the SMS text, followed iff coordinates are given by a blank line, "Location" or "অবস্থান", and the maps URL of the formatted latitude and longitude |
| PrescriptionScanner.FirstMatch | components/prescription-scanner/prescription-scanner-content.tsx:58-83 | a match iff some pattern matches, and then the match of the first one that does |
| PrescriptionScanner.MatchLine | components/prescription-scanner/prescription-scanner-content.tsx:58-83 | the pattern loop with `break` returns exactly `FirstMatch` |
| PrescriptionScanner.AdvanceLine | components/prescription-scanner/prescription-scanner-content.tsx:53-96 | one iteration of the main loop does exactly `StepLine` |
| PrescriptionScanner.ParseMain | components/prescription-scanner/prescription-scanner-content.tsx:53-100 | the main loop and final push give exactly `MainResult` |
| PrescriptionScanner.AddKeywordEntry | components/prescription-scanner/prescription-scanner-content.tsx:108-120 | one keyword appends exactly its entry |
| PrescriptionScanner.AddKeywordEntries | components/prescription-scanner/prescription-scanner-content.tsx:107-122 | the keyword loop appends exactly `KeywordEntries` |
| PrescriptionScanner.ParseFallback | components/prescription-scanner/prescription-scanner-content.tsx:103-137 | the fallback loop gives exactly `Fallback` |
| PrescriptionScanner.ParseMedicines | components/prescription-scanner/prescription-scanner-content.tsx:37-140 | the whole parser gives exactly `ParseResult` |
| PrescriptionScanner.StepKeepsNamed | components/prescription-scanner/prescription-scanner-content.tsx:62-63 | one line pushes only named medicines |
| PrescriptionScanner.MainPassNamed | components/prescription-scanner/prescription-scanner-content.tsx:62-100 | every medicine of the main pass has a non-empty name |
| PrescriptionScanner.ShortLineIgnored | components/prescription-scanner/prescription-scanner-content.tsx:54-55 | a line shorter than 3 once trimmed changes nothing |
| PrescriptionScanner.MatchOpensMedicine | components/prescription-scanner/prescription-scanner-content.tsx:61-81 | a matching line flushes a named current medicine and opens one with the cleaned name of the first matching pattern, the strength found in that name, and the frequency and duration found on the same line |
| PrescriptionScanner.FrequencyAndDuration | components/prescription-scanner/prescription-scanner-content.tsx:85-95 | without a match, frequency and duration only fill in an open medicine, the latest match winning |
| PrescriptionScanner.FallbackOnlyWhenEmpty | components/prescription-scanner/prescription-scanner-content.tsx:103 | the fallback runs iff the main pass produced nothing |
| PrescriptionScanner.KeywordEntriesShape | components/prescription-scanner/prescription-scanner-content.tsx:108-119 | keyword entries carry the text between the first two separators, trimmed, longer than 2, and nothing else |
| PrescriptionScanner.FallbackLineShape | components/prescription-scanner/prescription-scanner-content.tsx:105-136 | one fallback line adds only bare entries named by more than 2 characters |
| PrescriptionScanner.FallbackShape | components/prescription-scanner/prescription-scanner-content.tsx:103-137 | every fallback entry has a name longer than 2 and no dosage, frequency or duration |
| PrescriptionScanner.ListEntryIsNew | components/prescription-scanner/prescription-scanner-content.tsx:125-135 | a list entry needs a list-item line, is longer than 3 and never repeats a name already found |
| Records.Session.constructor | backend/app/models.py:51-211 | every table starts empty |
| Records.UserById | backend/app/routers/profile.py:24 | the first row with the id, no earlier row with it, or none when no row has it |
| Records.ProfileOf | backend/app/routers/profile.py:21-28 | the first profile of the user, no earlier one of that user, or none when the user has none |
| Records.ConsultationById | backend/app/routers/consultations.py:74 | the first consultation with the id, no earlier one with it, or none |
| Records.EmergencyById | backend/app/routers/emergency.py:73-75 | the first alert with the id, no earlier one with it, or none |
| EmergencyRoutes.NewEmergency | backend/app/routers/emergency.py:21-29 | a new alert is active, owned by the caller, with no responder or timestamps, and carries the request's fields |
| EmergencyRoutes.CreateEmergency | backend/app/routers/emergency.py:14-35 | exactly one new row is appended, and no other table changes |
| EmergencyRoutes.Visible | backend/app/routers/emergency.py:49-50 | the visible alerts are exactly the rows the caller may see |
| EmergencyRoutes.NewestFirstIsPreorder | backend/app/routers/emergency.py:52 | ordering by creation time, newest first, is a total preorder |
| EmergencyRoutes.EmergencyFeed | backend/app/routers/emergency.py:38-56 | at most 50 visible alerts, newest first; all of them when there are at most 50; every visible alert left out is no newer than any listed one |
| EmergencyRoutes.WithStatus | backend/app/routers/emergency.py:85-90 | "responded" sets responder and response time; "resolved" sets the resolution time; other statuses change only the status |
| EmergencyRoutes.AnyTransition | backend/app/routers/emergency.py:59-94 | a worker's update of any existing alert to any status succeeds, sets that status on the first row with the id, and keeps its id, patient and creation time |
| EmergencyRoutes.UpdateOutcome | backend/app/routers/emergency.py:59-94 | success iff the caller is a health worker and the id exists; 403 for a non-worker before any lookup; 404 for an unknown id; on success only the first row with the id changes, to `WithStatus` |
| EmergencyRoutes.NonWorkerRefused | backend/app/routers/emergency.py:67-71 | a non-worker is refused with 403 whatever the id |
| EmergencyRoutes.UpdateTouchesOneRow | backend/app/routers/emergency.py:73-90 | an update changes only the addressed row |
| EmergencyRoutes.UpdateEmergency | backend/app/routers/emergency.py:59-94 | a refusal changes nothing; success stores `UpdateOutcome`'s table |
| ConsultationRoutes.NewConsultation | backend/app/routers/consultations.py:22-30 | a new consultation is pending, owned by the caller, and carries the request's fields |
| ConsultationRoutes.CreateConsultation | backend/app/routers/consultations.py:15-42 | exactly one new row is appended, and the reload finds it |
| ConsultationRoutes.NewestFirstIsPreorder | backend/app/routers/consultations.py:59 | ordering by creation time, newest first, is a total preorder |
| ConsultationRoutes.ConsultationList | backend/app/routers/consultations.py:45-61 | exactly the caller's consultations, as a permutation, newest first |
| ConsultationRoutes.GetConsultation | backend/app/routers/consultations.py:64-89 | success iff the first row with the id involves the caller; 404 for an unknown id, else 403 |
| ConsultationRoutes.Overwrite | backend/app/routers/consultations.py:120-127 | a status given, or a truthy text, overwrites its field; every other field is unchanged |
| ConsultationRoutes.EmptyUpdateKeeps | backend/app/routers/consultations.py:120-127 | an update whose arguments are all falsy leaves the row |
| ConsultationRoutes.OverwriteIdempotent | backend/app/routers/consultations.py:120-127 | applying an update twice is applying it once |
| ConsultationRoutes.UpdateOutcome | backend/app/routers/consultations.py:92-131 | success iff the id exists and the caller is the patient or the provider of its first row; 404 for an unknown id, 403 for an outsider; on success only that row is overwritten |
| ConsultationRoutes.UpdateOutcomeAsWritten | backend/app/routers/consultations.py:95-118 | as written, every failure is an attribute error; it succeeds exactly when the intended route does |
| ConsultationRoutes.UnknownIdNotReported | backend/app/routers/consultations.py:107-111 | on an empty table the code as written raises an attribute error instead of the intended 404 |
| ConsultationRoutes.UpdateConsultation | backend/app/routers/consultations.py:92-131 | a refusal changes nothing; success stores `UpdateOutcome`'s table |
| AuthRoutes.NewUser | backend/app/routers/auth.py:32-42 | the stored user keeps email, name, phone and role, stores the password only as its hash, and is active |
| AuthRoutes.PatientProfilesFor | backend/app/routers/auth.py:45-47 | one empty patient profile for a patient, none otherwise |
| AuthRoutes.ProviderProfilesFor | backend/app/routers/auth.py:48-50 | one empty provider profile for a doctor or health worker, none otherwise |
| AuthRoutes.OneProfilePerAccount | backend/app/routers/auth.py:45-50 | every account gets exactly one profile, except pharmacies and clinics, which get none |
| AuthRoutes.Register | backend/app/routers/auth.py:20-64 | a taken email gives 400 with nothing stored; otherwise the user and its profile are appended and the token's subject is the new id |
| AuthRoutes.Login | backend/app/routers/auth.py:67-88 | fails iff authentication fails, with a 401 and the Bearer challenge; otherwise a bearer token for the user |
| ProfileRoutes.RoleData | backend/app/routers/profile.py:21-28 | patient data only for patients, provider data only for doctors and health workers, each the user's own |
| ProfileRoutes.GetProfile | backend/app/routers/profile.py:13-33 | the caller's row with its role data; pharmacies and clinics get none |
| ProfileRoutes.UpdatedUser | backend/app/routers/profile.py:46-51 | only truthy name, phone and avatar overwrite; every other field stays |
| ProfileRoutes.ApplyUserUpdate | backend/app/routers/profile.py:46-51 | the conditional assignments give exactly `UpdatedUser` |
| ProfileRoutes.AssignKeepsUnset | backend/app/routers/profile.py:63-64 | a column no supplied field names keeps its value or stays unset |
| ProfileRoutes.AssignSetsField | backend/app/routers/profile.py:63-64 | a supplied field not named again later ends up in its column |
| ProfileRoutes.SetAttributes | backend/app/routers/profile.py:63-64 | the `setattr` loop gives exactly `Assign` |
| ProfileRoutes.WithFields | backend/app/routers/profile.py:54-77 | a missing profile is created with the fields; an existing one gets them, and no other profile changes |
| ProfileRoutes.WithFieldsFindsProfile | backend/app/routers/profile.py:56-64 | after an update the owner has a profile holding the fields |
| ProfileRoutes.ApplyRoleData | backend/app/routers/profile.py:56-64 | the find-or-create and loop give exactly `WithFields` |
| ProfileRoutes.UpdateProfile | backend/app/routers/profile.py:36-81 | the user row is updated; patient data reaches only a patient's profile and provider data only a worker's; nothing else changes |
| ChwDashboard.SeverityLevel | app/chw-dashboard/page.tsx:137-142 | emergency iff ≥ 9, high iff 7 to 9, medium iff 4 to 7, low iff < 4 |
| ChwDashboard.SeverityMonotone | app/chw-dashboard/page.tsx:137-142 | a higher severity never gives a lower level |
| ChwDashboard.OrText | app/chw-dashboard/page.tsx:82-86 | the text itself when it is non-empty, otherwise the fallback |
| ChwDashboard.ServerRisk | app/chw-dashboard/page.tsx:67 | a falsy severity counts as 5, so "medium"; otherwise the level of its number |
| ChwDashboard.FromServerCheck | app/chw-dashboard/page.tsx:63-72 | keeps id and time, location "Unknown", named "Patient" plus the id's last four characters |
| ChwDashboard.AlertSymptoms | app/chw-dashboard/page.tsx:85 | the description split at ", ", or else the type or "Emergency" |
| ChwDashboard.FromServerEmergency | app/chw-dashboard/page.tsx:80-90 | always risk "emergency", with the patient's name or "Unknown Patient" |
| ChwDashboard.FromOfflineCheck | app/chw-dashboard/page.tsx:104-113 | keeps id and date; the stored level or "low" |
| ChwDashboard.FromOfflineEmergency | app/chw-dashboard/page.tsx:119-128 | always risk "emergency", keeping id and timestamp |
| ChwDashboard.MergeShape | app/chw-dashboard/page.tsx:102-130 | the merge keeps its starting cases in front, and each added case comes from the extras with an id not yet present |
| ChwDashboard.AddIfMissing | app/chw-dashboard/page.tsx:103-114 | a case is pushed iff no case with its id is present |
| ChwDashboard.AddAllMissing | app/chw-dashboard/page.tsx:102-115 | the `forEach` loop gives exactly `Merge` |
| ChwDashboard.CheckCases | app/chw-dashboard/page.tsx:61-73 | one case per server check, in order |
| ChwDashboard.AlertCases | app/chw-dashboard/page.tsx:78-91 | one case per server alert, in order |
| ChwDashboard.OfflineCheckCases | app/chw-dashboard/page.tsx:102-115 | one candidate per offline check, in order |
| ChwDashboard.OfflineAlertCases | app/chw-dashboard/page.tsx:117-130 | one candidate per offline alert, in order |
| ChwDashboard.PushChecks | app/chw-dashboard/page.tsx:61-73 | the check loop gives exactly `CheckCases` |
| ChwDashboard.PushAlerts | app/chw-dashboard/page.tsx:78-91 | the alert loop appends exactly `AlertCases` |
| ChwDashboard.LaterFirstIsPreorder | app/chw-dashboard/page.tsx:132 | the comparator is a total preorder |
| ChwDashboard.SortedNewestFirst | app/chw-dashboard/page.tsx:132 | sorting keeps every case and orders by non-increasing time |
| ChwDashboard.CollectedShape | app/chw-dashboard/page.tsx:59-130 | server cases come first, in order; each offline case after them has an id not present before it |
| ChwDashboard.LoadPatients | app/chw-dashboard/page.tsx:49-135 | the cases are the collected cases, stably sorted newest first |
| ChwDashboard.EmptyQueryKeepsAll | app/chw-dashboard/page.tsx:156-160 | the empty query keeps every case |
| ChwDashboard.FilteredPatients | app/chw-dashboard/page.tsx:156-160 | an order-preserving subsequence holding exactly the cases whose name or location contains the query, ignoring case |
| ChwDashboard.HighRiskCount | app/chw-dashboard/page.tsx:162 | at most the total; equal iff all cases are high risk, zero iff none is |
| ChwDashboard.HighRiskCountBounds | app/chw-dashboard/page.tsx:162 | the count of high-risk cases is the total iff all are, zero iff none is |
| Facilities.OfType | components/facilities/facilities-content.tsx:81-83 | "all" keeps every facility; otherwise exactly the facilities of that type, in order |
| Facilities.InDistrict | components/facilities/facilities-content.tsx:86-88 | "all" keeps every facility; otherwise exactly the facilities of that district, in order |
| Facilities.DistrictNames | components/facilities/facilities-content.tsx:106 | the district of each facility, in order |
| FacilitiesContent.BySearch | components/facilities/facilities-content.tsx:71-78 | an empty term keeps all; otherwise exactly the facilities whose name, district or village contains the term, ignoring case, in order |
| FacilitiesContent.SearchIgnoresCase | components/facilities/facilities-content.tsx:74-76 | the term's case does not matter |
| FacilitiesContent.Shown | components/facilities/facilities-content.tsx:68-88 | an order-preserving subsequence holding exactly the facilities that pass the three filters |
| FacilitiesContent.NoFilterShowsAll | components/facilities/facilities-content.tsx:68-88 | an empty term and "all"/"all" keep every facility |
| FacilitiesContent.SortByNameInPlace | components/facilities/facilities-content.tsx:99 | the array is rearranged in place into the stable name order |
| FacilitiesContent.FilterAndSort | components/facilities/facilities-content.tsx:67-103 | shows the filtered facilities sorted by name; with no filter the prop array itself is reordered, otherwise it is untouched |
| FacilitiesContent.ShownOrderedByName | components/facilities/facilities-content.tsx:99 | with a consistent collation, the shown list is ordered by name and is a permutation of the filtered list |
| FacilitiesContent.LexIsPreorder | components/facilities/facilities-content.tsx:106 | the default sort order is a total preorder |
| FacilitiesContent.SortedDistinct | components/facilities/facilities-content.tsx:106 | sorting distinct names gives a strictly ascending list |
| FacilitiesContent.SortedSameElements | components/facilities/facilities-content.tsx:106 | sorting keeps exactly the names present |
| FacilitiesContent.Districts | components/facilities/facilities-content.tsx:106 | strictly ascending, without duplicates, holding exactly the districts present |
| FacilitiesPage.FilterFacilities | app/dashboard/facilities/page.tsx:39-51 | an order-preserving subsequence holding exactly the facilities matching type and district unless "all"; "all"/"all" is the list itself |
| FacilitiesPage.FilterIdempotent | app/dashboard/facilities/page.tsx:39-51 | filtering twice is filtering once |
| FacilitiesPage.PageDistricts | app/dashboard/facilities/page.tsx:53 | no duplicates, in the order of each district's first occurrence among the facilities, holding exactly the districts present |
| ConsultationsContent.StatusColor | components/consultations/consultations-content.tsx:41-56 | grey iff completed or unknown; each other known status has its own colour |
| ConsultationsContent.ColorsDistinguishStatuses | components/consultations/consultations-content.tsx:41-56 | distinct known statuses have distinct colours |
| ConsultationsContent.BookConsultation | components/consultations/consultations-content.tsx:58-91 | a request is made iff a provider is chosen and the trimmed symptoms are non-blank; the provider is checked first; success resets the form and a failure keeps it |
| ConsultationsContent.BlankSymptomsRefused | components/consultations/consultations-content.tsx:64-67 | symptoms of spaces only are refused with no request |
| ConsultationsContent.BlankTrimsEmpty | components/consultations/consultations-content.tsx:64 | a text of spaces only trims to the empty string |
| ConsultationsContent.GroupsArePartition | components/consultations/consultations-content.tsx:143-145 | the three groups are pairwise disjoint subsequences |
| ConsultationsContent.UnknownStatusListedNowhere | components/consultations/consultations-content.tsx:143-145 | a consultation is in no group iff its status is unknown |
| ConsultationsContent.GroupSizes | components/consultations/consultations-content.tsx:143-145 | the group sizes and the unlisted count add up to the total |
| Volunteers.DistrictOf | app/dashboard/volunteers/page.tsx:30-135 | each doctor's district is the one in its table record |
| Volunteers.VolunteerDoctors | app/dashboard/volunteers/page.tsx:30-135 | the table holds the eight doctors in order |
| Volunteers.Position | app/dashboard/volunteers/page.tsx:30-135 | every doctor has a position in the table |
| Volunteers.Searched | app/dashboard/volunteers/page.tsx:145-151 | an empty term keeps the table; otherwise exactly the doctors whose name, specialization or location contains the term, ignoring case, in order |
| Volunteers.InDistrict | app/dashboard/volunteers/page.tsx:153-155 | "all" keeps the list; otherwise exactly its doctors of that district, in order |
| Volunteers.FilterVolunteers | app/dashboard/volunteers/page.tsx:142-158 | an order-preserving subsequence holding exactly the selected doctors |
| Volunteers.NoFilterShowsAll | app/dashboard/volunteers/page.tsx:142-158 | no term and "all" keep the table |
| Volunteers.DistrictShowsItsDoctors | app/dashboard/volunteers/page.tsx:153-155 | every doctor is listed under its own district |
| Volunteers.DistrictNames | app/dashboard/volunteers/page.tsx:160 | the district of each doctor, in order |
| Volunteers.Districts | app/dashboard/volunteers/page.tsx:160 | no duplicates, in the order of each district's first occurrence among the volunteers, holding exactly the districts present |
| SeqUtil.DedupOrder | app/dashboard/volunteers/page.tsx:160 | every element of the deduplicated list occurs in the input, and the elements keep the order of their first occurrences |
| Volunteers.TableDistricts | app/dashboard/volunteers/page.tsx:30-160 | the table's districts are Bandarban, Khagrachari, Rangamati |
| Translations.Lookup | lib/i18n/translations.ts:54 | a non-empty entry text is returned; a missing entry or empty text falls back to the key |
| Translations.T | lib/i18n/translations.ts:53-55 | an unknown key returns itself |
| Translations.EntriesComplete | lib/i18n/translations.ts:1-51 | every key has non-empty English and Bengali texts |
| Translations.EnglishComplete | lib/i18n/translations.ts:1-51 | every key has a non-empty English text |
| Translations.BengaliComplete | lib/i18n/translations.ts:1-51 | every key has a non-empty Bengali text |
| Translations.KeyOfName | lib/i18n/translations.ts:1-51 | every key's name looks up that key |
| Translations.KnownKeyTranslated | lib/i18n/translations.ts:53-55 | a known key gives its entry in the requested language, English by default |
| ApiClient.StoredAfterSet | lib/api/client.ts:11-20 | in a browser the storage holds a truthy token, or nothing; outside one it is unchanged |
| ApiClient.ReadToken | lib/api/client.ts:22-28 | a truthy cached token wins; otherwise the stored token in a browser |
| ApiClient.SetThenGet | lib/api/client.ts:11-28 | after setting a truthy token it is read back; after setting null, null is read |
| ApiClient.CacheFirst | lib/api/client.ts:23 | with a truthy cached token, storage is not consulted |
| ApiClient.RequestHeaders | lib/api/client.ts:37-44 | Authorization "Bearer "+token iff the token is truthy; otherwise the content type merged with the caller's headers |
| ApiClient.NoTokenNoAuthorization | lib/api/client.ts:42-44 | without a token no Authorization header is sent |
| ApiClient.ErrorOf | lib/api/client.ts:51-54 | `detail`, then `error`, then "Request failed"; a null body throws a TypeError |
| ApiClient.UnreadableLikeEmpty | lib/api/client.ts:52 | an unreadable body gives the same error as an empty one |
| ApiClient.Outcome | lib/api/client.ts:51-56 | success iff the response is ok and readable, with its body; not ok throws `ErrorOf` |
| ApiClient.FacilityParams | lib/api/client.ts:167-169 | one parameter per truthy filter |
| ApiClient.FacilitiesQuery | lib/api/client.ts:166-172 | empty iff neither filter is truthy, otherwise "?" followed by the parameters |
| ApiClient.FacilityParamsText | lib/api/client.ts:167-170 | the parameter text is `type=…`, `district=…` or both joined by "&", each value encoded |
| ApiClient.Client.constructor | lib/api/client.ts:9 | no token is cached at first |
| ApiClient.Client.SetAuthToken | lib/api/client.ts:11-20 | caches the token and updates storage as `StoredAfterSet` |
| ApiClient.Client.GetAuthToken | lib/api/client.ts:22-28 | returns `ReadToken` and caches it |
| ApiClient.Client.ApiRequest | lib/api/client.ts:31-57 | sends the request with `RequestHeaders` of the current token and returns `Outcome` of the response |

## Left out

- `try_original` branch (backend/app/medgemma_service.py:80-106): dead, because the flag is constant False.
- The model lock, and the commented-out preload thread: loading is modelled as sequential, so at-most-once becomes a plain state invariant.
- transformers, torch, psutil and google-genai are parameters. `LoadEnv` carries the outcome of the transformers import, the CUDA check, the RAM probe (a number or absent), and the processor and model loads. The other calls of the load that can raise (`get_device_name`, `get_device_properties`, `empty_cache`, `memory_allocated`, `_get_hf_token`) have no field: the model takes them not to raise, and an exception from one of them would end the attempt as a crashed load does. VRAM figures and sampling arguments are not modelled.
- The `stream` argument of `medgemma_chat`: it is accepted and unused.
- `json.loads`, `JSON.parse` and `json.dumps` are abstract partial parsers or printers. The brace regex of the normaliser is written out as the leftmost-`{`/last-`}` span.
- `Strings.Lower` and `Strings.Trim`: model ASCII lower-casing and ASCII whitespace only. JavaScript's and Python's Unicode case mapping and whitespace classes are wider.
- `Strings.LexLe`: compares Unicode scalar values, whereas JavaScript's default sort compares UTF-16 code units. They differ only outside the Basic Multilingual Plane.
- `localeCompare` in the facility name sort is the parameter `collate`. `ShownOrderedByName` assumes that it is a total preorder.
- Haversine distance and the distance sort (components/facilities/facilities-content.tsx:55-64, 91-97): floating point, excluded.
- OfflineStore.OfflineStorage.Get, `GetAll` and `GetUnsyncedItems`: modelled as reads that leave the table unchanged. In lib/offline/storage.ts:17-23 every decryption first calls `getEncryptionKey`, which stores a fresh `sb_device_key` when none exists, and entries written under an earlier key then decrypt to null. The model keeps one device key, so this write and the lost entries are not modelled.
- CryptoJS encryption: an identity round trip. The random device key is a parameter. `typeof window` guards in storage.ts and sync-manager.ts are not modelled.
- `Date.now()` and the backend's database clock are parameters. Timestamps are treated as opaque integers, and a NaN time in the dashboard sort is not modelled.
- localStorage key order: the table is a sequence in which new keys go last. Browsers do not promise that order.
- `startAutoSync`, `stopAutoSync` and the timers: not modelled.
- `fetch` is a parameter, as are HTTP responses and the asynchronous interleaving of `syncNow`. The model applies each request's outcome in order.
- `sendSMS`, `makePhoneCall` and the hotline constants: pure browser navigation, not modelled.
- `toFixed(4)` and number-to-string rendering: an abstract formatter.
- Regular expressions of the prescription parser: uninterpreted matchers. The doctor, diagnosis and date extractors are not modelled.
- Identifier generation: a fresh id is a parameter, and a `requires` demands that it is unused.
- SQL ordering: ties in `order_by(created_at.desc())` are broken by insertion order, through a stable sort.
- Password hashing, JWT creation and `authenticate_user` are parameters: backend/app/auth.py is not part of this model. Pydantic validation, including EmailStr normalisation, is not modelled.
- Dashboard JSON decoding: server and offline records arrive already decoded into typed records. `check.severity` stays JSON, with a number-conversion parameter.
- React state, toasts, `window.location.reload()` and page navigation: outside the model. Bookings and submissions return what the page would show.
- `handleAccept`, `handleCancel` and the other consultation-page handlers are not modelled. Beyond the three named behaviours, they only call the API.
- `Translations.T`: the source types `key` as a table key. The model looks up arbitrary strings, with the fallback for unknown ones.
- `URLSearchParams` encoding: the parameter `encode`.
- `KnowledgeBase.SearchKnowledgeBase` and `KnowledgeBase.GetKnowledgeByCategory`: stated as `Search` and `ByCategory` applied to the eight-article table; the properties of those two filters are proved over any table, because the table's long texts make properties stated directly over it too costly to prove.
- `app/api/*` route handlers, UI pages, the auth context and the thin or mock routers are outside the core and not modelled.

## Findings

| source | as written | input that shows it | evidently intended | confidence | as-written member | corrected member |
|---|---|---|---|---|---|---|
| backend/app/routers/consultations.py:95-118 | the parameter `status` shadows the `status` constants module, so `status.HTTP_404_NOT_FOUND` and `status.HTTP_403_FORBIDDEN` raise `AttributeError` | `PUT /consultations/x` on an empty table | 404 for an unknown id, 403 for a caller who is neither patient nor provider | not executed | ConsultationRoutes.UpdateOutcomeAsWritten | ConsultationRoutes.UpdateOutcome |
