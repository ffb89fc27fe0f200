/** The language-model service of the backend (backend/app/medgemma_service.py):
    the load-once lifecycle of the local model, held in four module globals,
    text generation with its load guard and message formatting, and the
    two-tier fallback (local model, then the Gemma API) behind chat, symptom
    analysis and medicine analysis. Model loading probes, generation and the
    remote API are oracles supplied by the caller. */
module MedGemmaService {
  import opened Wrappers
  import opened JsonValue
  import opened MedGemmaNormalizer
  import Strings

  const MEDGEMMA_MODEL_ID := "unsloth/medgemma-4b-it-bnb-4bit"
  const MEDGEMMA_TEXT_MODEL := "medgemma-4b-it"
  const GEMMA_FALLBACK_MODEL := "gemma-3-27b-it"
  const CUDA_ERROR := "CUDA not available - MedGemma requires a GPU"
  const NOT_AVAILABLE := "MedGemma model not available: "
  const MISSING_API_KEY := "GOOGLE_API_KEY required for Gemma fallback"
  const MIN_FREE_RAM_GB: real := 3.5
  const MAX_TOKENS: nat := 2048

  const SYSTEM_INSTRUCTION := "You are a medical AI assistant powered by MedGemma, part of Google\'s Health AI Developer Foundations (HAI-DEF). \nYou serve Bisheshoggo AI, a healthcare platform for rural Bangladesh\'s Hill Tracts region.\n\nYour capabilities:\n- Evidence-based medical symptom analysis and triage\n- Medication information and interaction checking  \n- Health education in simple, accessible language\n- Clinical decision support for community health workers\n- Culturally sensitive health guidance for rural Bangladesh\n\nGuidelines:\n- Always recommend professional medical consultation for serious symptoms\n- Use simple language accessible to users with limited medical knowledge\n- Consider the rural context with limited healthcare access\n- Provide practical guidance including home remedies for minor ailments\n- Be empathetic, supportive, and culturally sensitive\n- Include Bengali (বাংলা) translations where helpful\n- Flag emergency symptoms clearly with urgency levels\n- Never provide definitive diagnoses - frame as possibilities requiring professional evaluation\n\nYou are built on Google\'s MedGemma model, specifically designed for healthcare applications."
  const SYMPTOM_PROMPT_HEAD := "Analyze the following patient symptoms and provide a structured medical assessment.\n\nPATIENT SYMPTOMS: "
  const SYMPTOM_PROMPT_TAIL := "\n\nCONTEXT: Patient is in rural Bangladesh with limited healthcare access.\n\nProvide your analysis in the following JSON format:\n{\n    \"diagnosis\": \"Most likely condition name\",\n    \"suggested_conditions\": [\"Condition 1\", \"Condition 2\", \"Condition 3\"],\n    \"recommendations\": \"Detailed recommendations in both English and Bengali\",\n    \"urgency_level\": \"emergency|high|moderate|low\",\n    \"home_remedies\": [\"Remedy 1\", \"Remedy 2\"],\n    \"warning_signs\": [\"Warning 1\", \"Warning 2\"],\n    \"should_see_doctor\": true/false,\n    \"triage_reasoning\": \"Brief clinical reasoning for the triage level\",\n    \"follow_up\": \"When to follow up or seek further care\"\n}\n\nBe thorough but practical. Consider common conditions in Bangladesh (tropical diseases, waterborne illnesses, nutritional deficiencies).\nRespond ONLY with the JSON object, no additional text."
  const MEDICINE_PROMPT_HEAD := "As a medical AI assistant, analyze these prescribed medicines for a patient in rural Bangladesh.\n\nPRESCRIBED MEDICINES:\n"
  const MEDICINE_PROMPT_TAIL := "\n\nProvide analysis in JSON format:\n{\n    \"suggestions\": [\n        {\n            \"medicine\": \"Medicine name\",\n            \"reason\": \"Why this medicine is prescribed and if it\'s appropriate\",\n            \"shouldTake\": \"YES - Continue taking\" or \"NO - Not needed\" or \"CONSULT - Needs doctor review\",\n            \"alternatives\": [\"Available alternatives in rural Bangladesh\"],\n            \"precautions\": [\"Important precautions\"],\n            \"interactions\": [\"Drug interactions to watch\"],\n            \"effectiveness\": \"high|moderate|low\"\n        }\n    ],\n    \"overallRecommendation\": \"Summary guidance\",\n    \"warnings\": [\"Critical warnings\"],\n    \"interactionAlerts\": [\"Any dangerous drug interactions found\"]\n}\n\nConsider medicine availability and cost in rural Bangladesh. Respond ONLY with JSON."
  const GEMMA_PREAMBLE_ACK := "I understand. I am a medical AI assistant for Bisheshoggo AI. How can I help you?"
  const TRIAGE_SYSTEM := "You are a medical AI triage assistant. Respond only with valid JSON."
  const PHARMACOLOGY_SYSTEM := "You are a medical pharmacology AI. Respond only with valid JSON."

  /** An opaque transformers object (processor or model). */
  datatype Handle = Handle(id: nat)

  /** What the optional psutil probe reports. */
  datatype RamProbe =
    | PsutilMissing                        // ImportError: loading goes ahead
    | FreeRam(gb: real, shown: string)     // free memory, and its `:.1f` rendering

  /** Everything `_load_model` observes: each step that may raise carries its error text. */
  datatype LoadEnv = LoadEnv(
    transformersImport: Option<string>,    // Some(e) when the import raises
    cudaAvailable: bool,
    ram: RamProbe,
    processor: Result<Handle, string>,     // AutoProcessor.from_pretrained
    model: Result<Handle, string>)         // AutoModelForImageTextToText.from_pretrained

  /** How one load attempt ends: loaded, refused by a pre-check (globals untouched),
      or an exception (both handles cleared). */
  datatype LoadOutcome =
    | Loaded(model: Handle, processor: Handle)
    | Refused(error: string)
    | Crashed(error: string)

  function RamError(shown: string): string {
    "Insufficient RAM (" + shown + " GB free, need 3.5+ GB). Using API fallback."
  }

  /** The single load attempt, step by step as `_load_model` performs it. */
  function AttemptLoad(env: LoadEnv): (o: LoadOutcome)
    ensures o.Loaded? <==> (env.transformersImport.None? && env.cudaAvailable
                            && !(env.ram.FreeRam? && env.ram.gb < MIN_FREE_RAM_GB)
                            && env.processor.Success? && env.model.Success?)
    ensures o.Loaded? ==> o.model == env.model.value && o.processor == env.processor.value
    ensures o.Refused? <==> (env.transformersImport.None?
                             && (!env.cudaAvailable || (env.ram.FreeRam? && env.ram.gb < MIN_FREE_RAM_GB)))
  {
    if env.transformersImport.Some? then Crashed(env.transformersImport.value)
    else if !env.cudaAvailable then Refused(CUDA_ERROR)
    else if env.ram.FreeRam? && env.ram.gb < MIN_FREE_RAM_GB then Refused(RamError(env.ram.shown))
    else match env.processor
      case Failure(e) => Crashed(e)
      case Success(p) =>
        match env.model
        case Failure(e) => Crashed(e)
        case Success(m) => Loaded(m, p)
  }

  /** Message content: a plain string, or an already structured value passed through. */
  datatype Content = Text(text: string) | Structured(value: Json)

  datatype Message = Message(role: string, content: Content)

  /** `[{"type": "text", "text": s}]`, the Gemma 3 chat-template form of a string. */
  function TextParts(s: string): Json {
    JArr([JObj(map["type" := JStr("text"), "text" := JStr(s)])])
  }

  function FormatMessage(m: Message): Message {
    match m.content
    case Text(s) => Message(m.role, Structured(TextParts(s)))
    case Structured(_) => m
  }

  /** The `formatted_messages` list handed to the chat template. */
  function FormatMessages(ms: seq<Message>): (r: seq<Message>)
    ensures |r| == |ms|
    ensures forall k :: 0 <= k < |r| ==> r[k].role == ms[k].role && r[k].content.Structured?
    ensures forall k :: 0 <= k < |r| && ms[k].content.Text? ==> r[k].content == Structured(TextParts(ms[k].content.text))
    ensures forall k :: 0 <= k < |r| && ms[k].content.Structured? ==> r[k] == ms[k]
  {
    seq(|ms|, k requires 0 <= k < |ms| => FormatMessage(ms[k]))
  }

  /** What the local model is asked to do. */
  datatype GenRequest = GenRequest(messages: seq<Message>, maxNewTokens: nat, temperature: real)

  /** The loaded model's generate-and-decode: the reply text, or the exception it raises. */
  type Generator = GenRequest -> Result<string, string>

  datatype GemmaContent = GemmaContent(role: string, text: string)
  datatype GemmaRequest = GemmaRequest(model: string, contents: seq<GemmaContent>, temperature: real, maxOutputTokens: nat)

  /** The Gemma API: the configured key ("" when unset) and the remote call. */
  datatype GemmaApi = GemmaApi(apiKey: string, generate: GemmaRequest -> Result<string, string>)

  /** `_get_gemma_fallback_client` followed by `generate_content`. */
  function GemmaTier(api: GemmaApi, req: GemmaRequest): (r: Result<string, string>)
    ensures api.apiKey == "" ==> r == Failure(MISSING_API_KEY)
    ensures api.apiKey != "" ==> r == api.generate(req)
  {
    if api.apiKey == "" then Failure(MISSING_API_KEY) else api.generate(req)
  }

  datatype ChatMessage = ChatMessage(role: string, content: string)

  /** A chat reply and the model that produced it. */
  datatype Reply = Reply(content: string, model: string)

  /** Local tier messages: one system message, then every turn with non-"user" roles as "assistant". */
  function LocalChatMessages(system: string, messages: seq<ChatMessage>): (r: seq<Message>)
    ensures |r| == |messages| + 1
    ensures r[0] == Message("system", Text(system))
    ensures forall k :: 0 <= k < |r| ==> (r[k].role == "system" <==> k == 0)
    ensures forall k :: 0 <= k < |messages| ==>
              r[k + 1].role == (if messages[k].role == "user" then "user" else "assistant")
              && r[k + 1].content == Text(messages[k].content)
  {
    [Message("system", Text(system))]
    + seq(|messages|, k requires 0 <= k < |messages| =>
            Message(if messages[k].role == "user" then "user" else "assistant", Text(messages[k].content)))
  }

  function GemmaPreamble(system: string): seq<GemmaContent> {
    [GemmaContent("user", "[System Instructions]\n" + system
                          + "\n[End System Instructions]\nPlease acknowledge and follow these instructions."),
     GemmaContent("model", GEMMA_PREAMBLE_ACK)]
  }

  /** Gemma tier contents: the fixed two-message preamble, then every turn with non-"user" roles as "model". */
  function GemmaChatContents(system: string, messages: seq<ChatMessage>): (r: seq<GemmaContent>)
    ensures |r| == |messages| + 2 && r[..2] == GemmaPreamble(system)
    ensures forall k :: 0 <= k < |messages| ==>
              r[k + 2] == GemmaContent(if messages[k].role == "user" then "user" else "model", messages[k].content)
    ensures forall k :: 2 <= k < |r| ==> r[k].role == "user" || r[k].role == "model"
  {
    GemmaPreamble(system)
    + seq(|messages|, k requires 0 <= k < |messages| =>
            GemmaContent(if messages[k].role == "user" then "user" else "model", messages[k].content))
  }

  /** The two tiers: the fallback answers only when the local tier failed, and its
      failure is the one that propagates. */
  function ServeTiers(local: Result<string, string>, fallback: Result<string, string>): (r: Result<Reply, string>)
    ensures local.Success? ==> r == Success(Reply(local.value, MEDGEMMA_TEXT_MODEL))
    ensures local.Failure? && fallback.Success? ==> r == Success(Reply(fallback.value, GEMMA_FALLBACK_MODEL))
    ensures r.Failure? <==> local.Failure? && fallback.Failure?
    ensures r.Failure? ==> r.error == fallback.error
  {
    match local
    case Success(text) => Success(Reply(text, MEDGEMMA_TEXT_MODEL))
    case Failure(_) =>
      match fallback
      case Success(text) => Success(Reply(text, GEMMA_FALLBACK_MODEL))
      case Failure(e) => Failure(e)
  }

  /** Whatever the fallback would have answered, a successful local tier decides the reply. */
  lemma LocalTierWins(text: string, f1: Result<string, string>, f2: Result<string, string>)
    ensures ServeTiers(Success(text), f1) == ServeTiers(Success(text), f2)
    ensures ServeTiers(Success(text), f1).value.model == MEDGEMMA_TEXT_MODEL
  {
  }

  datatype AnalysisError =
    | TierFailure(message: string)       // both tiers raised
    | Malformed(error: NormalizeError)   // the JSON extractor raised

  /** Tier fallback followed by JSON normalisation, tagged with the serving model. */
  function ServeAnalysis(local: Result<string, string>, fallback: Result<string, string>,
                         parse: Parser, default: string -> map<string, Json>): (r: Result<map<string, Json>, AnalysisError>)
    ensures r.Success? ==> "model" in r.value
                           && r.value["model"] == JStr(if local.Success? then MEDGEMMA_TEXT_MODEL else GEMMA_FALLBACK_MODEL)
    ensures local.Success? ==>
              var n := Normalize(local.value, parse, default, MEDGEMMA_TEXT_MODEL);
              (n.Success? ==> r == Success(n.value)) && (n.Failure? ==> r == Failure(Malformed(n.error)))
    ensures local.Failure? && fallback.Success? ==>
              var n := Normalize(fallback.value, parse, default, GEMMA_FALLBACK_MODEL);
              (n.Success? ==> r == Success(n.value)) && (n.Failure? ==> r == Failure(Malformed(n.error)))
    ensures local.Failure? && fallback.Failure? ==> r == Failure(TierFailure(fallback.error))
    ensures r.Failure? && r.error.TierFailure? ==> local.Failure? && fallback.Failure?
  {
    match ServeTiers(local, fallback)
    case Failure(e) => Failure(TierFailure(e))
    case Success(reply) =>
      match Normalize(reply.content, parse, default, reply.model)
      case Failure(e) => Failure(Malformed(e))
      case Success(m) => Success(m)
  }

  function SymptomPrompt(symptoms: seq<string>, severity: string, duration: string, notes: string): string {
    SYMPTOM_PROMPT_HEAD + Strings.Join(symptoms, ", ") + SymptomDetails(severity, duration, notes)
  }

  /** The prompt after the symptom list; empty notes read "None provided". */
  function SymptomDetails(severity: string, duration: string, notes: string): string {
    "\nSEVERITY: " + severity + "\nDURATION: " + duration
    + "\nADDITIONAL NOTES: " + (if notes == "" then "None provided" else notes)
    + SYMPTOM_PROMPT_TAIL
  }

  /** Every reported symptom appears in the prompt. */
  lemma SymptomPromptMentions(symptoms: seq<string>, severity: string, duration: string, notes: string, k: nat)
    requires k < |symptoms|
    ensures Strings.Contains(SymptomPrompt(symptoms, severity, duration, notes), symptoms[k])
  {
    Strings.JoinContains(symptoms, ", ", k);
    Strings.ContainsIn(SYMPTOM_PROMPT_HEAD, Strings.Join(symptoms, ", "), SymptomDetails(severity, duration, notes), symptoms[k]);
  }

  /** `json.dumps(prescriptions, indent=2)` is supplied as `dumps`. */
  function MedicinePrompt(prescriptions: Json, dumps: Json -> string, diagnosis: string, history: string): string {
    MEDICINE_PROMPT_HEAD + dumps(prescriptions)
    + "\n\nDIAGNOSIS: " + (if diagnosis == "" then "Not specified" else diagnosis)
    + "\nPATIENT HISTORY: " + (if history == "" then "Not provided" else history)
    + MEDICINE_PROMPT_TAIL
  }

  function AnalysisMessages(system: string, prompt: string): seq<Message> {
    [Message("system", Text(system)), Message("user", Text(prompt))]
  }

  function AnalysisGemmaRequest(system: string, prompt: string): GemmaRequest {
    GemmaRequest(GEMMA_FALLBACK_MODEL, [GemmaContent("user", "[System: " + system + "]\n\n" + prompt)], 0.2, MAX_TOKENS)
  }

  /** The formatting loop of `_generate_text`. */
  method FormatAll(messages: seq<Message>) returns (formatted: seq<Message>)
    ensures formatted == FormatMessages(messages)
  {
    formatted := [];
    var i := 0;
    while i < |messages|
      invariant 0 <= i <= |messages|
      invariant |formatted| == i
      invariant forall k :: 0 <= k < i ==> formatted[k] == FormatMessage(messages[k])
    {
      var m := messages[i];
      var content := m.content;
      if content.Text? {
        content := Structured(TextParts(content.text));
      }
      formatted := formatted + [Message(m.role, content)];
      i := i + 1;
    }
  }

  /** The local-tier message loop of `medgemma_chat`. */
  method BuildLocalChat(system: string, messages: seq<ChatMessage>) returns (chatMessages: seq<Message>)
    ensures chatMessages == LocalChatMessages(system, messages)
  {
    chatMessages := [Message("system", Text(system))];
    var i := 0;
    while i < |messages|
      invariant 0 <= i <= |messages|
      invariant |chatMessages| == i + 1 && chatMessages[0] == Message("system", Text(system))
      invariant forall k :: 0 <= k < i ==>
                  chatMessages[k + 1] == Message(if messages[k].role == "user" then "user" else "assistant", Text(messages[k].content))
    {
      var role := if messages[i].role == "user" then "user" else "assistant";
      var before := chatMessages;
      chatMessages := before + [Message(role, Text(messages[i].content))];
      assert forall k :: 0 <= k <= i ==> chatMessages[k] == before[k];
      i := i + 1;
    }
    ghost var spec := LocalChatMessages(system, messages);
    assert |spec| == |chatMessages|;
    forall k | 0 <= k < |chatMessages| ensures chatMessages[k] == spec[k] {
      if k > 0 {
        assert chatMessages[(k - 1) + 1] == spec[(k - 1) + 1];
      }
    }
  }

  /** The Gemma-tier content loop of `medgemma_chat`. */
  method BuildGemmaContents(system: string, messages: seq<ChatMessage>) returns (contents: seq<GemmaContent>)
    ensures contents == GemmaChatContents(system, messages)
  {
    contents := GemmaPreamble(system);
    var i := 0;
    while i < |messages|
      invariant 0 <= i <= |messages|
      invariant |contents| == i + 2 && contents[..2] == GemmaPreamble(system)
      invariant forall k :: 0 <= k < i ==>
                  contents[k + 2] == GemmaContent(if messages[k].role == "user" then "user" else "model", messages[k].content)
    {
      var role := if messages[i].role == "user" then "user" else "model";
      contents := contents + [GemmaContent(role, messages[i].content)];
      i := i + 1;
    }
  }

  datatype ModelStatus =
    | LoadedStatus(model: string, displayName: string, device: string)
    | NotLoadedStatus(error: Option<string>, attempted: bool)

  /** The module globals `_model_load_attempted`, `_model`, `_processor`, `_model_load_error`. */
  class ModelState {
    var attempted: bool
    var model: Option<Handle>
    var processor: Option<Handle>
    var loadError: Option<string>

    /** Nothing before the first attempt; both handles or neither; after an
        attempt, an error is recorded exactly when nothing is loaded. */
    ghost predicate Valid()
      reads this
    {
      (!attempted ==> model.None? && processor.None? && loadError.None?)
      && (model.Some? <==> processor.Some?)
      && (attempted ==> (model.Some? <==> loadError.None?))
    }

    constructor()
      ensures Valid() && !attempted && model.None? && processor.None? && loadError.None?
    {
      attempted := false;
      model := None;
      processor := None;
      loadError := None;
    }

    /** `is_model_loaded`. */
    function IsModelLoaded(): (r: bool)
      reads this
      ensures r <==> model.Some? && processor.Some?
      ensures Valid() ==> (r <==> attempted && loadError.None?)
    {
      model.Some? && processor.Some?
    }

    /** `get_model_status` (the VRAM figure is not modelled). */
    function GetModelStatus(): (r: ModelStatus)
      reads this
      ensures r.LoadedStatus? <==> IsModelLoaded()
      ensures r.LoadedStatus? ==> r.model == MEDGEMMA_MODEL_ID && r.displayName == MEDGEMMA_TEXT_MODEL
      ensures r.NotLoadedStatus? ==> r.error == loadError && r.attempted == attempted
      ensures Valid() && r.NotLoadedStatus? ==> (r.attempted <==> r.error.Some?)
    {
      if IsModelLoaded() then LoadedStatus(MEDGEMMA_MODEL_ID, MEDGEMMA_TEXT_MODEL, "cuda")
      else NotLoadedStatus(loadError, attempted)
    }

    /** The state after an attempt ending in `o`, from the globals before it. */
    ghost predicate Records(o: LoadOutcome, model0: Option<Handle>, processor0: Option<Handle>, error0: Option<string>)
      reads this
    {
      attempted
      && match o
         case Loaded(m, p) => model == Some(m) && processor == Some(p) && loadError == error0
         case Refused(e) => model == model0 && processor == processor0 && loadError == Some(e)
         case Crashed(e) => model.None? && processor.None? && loadError == Some(e)
    }

    /** `_load_model`: at most one attempt; later calls report and change nothing. */
    method LoadModel(env: LoadEnv) returns (loaded: bool)
      requires Valid()
      modifies this
      ensures Valid()
      ensures old(attempted) ==> unchanged(this) && loaded == model.Some?
      ensures !old(attempted) ==> Records(AttemptLoad(env), old(model), old(processor), old(loadError))
                                  && loaded == AttemptLoad(env).Loaded?
    {
      if attempted {
        return model.Some?;
      }
      attempted := true;
      if env.transformersImport.Some? {
        loadError := Some(env.transformersImport.value);
        model := None;
        processor := None;
        return false;
      }
      if !env.cudaAvailable {
        loadError := Some(CUDA_ERROR);
        return false;
      }
      if env.ram.FreeRam? && env.ram.gb < MIN_FREE_RAM_GB {
        loadError := Some(RamError(env.ram.shown));
        return false;
      }
      match env.processor {
        case Failure(e) =>
          loadError := Some(e);
          model := None;
          processor := None;
          return false;
        case Success(p) =>
          processor := Some(p);
          match env.model {
            case Failure(e) =>
              loadError := Some(e);
              model := None;
              processor := None;
              return false;
            case Success(m) =>
              model := Some(m);
              return true;
          }
      }
    }

    /** What `_generate_text` answers from the current globals. */
    function LocalGeneration(env: LoadEnv, gen: Generator, req: GenRequest): Result<string, string>
      reads this
    {
      if IsModelLoaded() then gen(req)
      else if attempted then Failure(NOT_AVAILABLE + ErrorText(loadError))
      else match AttemptLoad(env)
        case Loaded(_, _) => gen(req)
        case Refused(e) => Failure(NOT_AVAILABLE + e)
        case Crashed(e) => Failure(NOT_AVAILABLE + e)
    }

    /** `_generate_text`: the load guard, then generation on the formatted messages. */
    method GenerateText(messages: seq<Message>, maxNewTokens: nat, temperature: real, env: LoadEnv, gen: Generator)
      returns (r: Result<string, string>)
      requires Valid()
      modifies this
      ensures Valid()
      ensures r == old(LocalGeneration(env, gen, GenRequest(FormatMessages(messages), maxNewTokens, temperature)))
      ensures old(IsModelLoaded()) || old(attempted) ==> unchanged(this)
      ensures !old(IsModelLoaded()) && !old(attempted) ==>
                Records(AttemptLoad(env), old(model), old(processor), old(loadError))
    {
      if !IsModelLoaded() {
        var ok := LoadModel(env);
        if !ok {
          return Failure(NOT_AVAILABLE + ErrorText(loadError));
        }
      }
      var formatted := FormatAll(messages);
      r := gen(GenRequest(formatted, maxNewTokens, temperature));
    }

    /** `medgemma_chat` (the unused `stream` flag is omitted). */
    method Chat(messages: seq<ChatMessage>, env: LoadEnv, gen: Generator, gemma: GemmaApi)
      returns (r: Result<Reply, string>)
      requires Valid()
      modifies this
      ensures Valid()
      ensures r == ServeTiers(
                old(LocalGeneration(env, gen, GenRequest(FormatMessages(LocalChatMessages(SYSTEM_INSTRUCTION, messages)), MAX_TOKENS, 0.3))),
                GemmaTier(gemma, GemmaRequest(GEMMA_FALLBACK_MODEL, GemmaChatContents(SYSTEM_INSTRUCTION, messages), 0.3, MAX_TOKENS)))
      ensures old(IsModelLoaded()) || old(attempted) ==> unchanged(this)
      ensures !old(IsModelLoaded()) && !old(attempted) ==>
                Records(AttemptLoad(env), old(model), old(processor), old(loadError))
    {
      var chatMessages := BuildLocalChat(SYSTEM_INSTRUCTION, messages);
      var local := GenerateText(chatMessages, MAX_TOKENS, 0.3, env, gen);
      if local.Success? {
        return Success(Reply(local.value, MEDGEMMA_TEXT_MODEL));
      }
      var contents := BuildGemmaContents(SYSTEM_INSTRUCTION, messages);
      var remote := GemmaTier(gemma, GemmaRequest(GEMMA_FALLBACK_MODEL, contents, 0.3, MAX_TOKENS));
      if remote.Failure? {
        return Failure(remote.error);
      }
      return Success(Reply(remote.value, GEMMA_FALLBACK_MODEL));
    }

    /** The shared body of the two analysis entry points. */
    method Analyse(system: string, prompt: string, env: LoadEnv, gen: Generator, gemma: GemmaApi,
                   parse: Parser, default: string -> map<string, Json>)
      returns (r: Result<map<string, Json>, AnalysisError>)
      requires Valid()
      modifies this
      ensures Valid()
      ensures r == ServeAnalysis(
                old(LocalGeneration(env, gen, GenRequest(FormatMessages(AnalysisMessages(system, prompt)), MAX_TOKENS, 0.2))),
                GemmaTier(gemma, AnalysisGemmaRequest(system, prompt)), parse, default)
      ensures old(IsModelLoaded()) || old(attempted) ==> unchanged(this)
      ensures !old(IsModelLoaded()) && !old(attempted) ==>
                Records(AttemptLoad(env), old(model), old(processor), old(loadError))
    {
      var text: string;
      var modelUsed: string;
      var local := GenerateText(AnalysisMessages(system, prompt), MAX_TOKENS, 0.2, env, gen);
      if local.Success? {
        text, modelUsed := local.value, MEDGEMMA_TEXT_MODEL;
      } else {
        var remote := GemmaTier(gemma, AnalysisGemmaRequest(system, prompt));
        if remote.Failure? {
          return Failure(TierFailure(remote.error));
        }
        text, modelUsed := remote.value, GEMMA_FALLBACK_MODEL;
      }
      var normalized := Normalize(text, parse, default, modelUsed);
      if normalized.Failure? {
        return Failure(Malformed(normalized.error));
      }
      return Success(normalized.value);
    }

    /** `medgemma_symptom_analysis`. */
    method SymptomAnalysis(symptoms: seq<string>, severity: string, duration: string, notes: string,
                           env: LoadEnv, gen: Generator, gemma: GemmaApi, parse: Parser)
      returns (r: Result<map<string, Json>, AnalysisError>)
      requires Valid()
      modifies this
      ensures Valid()
      ensures r == ServeAnalysis(
                old(LocalGeneration(env, gen, GenRequest(FormatMessages(AnalysisMessages(TRIAGE_SYSTEM,
                      SymptomPrompt(symptoms, severity, duration, notes))), MAX_TOKENS, 0.2))),
                GemmaTier(gemma, AnalysisGemmaRequest(TRIAGE_SYSTEM, SymptomPrompt(symptoms, severity, duration, notes))),
                parse, SymptomDefault)
      ensures old(IsModelLoaded()) || old(attempted) ==> unchanged(this)
      ensures !old(IsModelLoaded()) && !old(attempted) ==>
                Records(AttemptLoad(env), old(model), old(processor), old(loadError))
    {
      r := Analyse(TRIAGE_SYSTEM, SymptomPrompt(symptoms, severity, duration, notes), env, gen, gemma, parse, SymptomDefault);
    }

    /** `medgemma_medicine_analysis`. */
    method MedicineAnalysis(prescriptions: Json, dumps: Json -> string, diagnosis: string, history: string,
                            env: LoadEnv, gen: Generator, gemma: GemmaApi, parse: Parser)
      returns (r: Result<map<string, Json>, AnalysisError>)
      requires Valid()
      modifies this
      ensures Valid()
      ensures r == ServeAnalysis(
                old(LocalGeneration(env, gen, GenRequest(FormatMessages(AnalysisMessages(PHARMACOLOGY_SYSTEM,
                      MedicinePrompt(prescriptions, dumps, diagnosis, history))), MAX_TOKENS, 0.2))),
                GemmaTier(gemma, AnalysisGemmaRequest(PHARMACOLOGY_SYSTEM, MedicinePrompt(prescriptions, dumps, diagnosis, history))),
                parse, MedicineDefault)
      ensures old(IsModelLoaded()) || old(attempted) ==> unchanged(this)
      ensures !old(IsModelLoaded()) && !old(attempted) ==>
                Records(AttemptLoad(env), old(model), old(processor), old(loadError))
    {
      r := Analyse(PHARMACOLOGY_SYSTEM, MedicinePrompt(prescriptions, dumps, diagnosis, history), env, gen, gemma, parse, MedicineDefault);
    }
  }

  /** Python's f-string rendering of `_model_load_error` (None prints as "None"). */
  function ErrorText(e: Option<string>): string {
    match e
    case None => "None"
    case Some(s) => s
  }

  /** Once an attempt has failed, the local tier fails whatever the environment and generator. */
  lemma FailedLoadIsFinal(s: ModelState, env1: LoadEnv, env2: LoadEnv, gen1: Generator, gen2: Generator, req: GenRequest)
    requires s.Valid() && s.attempted && !s.IsModelLoaded()
    ensures s.LocalGeneration(env1, gen1, req) == s.LocalGeneration(env2, gen2, req)
    ensures s.LocalGeneration(env1, gen1, req).Failure?
  {
  }
}
