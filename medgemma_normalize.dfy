/** The JSON extractor applied to every analysis reply of a language model
    (backend/app/medgemma_service.py): strip a Markdown code fence, try a
    direct parse, then the span from the first `{` to the last `}`, and
    otherwise fall back to a fixed conservative answer. The JSON parser
    itself is an oracle. */
module MedGemmaNormalizer {
  import opened Wrappers
  import opened Strings
  import opened JsonValue

  const FENCE := "```"

  /** `json.loads`: Some(value) on success, None where it raises JSONDecodeError. */
  type Parser = string -> Option<Json>

  /** The exceptions the extractor lets escape. */
  datatype NormalizeError =
    | FenceWithoutNewline            // `split("\n", 1)[1]` raises IndexError
    | SpanDecodeError(span: string)  // `json.loads` on the matched span raises, uncaught
    | NotAnObject(value: Json)       // `result["model"] = ...` on a parsed non-object

  /** `strip()`, then removal of a leading fence line and, only after one, of a trailing fence. */
  function StripFence(raw: string): (r: Result<string, NormalizeError>)
    ensures !(FENCE <= Trim(raw)) ==> r == Success(Trim(raw))
    ensures r.Failure? <==> FENCE <= Trim(raw) && (forall i :: 0 <= i < |Trim(raw)| ==> Trim(raw)[i] != '\n')
    ensures r.Failure? ==> r.error == FenceWithoutNewline
    ensures r.Success? && FENCE <= Trim(raw) ==> |r.value| < |Trim(raw)|
  {
    var t := Trim(raw);
    if FENCE <= t then
      match FirstIndexOf(t, {'\n'})
      case None => Failure(FenceWithoutNewline)
      case Some(k) =>
        var rest := t[k + 1..];
        if EndsWith(rest, FENCE) then Success(Trim(rest[..|rest| - 3])) else Success(rest)
    else Success(t)
  }

  /** `t[i]` is the leftmost `{` and `t[j]` the last `}`, after it. */
  predicate LeftmostGreedy(t: string, i: int, j: int) {
    0 <= i < j < |t| && t[i] == '{' && t[j] == '}'
    && (forall k :: 0 <= k < i ==> t[k] != '{')
    && (forall k :: j < k < |t| ==> t[k] != '}')
  }

  /** The match of `re.search(r'\{[\s\S]*\}', t)`: the leftmost `{` and, greedily, the last `}` after it. */
  function BraceSpan(t: string): (r: Option<string>)
    ensures r.None? <==> !exists i, j :: 0 <= i < j < |t| && t[i] == '{' && t[j] == '}'
    ensures r.Some? ==> exists i, j :: LeftmostGreedy(t, i, j) && r.value == t[i..j + 1]
    ensures r.Some? ==> |r.value| >= 2 && r.value[0] == '{' && r.value[|r.value| - 1] == '}'
  {
    match (FirstIndexOf(t, {'{'}), LastIndexOf(t, {'}'}))
    case (Some(i), Some(j)) =>
      if i < j then
        assert LeftmostGreedy(t, i, j);
        assert t[i..j + 1][0] == t[i] && t[i..j + 1][j - i] == t[j];
        Some(t[i..j + 1])
      else None
    case _ => None
  }

  /** Whatever surrounds a braced text, the span is that text when no `{` precedes it and no `}` follows it. */
  lemma SpanOfSurrounded(a: string, body: string, c: string)
    requires forall i :: 0 <= i < |a| ==> a[i] != '{'
    requires forall i :: 0 <= i < |c| ==> c[i] != '}'
    requires |body| >= 2 && body[0] == '{' && body[|body| - 1] == '}'
    ensures BraceSpan(a + body + c) == Some(body)
  {
    var t := a + body + c;
    var i0 := |a|;
    var j0 := |a| + |body| - 1;
    assert t[i0] == '{' && t[j0] == '}';
    assert forall k :: 0 <= k < i0 ==> t[k] != '{' by {
      forall k | 0 <= k < i0 ensures t[k] != '{' { assert t[k] == a[k]; }
    }
    assert forall k :: j0 < k < |t| ==> t[k] != '}' by {
      forall k | j0 < k < |t| ensures t[k] != '}' { assert t[k] == c[k - j0 - 1]; }
    }
    assert FirstIndexOf(t, {'{'}) == Some(i0);
    assert LastIndexOf(t, {'}'}) == Some(j0);
    assert t[i0..j0 + 1] == body;
  }

  /** The whole extractor: the parsed object, or `fallback(text)` when no JSON
      can be found, with its "model" key set to the serving tier's `tag`. */
  function Normalize(raw: string, parse: Parser, fallback: string -> map<string, Json>, tag: string)
    : (r: Result<map<string, Json>, NormalizeError>)
    ensures r.Success? ==> "model" in r.value && r.value["model"] == JStr(tag)
  {
    match StripFence(raw)
    case Failure(e) => Failure(e)
    case Success(t) =>
      match Decode(t, parse, fallback)
      case Failure(e) => Failure(e)
      case Success(v) =>
        if v.JObj? then Success(v.fields["model" := JStr(tag)]) else Failure(NotAnObject(v))
  }

  /** `Normalize` once the fence step and the decode step are known. */
  lemma NormalizeSteps(raw: string, parse: Parser, fallback: string -> map<string, Json>, tag: string,
                       t: string, f: map<string, Json>)
    requires StripFence(raw) == Success(t) && Decode(t, parse, fallback) == Success(JObj(f))
    ensures Normalize(raw, parse, fallback, tag) == Success(f["model" := JStr(tag)])
  {
  }

  /** Direct parse, then the brace span, then the fallback object. */
  function Decode(t: string, parse: Parser, fallback: string -> map<string, Json>): (r: Result<Json, NormalizeError>)
    ensures parse(t).Some? ==> r == Success(parse(t).value)
    ensures parse(t).None? && BraceSpan(t).None? ==> r == Success(JObj(fallback(t)))
  {
    match parse(t)
    case Some(v) => Success(v)
    case None =>
      match BraceSpan(t)
      case None => Success(JObj(fallback(t)))
      case Some(span) =>
        match parse(span)
        case Some(v) => Success(v)
        case None => Failure(SpanDecodeError(span))
  }

  /** The default for symptom analysis (backend/app/medgemma_service.py:373-383). */
  function SymptomDefault(text: string): map<string, Json> {
    map[
      "diagnosis" := JStr("Unable to parse AI response"),
      "suggested_conditions" := JArr([JStr("Please consult a healthcare professional")]),
      "recommendations" := JStr(text),
      "urgency_level" := JStr("moderate"),
      "home_remedies" := JArr([]),
      "warning_signs" := JArr([JStr("If symptoms worsen, seek immediate medical care")]),
      "should_see_doctor" := JBool(true),
      "triage_reasoning" := JStr("AI response could not be structured"),
      "follow_up" := JStr("Consult a healthcare professional as soon as possible")
    ]
  }

  /** The default for medicine analysis (backend/app/medgemma_service.py:458-462). */
  function MedicineDefault(text: string): map<string, Json> {
    map[
      "suggestions" := JArr([]),
      "overallRecommendation" := JStr("Unable to analyze. Please consult a healthcare professional."),
      "warnings" := JArr([JStr("AI analysis unavailable. Seek professional medical advice.")])
    ]
  }

  /** An unfenced object reply is parsed directly; only "model" is overridden. */
  lemma PlainObject(raw: string, parse: Parser, fallback: string -> map<string, Json>, tag: string,
                    f: map<string, Json>)
    requires !(FENCE <= Trim(raw)) && parse(Trim(raw)) == Some(JObj(f))
    ensures Normalize(raw, parse, fallback, tag) == Success(f["model" := JStr(tag)])
  {
  }

  /** A fenced reply ```` ```lang\n<body>\n``` ```` yields the parse of the body. */
  lemma FencedObject(lang: string, body: string, parse: Parser, fallback: string -> map<string, Json>,
                     tag: string, f: map<string, Json>)
    requires forall i :: 0 <= i < |lang| ==> lang[i] != '\n'
    requires |body| > 0 && !IsSpace(body[0]) && !IsSpace(body[|body| - 1])
    requires parse(body) == Some(JObj(f))
    ensures Normalize(FENCE + lang + "\n" + body + "\n" + FENCE, parse, fallback, tag)
            == Success(f["model" := JStr(tag)])
  {
    FencedStrip(lang, body);
    NormalizeSteps(FENCE + lang + "\n" + body + "\n" + FENCE, parse, fallback, tag, body, f);
  }

  /** The fence step of a fenced reply leaves exactly its body. */
  lemma FencedStrip(lang: string, body: string)
    requires forall i :: 0 <= i < |lang| ==> lang[i] != '\n'
    requires |body| > 0 && !IsSpace(body[0]) && !IsSpace(body[|body| - 1])
    ensures StripFence(FENCE + lang + "\n" + body + "\n" + FENCE) == Success(body)
  {
    var raw := FENCE + lang + "\n" + body + "\n" + FENCE;
    TrimIdentity(raw);
    assert FENCE <= raw;
    var k := |FENCE + lang|;
    assert raw[k] == '\n';
    var first := FirstIndexOf(raw, {'\n'});
    assert first == Some(k) by {
      assert forall j :: 0 <= j < k ==> raw[j] == (FENCE + lang)[j];
    }
    var rest := raw[k + 1..];
    assert rest == body + "\n" + FENCE;
    assert EndsWith(rest, FENCE);
    assert rest[..|rest| - 3] == body + "\n";
    TrimEndKeeps(body, "\n");
    TrimStartKeeps("", body + "\n");
    assert "" + (body + "\n") == body + "\n";
    assert Trim(body + "\n") == body;
  }

  lemma ConcatAssoc(x: string, y: string, z: string)
    ensures x + (y + z) == x + y + z
  {
  }

  lemma TrimStartAround(pre: string, body: string, post: string)
    requires |body| > 0 && !IsSpace(body[0])
    ensures TrimStart(pre + body + post) == TrimStart(pre) + body + post
  {
    ConcatAssoc(pre, body, post);
    assert (body + post)[0] == body[0];
    TrimStartKeeps(pre, body + post);
  }

  lemma TrimEndAround(a: string, body: string, post: string)
    requires |body| > 0 && !IsSpace(body[|body| - 1])
    ensures TrimEnd(a + body + post) == a + body + TrimEnd(post)
  {
    assert (a + body)[|a + body| - 1] == body[|body| - 1];
    TrimEndKeeps(a + body, post);
  }

  /** Trimming prose around a text that starts and ends with non-space characters
      trims only the prose. */
  lemma TrimAround(pre: string, body: string, post: string)
    requires |body| > 0 && !IsSpace(body[0]) && !IsSpace(body[|body| - 1])
    ensures Trim(pre + body + post) == TrimStart(pre) + body + TrimEnd(post)
  {
    TrimStartAround(pre, body, post);
    TrimEndAround(TrimStart(pre), body, post);
  }

  /** An object embedded in prose, with no `{` before it and no `}` after it,
      is found by the brace span. */
  lemma EmbeddedObject(pre: string, body: string, post: string, parse: Parser,
                       fallback: string -> map<string, Json>, tag: string, f: map<string, Json>)
    requires forall i :: 0 <= i < |pre| ==> pre[i] != '{'
    requires forall i :: 0 <= i < |post| ==> post[i] != '}'
    requires |body| >= 2 && body[0] == '{' && body[|body| - 1] == '}'
    requires !(FENCE <= Trim(pre + body + post))
    requires parse(Trim(pre + body + post)) == None
    requires parse(body) == Some(JObj(f))
    ensures Normalize(pre + body + post, parse, fallback, tag) == Success(f["model" := JStr(tag)])
  {
    var a := TrimStart(pre);
    var c := TrimEnd(post);
    TrimAround(pre, body, post);
    TrimStartAvoids(pre, '{');
    TrimEndAvoids(post, '}');
    SpanOfSurrounded(a, body, c);
    var t := a + body + c;
    assert StripFence(pre + body + post) == Success(t);
    assert Decode(t, parse, fallback) == Success(JObj(f));
    NormalizeSteps(pre + body + post, parse, fallback, tag, t, f);
  }

  /** With no parseable text and no brace span, the fallback object is returned. */
  lemma NoJsonGivesFallback(raw: string, parse: Parser, fallback: string -> map<string, Json>, tag: string)
    requires StripFence(raw).Success?
    requires parse(StripFence(raw).value) == None && BraceSpan(StripFence(raw).value) == None
    ensures Normalize(raw, parse, fallback, tag)
            == Success(fallback(StripFence(raw).value)["model" := JStr(tag)])
  {
  }

  /** The symptom fallback is the conservative triage answer and keeps the reply text. */
  lemma SymptomFallbackConservative(raw: string, parse: Parser, tag: string)
    requires StripFence(raw).Success?
    requires parse(StripFence(raw).value) == None && BraceSpan(StripFence(raw).value) == None
    ensures var r := Normalize(raw, parse, SymptomDefault, tag);
            r.Success? && r.value["urgency_level"] == JStr("moderate")
            && r.value["should_see_doctor"] == JBool(true)
            && r.value["recommendations"] == JStr(StripFence(raw).value)
            && r.value["model"] == JStr(tag)
            && r.value.Keys == {"diagnosis", "suggested_conditions", "recommendations", "urgency_level",
                                "home_remedies", "warning_signs", "should_see_doctor", "triage_reasoning",
                                "follow_up", "model"}
  {
    NoJsonGivesFallback(raw, parse, SymptomDefault, tag);
    SymptomDefaultTagged(StripFence(raw).value, tag);
  }

  lemma SymptomDefaultTagged(text: string, tag: string)
    ensures var m := SymptomDefault(text)["model" := JStr(tag)];
            m["urgency_level"] == JStr("moderate") && m["should_see_doctor"] == JBool(true)
            && m["recommendations"] == JStr(text) && m["model"] == JStr(tag)
            && m.Keys == {"diagnosis", "suggested_conditions", "recommendations", "urgency_level", "home_remedies",
                          "warning_signs", "should_see_doctor", "triage_reasoning", "follow_up", "model"}
  {
  }

  /** The medicine fallback has no suggestions. */
  lemma MedicineFallbackEmpty(raw: string, parse: Parser, tag: string)
    requires StripFence(raw).Success?
    requires parse(StripFence(raw).value) == None && BraceSpan(StripFence(raw).value) == None
    ensures var r := Normalize(raw, parse, MedicineDefault, tag);
            r.Success? && r.value["suggestions"] == JArr([]) && r.value["model"] == JStr(tag)
  {
    NoJsonGivesFallback(raw, parse, MedicineDefault, tag);
    MedicineDefaultTagged(StripFence(raw).value, tag);
  }

  lemma MedicineDefaultTagged(text: string, tag: string)
    ensures var m := MedicineDefault(text)["model" := JStr(tag)];
            m["suggestions"] == JArr([]) && m["model"] == JStr(tag)
  {
  }

  /** A decode failure inside the brace span is not caught. */
  lemma SpanFailureEscapes(raw: string, parse: Parser, fallback: string -> map<string, Json>, tag: string)
    requires StripFence(raw).Success?
    requires parse(StripFence(raw).value) == None
    requires BraceSpan(StripFence(raw).value).Some? && parse(BraceSpan(StripFence(raw).value).value) == None
    ensures Normalize(raw, parse, fallback, tag) == Failure(SpanDecodeError(BraceSpan(StripFence(raw).value).value))
  {
  }

  /** A reply that parses to something other than an object cannot be tagged. */
  lemma NonObjectRejected(raw: string, parse: Parser, fallback: string -> map<string, Json>, tag: string)
    requires StripFence(raw).Success?
    requires parse(StripFence(raw).value).Some? && !parse(StripFence(raw).value).value.JObj?
    ensures Normalize(raw, parse, fallback, tag).Failure?
  {
  }

  /** An opening fence with no newline after it raises before any parsing. */
  lemma BareFenceFails(lang: string, parse: Parser, fallback: string -> map<string, Json>, tag: string)
    requires forall i :: 0 <= i < |lang| ==> lang[i] != '\n'
    requires lang == [] || !IsSpace(lang[|lang| - 1])
    ensures Normalize(FENCE + lang, parse, fallback, tag) == Failure(FenceWithoutNewline)
  {
    BareFenceStrip(lang);
  }

  lemma BareFenceStrip(lang: string)
    requires forall i :: 0 <= i < |lang| ==> lang[i] != '\n'
    requires lang == [] || !IsSpace(lang[|lang| - 1])
    ensures StripFence(FENCE + lang) == Failure(FenceWithoutNewline)
  {
    var raw := FENCE + lang;
    assert !IsSpace(raw[0]);
    assert !IsSpace(raw[|raw| - 1]) by {
      if lang != [] { assert raw[|raw| - 1] == lang[|lang| - 1]; }
    }
    TrimIdentity(raw);
    assert raw[..3] == FENCE;
    assert forall i :: 0 <= i < |raw| ==> raw[i] != '\n' by {
      forall i | 0 <= i < |raw| ensures raw[i] != '\n' {
        if i >= 3 { assert raw[i] == lang[i - 3]; }
      }
    }
    assert FirstIndexOf(raw, {'\n'}).None?;
  }

  /** A trailing fence without a leading one is kept, fence and all. */
  lemma TrailingFenceAloneKept(body: string)
    requires |body| >= 3 && !(FENCE <= body) && !IsSpace(body[0])
    ensures StripFence(body + FENCE) == Success(body + FENCE)
  {
    var raw := body + FENCE;
    assert raw[0] == body[0] && raw[|raw| - 1] == '`';
    TrimIdentity(raw);
    assert raw[..3] == body[..3];
  }

  /** After an opening fence line, text that does not end in a fence is kept
      whole: only the opening line is removed. */
  lemma UnclosedFenceKeepsRest(lang: string, rest: string)
    requires forall i :: 0 <= i < |lang| ==> lang[i] != '\n'
    requires |rest| > 0 && !IsSpace(rest[|rest| - 1]) && !EndsWith(rest, FENCE)
    ensures StripFence(FENCE + lang + "\n" + rest) == Success(rest)
  {
    var raw := FENCE + lang + "\n" + rest;
    assert raw[0] == '`' && raw[|raw| - 1] == rest[|rest| - 1];
    TrimIdentity(raw);
    assert FENCE <= raw;
    var k := |FENCE + lang|;
    assert raw[k] == '\n';
    assert FirstIndexOf(raw, {'\n'}) == Some(k) by {
      assert forall j :: 0 <= j < k ==> raw[j] == (FENCE + lang)[j];
    }
    assert raw[k + 1..] == rest;
  }
}
