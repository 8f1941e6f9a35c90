/**
 * The request side of one exercise call: the JSON template the model is asked
 * to complete (`build_prompt`), and the deterministic reply used whenever the
 * OpenAI call is not made (`generate_model_response`).
 */
module Prompt {
  import opened Wrappers
  import opened Json
  import opened Text
  import opened Models
  import opened Ordering
  import opened Coercion

  /** An optional row id as JSON: `None` becomes null. */
  function IdJson(id: Option<int>): Json {
    match id
    case None => JNull
    case Some(i) => JInt(i)
  }

  /** `{"id": opt.id, "text": opt.text}` */
  function OptionEntry(o: ExerciseOption): Json {
    JObj([("id", IdJson(o.id)), ("text", JStr(o.text))])
  }

  /** The options as the prompt and `options_json` list them, in the given order. */
  function OptionEntries(options: seq<ExerciseOption>): (r: seq<Json>)
    ensures |r| == |options|
    ensures forall i :: 0 <= i < |options| ==> r[i] == OptionEntry(options[i])
  {
    seq(|options|, i requires 0 <= i < |options| => OptionEntry(options[i]))
  }

  /** `[opt.id for opt in options]` */
  function OptionIds(options: seq<ExerciseOption>): (r: seq<Json>)
    ensures |r| == |options|
    ensures forall i :: 0 <= i < |options| ==> r[i] == IdJson(options[i].id)
  {
    seq(|options|, i requires 0 <= i < |options| => IdJson(options[i].id))
  }

  /** The `response` part of the template for each answer type. */
  function ResponseTemplate(t: AnswerType, options: seq<ExerciseOption>): (r: Json)
    ensures r.JObj? && |r.members| >= 1 && r.members[0].0 == AnswerKey(t)
    ensures r.members[0].1.JStr?
    ensures t == SingleChoice || t == Ranking <==> |r.members| == 2
    ensures |r.members| == 2 ==> r.members[1] == ("options", JArr(OptionEntries(options)))
  {
    match t
    case FreeText => JObj([("text", JStr("<fill with concise answer text>"))])
    case TrueFalse => JObj([("value", JStr("true or false"))])
    case SingleChoice =>
      JObj([("selected_option_id", JStr("id from provided options")),
            ("options", JArr(OptionEntries(options)))])
    case Ranking =>
      JObj([("ordered_option_ids", JStr("array of option ids ordered best to worst (or as requested)")),
            ("options", JArr(OptionEntries(options)))])
  }

  /** The JSON template sent to the model for one exercise. */
  function BuildPrompt(ex: Exercise, options: seq<ExerciseOption>): (p: Json)
    ensures p.JObj? && |p.members| == 5
  {
    JObj([("question", JStr(ex.questionText)),
          ("answer_type", JStr(AnswerTypeCode(ex.answerType))),
          ("options", JArr(OptionEntries(options))),
          ("response", ResponseTemplate(ex.answerType, options)),
          ("instructions", JStr("Return ONLY JSON. Do not include explanations."))])
  }

  /** The prompt carries the question text. */
  lemma PromptQuestion(ex: Exercise, options: seq<ExerciseOption>)
    ensures Lookup(BuildPrompt(ex, options).members, "question") == Some(JStr(ex.questionText))
  {
    LookupAt(BuildPrompt(ex, options).members, 0);
  }

  /** The prompt carries the answer type's code. */
  lemma PromptAnswerType(ex: Exercise, options: seq<ExerciseOption>)
    ensures Lookup(BuildPrompt(ex, options).members, "answer_type") == Some(JStr(AnswerTypeCode(ex.answerType)))
  {
    LookupAt(BuildPrompt(ex, options).members, 1);
  }

  /** The prompt lists the options, holds the response template for the
      answer type and the instruction to answer in JSON only. */
  lemma PromptBody(ex: Exercise, options: seq<ExerciseOption>)
    ensures var p := BuildPrompt(ex, options);
            && Lookup(p.members, "options") == Some(JArr(OptionEntries(options)))
            && Lookup(p.members, "response") == Some(ResponseTemplate(ex.answerType, options))
            && Lookup(p.members, "instructions") == Some(JStr("Return ONLY JSON. Do not include explanations."))
  {
    var members := BuildPrompt(ex, options).members;
    LookupAt(members, 2);
    LookupAt(members, 3);
    LookupAt(members, 4);
  }

  /** The template asks for exactly the key the coercion reads back: its
      response section is a non-empty dict holding AnswerKey(t). */
  lemma TemplateAsksForAnswerKey(t: AnswerType, options: seq<ExerciseOption>)
    ensures ResponseTemplate(t, options).JObj?
    ensures Truthy(ResponseTemplate(t, options))
    ensures Lookup(ResponseTemplate(t, options).members, AnswerKey(t)).Some?
  {
  }

  /** A reply that keeps the template's shape (the model filled the fields in
      place, or echoed the template) is read without a parse failure. */
  lemma EchoedPromptParses(ex: Exercise, options: seq<ExerciseOption>)
    ensures Coerce(ex.answerType, Returned(BuildPrompt(ex, options))).parseSuccess
  {
    var p := BuildPrompt(ex, options);
    PromptBody(ex, options);
    TemplateAsksForAnswerKey(ex.answerType, options);
    assert WellShaped(p);
  }

  /** A key counts as set when it is present and not empty. */
  predicate KeySet(key: Option<string>) {
    key.Some? && key.value != ""
  }

  /** The deterministic sample reply used instead of a provider call. */
  function FallbackReply(t: AnswerType, options: seq<ExerciseOption>): Json {
    match t
    case FreeText => JObj([("response", JObj([("text", JStr(""))]))])
    case TrueFalse => JObj([("response", JObj([("value", JBool(true))]))])
    case SingleChoice =>
      JObj([("response", JObj([("selected_option_id", if options == [] then JNull else IdJson(options[0].id))]))])
    case Ranking =>
      JObj([("response", JObj([("ordered_option_ids", JArr(OptionIds(SortBy(options, Position))))]))])
  }

  /** The provider reply: the OpenAI call's outcome `openai` when the provider
      is `openai` and its key is set, the fallback reply otherwise. */
  function GenerateModelResponse(provider: string, settings: Settings, ex: Exercise,
                                 options: seq<ExerciseOption>, openai: Reply): (r: Reply)
    ensures provider == "openai" && KeySet(settings.openaiKey) ==> r == openai
    ensures r.Threw? ==> provider == "openai" && KeySet(settings.openaiKey)
    ensures !(provider == "openai" && KeySet(settings.openaiKey)) ==>
              r == Returned(FallbackReply(ex.answerType, options))
  {
    if provider == "openai" && KeySet(settings.openaiKey) then openai
    else Returned(FallbackReply(ex.answerType, options))
  }

  /** The fallback reply is `{"response": {<answer key>: value}}`, with the
      key the coercion reads for the answer type. */
  lemma FallbackReplyShape(t: AnswerType, options: seq<ExerciseOption>)
    ensures var r := FallbackReply(t, options);
            && r.JObj? && |r.members| == 1 && r.members[0].0 == "response"
            && r.members[0].1.JObj? && |r.members[0].1.members| == 1 && r.members[0].1.members[0].0 == AnswerKey(t)
  {
  }

  /** The fallback reply is well shaped, and its section is the inner
      object. */
  lemma FallbackSection(t: AnswerType, options: seq<ExerciseOption>)
    ensures WellShaped(FallbackReply(t, options))
    ensures Section(FallbackReply(t, options)) == FallbackReply(t, options).members[0].1
  {
    var body := FallbackReply(t, options);
    FallbackReplyShape(t, options);
    assert Lookup(body.members, "response") == Some(body.members[0].1);
  }

  /** What the fallback reply coerces to: free text `""`, true/false `True`,
      single choice the first option's id (none without options), ranking the
      option ids sorted by position; it always parses. */
  lemma FallbackAnswers(t: AnswerType, options: seq<ExerciseOption>)
    ensures var r := Coerce(t, Returned(FallbackReply(t, options)));
            && r.parseSuccess
            && (t == FreeText ==> r.answer == NoAnswer.(text := Some("")))
            && (t == TrueFalse ==> r.answer == NoAnswer.(boolean := Some(true)))
            && (t == SingleChoice ==>
                  r.answer == NoAnswer.(optionId := if options == [] || options[0].id.None? then None
                                                    else Some(JInt(options[0].id.value))))
            && (t == Ranking ==> r.answer == NoAnswer.(ranking := Some(OptionIds(SortBy(options, Position)))))
  {
    FallbackSection(t, options);
    CoerceWellShaped(t, FallbackReply(t, options));
    if t == FreeText {
      StripOfTrimmed("");
    }
  }

  /** When the options already come in position order, as the executor loads
      them, the fallback ranking lists their ids in that same order. */
  lemma FallbackRankingOfOrderedOptions(options: seq<ExerciseOption>)
    requires SortedBy(options, Position)
    ensures Coerce(Ranking, Returned(FallbackReply(Ranking, options))).answer.ranking == Some(OptionIds(options))
  {
    SortBySorted(options, Position);
    FallbackAnswers(Ranking, options);
  }
}
