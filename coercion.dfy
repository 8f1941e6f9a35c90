/**
 * Answer coercion: how `store_batch_item` turns one provider reply into the
 * typed answer columns of a BatchItem plus the `parse_success` flag. It never
 * fails; every exception Python would raise on the way is caught and only
 * clears `parse_success`.
 */
module Coercion {
  import opened Wrappers
  import opened Json
  import opened Text
  import opened Models

  /** What the provider call produced: a decoded reply, or an exception. */
  datatype Reply = Threw | Returned(body: Json)

  /** The four answer columns of a BatchItem. */
  datatype TypedAnswer = TypedAnswer(
    text: Option<string>,
    boolean: Option<bool>,
    optionId: Option<Json>,
    ranking: Option<seq<Json>>)

  const NoAnswer: TypedAnswer := TypedAnswer(None, None, None, None)

  datatype Coerced = Coerced(answer: TypedAnswer, parseSuccess: bool)

  /** No column other than the one for `t` is set. */
  predicate OnlyFieldOf(a: TypedAnswer, t: AnswerType) {
    && (t != FreeText ==> a.text.None?)
    && (t != TrueFalse ==> a.boolean.None?)
    && (t != SingleChoice ==> a.optionId.None?)
    && (t != Ranking ==> a.ranking.None?)
  }

  /** The key of the response section that carries the answer of type `t`. */
  function AnswerKey(t: AnswerType): string {
    match t
    case FreeText => "text"
    case TrueFalse => "value"
    case SingleChoice => "selected_option_id"
    case Ranking => "ordered_option_ids"
  }

  const TrueWords: set<string> := {"true", "yes", "y"}
  const FalseWords: set<string> := {"false", "no", "n"}

  /** `response_json.get("response") or response_json.get("expected", {}).get("response", {})` */
  function ResponseSection(body: Json): Eval<Json> {
    match Get(body, "response", JNull)
    case Raises => Raises
    case Value(response) =>
      if Truthy(response) then Value(response)
      else
        match Get(body, "expected", EmptyObj)
        case Raises => Raises
        case Value(expected) => Get(expected, "response", EmptyObj)
  }

  /** The true/false normalisation: a string is stripped and lower-cased and
      matched against the yes and no words; any other value, including an
      unmatched string as it was given, is cast with `bool`; `None` stays
      `None`. */
  function NormalizeBool(v: Json): Option<bool> {
    if v == JNull then None
    else if v.JStr? then BoolWord(Lower(Strip(v.s)), v)
    else Some(Truthy(v))
  }

  /** Choosing the section: a non-dict reply raises; a truthy `response`
      is the section; without it and without `expected`, the section is the
      empty dict. */
  lemma ResponseSectionCases(body: Json)
    ensures !body.JObj? ==> ResponseSection(body) == Raises
    ensures body.JObj? && Lookup(body.members, "response").Some? && Truthy(Lookup(body.members, "response").value)
            ==> ResponseSection(body) == Value(Lookup(body.members, "response").value)
    ensures (body.JObj? && !Truthy(Lookup(body.members, "response").GetOr(JNull))
             && Lookup(body.members, "expected").None?) ==> ResponseSection(body) == Value(EmptyObj)
  {
  }

  /** The true/false reading: null is no answer; a string whose trimmed,
      lower-cased text is a yes word is true and a no word false; any other
      value is its truth value. */
  lemma NormalizeBoolCases(v: Json)
    ensures NormalizeBool(v).None? <==> v == JNull
    ensures v.JStr? && Lower(Strip(v.s)) in TrueWords ==> NormalizeBool(v) == Some(true)
    ensures v.JStr? && Lower(Strip(v.s)) in FalseWords ==> NormalizeBool(v) == Some(false)
    ensures v != JNull && !(v.JStr? && Lower(Strip(v.s)) in TrueWords + FalseWords) ==> NormalizeBool(v) == Some(Truthy(v))
  {
  }

  /** The answer for a string value whose stripped lower-case text is `w`. */
  function BoolWord(w: string, v: Json): Option<bool> {
    if w in TrueWords then Some(true)
    else if w in FalseWords then Some(false)
    else Some(Truthy(v))
  }

  /** Two values with the same word and the same truth value read alike. */
  lemma BoolWordOfTruth(w: string, x: Json, y: Json)
    requires Truthy(x) == Truthy(y)
    ensures BoolWord(w, x) == BoolWord(w, y)
  {
  }

  /** The body of the `try` block once the section has been chosen. */
  function Extract(t: AnswerType, section: Json): (r: Eval<TypedAnswer>)
    ensures r.Raises? <==> !section.JObj?
    ensures r.Value? ==> OnlyFieldOf(r.v, t)
  {
    var default := if t == FreeText then JStr("") else JNull;
    match Get(section, AnswerKey(t), default)
    case Raises => Raises
    case Value(field) =>
      match t
      case FreeText => Value(NoAnswer.(text := Some(Strip(Str(field)))))
      case TrueFalse => Value(NoAnswer.(boolean := NormalizeBool(field)))
      case SingleChoice => Value(NoAnswer.(optionId := if field == JNull then None else Some(field)))
      case Ranking => Value(NoAnswer.(ranking := if field.JArr? then Some(field.items) else None))
  }

  /** When extracting the answer does not raise: the reply is a dict; a truthy
      `response` in it is a dict; otherwise `expected`, when present, is a
      dict whose `response`, when present, is a dict. */
  predicate WellShaped(body: Json) {
    && body.JObj?
    && var response := Lookup(body.members, "response");
       if response.Some? && Truthy(response.value) then response.value.JObj?
       else
         match Lookup(body.members, "expected")
         case None => true
         case Some(expected) =>
           && expected.JObj?
           && match Lookup(expected.members, "response")
              case None => true
              case Some(inner) => inner.JObj?
  }

  /** The section a well-shaped reply is read from. */
  function Section(body: Json): (s: Json)
    requires WellShaped(body)
    ensures s.JObj?
  {
    var response := Lookup(body.members, "response");
    if response.Some? && Truthy(response.value) then response.value
    else
      match Lookup(body.members, "expected")
      case None => EmptyObj
      case Some(expected) => Lookup(expected.members, "response").GetOr(EmptyObj)
  }

  lemma ResponseSectionOf(body: Json)
    ensures ResponseSection(body).Value? && ResponseSection(body).v.JObj? <==> WellShaped(body)
    ensures WellShaped(body) ==> ResponseSection(body) == Value(Section(body))
  {
  }

  /** The typed answer and `parse_success` for a reply. */
  function Coerce(t: AnswerType, reply: Reply): (r: Coerced)
    ensures OnlyFieldOf(r.answer, t)
    ensures r.parseSuccess <==> reply.Returned? && WellShaped(reply.body)
    ensures reply.Threw? ==> r.answer == if t == FreeText then NoAnswer.(text := Some("")) else NoAnswer
    ensures reply.Returned? && !WellShaped(reply.body) ==> r.answer == NoAnswer
  {
    var body := if reply.Threw? then EmptyObj else reply.body;
    ResponseSectionOf(body);
    assert reply.Threw? ==> WellShaped(body) && Section(body) == EmptyObj;
    match ResponseSection(body)
    case Raises => Coerced(NoAnswer, false)
    case Value(section) =>
      match Extract(t, section)
      case Raises => Coerced(NoAnswer, false)
      case Value(a) => Coerced(a, reply.Returned?)
  }

  /** The value stored under `key` in a dict, or `default`. */
  function FieldOr(section: Json, key: string, default: Json): Json
    requires section.JObj?
  {
    Lookup(section.members, key).GetOr(default)
  }

  /** For a well-shaped reply, each answer type reads its own key of the
      chosen section: free text is `str(text)` stripped, `""` when absent;
      true/false is the normalised `value`; single choice is
      `selected_option_id` verbatim; a ranking is kept only when
      `ordered_option_ids` is a list, in the list's order. A missing or
      mistyped field never clears `parse_success`. */
  lemma CoerceWellShaped(t: AnswerType, body: Json)
    requires WellShaped(body)
    ensures var r := Coerce(t, Returned(body));
            var s := Section(body);
            && r.parseSuccess
            && (t == FreeText ==> r.answer.text == Some(Strip(Str(FieldOr(s, "text", JStr(""))))))
            && (t == TrueFalse ==> r.answer.boolean == NormalizeBool(FieldOr(s, "value", JNull)))
            && (t == SingleChoice ==>
                  r.answer.optionId == (if FieldOr(s, "selected_option_id", JNull) == JNull then None
                                        else Some(FieldOr(s, "selected_option_id", JNull))))
            && (t == Ranking ==>
                  r.answer.ranking == (if FieldOr(s, "ordered_option_ids", JNull).JArr?
                                       then Some(FieldOr(s, "ordered_option_ids", JNull).items) else None))
  {
    ResponseSectionOf(body);
  }

  /** A free-text answer never starts or ends with whitespace. */
  lemma FreeTextIsStripped(reply: Reply)
    ensures var a := Coerce(FreeText, reply).answer.text;
            a.Some? ==> a.value == [] || (!IsSpace(a.value[0]) && !IsSpace(a.value[|a.value| - 1]))
  {
    var body := if reply.Threw? then EmptyObj else reply.body;
    ResponseSectionOf(body);
  }

  /** The true/false answer is `None` exactly for JSON null or an absent value. */
  lemma NormalizeBoolNone(v: Json)
    ensures NormalizeBool(v).None? <==> v == JNull
  {
  }

  /** Matching the yes/no words ignores case. */
  lemma NormalizeBoolIgnoresCase(s: string)
    ensures NormalizeBool(JStr(s)) == NormalizeBool(JStr(Lower(s)))
  {
    LowerStripCommute(s);
    LowerIdempotent(Strip(s));
    assert Lower(Strip(Lower(s))) == Lower(Strip(s));
    BoolWordOfTruth(Lower(Strip(s)), JStr(s), JStr(Lower(s)));
  }

  lemma LowerIdempotent(s: string)
    ensures Lower(Lower(s)) == Lower(s)
  {
  }

  /** Surrounding whitespace does not change the answer, unless only
      whitespace is left after stripping: then the padded string is a
      non-empty string and counts as `True`, while `""` counts as `False`. */
  lemma NormalizeBoolIgnoresPadding(a: string, s: string, b: string)
    requires AllSpace(a) && AllSpace(b)
    ensures Strip(s) != [] ==> NormalizeBool(JStr(a + s + b)) == NormalizeBool(JStr(s))
    ensures Strip(s) == [] && a + s + b != [] ==> NormalizeBool(JStr(a + s + b)) == Some(true)
  {
    StripPadded(a, s, b);
    if Strip(s) != [] {
      BoolWordOfTruth(Lower(Strip(s)), JStr(a + s + b), JStr(s));
    } else {
      assert Lower(Strip(a + s + b)) == [];
    }
  }

  /** `{"response": {"value": "YES"}}` is the answer true. */
  lemma YesIsTrue()
    ensures Coerce(TrueFalse, Returned(JObj([("response", JObj([("value", JStr("YES"))]))])))
            == Coerced(NoAnswer.(boolean := Some(true)), true)
  {
    var section := JObj([("value", JStr("YES"))]);
    var body := JObj([("response", section)]);
    assert Lookup(body.members, "response") == Some(section);
    assert WellShaped(body) && Section(body) == section;
    assert FieldOr(section, "value", JNull) == JStr("YES");
    YesWord();
    CoerceWellShaped(TrueFalse, body);
  }

  lemma YesWord()
    ensures NormalizeBool(JStr("YES")) == Some(true)
  {
    StripOfTrimmed("YES");
    assert Lower("YES") == "yes";
  }

  /** A ranking list is kept as given, in its order. */
  lemma RankingIsKept()
    ensures Coerce(Ranking, Returned(JObj([("response", JObj([("ordered_option_ids", JArr([JInt(3), JInt(1), JInt(2)]))]))])))
            == Coerced(NoAnswer.(ranking := Some([JInt(3), JInt(1), JInt(2)])), true)
  {
    var section := JObj([("ordered_option_ids", JArr([JInt(3), JInt(1), JInt(2)]))]);
    var body := JObj([("response", section)]);
    assert Lookup(body.members, "response") == Some(section);
    assert WellShaped(body) && Section(body) == section;
    CoerceWellShaped(Ranking, body);
  }

  /** A reply whose decoded JSON value is a string rather than an object is a
      parse failure. (Undecodable OpenAI content never arrives here as a
      string: the OpenAI call wraps it as `{"response": {"text": ...}}`.) */
  lemma JsonStringReplyFails()
    ensures Coerce(FreeText, Returned(JStr("not json"))) == Coerced(NoAnswer, false)
  {
  }

  lemma PaddedParis()
    ensures Strip("  Paris \n") == "Paris"
  {
    assert AllSpace("  ") && AllSpace(" \n");
    assert "  Paris \n" == "  " + "Paris" + " \n";
    StripCharacterised("  ", "Paris", " \n");
  }

  /** The legacy `{"expected": {"response": ...}}` shape is read when there is
      no `response`, and free text is stripped. */
  lemma LegacyShapeIsRead()
    ensures Coerce(FreeText, Returned(JObj([("expected", JObj([("response", JObj([("text", JStr("  Paris \n"))]))]))])))
            == Coerced(NoAnswer.(text := Some("Paris")), true)
  {
    var section := JObj([("text", JStr("  Paris \n"))]);
    var expected := JObj([("response", section)]);
    var body := JObj([("expected", expected)]);
    assert Lookup(body.members, "response") == None;
    assert Lookup(body.members, "expected") == Some(expected);
    assert Lookup(expected.members, "response") == Some(section);
    assert WellShaped(body) && Section(body) == section;
    assert FieldOr(section, "text", JStr("")) == JStr("  Paris \n");
    PaddedParis();
    CoerceWellShaped(FreeText, body);
  }
}
