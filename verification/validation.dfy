/** The question-set validator: the discriminated union of the four
    question models, dispatched on `question_type`, and the set model that
    holds a list of them. */
module Validation {
  import opened Wrappers
  import opened JsonValues
  import opened Questions
  import opened Fields
  import opened Encoding

  /** The element is an object whose `question_type` is one of the known tags. */
  predicate HasKnownTag(v: Json) {
    && v.JObject?
    && "question_type" in v.fields
    && v.fields["question_type"].JString?
    && v.fields["question_type"].str in TypeNames
  }

  /** Discriminator lookup on one element of the `questions` array. A
      missing tag, a tag that is not a string, an unknown tag, or an element
      that is not an object selects nothing. */
  function Discriminate(v: Json): (r: Option<QuestionType>)
    ensures r.Some? <==> HasKnownTag(v)
    ensures r.Some? ==> v.fields["question_type"] == JString(TypeName(r.value))
  {
    if v.JObject? && "question_type" in v.fields && v.fields["question_type"].JString? then
      ParseQuestionType(v.fields["question_type"].str)
    else
      None
  }

  /** `StandardQuestion`: `question`, four `options` and a single `answer`,
      all required. */
  function ValidateStandard(t: StandardType, obj: map<string, Json>): (r: Result<Question>)
    ensures r.Success? <==> StandardShape(obj)
    ensures r.Success? ==> r.value.StandardQuestion? && r.value.standardType == t && WellFormed(r.value)
  {
    var question :- StrField(obj, "question", None);
    var options :- StrListField(obj, "options", Exactly(StandardOptionCount), None);
    var answer :- StrField(obj, "answer", None);
    Success(StandardQuestion(t, question, options, Single(answer)))
  }

  /** `SentenceSimplificationQuestion`: a required `highlighted_sentence`,
      the fixed `question` by default, four `options`, a single `answer`. */
  function ValidateSentenceSimplification(obj: map<string, Json>): (r: Result<Question>)
    ensures r.Success? <==> SentenceSimplificationShape(obj)
    ensures r.Success? ==> r.value.SentenceSimplificationQuestion? && WellFormed(r.value)
  {
    var sentence :- StrField(obj, "highlighted_sentence", None);
    var question :- StrField(obj, "question", Some(SentenceSimplificationPrompt));
    var options :- StrListField(obj, "options", Exactly(StandardOptionCount), None);
    var answer :- StrField(obj, "answer", None);
    Success(SentenceSimplificationQuestion(sentence, question, options, Single(answer)))
  }

  /** `InsertTextQuestion`: required `sentence_to_insert` and `question`,
      `options` of any length defaulting to the four labels, a single `answer`. */
  function ValidateInsertText(obj: map<string, Json>): (r: Result<Question>)
    ensures r.Success? <==> InsertTextShape(obj)
    ensures r.Success? ==> r.value.InsertTextQuestion? && WellFormed(r.value)
    ensures r.Success? && "options" !in obj ==> r.value.options == InsertionLabels
  {
    var sentence :- StrField(obj, "sentence_to_insert", None);
    var question :- StrField(obj, "question", None);
    var options :- StrListField(obj, "options", Unbounded, Some(InsertionLabels));
    var answer :- StrField(obj, "answer", None);
    Success(InsertTextQuestion(sentence, question, options, Single(answer)))
  }

  /** `ProseSummaryQuestion`: a required `introductory_sentence`, the fixed
      `question` by default, six `options` and an `answer` list of three. */
  function ValidateProseSummary(obj: map<string, Json>): (r: Result<Question>)
    ensures r.Success? <==> ProseSummaryShape(obj)
    ensures r.Success? ==> r.value.ProseSummaryQuestion? && WellFormed(r.value)
  {
    var sentence :- StrField(obj, "introductory_sentence", None);
    var question :- StrField(obj, "question", Some(ProseSummaryPrompt));
    var options :- StrListField(obj, "options", Exactly(ProseSummaryOptionCount), None);
    var answers :- StrListField(obj, "answer", Exactly(ProseSummaryAnswerCount), None);
    Success(ProseSummaryQuestion(sentence, question, options, Several(answers)))
  }

  /** Validates the fields of an object against the model of one variant. */
  function ValidateAs(t: QuestionType, obj: map<string, Json>): (r: Result<Question>)
    ensures r.Success? ==> r.value.Type() == t && WellFormed(r.value)
  {
    match t
    case Standard(st) => ValidateStandard(st, obj)
    case SentenceSimplification => ValidateSentenceSimplification(obj)
    case InsertText => ValidateInsertText(obj)
    case ProseSummary => ValidateProseSummary(obj)
  }

  /** One element of the union: dispatch on the tag, then validate the
      fields of the selected variant. Keys no variant declares are ignored. */
  function ValidateQuestion(v: Json): (r: Result<Question>)
    ensures r.Success? ==> HasKnownTag(v)
    ensures r.Success? ==> v.fields["question_type"] == JString(TypeName(r.value.Type()))
    ensures r.Success? ==> WellFormed(r.value)
  {
    match Discriminate(v)
    case Some(t) => ValidateAs(t, v.fields)
    case None => Failure
  }

  /** Validates every element of the array, keeping order; one invalid
      element rejects the whole array. */
  function ValidateAll(items: seq<Json>): (r: Result<seq<Question>>)
    ensures r.Success? <==> forall i :: 0 <= i < |items| ==> ValidateQuestion(items[i]).Success?
    ensures r.Success? ==> |r.value| == |items|
    ensures r.Success? ==> forall i :: 0 <= i < |items| ==> r.value[i] == ValidateQuestion(items[i]).value
  {
    if |items| == 0 then Success([])
    else
      var first :- ValidateQuestion(items[0]);
      var rest :- ValidateAll(items[1..]);
      Success([first] + rest)
  }

  /** The payload is an object with a `questions` key holding an array. */
  predicate HasQuestionsArray(v: Json) {
    v.JObject? && "questions" in v.fields && v.fields["questions"].JArray?
  }

  /** The question-set model: `{"questions": [...]}` to a question set. */
  function ValidateQuestionSet(v: Json): (r: Result<QuestionSet>)
    ensures r.Success? <==>
      && HasQuestionsArray(v)
      && forall i :: 0 <= i < |v.fields["questions"].items| ==>
           ValidateQuestion(v.fields["questions"].items[i]).Success?
    ensures r.Success? ==> |r.value.questions| == |v.fields["questions"].items|
    ensures r.Success? ==> forall i :: 0 <= i < |r.value.questions| ==>
      r.value.questions[i] == ValidateQuestion(v.fields["questions"].items[i]).value
  {
    if HasQuestionsArray(v) then
      var questions :- ValidateAll(v.fields["questions"].items);
      Success(QuestionSet(questions))
    else
      Failure
  }

  // ---------------------------------------------------------------------
  // The schema stated declaratively, field by field.

  predicate IsStr(obj: map<string, Json>, k: string) {
    k in obj && obj[k].JString?
  }

  predicate IsStrList(obj: map<string, Json>, k: string) {
    k in obj && obj[k].JArray? && forall i :: 0 <= i < |obj[k].items| ==> obj[k].items[i].JString?
  }

  predicate IsStrListOfLength(obj: map<string, Json>, k: string, n: nat) {
    IsStrList(obj, k) && |obj[k].items| == n
  }

  /** The keys a standard question must carry, with their shapes. */
  predicate StandardShape(obj: map<string, Json>) {
    IsStr(obj, "question") && IsStrListOfLength(obj, "options", StandardOptionCount) && IsStr(obj, "answer")
  }

  predicate SentenceSimplificationShape(obj: map<string, Json>) {
    && IsStr(obj, "highlighted_sentence")
    && ("question" !in obj || IsStr(obj, "question"))
    && IsStrListOfLength(obj, "options", StandardOptionCount)
    && IsStr(obj, "answer")
  }

  predicate InsertTextShape(obj: map<string, Json>) {
    && IsStr(obj, "sentence_to_insert")
    && IsStr(obj, "question")
    && ("options" !in obj || IsStrList(obj, "options"))
    && IsStr(obj, "answer")
  }

  predicate ProseSummaryShape(obj: map<string, Json>) {
    && IsStr(obj, "introductory_sentence")
    && ("question" !in obj || IsStr(obj, "question"))
    && IsStrListOfLength(obj, "options", ProseSummaryOptionCount)
    && IsStrListOfLength(obj, "answer", ProseSummaryAnswerCount)
  }

  /** What an element must look like to be accepted, per tag: required
      keys present with the right shape, defaulted keys absent or of the
      right shape, list lengths exact where the model bounds them. */
  predicate Conforms(v: Json) {
    && v.JObject?
    && IsStr(v.fields, "question_type")
    && var obj := v.fields;
       var tag := obj["question_type"].str;
       && tag in TypeNames
       && (tag in StandardTypeNames ==> StandardShape(obj))
       && (tag == "Sentence Simplification" ==> SentenceSimplificationShape(obj))
       && (tag == "Insert Text" ==> InsertTextShape(obj))
       && (tag == "Prose Summary" ==> ProseSummaryShape(obj))
  }

  /** The values a variant fills in for absent keys. */
  function Defaults(t: QuestionType): map<string, Json> {
    match t
    case Standard(_) => map[]
    case SentenceSimplification => map["question" := JString(SentenceSimplificationPrompt)]
    case InsertText => map["options" := JArray(StringArray(InsertionLabels))]
    case ProseSummary => map["question" := JString(ProseSummaryPrompt)]
  }

  /** The model of type `t`, tag literal included, accepts the element. */
  predicate AcceptedBy(v: Json, t: QuestionType) {
    && v.JObject?
    && "question_type" in v.fields
    && v.fields["question_type"] == JString(TypeName(t))
    && ValidateAs(t, v.fields).Success?
  }

  /** Keys a variant cannot do without. */
  function RequiredFields(t: QuestionType): set<string> {
    FieldNames(t) - Defaults(t).Keys
  }

  // ---------------------------------------------------------------------
  // Properties of the validator.

  /** The validator accepts exactly the elements the declarative schema describes. */
  lemma ValidateQuestionMatchesSchema(v: Json)
    ensures ValidateQuestion(v).Success? <==> Conforms(v)
  {
  }

  /** After validation every declared field holds the supplied value, or the
      variant's default when the key was absent; there is no other source. */
  lemma ValidatedFieldsComeFromInputOrDefaults(v: Json)
    requires ValidateQuestion(v).Success?
    ensures var q := ValidateQuestion(v).value;
      var t := q.Type();
      var out := EncodeQuestion(q).fields;
      forall k :: k in FieldNames(t) ==>
        && (k in v.fields || k in Defaults(t))
        && out[k] == (if k in v.fields then v.fields[k] else Defaults(t)[k])
  {
  }

  /** Leaving out a key the selected variant requires rejects the element. */
  lemma MissingRequiredFieldFails(v: Json, k: string)
    requires HasKnownTag(v)
    requires k in RequiredFields(Discriminate(v).value)
    requires k !in v.fields
    ensures ValidateQuestion(v).Failure?
  {
  }

  /** A key the selected variant does not declare does not influence
      validation, even when another variant declares it. */
  lemma UndeclaredKeysIgnored(v: Json, k: string, x: Json)
    requires HasKnownTag(v)
    requires k !in FieldNames(Discriminate(v).value)
    ensures ValidateQuestion(JObject(v.fields[k := x])) == ValidateQuestion(v)
  {
  }

  /** Dispatching on the tag accepts exactly what a plain union of the four
      models would accept, with the same result: each model accepts only its
      own tags, and no tag belongs to two models. */
  lemma DispatchMatchesPlainUnion(v: Json)
    ensures ValidateQuestion(v).Success? <==>
      exists t :: AcceptedBy(v, t)
    ensures forall t :: AcceptedBy(v, t) ==> ValidateQuestion(v) == ValidateAs(t, v.fields)
  {
    if ValidateQuestion(v).Success? {
      assert AcceptedBy(v, Discriminate(v).value);
    }
    forall t | AcceptedBy(v, t)
      ensures ValidateQuestion(v) == ValidateAs(t, v.fields)
    {
      ParseTypeName(t);
    }
  }

  /** Validating the dump of a well-formed question gives that question back. */
  lemma ValidateEncodedQuestion(q: Question)
    requires WellFormed(q)
    ensures ValidateQuestion(EncodeQuestion(q)) == Success(q)
  {
    ParseTypeName(q.Type());
    AsStringsOfStringArray(q.options);
    if q.ProseSummaryQuestion? {
      AsStringsOfStringArray(q.answer.texts);
    }
  }

  /** Dumping a validated question and validating it again changes nothing. */
  lemma RevalidationIsIdentity(v: Json)
    requires ValidateQuestion(v).Success?
    ensures ValidateQuestion(EncodeQuestion(ValidateQuestion(v).value)) == ValidateQuestion(v)
  {
    ValidateEncodedQuestion(ValidateQuestion(v).value);
  }

  /** Validating the dump of a question set of well-formed questions gives it back. */
  lemma ValidateEncodedQuestionSet(s: QuestionSet)
    requires forall i :: 0 <= i < |s.questions| ==> WellFormed(s.questions[i])
    ensures ValidateQuestionSet(EncodeQuestionSet(s)) == Success(s)
  {
    var items := EncodeQuestionSet(s).fields["questions"].items;
    forall i | 0 <= i < |items|
      ensures ValidateQuestion(items[i]) == Success(s.questions[i])
    {
      ValidateEncodedQuestion(s.questions[i]);
    }
    var r := ValidateQuestionSet(EncodeQuestionSet(s));
    assert r.Success?;
    assert r.value.questions == s.questions;
  }

  /** The tag decides the variant: the five standard tags give a standard
      question and each of the other three tags its own variant. */
  lemma TagSelectsVariant(v: Json)
    requires ValidateQuestion(v).Success?
    ensures var q := ValidateQuestion(v).value;
      var tag := v.fields["question_type"].str;
      && (q.StandardQuestion? <==> tag in StandardTypeNames)
      && (q.SentenceSimplificationQuestion? <==> tag == "Sentence Simplification")
      && (q.InsertTextQuestion? <==> tag == "Insert Text")
      && (q.ProseSummaryQuestion? <==> tag == "Prose Summary")
  {
  }

  /** An element without a known tag makes the whole set fail; no partial
      set is produced. */
  lemma UnknownTagRejectsSet(v: Json, i: nat)
    requires HasQuestionsArray(v)
    requires i < |v.fields["questions"].items|
    requires !HasKnownTag(v.fields["questions"].items[i])
    ensures ValidateQuestionSet(v).Failure?
  {
  }

  /** Standard and Sentence Simplification questions accept exactly four
      options and Prose Summary exactly six; any other count is rejected. */
  lemma OptionCountEnforced(v: Json)
    requires HasKnownTag(v)
    requires Discriminate(v).value != InsertText
    requires "options" in v.fields && v.fields["options"].JArray?
    ensures ValidateQuestion(v).Success? ==>
      |v.fields["options"].items| == if Discriminate(v).value == ProseSummary then ProseSummaryOptionCount else StandardOptionCount
  {
  }

  /** The answer is a single string for three variants and a list of exactly
      three strings for Prose Summary. */
  lemma AnswerShapeFollowsVariant(v: Json)
    requires ValidateQuestion(v).Success?
    ensures var q := ValidateQuestion(v).value;
      && (q.ProseSummaryQuestion? ==> IsStrListOfLength(v.fields, "answer", ProseSummaryAnswerCount) && q.answer.Several?)
      && (!q.ProseSummaryQuestion? ==> IsStr(v.fields, "answer") && q.answer.Single?)
  {
  }

  /** Insert Text keeps a supplied options list whatever its length; only
      the default has four labels. */
  lemma InsertTextOptionsAnyLength(v: Json, options: seq<string>)
    requires v.JObject?
    requires "question_type" in v.fields && v.fields["question_type"] == JString("Insert Text")
    requires IsStr(v.fields, "sentence_to_insert") && IsStr(v.fields, "question") && IsStr(v.fields, "answer")
    requires "options" in v.fields && v.fields["options"] == JArray(StringArray(options))
    ensures ValidateQuestion(v).Success?
    ensures ValidateQuestion(v).value.options == options
  {
  }

  /** The Prose Summary answer list may repeat one option three times. */
  lemma ProseSummaryAnswerMayRepeat()
    ensures ValidateQuestion(JObject(map[
      "question_type" := JString("Prose Summary"),
      "introductory_sentence" := JString("S"),
      "options" := JArray(StringArray(["a", "b", "c", "d", "e", "f"])),
      "answer" := JArray(StringArray(["a", "a", "a"]))
    ])).Success?
  {
  }

  /** An Insert Text question without options is given the four labels. */
  lemma InsertTextExample()
    ensures ValidateQuestionSet(JObject(map["questions" := JArray([InsertTextPayload])]))
      == Success(QuestionSet([InsertTextQuestion("X", "...[1]...[2]...[3]...[4]...", InsertionLabels, Single("3"))]))
  {
    var item := InsertTextPayload;
    assert Discriminate(item) == Some(InsertText);
    assert ValidateQuestion(item) == Success(InsertTextQuestion("X", "...[1]...[2]...[3]...[4]...", InsertionLabels, Single("3")));
    var r := ValidateQuestionSet(JObject(map["questions" := JArray([item])]));
    assert r.Success?;
    assert r.value.questions == [InsertTextQuestion("X", "...[1]...[2]...[3]...[4]...", InsertionLabels, Single("3"))];
  }

  /** An Insert Text element that leaves `options` out. */
  const InsertTextPayload: Json := JObject(map[
    "question_type" := JString("Insert Text"),
    "sentence_to_insert" := JString("X"),
    "question" := JString("...[1]...[2]...[3]...[4]..."),
    "answer" := JString("3")
  ])
}
