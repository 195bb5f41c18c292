/** Serialising a validated question set back to JSON, as the schema
    library's dump does before the set is handed to the quality-assurance
    prompt: every declared field is written, defaulted ones included. */
module Encoding {
  import opened JsonValues
  import opened Questions

  function EncodeAnswer(a: Answer): Json {
    match a
    case Single(text) => JString(text)
    case Several(texts) => JArray(StringArray(texts))
  }

  /** The JSON object of a question: exactly the keys its variant declares,
      so `question_type`, `question`, `options` and `answer` are always there. */
  function EncodeQuestion(q: Question): (j: Json)
    ensures j.JObject?
    ensures j.fields.Keys == FieldNames(q.Type())
    ensures j.fields["question_type"] == JString(TypeName(q.Type()))
  {
    var common := map[
      "question_type" := JString(TypeName(q.Type())),
      "question" := JString(q.question),
      "options" := JArray(StringArray(q.options)),
      "answer" := EncodeAnswer(q.answer)
    ];
    JObject(
      match q
      case StandardQuestion(_, _, _, _) => common
      case SentenceSimplificationQuestion(sentence, _, _, _) => common["highlighted_sentence" := JString(sentence)]
      case InsertTextQuestion(sentence, _, _, _) => common["sentence_to_insert" := JString(sentence)]
      case ProseSummaryQuestion(sentence, _, _, _) => common["introductory_sentence" := JString(sentence)]
    )
  }

  /** `{"questions": [...]}` with the questions encoded in order. */
  function EncodeQuestionSet(s: QuestionSet): (j: Json)
    ensures j.JObject? && "questions" in j.fields && j.fields["questions"].JArray?
    ensures |j.fields["questions"].items| == |s.questions|
    ensures forall i :: 0 <= i < |s.questions| ==> j.fields["questions"].items[i] == EncodeQuestion(s.questions[i])
  {
    JObject(map["questions" := JArray(seq(|s.questions|, i requires 0 <= i < |s.questions| => EncodeQuestion(s.questions[i])))])
  }
}
