/** The question-set data model: the four question variants of a TOEFL
    reading set, the closed set of `question_type` tags that selects them,
    and the shape every validated question keeps. */
module Questions {
  import opened Wrappers

  /** The five tags that all select the standard four-option question. */
  datatype StandardType =
    | FactualInformation
    | NegativeFactualInformation
    | Inference
    | RhetoricalPurpose
    | VocabularyInContext

  /** The discriminator: which variant a question is, and for a standard
      question which of its five tags it carries. */
  datatype QuestionType =
    | Standard(standardType: StandardType)
    | SentenceSimplification
    | InsertText
    | ProseSummary

  /** The `answer` field: one option text, or (Prose Summary) a list of texts. */
  datatype Answer = Single(text: string) | Several(texts: seq<string>)

  /** A validated question. `question`, `options` and `answer` are the fields
      every variant shares with the common base model; each variant adds one
      field of its own. */
  datatype Question =
    | StandardQuestion(standardType: StandardType, question: string, options: seq<string>, answer: Answer)
    | SentenceSimplificationQuestion(highlightedSentence: string, question: string, options: seq<string>, answer: Answer)
    | InsertTextQuestion(sentenceToInsert: string, question: string, options: seq<string>, answer: Answer)
    | ProseSummaryQuestion(introductorySentence: string, question: string, options: seq<string>, answer: Answer)
  {
    /** The variant this question was dispatched to. */
    function Type(): QuestionType {
      match this
      case StandardQuestion(t, _, _, _) => Standard(t)
      case SentenceSimplificationQuestion(_, _, _, _) => SentenceSimplification
      case InsertTextQuestion(_, _, _, _) => InsertText
      case ProseSummaryQuestion(_, _, _, _) => ProseSummary
    }
  }

  /** An ordered question set; order is presentation order, repeats allowed. */
  datatype QuestionSet = QuestionSet(questions: seq<Question>)

  /** Fixed `question` text of a Sentence Simplification question. */
  const SentenceSimplificationPrompt: string :=
    "Which of the sentences below best expresses the essential information in the highlighted sentence?"

  /** Fixed `question` text of a Prose Summary question. */
  const ProseSummaryPrompt: string :=
    "Complete the summary by selecting the THREE answer choices that express the most important ideas."

  /** Default `options` of an Insert Text question: the four insertion labels. */
  const InsertionLabels: seq<string> := ["1", "2", "3", "4"]

  /** Exact `options` length of standard and Sentence Simplification questions. */
  const StandardOptionCount: nat := 4
  /** Exact `options` length of a Prose Summary question. */
  const ProseSummaryOptionCount: nat := 6
  /** Exact `answer` length of a Prose Summary question. */
  const ProseSummaryAnswerCount: nat := 3

  /** Every tag the discriminator recognises. */
  const TypeNames: set<string> := {
    "Factual Information", "Negative Factual Information", "Inference",
    "Rhetorical Purpose", "Vocabulary-in-Context",
    "Sentence Simplification", "Insert Text", "Prose Summary"
  }

  /** The tags that select a standard question. */
  const StandardTypeNames: set<string> := {
    "Factual Information", "Negative Factual Information", "Inference",
    "Rhetorical Purpose", "Vocabulary-in-Context"
  }

  /** The `question_type` tag written for a question type. */
  function TypeName(t: QuestionType): (name: string)
    ensures name in TypeNames
    ensures name in StandardTypeNames <==> t.Standard?
  {
    match t
    case Standard(FactualInformation) => "Factual Information"
    case Standard(NegativeFactualInformation) => "Negative Factual Information"
    case Standard(Inference) => "Inference"
    case Standard(RhetoricalPurpose) => "Rhetorical Purpose"
    case Standard(VocabularyInContext) => "Vocabulary-in-Context"
    case SentenceSimplification => "Sentence Simplification"
    case InsertText => "Insert Text"
    case ProseSummary => "Prose Summary"
  }

  /** The discriminator lookup: the question type a tag selects, or None for
      a tag outside the closed set. Tags match exactly (case-sensitive). */
  function ParseQuestionType(tag: string): (r: Option<QuestionType>)
    ensures r.Some? <==> tag in TypeNames
    ensures r.Some? ==> TypeName(r.value) == tag
  {
    if tag == "Factual Information" then Some(Standard(FactualInformation))
    else if tag == "Negative Factual Information" then Some(Standard(NegativeFactualInformation))
    else if tag == "Inference" then Some(Standard(Inference))
    else if tag == "Rhetorical Purpose" then Some(Standard(RhetoricalPurpose))
    else if tag == "Vocabulary-in-Context" then Some(Standard(VocabularyInContext))
    else if tag == "Sentence Simplification" then Some(SentenceSimplification)
    else if tag == "Insert Text" then Some(InsertText)
    else if tag == "Prose Summary" then Some(ProseSummary)
    else None
  }

  /** The tag written for a type selects that type again, so distinct types
      have distinct tags and dispatch never confuses two variants. */
  lemma ParseTypeName(t: QuestionType)
    ensures ParseQuestionType(TypeName(t)) == Some(t)
  {
  }

  /** The JSON keys a question of the given type is made of: the four
      shared fields plus the variant's own field. */
  function FieldNames(t: QuestionType): set<string> {
    {"question_type", "question", "options", "answer"} +
    match t
    case Standard(_) => {}
    case SentenceSimplification => {"highlighted_sentence"}
    case InsertText => {"sentence_to_insert"}
    case ProseSummary => {"introductory_sentence"}
  }

  /** The schema constraints a validated question satisfies: the answer
      shape of its variant and the exact list lengths. Insert Text puts no
      bound on its options. */
  predicate WellFormed(q: Question) {
    match q
    case StandardQuestion(_, _, options, answer) =>
      |options| == StandardOptionCount && answer.Single?
    case SentenceSimplificationQuestion(_, _, options, answer) =>
      |options| == StandardOptionCount && answer.Single?
    case InsertTextQuestion(_, _, _, answer) =>
      answer.Single?
    case ProseSummaryQuestion(_, _, options, answer) =>
      |options| == ProseSummaryOptionCount && answer.Several? && |answer.texts| == ProseSummaryAnswerCount
  }
}
