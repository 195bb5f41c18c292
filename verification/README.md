# TOEFL question-set schema, modelled in Dafny

The TOEFL generator defines a schema for reading question sets in
`config.py`. `BaseQuestionSet.model_validate_json` applies it to stored
JSON question sets (agents/quality_assurance.py:71,
tests/quality_assurance_test.py:22). The schema is a union of four
question models, and the `question_type` tag decides which one applies:

- **StandardQuestion** is selected by five tags: "Factual Information",
  "Negative Factual Information", "Inference", "Rhetorical Purpose" and
  "Vocabulary-in-Context".
- **SentenceSimplificationQuestion** is selected by "Sentence Simplification".
- **InsertTextQuestion** is selected by "Insert Text".
- **ProseSummaryQuestion** is selected by "Prose Summary".

A question set is `{"questions": [...]}`, and each element of the array is
one of these questions. This project models that validation, starting
from an already-decoded JSON value. Each element is dispatched on its tag.
`Validation.DispatchMatchesPlainUnion` proves that this dispatch accepts
the same elements, with the same results, as a plain union of the four
models. The model covers:

- dispatch on the tag;
- required and defaulted fields;
- exact list lengths;
- the answer shape of each variant;
- the dump back to JSON.

Files and modules:

- `wrappers.dfy` (`Wrappers`): `Option` and a `Result` whose `Failure`
  stands for the library's validation error.
- `json.dfy` (`JsonValues`): decoded JSON values, and reading an array of
  strings.
- `questions.dfy` (`Questions`): the tag set, the four variants, the
  question set, the default texts and the `WellFormed` invariant.
- `fields.dfy` (`Fields`): the library's rules for one `str` or
  `List[str]` field, with a default and `min_items`/`max_items`.
- `encoding.dfy` (`Encoding`): dumping a question or set back to JSON.
- `validation.dfy` (`Validation`): the validator. It also has a
  declarative `Conforms` schema, which the validator is proved equal to,
  and the lemmas.

Facts about `config.py` that the model keeps:

- The schema recognises eight tags: five standard tags and three others.
- No rule relates `answer` to `options`.
- An Insert Text `options` list may have any length. Only its default is
  the four labels "1" to "4".
- Nothing checks that an Insert Text question contains the markers [1]
  to [4].

## Model

| member | source | states |
|---|---|---|
| Questions.ParseQuestionType | config.py:28-60 | A tag selects a question type exactly when it is one of the eight known tags, and the selected type writes back as that same tag |
| Questions.ParseTypeName | config.py:28-60 | Every question type is selected by its own tag, so no two variants share a tag |
| Questions.TypeName | config.py:28-60 | Every tag written is a known one, and it is a standard tag exactly for the five standard types |
| JsonValues.AsStrings | config.py:22 | A `List[str]` value is accepted exactly when every element is a string; the strings come back in order and with the same count |
| JsonValues.AsStringsOfStringArray | config.py:22 | Reading back a dumped string list gives the same list |
| Fields.StrField | config.py:42-46 | A `str` field takes the supplied string, or its default when the key is absent; a missing required key or a non-string fails |
| Fields.StrListField | config.py:36 | A `List[str]` field is accepted when it holds only strings and its length is within `min_items`/`max_items`, or when it is absent and has a default |
| Validation.Discriminate | config.py:77-80 | The discriminator selects a type exactly for an object whose `question_type` is a known tag, and the type selected is the one for that tag |
| Validation.ValidateStandard | config.py:25-37 | A StandardQuestion is accepted exactly when `question` is a string, `options` is four strings and `answer` is a string; the result keeps its tag and is well-formed |
| Validation.ValidateSentenceSimplification | config.py:40-48 | Accepted exactly when `highlighted_sentence` is a string, `question` is absent or a string, `options` is four strings and `answer` is a string; the result is well-formed |
| Validation.ValidateInsertText | config.py:51-56 | Accepted exactly when `sentence_to_insert`, `question` and `answer` are strings and `options` is absent or a list of strings of any length; absent options become the four labels |
| Validation.ValidateProseSummary | config.py:59-68 | Accepted exactly when `introductory_sentence` is a string, `question` is absent or a string, `options` is six strings and `answer` is three strings; the result is well-formed |
| Validation.ValidateAs | config.py:71-76 | Validating against a variant produces a question of that variant that satisfies the variant's length and answer-shape rules |
| Validation.ValidateQuestion | config.py:71-80 | A validated element had a known tag, the result is of the variant for that tag, and the result is well-formed |
| Validation.ValidateAll | config.py:78 | The array is accepted exactly when every element is; the result has the same length, and element i comes from input element i |
| Validation.ValidateQuestionSet | config.py:77-80 | A set is accepted exactly when the payload has a `questions` array whose elements all validate; the set keeps their order and count, with no partial result |
| Validation.ValidateQuestionMatchesSchema | config.py:25-68 | The validator accepts exactly the elements that satisfy the field-by-field schema of their tag |
| Validation.ValidatedFieldsComeFromInputOrDefaults | config.py:43-65 | Every field of a validated question is the supplied value unchanged, or the variant's default when the key was absent |
| Validation.MissingRequiredFieldFails | config.py:35-68 | Leaving out any key the selected variant has no default for rejects the element |
| Validation.UndeclaredKeysIgnored | config.py:18 | Adding a key that the selected variant does not declare does not change the outcome, even when another variant declares that key |
| Validation.DispatchMatchesPlainUnion | config.py:71-80 | An element is accepted exactly when one of the four models, tag literal included, accepts it, and the result is that model's |
| Validation.TagSelectsVariant | config.py:28-60 | The five standard tags give a StandardQuestion, and each of the other three tags gives its own variant |
| Validation.UnknownTagRejectsSet | config.py:77-80 | One element with a missing, non-string or unknown tag makes the whole set fail |
| Validation.OptionCountEnforced | config.py:36-67 | Standard and Sentence Simplification questions are accepted only with four options, and Prose Summary only with six |
| Validation.AnswerShapeFollowsVariant | config.py:37-68 | A Prose Summary answer is a list of exactly three strings; every other variant's answer is a single string |
| Validation.InsertTextOptionsAnyLength | config.py:55 | Insert Text keeps a supplied options list of any length |
| Validation.ProseSummaryAnswerMayRepeat | config.py:68 | A Prose Summary answer that repeats one option three times is accepted |
| Validation.InsertTextExample | config.py:51-56 | An Insert Text element without options validates to one question with the labels "1" to "4" and the answer "3" |
| Encoding.EncodeQuestion | tests/reading_question_test.py:50-54 | A dumped question has exactly its variant's keys, so `question_type`, `question`, `options` and `answer` are always present |
| Validation.ValidateEncodedQuestion | agents/quality_assurance.py:49 | Validating the dump of a well-formed question gives back the same question |
| Validation.RevalidationIsIdentity | agents/quality_assurance.py:71 | Dumping a validated question and validating it again gives the same result |
| Encoding.EncodeQuestionSet | agents/quality_assurance.py:49 | The dump of a set is a `questions` array with one encoded question per question, in the same order |
| Validation.ValidateEncodedQuestionSet | agents/quality_assurance.py:49 | Validating the dump of a set of well-formed questions gives back the same set |

## Left out

- JSON text decoding is not modelled. The model starts from a decoded
  value. An object is a map, so how the decoder treats duplicate keys is
  not modelled.
- Error messages and error collection are not modelled. The library
  raises one validation error that lists every problem; the model only
  says `Failure`.
- Numbers are kept as a mantissa and exponent with no arithmetic. No
  field of the schema accepts a number, and the model assumes the
  library's JSON mode does not turn numbers into strings.
- The `GeminiModel` enum (config.py:6-15) is left out. It is
  configuration that the schema does not use.
- `EvaluationResult` is imported by the quality-assurance agent but is
  not defined in `config.py`, so it is not part of this model.
- The model calls, prompt assembly, few-shot example loading, the command
  line and web front-ends, and the thought-process file copying are left
  out. They are network, file and display I/O.
- Dispatch is modelled per element on `question_type`. In `config.py` the
  `discriminator` is attached to the list field (config.py:78), not to
  the union itself. The model assumes the library applies it to each
  element, or ignores it and falls back to a plain union. It does not model
  a library version that rejects the declaration when the class is defined.
  The two readings accept the same elements because the four tag sets
  are disjoint; `Validation.DispatchMatchesPlainUnion` proves this.
- The question generator's `JsonOutputParser` (agents/reading_question.py:21)
  returns the decoded JSON without applying the schema. The model covers
  only the schema itself, which `model_validate_json` applies.
