/**
 * The question editor of the admin back office (src/components/admin/QuestionForm.tsx):
 * its default values, its three option fields and the declared range of its answer field.
 * The form shows the answer one-based while questions store it zero-based.
 */
module QuestionForm {
  import opened Wrappers
  import opened JsNumber
  import opened AdminTypes
  import AdminUtils

  datatype FormValues = FormValues(
    questionText: string, options: seq<string>, correctAnswer: string, explanation: string)

  /** The option indices that get an input field. */
  const OptionFieldIndices: seq<int> := [0, 1, 2]

  /** The `min` and `max` attributes of the answer field. */
  const AnswerMin := 1
  const AnswerMax := 3

  /** `defaultValues`: a blank question with three empty options and answer "1" when
      creating; when editing, the question's own text, options and explanation, and its
      zero-based answer shown one-based. An options array, even an empty one, is truthy,
      so it is taken as given. */
  function DefaultValues(initialData: Option<Question>): (v: FormValues)
    ensures initialData.None? ==> v == FormValues("", ["", "", ""], "1", "")
    ensures initialData.Some? ==>
      && v.questionText == initialData.value.text
      && v.options == initialData.value.options
      && v.explanation == initialData.value.explanation
      && v.correctAnswer == ToDecimal(initialData.value.correctAnswer + 1)
      && ParseInt(v.correctAnswer) == Some(initialData.value.correctAnswer + 1)
  {
    match initialData
    case None => FormValues("", ["", "", ""], "1", "")
    case Some(q) =>
      ParseIntToDecimal(q.correctAnswer + 1);
      FormValues(
        AdminUtils.OrEmpty(Some(q.text)), q.options, ToDecimal(q.correctAnswer + 1),
        AdminUtils.OrEmpty(Some(q.explanation)))
  }

  /** Whether a value of the answer field lies within its declared `min`..`max`. */
  predicate InDeclaredRange(answer: string)
  {
    match ParseInt(answer)
    case None => false
    case Some(n) => AnswerMin <= n <= AnswerMax
  }

  /** The value a field named `options.k` starts with: the k-th default option, or nothing
      (`undefined`) when the options array has no k-th entry. */
  function OptionFieldDefault(v: FormValues, k: int): Option<string>
  {
    if 0 <= k < |v.options| then Some(v.options[k]) else None
  }

  /** The option fields are exactly indices 0, 1 and 2. A new question's three fields start
      empty. An edited question's field k starts with its k-th option, or with nothing when
      it has fewer options (the empty array included), and any option past the third keeps
      its value without a field to change it. */
  lemma OptionFieldsCoverThree(initialData: Option<Question>)
    ensures forall k :: k in OptionFieldIndices <==> 0 <= k < 3
    ensures initialData.None? ==>
      forall k :: k in OptionFieldIndices ==> OptionFieldDefault(DefaultValues(initialData), k) == Some("")
    ensures initialData.Some? ==>
      forall k :: k in OptionFieldIndices ==>
        OptionFieldDefault(DefaultValues(initialData), k)
          == (if k < |initialData.value.options| then Some(initialData.value.options[k]) else None)
    ensures initialData.Some? ==>
      forall k :: 3 <= k < |initialData.value.options| ==> k !in OptionFieldIndices
  {
  }

  /** The default answer lies within the declared range 1..3 exactly when the stored
      zero-based answer is 0, 1 or 2. */
  lemma DefaultAnswerInRangeIff(initialData: Option<Question>)
    ensures InDeclaredRange(DefaultValues(initialData).correctAnswer) <==>
      (initialData.None? || 0 <= initialData.value.correctAnswer <= 2)
  {
    if initialData.None? {
      ParseIntToDecimal(1);
      assert ToDecimal(1) == "1";
    }
  }

  /** Editing a stored question: the form shows its stored zero-based answer plus one. */
  lemma EditFormShowsAnswerOneBased(row: QuestionRow)
    ensures ParseInt(DefaultValues(Some(AdminUtils.MapDatabaseQuestionToQuestion(row))).correctAnswer)
      == Some(row.correct_answer + 1)
  {
  }
}
