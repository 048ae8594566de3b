/**
 * The row-to-entity mappers and the exam statistics of src/components/admin/utils.ts.
 */
module AdminUtils {
  import opened Wrappers
  import opened AdminTypes

  /** JavaScript's `x || ""` on a nullable string: null and "" give "", anything else itself. */
  function OrEmpty(x: Option<string>): (s: string)
    ensures s == "" <==> (x == None || x == Some(""))
    ensures x.Some? ==> s == x.value
  {
    match x
    case None => ""
    case Some(v) => if v == "" then "" else v
  }

  /** `mapDatabaseQuestionToQuestion`: a field-by-field copy, with `correct_answer` kept
      zero-based and a missing explanation read as the empty string. */
  function MapDatabaseQuestionToQuestion(row: QuestionRow): (q: Question)
    ensures q.id == row.id && q.text == row.text && q.options == row.options && q.exam_id == row.exam_id
    ensures q.correctAnswer == row.correct_answer
    ensures q.explanation == "" <==> (row.explanation == None || row.explanation == Some(""))
    ensures row.explanation.Some? ==> q.explanation == row.explanation.value
    ensures q.created_at == Some(row.created_at) && q.updated_at == Some(row.updated_at)
  {
    Question(
      row.id, row.text, row.options, row.correct_answer, OrEmpty(row.explanation),
      Some(row.created_at), Some(row.updated_at), row.exam_id)
  }

  /** `mapDatabaseExamToExam`: copies the row and starts the exam with no recorded attempts
      and no questions (questions are fetched and attached separately). */
  function MapDatabaseExamToExam(row: ExamRow): (e: Exam)
    ensures e.id == row.id && e.title == row.title && e.examType == row.examType
    ensures e.year == row.year && e.subject == row.subject && e.status == row.status
    ensures e.created_at == Some(row.created_at) && e.updated_at == Some(row.updated_at)
    ensures e.created_by == row.created_by
    ensures e.attempts == 0 && e.questions == []
  {
    Exam(
      row.id, row.title, row.examType, row.year, row.subject, 0, row.status, [],
      Some(row.created_at), Some(row.updated_at), row.created_by)
  }

  /** `calculateExamStats`: only the question count is computed; the other three figures
      are fixed placeholders. */
  function CalculateExamStats(exam: Exam): (st: ExamStats)
    ensures st.totalQuestions == |exam.questions|
    ensures st.averageAttempts == "0" && st.successRate == "0%" && st.averageTime == "0 min"
  {
    ExamStats(|exam.questions|, "0", "0%", "0 min")
  }

  /** A question whose stored answer is a valid index stays valid after mapping: the
      mapper never shifts the index. */
  lemma MappedAnswerStaysValid(row: QuestionRow)
    requires 0 <= row.correct_answer < |row.options|
    ensures var q := MapDatabaseQuestionToQuestion(row);
      0 <= q.correctAnswer < |q.options| && q.options[q.correctAnswer] == row.options[row.correct_answer]
  {
  }

  /** The statistics of a freshly mapped exam always report zero questions. */
  lemma FreshExamStats(row: ExamRow)
    ensures CalculateExamStats(MapDatabaseExamToExam(row)) == ExamStats(0, "0", "0%", "0 min")
  {
  }
}
