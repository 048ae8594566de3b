/**
 * The exam and question entities of the admin back office (src/components/admin/types.ts)
 * and the shapes of the `exams` and `questions` rows the hosted database returns
 * (src/integrations/supabase/types.ts). Optional and nullable fields are `Option`s.
 * `type` is a reserved word in Dafny, so the exam's `type` field is `examType` here.
 */
module AdminTypes {
  import opened Wrappers
  import opened JsNumber

  /** A question as the application uses it; `correctAnswer` is a zero-based option index,
      held in a JavaScript number. */
  datatype Question = Question(
    id: int, text: string, options: seq<string>, correctAnswer: SafeInteger, explanation: string,
    created_at: Option<string>, updated_at: Option<string>, exam_id: Option<int>)

  /** An exam as the application uses it. The declared type of `examType` is
      "historical" | "subject", but nothing checks it at run time, so it is any string. */
  datatype Exam = Exam(
    id: int, title: string, examType: string, year: Option<string>, subject: Option<string>,
    attempts: int, status: string, questions: seq<Question>,
    created_at: Option<string>, updated_at: Option<string>, created_by: Option<string>)

  datatype ExamStats = ExamStats(
    totalQuestions: int, averageAttempts: string, successRate: string, averageTime: string)

  /** The exam type whose discriminating attribute is `year`; every other type uses `subject`. */
  const Historical := "historical"

  /** A row of the `questions` table. `options` is a JSON column that the application
      reads as an array of strings; `correct_answer` arrives as a JavaScript number. */
  datatype QuestionRow = QuestionRow(
    correct_answer: SafeInteger, created_at: string, exam_id: Option<int>, explanation: Option<string>,
    id: int, options: seq<string>, text: string, updated_at: string)

  /** A row of the `exams` table. */
  datatype ExamRow = ExamRow(
    created_at: string, created_by: Option<string>, id: int, status: string,
    subject: Option<string>, title: string, examType: string, updated_at: string,
    year: Option<string>)
}
