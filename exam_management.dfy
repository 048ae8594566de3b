/**
 * Creating an exam from the admin back office (`handleAddExam` in
 * src/components/admin/ExamManagement.tsx). The hosted service is outside the model: the
 * current session is an input (the signed-in user's id, if any) and the insert request is
 * a function from the row sent to the row stored or the error reported.
 */
module ExamManagement {
  import opened Wrappers
  import opened AdminTypes
  import opened AdminUtils

  /** The values the exam form submits. */
  datatype ExamFormData = ExamFormData(title: string, examType: string, year: string, subject: string)

  /** The row sent to the `exams` table; an absent `year` or `subject` is left out of the
      request and so stored as null. */
  datatype ExamInsert = ExamInsert(
    title: string, examType: string, year: Option<string>, subject: Option<string>,
    status: string, created_by: string)

  datatype DbError = DbError(message: string)

  /** The notification `handleAddExam` ends with. */
  datatype AddExamNotice = SignInRequired | ExamAdded | AddExamFailed

  /** What one call of `handleAddExam` does: the insert it issues, if any, the exam it
      passes to `onExamAdded`, if it calls it (at most once), and its notification. */
  datatype AddExamOutcome = AddExamOutcome(
    inserted: Option<ExamInsert>, added: Option<Exam>, notice: AddExamNotice)

  /** The insert row: title and type from the form, then `year` for a historical exam and
      `subject` for any other type (never both), status "active", owned by the user. */
  function InsertRow(data: ExamFormData, userId: string): (r: ExamInsert)
    ensures r.title == data.title && r.examType == data.examType
    ensures r.status == "active" && r.created_by == userId
    ensures r.year.Some? <==> data.examType == Historical
    ensures r.subject.Some? <==> data.examType != Historical
    ensures r.year.Some? ==> r.year.value == data.year
    ensures r.subject.Some? ==> r.subject.value == data.subject
  {
    if data.examType == Historical then
      ExamInsert(data.title, data.examType, Some(data.year), None, "active", userId)
    else
      ExamInsert(data.title, data.examType, None, Some(data.subject), "active", userId)
  }

  /** `handleAddExam`: without a session, refuse before touching the database; otherwise
      insert the row and, on success, hand the mapped exam to `onExamAdded`, or, on an
      error, only report the failure. */
  method HandleAddExam(data: ExamFormData, session: Option<string>, insert: ExamInsert -> Result<ExamRow, DbError>)
    returns (o: AddExamOutcome)
    ensures session.None? ==> o == AddExamOutcome(None, None, SignInRequired)
    ensures session.Some? ==> o.inserted == Some(InsertRow(data, session.value))
    ensures session.Some? && insert(InsertRow(data, session.value)).Success? ==>
      o.added == Some(MapDatabaseExamToExam(insert(InsertRow(data, session.value)).value)) && o.notice == ExamAdded
    ensures session.Some? && insert(InsertRow(data, session.value)).Failure? ==>
      o.added == None && o.notice == AddExamFailed
    ensures o.added.Some? <==> o.notice == ExamAdded
    ensures o.added.Some? ==> o.added.value.attempts == 0 && o.added.value.questions == []
  {
    if session.None? {
      return AddExamOutcome(None, None, SignInRequired);
    }
    var row := InsertRow(data, session.value);
    var result := insert(row);
    if result.Failure? {
      return AddExamOutcome(Some(row), None, AddExamFailed);
    }
    var newExam := MapDatabaseExamToExam(result.value);
    o := AddExamOutcome(Some(row), Some(newExam), ExamAdded);
  }

  /** The database stored exactly what was sent: omitted columns are null and the
      identifier and timestamps are the database's own. */
  predicate Stores(sent: ExamInsert, row: ExamRow)
  {
    && row.title == sent.title && row.examType == sent.examType
    && row.year == sent.year && row.subject == sent.subject
    && row.status == sent.status && row.created_by == Some(sent.created_by)
  }

  /** Round trip: an exam created from the form and read back through the mapper has the
      form's title and type, is active, belongs to the user, and carries exactly one of
      `year` / `subject`, the one its type selects, with the form's value. */
  lemma CreatedExamKeepsDiscriminant(data: ExamFormData, userId: string, row: ExamRow)
    requires Stores(InsertRow(data, userId), row)
    ensures var e := MapDatabaseExamToExam(row);
      && e.title == data.title && e.examType == data.examType
      && e.status == "active" && e.created_by == Some(userId)
      && (data.examType == Historical ==> e.year == Some(data.year) && e.subject == None)
      && (data.examType != Historical ==> e.subject == Some(data.subject) && e.year == None)
  {
  }
}
