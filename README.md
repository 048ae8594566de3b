# Student legal hub: quiz, discussion board and exam entities in Dafny

A verified model of the parts of a bilingual (Arabic/English) study site for law students
that hold real logic:

- **The quiz screen** (`src/pages/ExamQuestions.tsx`). It walks a fixed table of 50
  multiple-choice questions one at a time. Each answer is graded with `parseInt`, the
  score grows on a correct answer, the last answer opens the results view, and a restart
  resets everything. Modelled as the pure transition `Step`, its fold `Run`, and the class
  `QuizSession` whose methods follow `Step` (module `ExamQuestions`).
- **The discussion board** (`src/pages/Discussions.tsx`). It is an in-memory list of
  discussions, newest first. The page can add a discussion, comment on one and like one.
  The list transforms are functions; the page state is the class `Board`. The invariant
  `WellNumbered` makes discussion ids unique and equal to 1..n, and every handler keeps it
  (module `Discussions`).
- **The exam/question entities of the admin back office**:
  - the entity types and database row shapes (`AdminTypes`);
  - the row-to-entity mappers and the exam statistics (`AdminUtils`);
  - the question editor's default values, option fields and answer range (`QuestionForm`);
  - the exam-creation handler (`ExamManagement`).
  The hosted database and auth service are inputs here: the session is an `Option` of the
  user id, and the insert request is a function from the row sent to a `Result`.
- The JavaScript built-ins the core depends on (`JsNumber`):
  - `parseInt` without a radix, following section 19.2.5 of ECMAScript 2024, with white-space
    trimming, sign, `0x` prefix and longest digit run;
  - `Number.prototype.toString` on the integers a JavaScript number holds exactly
    (|n| <= 2^53);
  - their round trip on those integers.

## Behaviour of the code worth knowing

- Every question of the quiz table has exactly three options.
- An exam's `type` is copied from the row as any string. Every type other than
  "historical" gets a `subject`.
- The question editor only declares `min`/`max` on the answer field. No minimum lengths
  are checked and no schema check runs before submission.
- Likes are kept in page memory. The like button under a comment calls the
  discussion-like handler with the comment's id, so it likes a discussion and never the
  comment.

## Model

| member | source | states |
|---|---|---|
| `ExamQuestions.TableIsWellFormed` | src/pages/ExamQuestions.tsx:16-317 | the question table has 50 rows, ids 1..50 in order, three options each, and every correct answer is option 0 or 1, hence a valid index |
| `ExamQuestions.IsCorrect` | src/pages/ExamQuestions.tsx:332 | grading by `parseInt(answer) === correctAnswer`: only an answer holding a decimal digit can be correct, and the decimal form of the answer index always is |
| `ExamQuestions.RadioChoiceCorrectIff` | src/pages/ExamQuestions.tsx:331-336 | choosing option k (submitted as `k.toString()`) counts as correct if and only if k is the question's `correctAnswer` |
| `ExamQuestions.NoDigitNeverCorrect` | src/pages/ExamQuestions.tsx:325-332 | an answer with no decimal digit, including the empty reset value, is never correct |
| `ExamQuestions.EmptyAnswerStillAdvances` | src/pages/ExamQuestions.tsx:331-342 | submitting the empty answer leaves the score unchanged and still moves to the next question or to the results |
| `ExamQuestions.Step` | src/pages/ExamQuestions.tsx:331-347 | one submission adds 1 to the score exactly when the answer is correct; before the last question it advances by one with the results hidden and no notification; on the last it stays there, shows the results and announces the score held before this answer |
| `ExamQuestions.Score` | src/pages/ExamQuestions.tsx:334-336 | the number of correct answers never exceeds the number of answers |
| `ExamQuestions.Run` | src/pages/ExamQuestions.tsx:320-347 | after k submissions from the start the score is the count of correct answers, the position is k (or n-1 once all n are answered) and the results show exactly when all n questions are answered |
| `ExamQuestions.RunAppend` | src/pages/ExamQuestions.tsx:331-342 | while fewer than n answers are in, the quiz is on a question within the table with the results hidden, and one more answer moves it exactly as one submission does |
| `ExamQuestions.FinalToastIsStale` | src/pages/ExamQuestions.tsx:341-346 | the end-of-quiz notification reports the score without the final answer, while the results view shows the full score; they differ exactly when the last answer is correct |
| `ExamQuestions.QuizSession.constructor` | src/pages/ExamQuestions.tsx:319-322 | the screen opens on the static table at question 0 with score 0 and the results hidden |
| `ExamQuestions.QuizSession.Submit` | src/pages/ExamQuestions.tsx:331-348 | `onSubmit` changes the three state fields exactly as `Step` says, returns the notified score, and keeps position within the table and score <= answers <= questions |
| `ExamQuestions.QuizSession.Restart` | src/pages/ExamQuestions.tsx:407-413 | restart sets question 0, score 0 and hides the results |
| `JsNumber.ParseInt` | src/pages/ExamQuestions.tsx:332 | `parseInt` of the empty string is NaN |
| `JsNumber.ToDecimal` | src/components/admin/QuestionForm.tsx:20 | for an integer of magnitude at most 2^53, `toString` gives a non-empty string that starts with "-" exactly for negatives, followed by decimal digits only, with a leading "0" exactly for zero |
| `JsNumber.ParseIntToDecimal` | src/components/admin/QuestionForm.tsx:20 | `parseInt(n.toString())` gives back n for every integer n of magnitude at most 2^53, where `toString` prints plain digits |
| `JsNumber.ParseMagnitudeOfDigits` | src/components/admin/QuestionForm.tsx:20 | a non-empty run of decimal digits is read back as the number it denotes |
| `JsNumber.ParseIntNeedsDigit` | src/pages/ExamQuestions.tsx:332 | a string without a decimal digit parses to NaN |
| `JsNumber.Digits` | src/components/admin/QuestionForm.tsx:20 | the decimal digits of n are non-empty, have no leading zero and denote n |
| `Discussions.InitialIsWellNumbered` | src/pages/Discussions.tsx:32-52 | the starting board satisfies the numbering invariant |
| `Discussions.AddDiscussion` | src/pages/Discussions.tsx:57-79 | an empty title or content changes nothing; otherwise one discussion with id length+1, no likes and no comments is prepended, the rest is unchanged and the draft is cleared |
| `Discussions.AddDiscussionKeepsNumbering` | src/pages/Discussions.tsx:67-78 | adding a discussion keeps ids counting down from the length and comment ids counting from 1 |
| `Discussions.WellNumberedIds` | src/pages/Discussions.tsx:68-78 | under the invariant discussion ids are pairwise distinct and are exactly 1..n |
| `Discussions.IdCountWellNumbered` | src/pages/Discussions.tsx:91 | under the invariant exactly one discussion matches an id in 1..n and none matches any other id |
| `Discussions.AppendComment` | src/pages/Discussions.tsx:90-108 | the list keeps its length; discussions with another id are unchanged; the matching one keeps all its fields and old comments and gains one comment at the end |
| `Discussions.AppendedComment` | src/pages/Discussions.tsx:94-103 | the new comment is last, has id = old comment count + 1, no likes and the draft text |
| `Discussions.AppendCommentAddsOne` | src/pages/Discussions.tsx:90-108 | the board's comment total grows by the number of discussions with that id |
| `Discussions.AddComment` | src/pages/Discussions.tsx:86-110 | an empty or absent draft changes nothing; otherwise the comment is appended to the matching discussion and that draft is reset to "" |
| `Discussions.AddCommentKeepsNumbering` | src/pages/Discussions.tsx:90-108 | commenting keeps the numbering invariant |
| `Discussions.Like` | src/pages/Discussions.tsx:117-124 | the discussion with that id gains exactly one like; all others and the list length are unchanged |
| `Discussions.LikeKeepsNumbering` | src/pages/Discussions.tsx:117-124 | liking keeps the numbering invariant |
| `Discussions.LikeAddsOne` | src/pages/Discussions.tsx:117-124 | the total like count grows by the number of discussions with that id, so by one for a known id and zero for an unknown one |
| `Discussions.CommentLikeHitsDiscussion` | src/pages/Discussions.tsx:194-198 | the like button under comment j never changes any comment's counter; it likes the discussion whose id is j+1, if there is one |
| `Discussions.Board.constructor` | src/pages/Discussions.tsx:32-54 | the page starts with the initial discussion, an empty discussion draft and no comment drafts, satisfying the invariant |
| `Discussions.Board.EditTitle` | src/pages/Discussions.tsx:139 | typing a title replaces only the draft's title |
| `Discussions.Board.EditContent` | src/pages/Discussions.tsx:144 | typing content replaces only the draft's content |
| `Discussions.Board.EditCommentDraft` | src/pages/Discussions.tsx:211-214 | typing a comment replaces only that discussion's comment draft |
| `Discussions.Board.HandleAddDiscussion` | src/pages/Discussions.tsx:57-84 | applies `AddDiscussion` to the list and draft, keeps the comment drafts, raises the error notice exactly when a field is empty, and keeps the invariant |
| `Discussions.Board.HandleAddComment` | src/pages/Discussions.tsx:86-115 | applies `AddComment`, posts exactly when the draft is non-empty, leaves the discussion draft alone and keeps the invariant |
| `Discussions.Board.HandleLike` | src/pages/Discussions.tsx:117-124 | applies `Like`, leaves both drafts alone and keeps the invariant |
| `AdminUtils.OrEmpty` | src/components/admin/utils.ts:8 | the JavaScript fallback `x or ""` is "" exactly for null and "", and x otherwise |
| `AdminUtils.MapDatabaseQuestionToQuestion` | src/components/admin/utils.ts:3-12 | id, text, options and exam id are copied; `correct_answer` is kept zero-based with no shift; a null or empty explanation becomes "" and any other is kept |
| `AdminUtils.MapDatabaseExamToExam` | src/components/admin/utils.ts:14-26 | every row field is copied and the exam starts with 0 attempts and no questions |
| `AdminUtils.CalculateExamStats` | src/components/admin/utils.ts:28-35 | the question total is the exam's question count; the other three figures are "0", "0%" and "0 min" |
| `AdminUtils.MappedAnswerStaysValid` | src/components/admin/utils.ts:6-7 | a stored answer that is a valid index designates the same option after mapping |
| `AdminUtils.FreshExamStats` | src/components/admin/utils.ts:22-34 | the statistics of any freshly mapped exam report 0 questions |
| `QuestionForm.DefaultValues` | src/components/admin/QuestionForm.tsx:16-23 | a new question defaults to empty text, three empty options, answer "1" and an empty explanation; an edited one to its own text, options (even an empty array) and explanation, and to the decimal string of the stored answer + 1, which parses back to that value |
| `QuestionForm.OptionFieldsCoverThree` | src/components/admin/QuestionForm.tsx:40-54 | the option fields are exactly indices 0..2; a new question's three fields start empty; an edited question's field k starts with its k-th option, or with nothing when it has fewer options (even none); any option past the third has no field |
| `QuestionForm.DefaultAnswerInRangeIff` | src/components/admin/QuestionForm.tsx:60-66 | the default answer lies in the declared 1..3 range if and only if the question is new or its stored answer is 0, 1 or 2 |
| `QuestionForm.EditFormShowsAnswerOneBased` | src/components/admin/QuestionForm.tsx:20 | editing a stored question shows its zero-based `correct_answer` as the one-based value `correct_answer + 1` |
| `ExamManagement.InsertRow` | src/components/admin/ExamManagement.tsx:39-45 | the row copies title and type, is "active" and owned by the user, and carries `year` exactly when the type is "historical" and `subject` exactly otherwise |
| `ExamManagement.HandleAddExam` | src/components/admin/ExamManagement.tsx:25-64 | without a session nothing is inserted, `onExamAdded` is not called and sign-in is asked for; otherwise the row is inserted; on success `onExamAdded` gets the mapped row, with 0 attempts and no questions; on error it is not called and only the failure is reported |
| `ExamManagement.CreatedExamKeepsDiscriminant` | src/components/admin/ExamManagement.tsx:39-52 | an exam created from the form and read back has the form's title and type, is active, belongs to the user, and has only the discriminating field its type selects, with the form's value |

## Left out

- Notifications are reduced to which notice is raised, or which score the end-of-quiz notice shows. Their text, `console.error` and all rendering are not modelled.
- The hosted auth and database calls are inputs or functions, never modelled as behaviour. The use-exams hook, the profile and auth pages, generated typings, and all presentational pages and components are not part of this model. The hook calls `mapDatabaseQuestionToQuestion` without importing it.
- ExamForm.tsx is not modelled. Its only rule, the type discriminant, is captured by `ExamManagement.InsertRow`.
- Converting the form's one-based answer back to a zero-based stored answer happens in no file shown. The per-type question caps (50/100), minimum text lengths, exam copying and persisted attempts are not implemented in the files shown either.
- `JsNumber.ParseInt`: digit runs are exact integers. The rounding of values past 2^53 is left out: the core only compares results with 0, 1 or 2.
- `JsNumber.ToDecimal`: covers only integers of magnitude at most 2^53. Fractional and non-finite numbers, and the exponent form `toString` uses from 10^21 on, are left out: the form only converts stored answers and option indices, which are safe integers.
- `ExamQuestions.QuizSession.Submit`: requires the results view to be hidden, because the form that calls `onSubmit` is only rendered then (src/pages/ExamQuestions.tsx:355).
- `ExamQuestions.Table`: the question texts and options are kept verbatim. The table is written as five blocks of ten so that facts about it are checked block by block.
- `ExamManagement.HandleAddExam`: two failure paths are left out, because the session and the insert are modelled as inputs that do not fail that way. One is a rejected session lookup. The other is an exception thrown by `onExamAdded`. Both would end in the same catch block and raise the failure notice.
- `AdminTypes.QuestionRow`: the `options` JSON column is taken to hold an array of strings, as the unchecked cast at src/components/admin/utils.ts:6 assumes.
- React state updates are modelled as taking effect in program order. The one closure-timing effect that is visible, the stale score in the end-of-quiz notice, is modelled by `ExamQuestions.FinalToastIsStale`.
