/**
 * The quiz-taking screen (src/pages/ExamQuestions.tsx): a fixed table of multiple-choice
 * questions walked one at a time, a running score, and a results view with a restart.
 *
 * The transition of one submission is the function `Step`; `Run` folds it over the answers
 * submitted since the last (re)start and has a closed form in its contract. The component
 * state itself is the class `QuizSession`, whose methods are proved to follow `Step`.
 */
module ExamQuestions {
  import opened Wrappers
  import opened JsNumber

  /** One question of the quiz screen; `correctAnswer` is a zero-based option index. */
  datatype Question = Question(id: int, text: string, options: seq<string>, correctAnswer: int)

  /** The static question table the screen walks through, written as five blocks of ten
      questions so that each fact about it is checked block by block. */
  function Table(): seq<Question>
  {
    Block1() + Block2() + Block3() + Block4() + Block5()
  }

  function Block1(): seq<Question>
  {
    [
      Question(1, "ما هو المبدأ الأساسي في القانون المدني؟",
        ["العقد شريعة المتعاقدين", "حرية التعاقد", "مبدأ حسن النية"], 0),
      Question(2, "متى يعتبر العقد باطلاً؟",
        ["عند تخلف ركن من أركانه", "عند الإخلال بتنفيذه", "عند تأخر تنفيذه"], 0),
      Question(3, "ما هو الحد الأدنى لسن الرشد في القانون المدني؟",
        ["18 سنة", "21 سنة", "16 سنة"], 0),
      Question(4, "ما هو مفهوم المسؤولية المدنية؟",
        ["الالتزام بتعويض الأضرار", "الالتزام بتنفيذ العقود", "الالتزام بالوفاء بالديون"], 0),
      Question(5, "ما هي أنواع العقود؟",
        ["عقود ملزمة وعقود غير ملزمة", "عقود شفوية وعقود مكتوبة", "عقود تجارية وعقود مدنية"], 1),
      Question(6, "ما هو مفهوم الملكية؟",
        ["الحق في التصرف في الشيء", "الحق في الانتفاع بالشيء", "الحق في حيازة الشيء"], 0),
      Question(7, "ما هو مفهوم الوكالة؟",
        ["تفويض شخص للقيام بعمل معين", "عقد بين طرفين", "حق في التصرف في المال"], 0),
      Question(8, "ما هي شروط صحة العقد؟",
        ["التراضي، الأهلية، المحل، السبب", "التراضي، الشكل، السبب", "الأهلية، الشكل، المحل"], 0),
      Question(9, "ما هو مفهوم الالتزام؟",
        ["الواجب القانوني", "الحق الشخصي", "الحق العيني"], 0),
      Question(10, "ما هي أنواع المسؤولية؟",
        ["مسؤولية مدنية ومسؤولية جنائية", "مسؤولية عقدية ومسؤولية تقصيرية", "مسؤولية شخصية ومسؤولية موضوعية"], 1)
    ]
  }

  function Block2(): seq<Question>
  {
    [
      Question(11, "ما هو مفهوم التعويض؟",
        ["إعادة الحالة إلى ما كانت عليه", "دفع مبلغ مالي", "تقديم اعتذار"], 0),
      Question(12, "ما هو مفهوم الحيازة؟",
        ["التمتع بالشيء", "الحق في التصرف", "الحق في الانتفاع"], 0),
      Question(13, "ما هي أنواع الحيازة؟",
        ["حيازة قانونية وحيازة فعلية", "حيازة مؤقتة وحيازة دائمة", "حيازة مشروعة وحيازة غير مشروعة"], 0),
      Question(14, "ما هو مفهوم الإيجار؟",
        ["عقد يلتزم بموجبه المؤجر بتسليم العين", "عقد يلتزم بموجبه المستأجر بدفع الأجرة", "عقد يلتزم بموجبه الطرفان بتبادل المنافع"], 0),
      Question(15, "ما هي شروط صحة الإيجار؟",
        ["التراضي، الأهلية، المحل، السبب", "التراضي، الشكل، السبب", "الأهلية، الشكل، المحل"], 0),
      Question(16, "ما هو مفهوم البيع؟",
        ["عقد يلتزم بموجبه البائع بنقل الملكية", "عقد يلتزم بموجبه المشتري بدفع الثمن", "عقد يلتزم بموجبه الطرفان بتبادل المنافع"], 0),
      Question(17, "ما هي أنواع البيع؟",
        ["بيع عادي وبيع بالتقسيط", "بيع نقدي وبيع آجل", "بيع حقيقي وبيع صوري"], 1),
      Question(18, "ما هو مفهوم الشفعة؟",
        ["حق الشريك في شراء نصيب شريكه", "حق المشتري في استرداد الثمن", "حق البائع في استرداد المبيع"], 0),
      Question(19, "ما هي شروط الشفعة؟",
        ["وجود شريك، وجود بيع، وجود ثمن", "وجود شريك، وجود عقد، وجود ملكية", "وجود شريك، وجود حيازة، وجود ثمن"], 0),
      Question(20, "ما هو مفهوم الرهن؟",
        ["تأمين دين بعين معينة", "عقد يلتزم بموجبه المدين بدفع الدين", "عقد يلتزم بموجبه الدائن باسترداد الدين"], 0)
    ]
  }

  function Block3(): seq<Question>
  {
    [
      Question(21, "ما هي أنواع الرهن؟",
        ["رهن حيازي ورهن تأميني", "رهن رسمي ورهن عادي", "رهن قانوني ورهن اختياري"], 0),
      Question(22, "ما هو مفهوم الكفالة؟",
        ["التزام شخص بدفع دين شخص آخر", "التزام شخص بتقديم خدمة لشخص آخر", "التزام شخص بتعويض شخص آخر"], 0),
      Question(23, "ما هي أنواع الكفالة؟",
        ["كفالة شخصية وكفالة عينية", "كفالة قانونية وكفالة اختيارية", "كفالة عادية وكفالة مشروطة"], 0),
      Question(24, "ما هو مفهوم الوصية؟",
        ["تصرف قانوني ينفذ بعد وفاة الموصي", "تصرف قانوني ينفذ أثناء حياة الموصي", "تصرف قانوني ينفذ بعد وفاة الموصي"], 0),
      Question(25, "ما هي شروط صحة الوصية؟",
        ["التراضي، الأهلية، المحل، السبب", "التراضي، الشكل، السبب", "الأهلية، الشكل، المحل"], 0),
      Question(26, "ما هو مفهوم الإرث؟",
        ["نقل الملكية بعد وفاة المورث", "نقل الملكية أثناء حياة المورث", "نقل الملكية بموجب عقد"], 0),
      Question(27, "ما هي أنواع الإرث؟",
        ["إرث قانوني وإرث وصية", "إرث عادي وإرث خاص", "إرث مشترك وإرث فردي"], 0),
      Question(28, "ما هو مفهوم الحضانة؟",
        ["حق الوالدين في رعاية الأطفال", "حق الأطفال في العيش مع الوالدين", "حق الوالدين في اتخاذ القرارات"], 0),
      Question(29, "ما هي أنواع الحضانة؟",
        ["حضانة شرعية وحضانة قانونية", "حضانة مؤقتة وحضانة دائمة", "حضانة مشتركة وحضانة فردية"], 0),
      Question(30, "ما هو مفهوم الطلاق؟",
        ["إنهاء العلاقة الزوجية", "تغيير الحالة الاجتماعية", "تغيير الحقوق والواجبات"], 0)
    ]
  }

  function Block4(): seq<Question>
  {
    [
      Question(31, "ما هي أنواع الطلاق؟",
        ["طلاق بائن وطلاق رجعي", "طلاق عادي وطلاق خاص", "طلاق مشروط وطلاق غير مشروط"], 0),
      Question(32, "ما هو مفهوم النفقة؟",
        ["الالتزام بتوفير الاحتياجات الأساسية", "الالتزام بدفع المبالغ المالية", "الالتزام بتقديم الخدمات"], 0),
      Question(33, "ما هي أنواع النفقة؟",
        ["نفقة الزوجة ونفقة الأولاد", "نفقة الوالدين ونفقة الأجداد", "نفقة الأصدقاء ونفقة الأقارب"], 0),
      Question(34, "ما هو مفهوم الحجز؟",
        ["تأمين الدين عن طريق حجز الأموال", "تأمين الدين عن طريق حجز الممتلكات", "تأمين الدين عن طريق حجز العقارات"], 0),
      Question(35, "ما هي أنواع الحجز؟",
        ["حجز تحفظي وحجز تنفيذي", "حجز قانوني وحجز اختياري", "حجز عادي وحجز خاص"], 0),
      Question(36, "ما هو مفهوم الدعوى؟",
        ["الطلب المقدم إلى المحكمة", "الطلب المقدم إلى الجهة الإدارية", "الطلب المقدم إلى الشرطة"], 0),
      Question(37, "ما هي أنواع الدعوى؟",
        ["دعوى مدنية ودعوى جنائية", "دعوى إدارية ودعوى تجارية", "دعوى شخصية ودعوى موضوعية"], 0),
      Question(38, "ما هو مفهوم الحكم؟",
        ["القرار الصادر عن المحكمة", "القرار الصادر عن الجهة الإدارية", "القرار الصادر عن الشرطة"], 0),
      Question(39, "ما هي أنواع الحكم؟",
        ["حكم نهائي وحكم مؤقت", "حكم عادي وحكم خاص", "حكم مشروط وحكم غير مشروط"], 0),
      Question(40, "ما هو مفهوم الاستئناف؟",
        ["الطعن في الحكم الصادر", "الطعن في القرار الإداري", "الطعن في القرار الشرطي"], 0)
    ]
  }

  function Block5(): seq<Question>
  {
    [
      Question(41, "ما هي أنواع الاستئناف؟",
        ["استئناف عادي واستئناف خاص", "استئناف قانوني واستئناف إداري", "استئناف تجاري واستئناف مدني"], 0),
      Question(42, "ما هو مفهوم النقض؟",
        ["الطعن في الحكم الصادر من محكمة الاستئناف", "الطعن في القرار الإداري", "الطعن في القرار الشرطي"], 0),
      Question(43, "ما هي أنواع النقض؟",
        ["نقض عادي ونقض خاص", "نقض قانوني ونقض إداري", "نقض تجاري ونقض مدني"], 0),
      Question(44, "ما هو مفهوم التنفيذ؟",
        ["تنفيذ الحكم الصادر", "تنفيذ القرار الإداري", "تنفيذ القرار الشرطي"], 0),
      Question(45, "ما هي أنواع التنفيذ؟",
        ["تنفيذ عادي وتنفيذ خاص", "تنفيذ قانوني وتنفيذ إداري", "تنفيذ تجاري وتنفيذ مدني"], 0),
      Question(46, "ما هو مفهوم التعسف في استعمال الحق؟",
        ["استعمال الحق بطريقة غير مشروعة", "استعمال الحق بطريقة مشروعة", "استعمال الحق بطريقة غير عادلة"], 0),
      Question(47, "ما هي أنواع التعسف في استعمال الحق؟",
        ["تعسف قانوني وتعسف إداري", "تعسف عادي وتعسف خاص", "تعسف تجاري وتعسف مدني"], 0),
      Question(48, "ما هو مفهوم الحماية القانونية؟",
        ["حماية الحقوق من الاعتداء", "حماية الحقوق من الإهمال", "حماية الحقوق من التعدي"], 0),
      Question(49, "ما هي أنواع الحماية القانونية؟",
        ["حماية قانونية وحماية إدارية", "حماية عادية وحماية خاصة", "حماية تجارية وحماية مدنية"], 0),
      Question(50, "ما هو مفهوم العدالة؟",
        ["تحقيق المساواة بين الأفراد", "تحقيق المساواة بين الحقوق", "تحقيق المساواة بين الواجبات"], 0)
    ]
  }

  /** The shape every row of the table has: question `id`, three options, and an answer
      index among the first two options. */
  predicate IsTableRow(q: Question, id: int)
  {
    q.id == id && |q.options| == 3 && 0 <= q.correctAnswer <= 1
  }

  ghost predicate RowsFrom(qs: seq<Question>, firstId: int)
  {
    forall i :: 0 <= i < |qs| ==> IsTableRow(qs[i], firstId + i)
  }

  /** The data invariant the quiz relies on: ids run 1..n in order, and every correct
      answer is a valid index into its question's options. */
  ghost predicate WellFormedTable(qs: seq<Question>)
  {
    forall i :: 0 <= i < |qs| ==> qs[i].id == i + 1 && 0 <= qs[i].correctAnswer < |qs[i].options|
  }

  lemma RowsFromAppend(a: seq<Question>, b: seq<Question>, firstId: int)
    requires RowsFrom(a, firstId) && RowsFrom(b, firstId + |a|)
    ensures RowsFrom(a + b, firstId)
  {
    forall i | 0 <= i < |a + b| ensures IsTableRow((a + b)[i], firstId + i) {
      if i >= |a| {
        assert (a + b)[i] == b[i - |a|];
      }
    }
  }

  lemma BlockRows(b: seq<Question>, firstId: int)
    requires |b| == 10
    requires IsTableRow(b[0], firstId) && IsTableRow(b[1], firstId + 1) && IsTableRow(b[2], firstId + 2)
    requires IsTableRow(b[3], firstId + 3) && IsTableRow(b[4], firstId + 4) && IsTableRow(b[5], firstId + 5)
    requires IsTableRow(b[6], firstId + 6) && IsTableRow(b[7], firstId + 7) && IsTableRow(b[8], firstId + 8)
    requires IsTableRow(b[9], firstId + 9)
    ensures RowsFrom(b, firstId)
  {
    forall i | 0 <= i < |b| ensures IsTableRow(b[i], firstId + i) {
      assert i == 0 || i == 1 || i == 2 || i == 3 || i == 4 || i == 5 || i == 6 || i == 7 || i == 8 || i == 9;
    }
  }

  /** Each block holds the ten rows that follow the previous block. */
  lemma Block1Rows()
    ensures |Block1()| == 10 && RowsFrom(Block1(), 1)
  {
    BlockRows(Block1(), 1);
  }

  lemma Block2Rows()
    ensures |Block2()| == 10 && RowsFrom(Block2(), 11)
  {
    BlockRows(Block2(), 11);
  }

  lemma Block3Rows()
    ensures |Block3()| == 10 && RowsFrom(Block3(), 21)
  {
    BlockRows(Block3(), 21);
  }

  lemma Block4Rows()
    ensures |Block4()| == 10 && RowsFrom(Block4(), 31)
  {
    BlockRows(Block4(), 31);
  }

  lemma Block5Rows()
    ensures |Block5()| == 10 && RowsFrom(Block5(), 41)
  {
    BlockRows(Block5(), 41);
  }

  /** Five consecutive blocks of ten rows make one table of fifty rows. */
  lemma FiveBlocksRows(b1: seq<Question>, b2: seq<Question>, b3: seq<Question>, b4: seq<Question>, b5: seq<Question>)
    requires |b1| == 10 && |b2| == 10 && |b3| == 10 && |b4| == 10 && |b5| == 10
    requires RowsFrom(b1, 1) && RowsFrom(b2, 11) && RowsFrom(b3, 21) && RowsFrom(b4, 31) && RowsFrom(b5, 41)
    ensures |b1 + b2 + b3 + b4 + b5| == 50 && RowsFrom(b1 + b2 + b3 + b4 + b5, 1)
  {
    RowsFromAppend(b1, b2, 1);
    RowsFromAppend(b1 + b2, b3, 1);
    RowsFromAppend(b1 + b2 + b3, b4, 1);
    RowsFromAppend(b1 + b2 + b3 + b4, b5, 1);
  }

  /** Rows numbered from 1 make a well-formed table whose answers use the first two options. */
  lemma RowsFromOneWellFormed(qs: seq<Question>)
    requires RowsFrom(qs, 1)
    ensures WellFormedTable(qs)
    ensures forall i :: 0 <= i < |qs| ==> |qs[i].options| == 3 && qs[i].correctAnswer in {0, 1}
  {
  }

  /** The shipped table has 50 questions, ids 1..50 in order, three options each, and an
      answer key that only ever uses the first or the second option. */
  lemma TableIsWellFormed()
    ensures |Table()| == 50
    ensures WellFormedTable(Table())
    ensures forall i :: 0 <= i < |Table()| ==> |Table()[i].options| == 3 && Table()[i].correctAnswer in {0, 1}
  {
    Block1Rows();
    Block2Rows();
    Block3Rows();
    Block4Rows();
    Block5Rows();
    FiveBlocksRows(Block1(), Block2(), Block3(), Block4(), Block5());
    RowsFromOneWellFormed(Table());
  }

  /** The three fields of the component state. */
  datatype QuizState = QuizState(currentQuestion: int, score: int, showResults: bool)

  const Initial := QuizState(0, 0, false)

  /** A submitted answer is correct when `parseInt` of it is the question's answer index:
      only an answer holding a decimal digit can be correct, and the decimal form of the
      answer index always is. */
  function IsCorrect(q: Question, answer: string): (correct: bool)
    ensures correct ==> exists i :: 0 <= i < |answer| && '0' <= answer[i] <= '9'
    ensures IsExactInteger(q.correctAnswer) && answer == ToDecimal(q.correctAnswer) ==> correct
  {
    ParseIntFindsDigit(answer);
    ParseIntOfOwnDecimal(answer, q.correctAnswer);
    ParseInt(answer) == Some(q.correctAnswer)
  }

  /** The radio buttons submit `index.toString()`; choosing option `k` (an array index,
      hence a safe integer) is correct exactly when `k` is the question's answer index. */
  lemma RadioChoiceCorrectIff(q: Question, k: nat)
    requires k <= MaxSafeInteger
    ensures IsCorrect(q, ToDecimal(k)) <==> k == q.correctAnswer
  {
    ParseIntToDecimal(k);
  }

  /** An answer without any decimal digit, the empty one included, is never correct. */
  lemma NoDigitNeverCorrect(q: Question, answer: string)
    requires forall i :: 0 <= i < |answer| ==> !('0' <= answer[i] <= '9')
    ensures !IsCorrect(q, answer)
  {
    ParseIntNeedsDigit(answer);
  }

  /** What one submission produces: the next state, and the score shown by the
      end-of-quiz notification when this submission ends the quiz. */
  datatype Submission = Submission(next: QuizState, toast: Option<int>)

  /** `onSubmit`: grade the answer against the current question, then advance, or,
      on the last question, switch to the results view and announce the score. The
      announcement reads the score captured before this answer was counted. */
  function Step(qs: seq<Question>, s: QuizState, answer: string): (r: Submission)
    requires 0 <= s.currentQuestion < |qs| && !s.showResults
    ensures r.next.score == s.score + (if IsCorrect(qs[s.currentQuestion], answer) then 1 else 0)
    ensures s.currentQuestion < |qs| - 1 ==>
      r.next.currentQuestion == s.currentQuestion + 1 && !r.next.showResults && r.toast == None
    ensures s.currentQuestion == |qs| - 1 ==>
      r.next.currentQuestion == s.currentQuestion && r.next.showResults && r.toast == Some(s.score)
  {
    var isCorrect := IsCorrect(qs[s.currentQuestion], answer);
    var score := if isCorrect then s.score + 1 else s.score;
    if s.currentQuestion < |qs| - 1 then
      Submission(QuizState(s.currentQuestion + 1, score, false), None)
    else
      Submission(QuizState(s.currentQuestion, score, true), Some(s.score))
  }

  /** Submitting without choosing an option (the form's reset value "") scores nothing,
      yet the quiz still moves on. */
  lemma EmptyAnswerStillAdvances(qs: seq<Question>, s: QuizState)
    requires 0 <= s.currentQuestion < |qs| && !s.showResults
    ensures var r := Step(qs, s, "").next;
      && r.score == s.score
      && (r.currentQuestion == s.currentQuestion + 1 || r.showResults)
  {
    NoDigitNeverCorrect(qs[s.currentQuestion], "");
  }

  /** Number of correct answers among `answers`, the i-th answering question i. */
  function Score(qs: seq<Question>, answers: seq<string>): (n: nat)
    requires |answers| <= |qs|
    ensures n <= |answers|
  {
    if answers == [] then 0
    else
      var k := |answers| - 1;
      Score(qs, answers[..k]) + (if IsCorrect(qs[k], answers[k]) then 1 else 0)
  }

  /** The state reached from the initial state by submitting `answers` in order.
      Its contract is the quiz's counting invariant: the score is the number of correct
      answers, the position stays within the table, and the results view is shown
      exactly when every question has been answered. */
  function Run(qs: seq<Question>, answers: seq<string>): (s: QuizState)
    requires 1 <= |qs| && |answers| <= |qs|
    ensures s.score == Score(qs, answers)
    ensures s.showResults <==> |answers| == |qs|
    ensures s.currentQuestion == if |answers| < |qs| then |answers| else |qs| - 1
  {
    if answers == [] then Initial
    else
      var k := |answers| - 1;
      assert answers[..k] + [answers[k]] == answers;
      Step(qs, Run(qs, answers[..k]), answers[k]).next
  }

  /** Submitting one more answer is one more `Step`. */
  lemma RunAppend(qs: seq<Question>, answers: seq<string>, answer: string)
    requires 1 <= |qs| && |answers| < |qs|
    ensures var s := Run(qs, answers);
      0 <= s.currentQuestion < |qs| && !s.showResults
      && Run(qs, answers + [answer]) == Step(qs, s, answer).next
  {
    assert (answers + [answer])[..|answers|] == answers;
  }

  /** The notification at the end of the quiz reports the score without the last answer,
      while the results view shows the full score; the two differ exactly when the last
      answer is correct. */
  lemma FinalToastIsStale(qs: seq<Question>, answers: seq<string>)
    requires 1 <= |qs| && |answers| == |qs|
    ensures var last := |qs| - 1;
      && Step(qs, Run(qs, answers[..last]), answers[last]).toast == Some(Score(qs, answers[..last]))
      && Run(qs, answers).score
         == Score(qs, answers[..last]) + (if IsCorrect(qs[last], answers[last]) then 1 else 0)
  {
  }

  /** The component state of the quiz screen. `Answers` records, for the proof only,
      the answers submitted since the screen was opened or restarted. */
  class QuizSession {
    const questions: seq<Question>
    var currentQuestion: int
    var score: int
    var showResults: bool
    ghost var Answers: seq<string>

    function State(): QuizState
      reads this
    {
      QuizState(currentQuestion, score, showResults)
    }

    ghost predicate Valid()
      reads this
    {
      1 <= |questions| && |Answers| <= |questions| && State() == Run(questions, Answers)
    }

    /** The screen opens on the first question of the static table with a zero score. */
    constructor ()
      ensures Valid() && questions == Table()
      ensures State() == Initial && Answers == []
    {
      TableIsWellFormed();
      questions := Table();
      currentQuestion, score, showResults := 0, 0, false;
      Answers := [];
    }

    /** `onSubmit`; returns the score the end-of-quiz notification shows, if one is shown.
        The form is only rendered while the results view is hidden. */
    method Submit(answer: string) returns (toast: Option<int>)
      requires Valid() && !showResults
      modifies this
      ensures Valid() && Answers == old(Answers) + [answer]
      ensures Submission(State(), toast) == Step(questions, old(State()), answer)
      ensures 0 <= currentQuestion < |questions| && score <= |Answers| <= |questions|
    {
      RunAppend(questions, Answers, answer);
      ghost var expected := Step(questions, State(), answer);
      var isCorrect := IsCorrect(questions[currentQuestion], answer);
      var announced := score;
      if isCorrect {
        score := score + 1;
      }
      if currentQuestion < |questions| - 1 {
        currentQuestion := currentQuestion + 1;
        toast := None;
      } else {
        showResults := true;
        toast := Some(announced);
      }
      Answers := Answers + [answer];
      assert Submission(State(), toast) == expected;
    }

    /** The restart button of the results view: back to the first question, score zero. */
    method Restart()
      requires Valid()
      modifies this
      ensures Valid() && State() == Initial && Answers == []
    {
      currentQuestion := 0;
      score := 0;
      showResults := false;
      Answers := [];
    }
  }
}
