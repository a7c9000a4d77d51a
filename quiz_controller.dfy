/** The quiz handlers of app/controllers/quiz_controller.go: the upload-and-generate step
    chain, the attempt gate, and the assembly of an attempt's detail. Requests arrive as
    plain values; the store's statements, the file store and the generation service are
    collaborators given as functions. */
module QuizController {
  import opened Wrappers
  import opened Numbers
  import opened Models
  import opened Text
  import GenerateQuiz
  import QuizQuery

  const BadRequest := 400
  const Unauthorized := 401
  const Forbidden := 403
  const NotFound := 404
  const ServerError := 500

  /** The token claims in the request: not a claims map, or a map whose `user_id` may be
      missing (or not text). */
  datatype Claims = NotAMap | ClaimsMap(userId: Option<string>)

  /** The user id the claims carry, or the 401 message. */
  function UserOf(claims: Claims): (r: Result<string>)
    ensures r.Ok? <==> claims.ClaimsMap? && claims.userId.Some?
    ensures r.Ok? ==> r.value == claims.userId.value
    ensures claims.NotAMap? ==> r == Err("Invalid token claims")
    ensures claims.ClaimsMap? && claims.userId.None? ==> r == Err("Invalid user id in token")
  {
    match claims
    case NotAMap => Err("Invalid token claims")
    case ClaimsMap(id) => if id.None? then Err("Invalid user id in token") else Ok(id.value)
  }

  // ------------------------------------------------------------ UploadAndGenerateQuiz

  /** The form fields of the upload request. */
  datatype UploadForm = UploadForm(numQuestions: string, difficulty: string, description: string, timeLimit: string)

  /** The `file` form field: absent, or a file that may fail to open or to be read. */
  datatype FormFile = Missing | Attached(filename: string, openError: Option<string>, data: Result<seq<byte>>)

  /** The store and file service the handler writes to: whether `database.DB` is set, what
      `Begin`, `uuid.Parse`, the quiz insert, `SaveFile`, the questions query, the options
      statement and `Commit` answer. */
  datatype Store = Store(
    ready: bool,
    begin: Option<string>,
    parseUuid: string -> Result<Uuid>,
    insertQuiz: QuizQuery.QuizRow -> Result<string>,
    saveFile: (string, string, seq<byte>) -> Option<string>,
    query: QuizQuery.Statement -> QuizQuery.QueryOutcome,
    exec: QuizQuery.Statement -> Option<string>,
    commit: Option<string>)

  /** What the store part of an upload works on: the generated quiz, the caller, the form's
      description, the uploaded file's name and bytes, and the store. */
  datatype Job = Job(
    quiz: Quiz, user: string, description: string, filename: string, fileBytes: seq<byte>, store: Store)

  /** The store steps of the handler, each with the values earlier steps produced for it. */
  datatype Step =
    | BeginStep
    | InsertQuizStep
    | SaveFileStep(key: string, filename: string)
    | InsertQuestionsStep(quizId: string)
    | InsertOptionsStep(questionIds: seq<string>)
    | CommitStep

  /** The place of each step in the chain. */
  function Position(s: Step): nat {
    match s
    case BeginStep => 0
    case InsertQuizStep => 1
    case SaveFileStep(_, _) => 2
    case InsertQuestionsStep(_) => 3
    case InsertOptionsStep(_) => 4
    case CommitStep => 5
  }

  /** The steps started are a prefix of the chain: none skipped, none out of order. */
  predicate InChainOrder(steps: seq<Step>) {
    |steps| <= 6 && forall k :: 0 <= k < |steps| ==> Position(steps[k]) == k
  }

  /** The id the quiz insert gives the job's quiz, or its error. */
  function InsertedQuiz(job: Job): Result<string> {
    QuizQuery.InsertedId(job.quiz, job.user, job.description, job.store.parseUuid, job.store.insertQuiz)
  }

  /** The message with which step `s` ends the request, or `None` when the step succeeds.
      Beginning the transaction includes the check that the database is there. */
  function Failure(s: Step, job: Job): Option<string> {
    match s
    case BeginStep =>
      if !job.store.ready then Some("database not initialized")
      else if job.store.begin.Some? then Some("failed to begin transaction")
      else None
    case InsertQuizStep =>
      if InsertedQuiz(job).Err? then Some("failed to insert quiz") else None
    case SaveFileStep(key, name) =>
      if job.store.saveFile(key, name, job.fileBytes).Some? then Some("failed to upload original file") else None
    case InsertQuestionsStep(id) =>
      if QuizQuery.QuestionIds(id, job.quiz.questions, job.store.query).Err? then Some("failed to insert questions")
      else None
    case InsertOptionsStep(ids) =>
      if QuizQuery.OptionsError(ids, job.quiz.questions, job.store.exec).Some? then Some("failed to insert options")
      else None
    case CommitStep =>
      if job.store.commit.Some? then Some("failed to commit transaction") else None
  }

  /** The step that follows a successful step `s`, carrying what `s` produced; none after the
      commit. */
  function Next(s: Step, job: Job): Option<Step>
    requires Failure(s, job).None?
  {
    match s
    case BeginStep => Some(InsertQuizStep)
    case InsertQuizStep => Some(SaveFileStep(InsertedQuiz(job).value, job.filename))
    case SaveFileStep(key, _) => Some(InsertQuestionsStep(key))
    case InsertQuestionsStep(id) =>
      Some(InsertOptionsStep(QuizQuery.QuestionIds(id, job.quiz.questions, job.store.query).value))
    case InsertOptionsStep(_) => Some(CommitStep)
    case CommitStep => None
  }

  datatype UploadResponse = UploadFailed(status: int, error: string) | UploadOk(quizId: string)

  /** `steps`, a non-empty run of store steps for `job`, ended with `r`: every step but the
      last succeeded and was followed by the step its outcome calls for; the response is the
      last step's failure as a 500, or, after a successful commit, the id the quiz insert
      gave. */
  predicate RunFrom(job: Job, steps: seq<Step>, r: UploadResponse) {
    && steps != []
    && (forall k :: 0 <= k < |steps| - 1 ==>
          Failure(steps[k], job).None? && Next(steps[k], job) == Some(steps[k + 1]))
    && match r
       case UploadFailed(status, error) =>
         status == ServerError && Failure(steps[|steps| - 1], job) == Some(error)
       case UploadOk(id) =>
         steps[|steps| - 1] == CommitStep && Failure(CommitStep, job).None? && InsertedQuiz(job) == Ok(id)
  }

  /** The store part of an upload, from the transaction's beginning. */
  predicate Run(job: Job, steps: seq<Step>, r: UploadResponse) {
    steps != [] && steps[0] == BeginStep && RunFrom(job, steps, r)
  }

  /** A successful step followed by a run from the step it calls for is a run. */
  lemma RunFromCons(job: Job, s: Step, steps: seq<Step>, r: UploadResponse)
    requires Failure(s, job).None? && steps != [] && Next(s, job) == Some(steps[0])
    requires RunFrom(job, steps, r)
    ensures RunFrom(job, [s] + steps, r)
  {
    var all := [s] + steps;
    forall k | 0 <= k < |all| - 1
      ensures Failure(all[k], job).None? && Next(all[k], job) == Some(all[k + 1])
    {
      if k > 0 {
        assert all[k] == steps[k - 1] && all[k + 1] == steps[k];
      }
    }
  }

  /** Each step of a run sits at its place in the chain, so no run is longer than the chain. */
  lemma {:induction false} RunInChainOrder(job: Job, steps: seq<Step>, r: UploadResponse)
    requires Run(job, steps, r)
    ensures InChainOrder(steps)
  {
    forall k | 0 <= k < |steps|
      ensures Position(steps[k]) == k
    {
      RunPosition(job, steps, r, k);
    }
  }

  lemma {:induction false} RunPosition(job: Job, steps: seq<Step>, r: UploadResponse, k: nat)
    requires Run(job, steps, r) && k < |steps|
    ensures Position(steps[k]) == k
  {
    if k > 0 {
      RunPosition(job, steps, r, k - 1);
    }
  }

  /** The request is answered with a quiz id iff all six steps ran and succeeded; the run is
      then the whole chain, with the file saved under that id and the options inserted for
      the ids the questions insert returned. */
  lemma RunSucceeds(job: Job, steps: seq<Step>, r: UploadResponse)
    requires Run(job, steps, r)
    ensures r.UploadOk? <==> |steps| == 6 && forall k :: 0 <= k < 6 ==> Failure(steps[k], job).None?
    ensures r.UploadOk? ==>
      && QuizQuery.QuestionIds(r.quizId, job.quiz.questions, job.store.query).Ok?
      && steps == [BeginStep, InsertQuizStep, SaveFileStep(r.quizId, job.filename), InsertQuestionsStep(r.quizId),
                   InsertOptionsStep(QuizQuery.QuestionIds(r.quizId, job.quiz.questions, job.store.query).value),
                   CommitStep]
  {
    RunInChainOrder(job, steps, r);
    if r.UploadOk? {
      assert steps[1] == InsertQuizStep;
      assert steps[2] == SaveFileStep(r.quizId, job.filename);
      assert steps[3] == InsertQuestionsStep(r.quizId);
    }
  }

  /** A job has one run: the steps started and the response are decided by what the store
      answers. */
  lemma RunUnique(job: Job, a: seq<Step>, ra: UploadResponse, b: seq<Step>, rb: UploadResponse)
    requires Run(job, a, ra) && Run(job, b, rb)
    ensures a == b && ra == rb
  {
    RunInChainOrder(job, a, ra);
    RunInChainOrder(job, b, rb);
    forall k | 0 <= k < |a| && k < |b|
      ensures a[k] == b[k]
    {
      RunPrefixAgree(job, a, ra, b, rb, k);
    }
    RunEndsOnce(job, a, ra, b, rb);
    RunEndsOnce(job, b, rb, a, ra);
  }

  lemma {:induction false} RunPrefixAgree(job: Job, a: seq<Step>, ra: UploadResponse, b: seq<Step>, rb: UploadResponse, k: nat)
    requires Run(job, a, ra) && Run(job, b, rb) && k < |a| && k < |b|
    ensures a[k] == b[k]
  {
    if k > 0 {
      RunPrefixAgree(job, a, ra, b, rb, k - 1);
    }
  }

  /** A run that agrees with another on its steps cannot stop before it. */
  lemma RunEndsOnce(job: Job, a: seq<Step>, ra: UploadResponse, b: seq<Step>, rb: UploadResponse)
    requires Run(job, a, ra) && Run(job, b, rb)
    requires forall k :: 0 <= k < |a| && k < |b| ==> a[k] == b[k]
    ensures |a| >= |b|
  {
    RunStops(job, a, ra);
    var last := |a| - 1;
    forall k | 0 <= k < |b| - 1
      ensures Failure(b[k], job).None? && Next(b[k], job).Some?
    {
      assert Next(b[k], job) == Some(b[k + 1]);
    }
    assert last < |b| ==> a[last] == b[last];
  }

  /** The last step of a run failed or was the commit. */
  lemma RunStops(job: Job, steps: seq<Step>, r: UploadResponse)
    requires RunFrom(job, steps, r)
    ensures Failure(steps[|steps| - 1], job).Some? || Next(steps[|steps| - 1], job) == None
  {
  }

  const FieldsRequired := "num_questions and difficulty are required"

  /** Lines 33-40: an empty time limit is absent; text that is not a 64-bit integer is an
      error. */
  function TimeLimit(s: string): (r: Result<Option<int>>)
    ensures r == Ok(None) <==> s == ""
    ensures r.Err? ==> r.error == "invalid time_limit"
    ensures r.Ok? && r.value.Some? ==> MinInt64 <= r.value.value <= MaxInt64 && r.value.value == AtoiValue(s)
  {
    if s == "" then Ok(None)
    else match Atoi(s)
      case None => Err("invalid time_limit")
      case Some(v) => Ok(Some(v))
  }

  /** A decimal time limit is accepted as that number. */
  lemma DecimalTimeLimit(n: int)
    requires MinInt64 <= n <= MaxInt64
    ensures TimeLimit(Decimal(n)) == Ok(Some(n))
  {
    AtoiDecimal(n);
  }

  /** A time limit beyond 64 bits is refused, even though a question count of the same text
      would be read as the nearest bound. */
  lemma WideTimeLimit(n: int)
    requires n < MinInt64 || MaxInt64 < n
    ensures TimeLimit(Decimal(n)) == Err("invalid time_limit")
  {
    AtoiValueSaturates(n);
  }

  /** A time limit with a character other than a digit after its optional sign is refused. */
  lemma NonDigitTimeLimit(s: string, k: nat)
    requires k < |s| && !IsDigit(s[k]) && (k == 0 ==> s[0] != '+' && s[0] != '-')
    ensures TimeLimit(s) == Err("invalid time_limit")
  {
    var signed := s[0] == '+' || s[0] == '-';
    if signed {
      assert s[1..][k - 1] == s[k];
    }
  }

  /** What the request checks of lines 25-84 decide: a rejection, or the question count,
      the caller's id and the file's bytes. */
  datatype Admission = Rejected(status: int, error: string) | Admitted(questionCount: int, user: string, fileBytes: seq<byte>)

  /** The form fields pass lines 25-40. */
  predicate FormOk(form: UploadForm) {
    form.numQuestions != "" && form.difficulty != "" && TimeLimit(form.timeLimit).Ok?
  }

  /** Lines 25-84, in the order the handler applies them. The question count is the number
      `Atoi` returns with its error dropped (line 31). */
  function Admit(form: UploadForm, claims: Claims, file: FormFile): (a: Admission)
    ensures form.numQuestions == "" || form.difficulty == "" ==> a == Rejected(BadRequest, FieldsRequired)
    ensures form.numQuestions != "" && form.difficulty != "" && TimeLimit(form.timeLimit).Err? ==>
      a == Rejected(BadRequest, "invalid time_limit")
    ensures FormOk(form) && UserOf(claims).Err? ==> a == Rejected(Unauthorized, UserOf(claims).error)
    ensures FormOk(form) && UserOf(claims).Ok? && file.Missing? ==> a == Rejected(BadRequest, "file is required")
    ensures FormOk(form) && UserOf(claims).Ok? && file.Attached? && file.openError.Some? ==>
      a == Rejected(ServerError, "failed to open uploaded file")
    ensures FormOk(form) && UserOf(claims).Ok? && file.Attached? && file.openError.None? && file.data.Err? ==>
      a == Rejected(ServerError, "failed to read uploaded file")
    ensures a.Admitted? <==>
      FormOk(form) && UserOf(claims).Ok? && file.Attached? && file.openError.None? && file.data.Ok?
    ensures a.Admitted? ==>
      a == Admitted(AtoiValue(form.numQuestions), UserOf(claims).value, file.data.value)
  {
    if form.numQuestions == "" || form.difficulty == "" then Rejected(BadRequest, FieldsRequired)
    else if TimeLimit(form.timeLimit).Err? then Rejected(BadRequest, TimeLimit(form.timeLimit).error)
    else if UserOf(claims).Err? then Rejected(Unauthorized, UserOf(claims).error)
    else if file.Missing? then Rejected(BadRequest, "file is required")
    else if file.openError.Some? then Rejected(ServerError, "failed to open uploaded file")
    else if file.data.Err? then Rejected(ServerError, "failed to read uploaded file")
    else Admitted(AtoiValue(form.numQuestions), UserOf(claims).value, file.data.value)
  }

  /** A question count beyond 64 bits reaches generation as the nearest 64-bit bound. */
  lemma WideQuestionCount(form: UploadForm, claims: Claims, file: FormFile, n: int)
    requires n < MinInt64 || MaxInt64 < n
    requires form.numQuestions == Decimal(n) && Admit(form, claims, file).Admitted?
    ensures Admit(form, claims, file).questionCount == if n < 0 then MinInt64 else MaxInt64
  {
    AtoiValueSaturates(n);
  }

  /** The message of a generation outcome that is not a quiz: the generator's error, or the
      failed type assertion of a diagnostic map. */
  function GenerationFailure(g: GenerateQuiz.Generated): Option<string> {
    match g
    case GenerateFailed(e) => Some("failed to generate quiz: " + e)
    case NoCandidatesReport(_) => Some("invalid quiz format")
    case ParseFailureReport(_, _) => Some("invalid quiz format")
    case GeneratedQuiz(_) => None
  }

  /** Lines 139-156: the questions, then the options, then the commit, stopping at the
      first that fails. */
  method PersistContent(quizId: string, job: Job) returns (r: UploadResponse, steps: seq<Step>)
    requires InsertedQuiz(job) == Ok(quizId)
    ensures steps != [] && steps[0] == InsertQuestionsStep(quizId) && RunFrom(job, steps, r)
  {
    steps := [InsertQuestionsStep(quizId)];
    var questionIds, _ := QuizQuery.InsertQuestionsBulk(quizId, job.quiz.questions, job.store.query);
    if questionIds.Err? {
      return UploadFailed(ServerError, "failed to insert questions"), steps;
    }
    steps := steps + [InsertOptionsStep(questionIds.value)];
    var optionsError, _ := QuizQuery.InsertOptionsBulk(questionIds.value, job.quiz.questions, job.store.exec);
    if optionsError.Some? {
      return UploadFailed(ServerError, "failed to insert options"), steps;
    }
    steps := steps + [CommitStep];
    if job.store.commit.Some? {
      return UploadFailed(ServerError, "failed to commit transaction"), steps;
    }
    r := UploadOk(quizId);
  }

  /** Lines 106-157: the transaction, the quiz row, the original file saved under the new
      quiz's id, then the content, stopping at the first step that fails. */
  method Persist(job: Job) returns (r: UploadResponse, steps: seq<Step>)
    ensures Run(job, steps, r)
  {
    steps := [BeginStep];
    if !job.store.ready {
      return UploadFailed(ServerError, "database not initialized"), steps;
    }
    if job.store.begin.Some? {
      return UploadFailed(ServerError, "failed to begin transaction"), steps;
    }
    steps := steps + [InsertQuizStep];
    var quizId, _ := QuizQuery.InsertQuiz(job.quiz, job.user, job.description, job.store.parseUuid, job.store.insertQuiz);
    if quizId.Err? {
      return UploadFailed(ServerError, "failed to insert quiz"), steps;
    }
    var save := SaveFileStep(quizId.value, job.filename);
    steps := steps + [save];
    if job.store.saveFile(quizId.value, job.filename, job.fileBytes).Some? {
      return UploadFailed(ServerError, "failed to upload original file"), steps;
    }
    var rest;
    r, rest := PersistContent(quizId.value, job);
    RunFromCons(job, save, rest, r);
    RunFromCons(job, InsertQuizStep, [save] + rest, r);
    RunFromCons(job, BeginStep, [InsertQuizStep] + ([save] + rest), r);
    steps := [BeginStep] + ([InsertQuizStep] + ([save] + rest));
  }

  /** Lines 19-160. `generated` is what generation answered, if it was asked; `steps` are the
      store steps started. The parsed time limit is not passed on: `InsertQuiz` takes three
      arguments and stores no time limit. */
  method UploadAndGenerateQuiz(
    form: UploadForm, claims: Claims, file: FormFile, gemini: GenerateQuiz.Gemini, store: Store)
    returns (r: UploadResponse, generated: Option<GenerateQuiz.Generated>, steps: seq<Step>, committed: bool)
    ensures generated.Some? <==> Admit(form, claims, file).Admitted?
    ensures Admit(form, claims, file).Rejected? ==>
      r == UploadFailed(Admit(form, claims, file).status, Admit(form, claims, file).error) && steps == []
    ensures generated.Some? ==>
      var a := Admit(form, claims, file);
      GenerateQuiz.Answers(gemini, Ok(a.fileBytes), a.questionCount, form.difficulty, generated.value)
    ensures generated.Some? && GenerationFailure(generated.value).Some? ==>
      r == UploadFailed(ServerError, GenerationFailure(generated.value).value) && steps == []
    ensures generated.Some? && generated.value.GeneratedQuiz? ==>
      var a := Admit(form, claims, file);
      file.Attached? && Run(Job(generated.value.quiz, a.user, form.description, file.filename, a.fileBytes, store), steps, r)
    ensures InChainOrder(steps)
    ensures committed <==> r.UploadOk?
  {
    generated, steps, committed := None, [], false;
    var admission := Admit(form, claims, file);
    if admission.Rejected? {
      return UploadFailed(admission.status, admission.error), generated, steps, committed;
    }
    var g := GenerateQuiz.GenerateQuiz(gemini, Ok(admission.fileBytes), admission.questionCount, form.difficulty);
    generated := Some(g);
    var failure := GenerationFailure(g);
    if failure.Some? {
      return UploadFailed(ServerError, failure.value), generated, steps, committed;
    }
    var job := Job(g.quiz, admission.user, form.description, file.filename, admission.fileBytes, store);
    r, steps := Persist(job);
    RunInChainOrder(job, steps, r);
    committed := r.UploadOk?;
  }

  // ------------------------------------------------------------ AttemptQuiz

  /** The body of an attempt request. */
  datatype AttemptRequest = AttemptRequest(quizId: string, answers: map<string, string>)

  /** The attempt row handed to `InsertQuizAttempt`. */
  datatype AttemptRow = AttemptRow(
    quizId: string, userId: string, score: int, totalQuestions: int, completed: bool,
    answers: map<string, string>)

  /** The attempt store: `HasUserAttemptedQuiz`, `EvaluateQuizAttempt` (score and total) and
      `InsertQuizAttempt`, whose bodies are not part of this model. */
  datatype AttemptStore = AttemptStore(
    hasAttempted: (string, string) -> Result<bool>,
    evaluate: (string, map<string, string>) -> Result<(int, int)>,
    insert: AttemptRow -> Result<string>)

  datatype AttemptResponse =
    | AttemptFailed(status: int, error: string)
    | AttemptRecorded(attemptId: string, score: int, totalQuestions: int)

  /** Lines 211-261. `evaluated` tells whether the attempt was scored and `inserted` what was
      stored, if anything. */
  method AttemptQuiz(claims: Claims, body: Result<AttemptRequest>, store: AttemptStore)
    returns (r: AttemptResponse, evaluated: bool, inserted: Option<AttemptRow>)
    ensures inserted.Some? ==> evaluated
    ensures UserOf(claims).Err? ==> r == AttemptFailed(Unauthorized, UserOf(claims).error) && !evaluated
    ensures UserOf(claims).Ok? && body.Err? ==> r == AttemptFailed(BadRequest, "invalid request body") && !evaluated
    ensures UserOf(claims).Ok? && body.Ok? ==>
      var req, user := body.value, UserOf(claims).value;
      match store.hasAttempted(req.quizId, user)
      case Err(_) => r == AttemptFailed(ServerError, "failed to check previous attempts") && !evaluated
      case Ok(true) => r == AttemptFailed(BadRequest, "user already attempted this quiz") && !evaluated
      case Ok(false) =>
        evaluated &&
        match store.evaluate(req.quizId, req.answers)
        case Err(_) => r == AttemptFailed(ServerError, "failed to evaluate attempt") && inserted == None
        case Ok(result) =>
          && inserted == Some(AttemptRow(req.quizId, user, result.0, result.1, true, req.answers))
          && match store.insert(inserted.value)
             case Err(_) => r == AttemptFailed(ServerError, "failed to save attempt")
             case Ok(id) => r == AttemptRecorded(id, result.0, result.1)
  {
    evaluated, inserted := false, None;
    var user := UserOf(claims);
    if user.Err? {
      return AttemptFailed(Unauthorized, user.error), evaluated, inserted;
    }
    if body.Err? {
      return AttemptFailed(BadRequest, "invalid request body"), evaluated, inserted;
    }
    var req := body.value;
    var attempted := store.hasAttempted(req.quizId, user.value);
    if attempted.Err? {
      return AttemptFailed(ServerError, "failed to check previous attempts"), evaluated, inserted;
    }
    if attempted.value {
      return AttemptFailed(BadRequest, "user already attempted this quiz"), evaluated, inserted;
    }
    evaluated := true;
    var result := store.evaluate(req.quizId, req.answers);
    if result.Err? {
      return AttemptFailed(ServerError, "failed to evaluate attempt"), evaluated, inserted;
    }
    var (score, total) := result.value;
    var row := AttemptRow(req.quizId, user.value, score, total, true, req.answers);
    inserted := Some(row);
    var attemptId := store.insert(row);
    if attemptId.Err? {
      return AttemptFailed(ServerError, "failed to save attempt"), evaluated, inserted;
    }
    r := AttemptRecorded(attemptId.value, score, total);
  }

  // ------------------------------------------------------------ GetAttemptDetail

  /** One row of the `questions` list of the reply. */
  datatype QuestionOut = QuestionOut(
    id: Uuid, quizId: Uuid, questionText: string, myAnswer: string, correctAnswer: string,
    explanation: string)

  /** The option the user chose for question `q`: the last answer naming it wins. */
  function LastAnswer(answers: seq<AttemptAnswer>, q: Uuid): Option<Uuid> {
    if answers == [] then None
    else if answers[|answers| - 1].questionId == q then Some(answers[|answers| - 1].selectedOptionId)
    else LastAnswer(answers[..|answers| - 1], q)
  }

  /** The content of the option with id `o`; the last of several with that id wins. */
  function OptionContent(options: seq<QuizOption>, o: Uuid): Option<string> {
    if options == [] then None
    else if options[|options| - 1].id == o then Some(options[|options| - 1].content)
    else OptionContent(options[..|options| - 1], o)
  }

  /** The content of the last option flagged correct, or "" if none is. */
  function CorrectContent(options: seq<QuizOption>): string {
    if options == [] then ""
    else if options[|options| - 1].isCorrect then options[|options| - 1].content
    else CorrectContent(options[..|options| - 1])
  }

  /** The `my_answer` of a question: the content of the chosen option if it is one of this
      question's options, else "". */
  function MyAnswer(q: Question, answers: seq<AttemptAnswer>): string {
    match LastAnswer(answers, q.id)
    case None => ""
    case Some(o) =>
      match OptionContent(q.options, o)
      case None => ""
      case Some(c) => c
  }

  function QuestionRow(q: Question, answers: seq<AttemptAnswer>): QuestionOut {
    QuestionOut(q.id, q.quizId, q.question, MyAnswer(q, answers), CorrectContent(q.options), q.explanation)
  }

  /** A chosen option found among the question's options is the one with that id, at its
      last position. */
  lemma {:induction false} OptionContentFound(options: seq<QuizOption>, o: Uuid)
    ensures OptionContent(options, o).Some? <==> exists j :: 0 <= j < |options| && options[j].id == o
    ensures OptionContent(options, o).Some? ==>
      exists j :: 0 <= j < |options| && options[j].id == o && options[j].content == OptionContent(options, o).value
  {
    if options != [] {
      var init := options[..|options| - 1];
      OptionContentFound(init, o);
      assert forall j :: 0 <= j < |init| ==> init[j] == options[j];
    }
  }

  /** `my_answer` is "" or the content of an option of that question that the user chose;
      choosing an option of another question gives "". */
  lemma MyAnswerBelongs(q: Question, answers: seq<AttemptAnswer>)
    ensures MyAnswer(q, answers) != "" ==>
      exists j :: 0 <= j < |q.options| && Some(q.options[j].id) == LastAnswer(answers, q.id)
                  && q.options[j].content == MyAnswer(q, answers)
    ensures LastAnswer(answers, q.id).Some? && (forall j :: 0 <= j < |q.options| ==> q.options[j].id != LastAnswer(answers, q.id).value)
            ==> MyAnswer(q, answers) == ""
  {
    if LastAnswer(answers, q.id).Some? {
      OptionContentFound(q.options, LastAnswer(answers, q.id).value);
    }
  }

  /** `correct_answer` is the content of the last option flagged correct. */
  lemma {:induction false} CorrectIsLastFlagged(options: seq<QuizOption>, k: nat)
    requires k < |options| && options[k].isCorrect
    requires forall j :: k < j < |options| ==> !options[j].isCorrect
    ensures CorrectContent(options) == options[k].content
  {
    if k < |options| - 1 {
      var init := options[..|options| - 1];
      assert init[k] == options[k];
      CorrectIsLastFlagged(init, k);
    }
  }

  /** With no option flagged correct, `correct_answer` is "". */
  lemma {:induction false} NoCorrectOption(options: seq<QuizOption>)
    requires forall j :: 0 <= j < |options| ==> !options[j].isCorrect
    ensures CorrectContent(options) == ""
  {
    if options != [] {
      NoCorrectOption(options[..|options| - 1]);
    }
  }

  function Lookup<K, V>(m: map<K, V>, k: K): Option<V> {
    if k in m then Some(m[k]) else None
  }

  /** Lines 373-376: the map from question id to the option chosen last for it. */
  method AnswerMap(answers: seq<AttemptAnswer>) returns (m: map<Uuid, Uuid>)
    ensures forall q :: Lookup(m, q) == LastAnswer(answers, q)
  {
    m := map[];
    var i := 0;
    while i < |answers|
      invariant 0 <= i <= |answers|
      invariant forall q :: Lookup(m, q) == LastAnswer(answers[..i], q)
    {
      assert answers[..i + 1][..i] == answers[..i];
      m := m[answers[i].questionId := answers[i].selectedOptionId];
      i := i + 1;
    }
    assert answers[..i] == answers;
  }

  /** Lines 386-393: the option contents by id, and the last correct option's content. */
  method OptionTable(options: seq<QuizOption>) returns (contents: map<Uuid, string>, correct: string)
    ensures forall o :: Lookup(contents, o) == OptionContent(options, o)
    ensures correct == CorrectContent(options)
  {
    contents, correct := map[], "";
    var i := 0;
    while i < |options|
      invariant 0 <= i <= |options|
      invariant forall o :: Lookup(contents, o) == OptionContent(options[..i], o)
      invariant correct == CorrectContent(options[..i])
    {
      assert options[..i + 1][..i] == options[..i];
      contents := contents[options[i].id := options[i].content];
      if options[i].isCorrect {
        correct := options[i].content;
      }
      i := i + 1;
    }
    assert options[..i] == options;
  }

  /** Lines 373-410: one row per quiz question, in quiz order. */
  method AssembleQuestions(questions: seq<Question>, answers: seq<AttemptAnswer>) returns (out: seq<QuestionOut>)
    ensures |out| == |questions|
    ensures forall i :: 0 <= i < |questions| ==> out[i] == QuestionRow(questions[i], answers)
  {
    var answerMap := AnswerMap(answers);
    out := [];
    var i := 0;
    while i < |questions|
      invariant 0 <= i <= |questions|
      invariant |out| == i
      invariant forall k :: 0 <= k < i ==> out[k] == QuestionRow(questions[k], answers)
    {
      var qn := questions[i];
      var myAnswerId := Lookup(answerMap, qn.id);
      var optContent, correctContent := OptionTable(qn.options);
      var myAnswer := "";
      if myAnswerId.Some? {
        var c := Lookup(optContent, myAnswerId.value);
        if c.Some? {
          myAnswer := c.value;
        }
      }
      out := out + [QuestionOut(qn.id, qn.quizId, qn.question, myAnswer, correctContent, qn.explanation)];
      i := i + 1;
    }
  }

  datatype DetailResponse =
    | DetailFailed(status: int, error: string)
    | DetailOk(
        attempt: Attempt, quizId: Uuid, title: string, timeLimit: Option<int>, totalCorrect: int,
        totalQuestions: int, questions: seq<QuestionOut>)

  /** Lines 348-433. `user` is the caller's id from the token, `fetch` the attempt-detail
      query (`None` when there is no such attempt). */
  method GetAttemptDetail(user: Result<Uuid>, attemptId: string, fetch: string -> Result<Option<AttemptDetail>>)
    returns (r: DetailResponse)
    ensures user.Err? ==> r == DetailFailed(Unauthorized, user.error)
    ensures user.Ok? && attemptId == "" ==> r == DetailFailed(BadRequest, "attempt id is required")
    ensures user.Ok? && attemptId != "" ==>
      match fetch(attemptId)
      case Err(_) => r == DetailFailed(ServerError, "failed to get attempt detail")
      case Ok(None) => r == DetailFailed(NotFound, "attempt not found")
      case Ok(Some(d)) =>
        if d.attempt.userId != user.value then r == DetailFailed(Forbidden, "forbidden")
        else
          && r.DetailOk? && r.attempt == d.attempt && r.quizId == d.quiz.id && r.title == d.quiz.title
          && r.timeLimit == d.quiz.timeLimit && r.totalCorrect == d.totalCorrect
          && r.totalQuestions == (if d.attempt.totalQuestions > 0 then d.attempt.totalQuestions else |d.quiz.questions|)
          && |r.questions| == |d.quiz.questions|
          && forall i :: 0 <= i < |d.quiz.questions| ==> r.questions[i] == QuestionRow(d.quiz.questions[i], d.answers)
  {
    if user.Err? {
      return DetailFailed(Unauthorized, user.error);
    }
    if attemptId == "" {
      return DetailFailed(BadRequest, "attempt id is required");
    }
    var detail := fetch(attemptId);
    if detail.Err? {
      return DetailFailed(ServerError, "failed to get attempt detail");
    }
    if detail.value.None? {
      return DetailFailed(NotFound, "attempt not found");
    }
    var d := detail.value.value;
    if d.attempt.userId != user.value {
      return DetailFailed(Forbidden, "forbidden");
    }
    var questions := AssembleQuestions(d.quiz.questions, d.answers);
    var total := d.attempt.totalQuestions;
    if total <= 0 {
      total := |d.quiz.questions|;
    }
    r := DetailOk(d.attempt, d.quiz.id, d.quiz.title, d.quiz.timeLimit, d.totalCorrect, total, questions);
  }
}
