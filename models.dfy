/** The records of `app/models` that the core reads and writes. Identifiers are UUIDs;
    timestamps are abstract instants. */
module Models {
  import opened Wrappers

  /** `uuid.UUID`. */
  datatype Uuid = Uuid(bits: nat)

  /** The zero UUID, a Go struct's default. */
  const NilUuid := Uuid(0)

  type Timestamp = nat

  /** `models.Option`: one answer choice of a question. */
  datatype QuizOption = QuizOption(id: Uuid, questionId: Uuid, content: string, isCorrect: bool)

  /** `models.Question`. */
  datatype Question = Question(
    id: Uuid, quizId: Uuid, question: string, options: seq<QuizOption>, explanation: string)

  /** `models.Quiz`; `timeLimit` is the nullable `time_limit` column. */
  datatype Quiz = Quiz(
    id: Uuid, title: string, description: string, difficulty: string, timeLimit: Option<int>,
    createdBy: string, attempts: int, totalQuestions: Option<int>, questions: seq<Question>,
    createdAt: Timestamp)

  /** `models.Attempt`. */
  datatype Attempt = Attempt(
    id: Uuid, quizId: Uuid, userId: Uuid, score: int, totalQuestions: int,
    submittedAt: Timestamp, isCompleted: bool)

  /** `models.AttemptAnswer`: the option a user picked for one question. */
  datatype AttemptAnswer = AttemptAnswer(questionId: Uuid, selectedOptionId: Uuid)

  /** `models.AttemptDetail`. */
  datatype AttemptDetail = AttemptDetail(
    attempt: Attempt, quiz: Quiz, answers: seq<AttemptAnswer>, totalCorrect: int)

  /** `models.StudyGroup`. */
  datatype StudyGroup = StudyGroup(
    id: Uuid, name: string, description: Option<string>, inviteCode: Option<string>,
    memberCount: int, maxMember: int, isPrivate: bool, createdBy: Uuid,
    createdAt: Timestamp, updatedAt: Timestamp)

  /** `models.Comment`. */
  datatype Comment = Comment(
    id: Uuid, quizId: Uuid, content: string, commenterBy: Uuid, createdAt: Timestamp)

  /** `models.User`; `expPoints` is text, as in the source. */
  datatype User = User(
    id: Uuid, username: string, email: string, passwordHash: string, expPoints: string,
    userRole: string, imageUrl: Option<string>, createdAt: Timestamp, updatedAt: Timestamp,
    followerCount: Option<int>, followingCount: Option<int>)
}
