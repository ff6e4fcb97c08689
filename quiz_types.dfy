/** Records passed between the session controller and the screens. Each
    screen file redeclares the shape it needs; they agree, so the model
    declares each once. */
module QuizTypes {

  /** A question as the session and the quiz screen see it. */
  datatype Question = Question(
    id: string,
    question: string,
    options: seq<string>,
    correctAnswer: int)

  /** One reviewed question: the user's answer is -1 when none was recorded. */
  datatype QuizResult = QuizResult(
    questionId: string,
    question: string,
    options: seq<string>,
    correctAnswer: int,
    userAnswer: int,
    isCorrect: bool)

  datatype Chapter = Chapter(
    id: string,
    name: string,
    nameHindi: string,
    totalQuestions: int,
    completedQuestions: int)

  datatype QuizAttempt = QuizAttempt(id: string, quizName: string, score: int, date: string)

  datatype LeaderboardEntry = LeaderboardEntry(id: string, name: string, score: int, rank: int)

  /** What the login form hands to the session. */
  datatype LoginData = LoginData(name: string, mobile: string, email: string)

  datatype User = User(id: string, name: string, mobile: string, email: string)

  /** The variants of the badge component the screens pick from. */
  datatype Badge = DefaultBadge | SecondaryBadge | OutlineBadge
}
