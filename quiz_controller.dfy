/** The quiz session controller of the index page: the screen being shown,
    the logged-in user, the position in the quiz, the staged and recorded
    answers, the countdown, and the scoring done when the results screen is
    rendered. The question list the session scores and the chapter list are
    fixed when the page is built (the page's mock constants). */
module QuizController {
  import opened Numbers
  import opened QuizTypes
  import QuizInterface

  datatype Screen = WelcomePage | DashboardPage | SelectionPage | QuizPage | ResultsPage | LeaderboardPage

  /** The navigation callbacks the page hands to its screens. */
  datatype NavEvent =
    | StartQuiz        // dashboard: start a new quiz
    | ViewLeaderboard  // dashboard: view the leaderboard
    | SelectionBack    // chapter selection: back to the dashboard
    | QuizBack         // quiz: back to the chapter selection
    | BackToDashboard  // results: back to the dashboard
    | NextBatch        // results: start the next batch
    | LeaderboardBack  // leaderboard: back to the dashboard

  /** The quiz length in seconds (30 minutes). */
  const QuizSeconds: int := 30 * 60

  function Target(ev: NavEvent): Screen {
    match ev
    case StartQuiz => SelectionPage
    case ViewLeaderboard => LeaderboardPage
    case SelectionBack => DashboardPage
    case QuizBack => SelectionPage
    case BackToDashboard => DashboardPage
    case NextBatch => SelectionPage
    case LeaderboardBack => DashboardPage
  }

  /** The callbacks the screen rendered for `s` can fire. No callback leads
      into the quiz: only selecting a chapter does, and none leads back to
      the welcome screen. */
  function Offered(s: Screen): (evs: set<NavEvent>)
    ensures forall ev | ev in evs :: Target(ev) != QuizPage && Target(ev) != WelcomePage
    ensures s == WelcomePage ==> evs == {}
    ensures s != WelcomePage ==> exists ev | ev in evs :: Target(ev) == DashboardPage || Target(ev) == SelectionPage
  {
    match s
    case WelcomePage => {}
    case DashboardPage => {StartQuiz, ViewLeaderboard}
    case SelectionPage => {SelectionBack}
    case QuizPage => {QuizBack}
    case ResultsPage => {BackToDashboard, NextBatch}
    case LeaderboardPage => {LeaderboardBack}
  }

  /** `copy[i] = v` on a copy of the answers; the session only ever writes at
      the end or over the last entry, so no holes appear. */
  function WriteAt(answers: seq<int>, i: nat, v: int): (r: seq<int>)
    requires i <= |answers|
    ensures |r| == if i == |answers| then i + 1 else |answers|
    ensures r[i] == v && forall k | 0 <= k < |answers| && k != i :: r[k] == answers[k]
  {
    if i == |answers| then answers + [v] else answers[i := v]
  }

  /** `userAnswers[index] ?? -1`: the recorded answer, or -1 when none was. */
  function AnswerAt(answers: seq<int>, i: nat): int {
    if i < |answers| then answers[i] else -1
  }

  /** One reviewed question. */
  function Review(q: Question, userAnswer: int): QuizResult {
    QuizResult(q.id, q.question, q.options, q.correctAnswer, userAnswer, userAnswer == q.correctAnswer)
  }

  /** The number of results flagged correct. */
  function CountCorrect(results: seq<QuizResult>): (n: nat)
    ensures n <= |results|
  {
    if results == [] then 0
    else CountCorrect(results[..|results| - 1]) + (if results[|results| - 1].isCorrect then 1 else 0)
  }

  /** Every result is correct exactly when all of them are counted. */
  lemma {:induction false} CountCorrectAll(results: seq<QuizResult>)
    ensures CountCorrect(results) == |results| <==> forall i | 0 <= i < |results| :: results[i].isCorrect
  {
    if results != [] {
      var init := results[..|results| - 1];
      CountCorrectAll(init);
      assert forall i | 0 <= i < |init| :: init[i] == results[i];
    }
  }

  /** No result is correct exactly when none is counted. */
  lemma {:induction false} CountCorrectNone(results: seq<QuizResult>)
    ensures CountCorrect(results) == 0 <==> forall i | 0 <= i < |results| :: !results[i].isCorrect
  {
    if results != [] {
      var init := results[..|results| - 1];
      CountCorrectNone(init);
      assert forall i | 0 <= i < |init| :: init[i] == results[i];
    }
  }

  /** The value `calculateResults` returns. */
  datatype Summary = Summary(score: int, correctAnswers: nat, results: seq<QuizResult>)

  /** The review of `questions` against `answers`, position by position. */
  function Reviews(questions: seq<Question>, answers: seq<int>): (rs: seq<QuizResult>)
    ensures |rs| == |questions|
    ensures forall i | 0 <= i < |rs| ::
      && rs[i].questionId == questions[i].id
      && rs[i].question == questions[i].question && rs[i].options == questions[i].options
      && rs[i].correctAnswer == questions[i].correctAnswer
      && rs[i].userAnswer == AnswerAt(answers, i)
      && (rs[i].isCorrect <==> AnswerAt(answers, i) == questions[i].correctAnswer)
  {
    seq(|questions|, i requires 0 <= i < |questions| => Review(questions[i], AnswerAt(answers, i)))
  }

  function Score(questions: seq<Question>, answers: seq<int>): Summary
    requires questions != []
  {
    var rs := Reviews(questions, answers);
    Summary(RoundPercent(CountCorrect(rs), |questions|), CountCorrect(rs), rs)
  }

  /** The score is a percentage, 100 exactly when every answer is right and
      0 exactly when none is (for lists under 200 questions; with 200 or
      more, rounding lets one miss still show 100). */
  lemma ScoreRange(questions: seq<Question>, answers: seq<int>)
    requires questions != []
    ensures var s := Score(questions, answers);
      && 0 <= s.score <= 100
      && s.correctAnswers <= |questions|
      && (|questions| < 200 ==>
            (s.score == 100 <==> forall i | 0 <= i < |questions| :: AnswerAt(answers, i) == questions[i].correctAnswer))
      && (|questions| < 200 ==>
            (s.score == 0 <==> forall i | 0 <= i < |questions| :: AnswerAt(answers, i) != questions[i].correctAnswer))
  {
    var s := Score(questions, answers);
    RoundPercentBounds(s.correctAnswers, |questions|);
    CountCorrectAll(s.results);
    CountCorrectNone(s.results);
    if |questions| < 200 {
      RoundPercentExtremes(s.correctAnswers, |questions|);
    }
  }

  /** A question left unanswered scores -1 and so counts as wrong whenever its
      correct answer is a real option index. */
  lemma UnansweredIsWrong(questions: seq<Question>, answers: seq<int>, i: nat)
    requires questions != [] && |answers| <= i < |questions| && questions[i].correctAnswer >= 0
    ensures Score(questions, answers).results[i].userAnswer == -1
    ensures !Score(questions, answers).results[i].isCorrect
  {
  }

  /** What the page renders for its current screen. */
  datatype View =
    | WelcomeView
    | DashboardView(userName: string)
    | SelectionView
    | QuizView(chapterName: string, quiz: QuizInterface.View)
    | ResultsView(chapterName: string, summary: Summary, totalQuestions: nat, hasNextBatch: bool)
    | LeaderboardView(currentUserId: Option<string>)

  /** `chapters.find(c => c.id === id)?.name || "Quiz"`. */
  function ChapterName(chapters: seq<Chapter>, id: string): (name: string)
    ensures name == "Quiz" || exists c | c in chapters :: c.id == id && c.name == name
    ensures (forall c | c in chapters :: c.id != id) ==> name == "Quiz"
    ensures forall k | 0 <= k < |chapters| && chapters[k].id == id && (forall j | 0 <= j < k :: chapters[j].id != id) ::
      name == (if chapters[k].name == "" then "Quiz" else chapters[k].name)
  {
    if chapters == [] then "Quiz"
    else if chapters[0].id == id then (if chapters[0].name == "" then "Quiz" else chapters[0].name)
    else
      var rest := chapters[1..];
      assert forall k | 1 <= k < |chapters| :: chapters[k] == rest[k - 1];
      ChapterName(rest, id)
  }

  /** `calculateResults`: reviews every question in order while counting
      the correct ones, then rounds the ratio to a percentage. It reads the
      page's questions and recorded answers and changes nothing. */
  method CalculateResults(questions: seq<Question>, answers: seq<int>) returns (summary: Summary)
    requires questions != []
    ensures |summary.results| == |questions|
    ensures forall i | 0 <= i < |questions| ::
      && summary.results[i].questionId == questions[i].id
      && summary.results[i].question == questions[i].question
      && summary.results[i].options == questions[i].options
      && summary.results[i].userAnswer == AnswerAt(answers, i)
      && (summary.results[i].isCorrect <==> summary.results[i].userAnswer == questions[i].correctAnswer)
    ensures summary.results == Reviews(questions, answers)
    ensures summary.correctAnswers == CountCorrect(summary.results)
    ensures summary.correctAnswers <= |questions|
    ensures summary.score == RoundPercent(summary.correctAnswers, |questions|)
    ensures 0 <= summary.score <= 100
    ensures summary == Score(questions, answers)
  {
    var correctCount := 0;
    var results := [];
    var i := 0;
    while i < |questions|
      invariant 0 <= i <= |questions|
      invariant results == Reviews(questions, answers)[..i]
      invariant correctCount == CountCorrect(results)
    {
      var userAnswer := AnswerAt(answers, i);
      var isCorrect := userAnswer == questions[i].correctAnswer;
      if isCorrect {
        correctCount := correctCount + 1;
      }
      var r := QuizResult(questions[i].id, questions[i].question, questions[i].options,
                          questions[i].correctAnswer, userAnswer, isCorrect);
      assert (results + [r])[..i] == results;
      results := results + [r];
      i := i + 1;
    }
    assert results == Reviews(questions, answers);
    RoundPercentBounds(correctCount, |questions|);
    summary := Summary(RoundPercent(correctCount, |questions|), correctCount, results);
  }

  class Session {
    const questions: seq<Question>
    const chapters: seq<Chapter>

    var screen: Screen
    var user: Option<User>
    var index: int
    var selected: Option<int>
    var answers: seq<int>
    var timeRemaining: int
    var chapterId: string
    var language: string

    /** The session invariant: the countdown never goes negative; answers are
        recorded densely, one per question passed (plus possibly the last one
        submitted); on the quiz screen exactly the questions before the
        current one are answered and the current one exists; every screen
        but the welcome screen is reached only after logging in. */
    ghost predicate Valid()
      reads this
    {
      && questions != [] && (forall q | q in questions :: |q.options| <= 26)
      && 0 <= timeRemaining
      && 0 <= index <= |answers| <= index + 1
      && (screen == QuizPage ==> |answers| == index && index < |questions|)
      && (screen != WelcomePage ==> user.Some?)
    }

    constructor (questions: seq<Question>, chapters: seq<Chapter>)
      requires questions != [] && forall q | q in questions :: |q.options| <= 26
      ensures Valid()
      ensures this.questions == questions && this.chapters == chapters
      ensures screen == WelcomePage && user == None && index == 0 && selected == None
      ensures answers == [] && timeRemaining == QuizSeconds && chapterId == "" && language == ""
    {
      this.questions := questions;
      this.chapters := chapters;
      screen := WelcomePage;
      user := None;
      index := 0;
      selected := None;
      answers := [];
      timeRemaining := QuizSeconds;
      chapterId := "";
      language := "";
    }

    /** `handleLogin`: the id (the current time in the source) is given. */
    method Login(data: LoginData, id: string)
      requires Valid()
      modifies this
      ensures Valid()
      ensures user == Some(User(id, data.name, data.mobile, data.email)) && screen == DashboardPage
      ensures index == old(index) && selected == old(selected) && answers == old(answers)
      ensures timeRemaining == old(timeRemaining) && chapterId == old(chapterId) && language == old(language)
    {
      user := Some(User(id, data.name, data.mobile, data.email));
      screen := DashboardPage;
    }

    /** `handleSelectChapter`: a fresh quiz, whatever the state before. */
    method SelectChapter(id: string, lang: string)
      requires Valid() && user.Some?
      modifies this
      ensures Valid()
      ensures chapterId == id && language == lang
      ensures index == 0 && selected == None && answers == [] && timeRemaining == QuizSeconds
      ensures screen == QuizPage && user == old(user)
    {
      chapterId := id;
      language := lang;
      index := 0;
      selected := None;
      answers := [];
      timeRemaining := QuizSeconds;
      screen := QuizPage;
    }

    /** `handleSelectAnswer`: only the staged answer changes. */
    method SelectAnswer(answer: int)
      requires Valid()
      modifies this
      ensures Valid()
      ensures selected == Some(answer)
      ensures screen == old(screen) && user == old(user) && index == old(index) && answers == old(answers)
      ensures timeRemaining == old(timeRemaining) && chapterId == old(chapterId) && language == old(language)
    {
      selected := Some(answer);
    }

    /** `handleNext`: commits the staged answer at the current position and
        moves on; without a staged answer nothing happens. Only the quiz
        screen holds it, and only before the last question. */
    method Next()
      requires Valid() && screen == QuizPage && index < |questions| - 1
      modifies this
      ensures Valid()
      ensures old(selected).Some? ==>
        && answers == WriteAt(old(answers), old(index), old(selected).value)
        && index == old(index) + 1 && selected == None
      ensures old(selected).None? ==> answers == old(answers) && index == old(index) && selected == None
      ensures screen == old(screen) && user == old(user)
      ensures timeRemaining == old(timeRemaining) && chapterId == old(chapterId) && language == old(language)
    {
      if selected.Some? {
        answers := WriteAt(answers, index, selected.value);
        index := index + 1;
        selected := None;
      }
    }

    /** `handleSubmitQuiz`: commits a staged answer, if any, and shows the
        results; the position stays where it is. Only the quiz screen holds
        it. */
    method Submit()
      requires Valid() && screen == QuizPage
      modifies this
      ensures Valid()
      ensures old(selected).Some? ==> answers == WriteAt(old(answers), old(index), old(selected).value)
      ensures old(selected).None? ==> answers == old(answers)
      ensures screen == ResultsPage && index == old(index) && selected == old(selected) && user == old(user)
      ensures timeRemaining == old(timeRemaining) && chapterId == old(chapterId) && language == old(language)
    {
      if selected.Some? {
        answers := WriteAt(answers, index, selected.value);
      }
      screen := ResultsPage;
    }

    /** One second of the countdown: only on the quiz screen and only while
        time is left. Reaching zero submits nothing. */
    method Tick()
      requires Valid()
      modifies this
      ensures Valid()
      ensures timeRemaining == if old(screen) == QuizPage && old(timeRemaining) > 0
                               then old(timeRemaining) - 1 else old(timeRemaining)
      ensures screen == old(screen) && user == old(user) && index == old(index) && selected == old(selected)
      ensures answers == old(answers) && chapterId == old(chapterId) && language == old(language)
    {
      if screen == QuizPage && timeRemaining > 0 {
        timeRemaining := timeRemaining - 1;
      }
    }

    /** A navigation callback: only the screen changes. */
    method Navigate(ev: NavEvent)
      requires Valid() && ev in Offered(screen)
      modifies this
      ensures Valid()
      ensures screen == Target(ev) && screen != QuizPage
      ensures user == old(user) && index == old(index) && selected == old(selected) && answers == old(answers)
      ensures timeRemaining == old(timeRemaining) && chapterId == old(chapterId) && language == old(language)
    {
      screen := Target(ev);
    }

    /** The quiz screen's advance button: enabled only with a staged answer,
        it submits on the last question and goes to the next otherwise. */
    method Advance()
      requires Valid() && screen == QuizPage && selected.Some?
      modifies this
      ensures Valid()
      ensures answers == old(answers) + [old(selected).value] && selected == None <== old(index) < |questions| - 1
      ensures old(index) < |questions| - 1 ==> screen == QuizPage && index == old(index) + 1
      ensures old(index) == |questions| - 1 ==>
        screen == ResultsPage && index == old(index) && answers == old(answers) + [old(selected).value]
      ensures old(index) == |questions| - 1 ==> selected == old(selected)
      ensures user == old(user) && timeRemaining == old(timeRemaining)
      ensures chapterId == old(chapterId) && language == old(language)
    {
      if QuizInterface.AdvanceAction(index, |questions|) == QuizInterface.Submit {
        Submit();
      } else {
        Next();
      }
    }

    /** `renderScreen`: the results screen always offers a next batch, and
        the quiz screen shows the session's own position and clock. */
    function Render(): (v: View)
      reads this
      requires Valid()
      ensures screen == WelcomePage <==> v.WelcomeView?
      ensures screen == SelectionPage ==> v == SelectionView
      ensures screen == QuizPage ==>
        v == QuizView(ChapterName(chapters, chapterId), QuizInterface.Render(questions, index, selected, timeRemaining))
      ensures screen == ResultsPage ==> v.ResultsView? && v.chapterName == ChapterName(chapters, chapterId) && v.totalQuestions == |questions|
      ensures screen == DashboardPage ==> v == DashboardView(if user.value.name == "" then "Student" else user.value.name)
      ensures screen == QuizPage ==> v.QuizView? && v.quiz.Page? && v.quiz.questionNumber == index + 1
      ensures screen == QuizPage ==> v.quiz.advanceDisabled == selected.None?
      ensures screen == ResultsPage ==> v.ResultsView? && v.hasNextBatch && v.summary == Score(questions, answers)
      ensures screen == LeaderboardPage ==> v == LeaderboardView(Some(user.value.id))
    {
      match screen
      case WelcomePage => WelcomeView
      case DashboardPage => DashboardView(if user.value.name == "" then "Student" else user.value.name)
      case SelectionPage => SelectionView
      case QuizPage =>
        QuizView(ChapterName(chapters, chapterId),
                 QuizInterface.Render(questions, index, selected, timeRemaining))
      case ResultsPage =>
        ResultsView(ChapterName(chapters, chapterId), Score(questions, answers), |questions|, true)
      case LeaderboardPage => LeaderboardView(Some(user.value.id))
    }
  }

  /** A quiz played to the end through the advance button records one answer
      per question, in order: the staged answers, exactly. */
  method PlayThrough(s: Session, picks: seq<int>)
    requires s.Valid() && s.screen == QuizPage && s.index == 0 && |picks| == |s.questions|
    modifies s
    ensures s.Valid() && s.screen == ResultsPage && s.answers == picks
  {
    var k := 0;
    while k < |picks|
      invariant 0 <= k <= |picks|
      invariant s.Valid()
      invariant k < |picks| ==> s.screen == QuizPage && s.index == k
      invariant k == |picks| ==> s.screen == ResultsPage
      invariant s.answers == picks[..k]
    {
      s.SelectAnswer(picks[k]);
      s.Advance();
      assert picks[..k + 1] == picks[..k] + [picks[k]];
      k := k + 1;
    }
    assert picks[..k] == picks;
  }
}
