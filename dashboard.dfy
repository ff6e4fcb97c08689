/** The dashboard: best score and count of attempts, the score badge of each
    attempt, the five most recent attempts and the status line. */
module Dashboard {
  import opened Numbers
  import opened QuizTypes

  datatype Status = Active | GettingStarted

  /** `getBestScore`: 0 before any attempt, the highest score after. */
  function BestScore(history: seq<QuizAttempt>): (best: int)
    ensures history == [] ==> best == 0
    ensures history != [] ==> exists i | 0 <= i < |history| :: history[i].score == best
    ensures forall i | 0 <= i < |history| :: history[i].score <= best
  {
    if history == [] then 0
    else
      var scores := seq(|history|, i requires 0 <= i < |history| => history[i].score);
      assert forall i | 0 <= i < |history| :: scores[i] == history[i].score;
      Max(scores)
  }

  /** `getScoreBadgeVariant`. */
  function ScoreBadge(score: int): (b: Badge)
    ensures b == DefaultBadge <==> score >= 90
    ensures b == SecondaryBadge <==> 70 <= score < 90
    ensures b == OutlineBadge <==> score < 70
  {
    if score >= 90 then DefaultBadge
    else if score >= 70 then SecondaryBadge
    else OutlineBadge
  }

  /** `slice(0, 5)`: the first five attempts, in order. */
  function Recent(history: seq<QuizAttempt>): (recent: seq<QuizAttempt>)
    ensures |recent| == if |history| < 5 then |history| else 5
    ensures recent == history[..|recent|]
  {
    if |history| < 5 then history else history[..5]
  }

  /** The "View All" button. */
  function ShowsViewAll(history: seq<QuizAttempt>): bool {
    |history| > 5
  }

  /** The button appears exactly when some attempt is not listed. */
  lemma ViewAllWhenHidden(history: seq<QuizAttempt>)
    ensures ShowsViewAll(history) <==> |Recent(history)| < |history|
  {
  }

  datatype View = View(
    best: int,
    totalQuizzes: nat,
    status: Status,
    emptyPrompt: bool,
    recent: seq<(QuizAttempt, Badge)>,
    viewAll: bool)

  /** The whole dashboard for a history. */
  function Render(history: seq<QuizAttempt>): (v: View)
    ensures v.best == BestScore(history) && v.totalQuizzes == |history|
    ensures v.status == Active <==> history != []
    ensures v.emptyPrompt <==> history == []
    ensures |v.recent| == |Recent(history)|
    ensures forall i | 0 <= i < |v.recent| ::
      v.recent[i] == (history[i], ScoreBadge(history[i].score))
    ensures v.viewAll <==> |history| > 5
  {
    var recent := Recent(history);
    View(
      BestScore(history),
      |history|,
      if |history| > 0 then Active else GettingStarted,
      |history| == 0,
      seq(|recent|, i requires 0 <= i < |recent| => (recent[i], ScoreBadge(recent[i].score))),
      ShowsViewAll(history))
  }
}
