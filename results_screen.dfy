/** The results screen: the headline chosen by score band, the marking of
    each option in the review, the explanation text and the action buttons. */
module ResultsScreen {
  import opened QuizTypes
  import QuizInterface

  /** The headline's style. */
  datatype Variant = Success | Warning | Plain

  datatype ScoreInfo = ScoreInfo(message: string, variant: Variant)

  /** How an option button is drawn in the review. */
  datatype Mark = Correct | Incorrect | Outline

  datatype Action = BackToDashboard | StartNextBatch

  /** `getScoreMessage`: the first band the score reaches, from the top. */
  function ScoreMessage(score: int): (info: ScoreInfo)
    ensures info.message == "Excellent Work!" <==> score >= 90
    ensures info.message == "Great Job!" <==> 80 <= score < 90
    ensures info.message == "Good Progress!" <==> 70 <= score < 80
    ensures info.message == "Keep Practicing!" <==> 60 <= score < 70
    ensures info.message == "Don't Give Up!" <==> score < 60
    ensures info.variant == Success <==> score >= 80
    ensures info.variant == Warning <==> 60 <= score < 80
    ensures info.variant == Plain <==> score < 60
  {
    if score >= 90 then ScoreInfo("Excellent Work!", Success)
    else if score >= 80 then ScoreInfo("Great Job!", Success)
    else if score >= 70 then ScoreInfo("Good Progress!", Warning)
    else if score >= 60 then ScoreInfo("Keep Practicing!", Warning)
    else ScoreInfo("Don't Give Up!", Plain)
  }

  /** A higher score never gets a weaker style. */
  lemma ScoreVariantMonotone(s: int, t: int)
    requires s <= t
    ensures ScoreMessage(s).variant == Success ==> ScoreMessage(t).variant == Success
    ensures ScoreMessage(t).variant == Plain ==> ScoreMessage(s).variant == Plain
  {
  }

  /** The mark of option `optionIndex` of a reviewed question: the correct
      option is always marked correct, the user's other choice incorrect,
      every other option plain. */
  function OptionMark(result: QuizResult, optionIndex: int): (m: Mark)
    ensures m == Correct <==> optionIndex == result.correctAnswer
    ensures m == Incorrect <==> optionIndex == result.userAnswer && optionIndex != result.correctAnswer
  {
    var isCorrect := optionIndex == result.correctAnswer;
    var isUserAnswer := optionIndex == result.userAnswer;
    if isCorrect then Correct
    else if isUserAnswer && !isCorrect then Incorrect
    else Outline
  }

  /** The marks of all options of a reviewed question. At most one option is
      marked correct and at most one incorrect; an unanswered question (-1)
      or a right answer marks none incorrect. */
  function OptionMarks(result: QuizResult): (marks: seq<Mark>)
    ensures |marks| == |result.options|
    ensures forall i, j | 0 <= i < j < |marks| :: !(marks[i] == Correct && marks[j] == Correct)
    ensures forall i, j | 0 <= i < j < |marks| :: !(marks[i] == Incorrect && marks[j] == Incorrect)
    ensures result.userAnswer == -1 || result.userAnswer == result.correctAnswer ==>
      forall i | 0 <= i < |marks| :: marks[i] != Incorrect
  {
    seq(|result.options|, i requires 0 <= i < |result.options| => OptionMark(result, i))
  }

  /** The option labels of the review, 'A' for the first. */
  function OptionLabels(result: QuizResult): (labels: seq<char>)
    requires |result.options| <= 26
    ensures |labels| == |result.options|
    ensures forall i | 0 <= i < |labels| :: labels[i] as int == 'A' as int + i
  {
    seq(|result.options|, i requires 0 <= i < |result.options| => QuizInterface.OptionLetter(i))
  }

  const ExplanationPrefix: string := "The correct answer is \""
  const ExplanationSuffix: string :=
    "\" because this option represents the fundamental concept accurately. The other options are incorrect as they either provide incomplete information or misstate key facts related to computer concepts."

  /** `options[correctAnswer]` in a template string: an index outside the
      list reads as "undefined". */
  function CorrectOptionText(result: QuizResult): string {
    if 0 <= result.correctAnswer < |result.options| then result.options[result.correctAnswer]
    else "undefined"
  }

  /** `getAIExplanation`: a fixed template quoting the correct option. */
  function Explanation(result: QuizResult): (text: string)
    ensures |text| == |ExplanationPrefix| + |CorrectOptionText(result)| + |ExplanationSuffix|
    ensures text[..|ExplanationPrefix|] == ExplanationPrefix
    ensures 0 <= result.correctAnswer < |result.options| ==>
      text[|ExplanationPrefix|..|ExplanationPrefix| + |result.options[result.correctAnswer]|]
        == result.options[result.correctAnswer]
    ensures !(0 <= result.correctAnswer < |result.options|) ==>
      text[|ExplanationPrefix|..|ExplanationPrefix| + 9] == "undefined"
    ensures text[|text| - |ExplanationSuffix|..] == ExplanationSuffix
  {
    var t := ExplanationPrefix + CorrectOptionText(result) + ExplanationSuffix;
    assert t[|ExplanationPrefix|..|ExplanationPrefix| + |CorrectOptionText(result)|] == CorrectOptionText(result);
    assert t[|t| - |ExplanationSuffix|..] == ExplanationSuffix;
    t
  }

  /** The action buttons: back to the dashboard always, the next batch only
      when one is offered. */
  function Actions(hasNextBatch: bool): (actions: seq<Action>)
    ensures BackToDashboard in actions
    ensures StartNextBatch in actions <==> hasNextBatch
  {
    [BackToDashboard] + (if hasNextBatch then [StartNextBatch] else [])
  }
}
