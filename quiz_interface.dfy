/** The quiz-taking screen as a function of its props: the loading
    placeholder for an empty list, the `m:ss` clock, the completion
    percentage, the option buttons and the advance button that submits on
    the last question and moves on otherwise. */
module QuizInterface {
  import opened Numbers
  import opened QuizTypes

  /** Which handler the advance button is wired to. */
  datatype Action = Next | Submit

  datatype OptionButton = OptionButton(letter: char, text: string, highlighted: bool)

  datatype View =
    | Loading
    | Page(
        questionNumber: int,
        total: nat,
        percentComplete: int,
        clock: string,
        prompt: string,
        options: seq<OptionButton>,
        answerSelected: bool,
        advance: Action,
        advanceDisabled: bool)

  function IsLastQuestion(index: int, count: int): bool {
    index == count - 1
  }

  /** `onClick={isLastQuestion ? onSubmit : onNext}`. */
  function AdvanceAction(index: int, count: int): (a: Action)
    ensures a == Submit <==> index == count - 1
  {
    if IsLastQuestion(index, count) then Submit else Next
  }

  /** Option `i` is labelled with the i-th capital letter. */
  function OptionLetter(i: nat): (c: char)
    requires i < 26
    ensures 'A' <= c <= 'Z' && c as int - 'A' as int == i
  {
    (65 + i) as char
  }

  /** `padStart(2, '0')`. */
  function PadStart2(s: string): (r: string)
    ensures |s| < 2 ==> |r| == 2 && r[2 - |s|..] == s && forall k | 0 <= k < 2 - |s| :: r[k] == '0'
    ensures |s| >= 2 ==> r == s
  {
    if |s| >= 2 then s else seq(2 - |s|, _ => '0') + s
  }

  /** `formatTime`: whole minutes, a colon, then the seconds in two digits.
      The session never lets the time go negative. */
  function FormatTime(seconds: nat): (t: string)
    ensures |t| >= 4 && t[|t| - 3] == ':'
    ensures AllDigits(t[..|t| - 3]) && AllDigits(t[|t| - 2..])
    ensures t[0] == '0' ==> |t| == 4
  {
    TwoDigitDecimal(seconds % 60);
    Decimal(seconds / 60) + ":" + PadStart2(Decimal(seconds % 60))
  }

  lemma TwoDigitDecimal(n: nat)
    requires n < 100
    ensures |PadStart2(Decimal(n))| == 2 && AllDigits(PadStart2(Decimal(n)))
  {
    if n >= 10 {
      assert Decimal(n) == Decimal(n / 10) + [DigitChar(n % 10)];
    }
  }

  /** Reads a clock `m:ss` back as minutes and seconds. */
  function ParseClock(t: string): Option<(nat, nat)> {
    if |t| >= 4 && t[|t| - 3] == ':' && AllDigits(t[..|t| - 3]) && AllDigits(t[|t| - 2..])
    then Some((ParseDecimal(t[..|t| - 3]), ParseDecimal(t[|t| - 2..])))
    else None
  }

  /** The clock shows exactly the remaining time: minutes and seconds read
      back give the seconds, and the seconds part is below 60. */
  lemma FormatTimeRoundTrip(seconds: nat)
    ensures ParseClock(FormatTime(seconds)).Some?
    ensures var (mins, secs) := ParseClock(FormatTime(seconds)).value;
      mins == seconds / 60 && secs == seconds % 60 && secs < 60 && 60 * mins + secs == seconds
  {
    var m, s := seconds / 60, seconds % 60;
    var t := FormatTime(seconds);
    var ss := PadStart2(Decimal(s));
    TwoDigitDecimal(s);
    assert t == Decimal(m) + ":" + ss;
    assert t[..|t| - 3] == Decimal(m);
    assert t[|t| - 2..] == ss;
    ParseDecimalOfDecimal(m);
    ParseTwoDigits(ss);
    if s < 10 {
      assert ss == ['0', DigitChar(s)];
    } else {
      assert ss == Decimal(s) == Decimal(s / 10) + [DigitChar(s % 10)];
      assert Decimal(s / 10) == [DigitChar(s / 10)];
    }
  }

  /** The rendered quiz screen. The session keeps the index inside the list
      whenever the list is non-empty. */
  function Render(questions: seq<Question>, index: int, selected: Option<int>, timeRemaining: nat): (v: View)
    requires questions != [] ==> 0 <= index < |questions| && |questions[index].options| <= 26
    ensures v.Loading? <==> questions == []
    ensures v.Page? ==> v.questionNumber == index + 1 && v.total == |questions|
    ensures v.Page? ==> ParseClock(v.clock) == Some((timeRemaining / 60, timeRemaining % 60))
    ensures v.Page? ==> v.clock == FormatTime(timeRemaining) && v.prompt == questions[index].question
    ensures v.Page? ==> v.percentComplete == RoundPercent(index + 1, |questions|)
    ensures v.Page? ==> 0 <= v.percentComplete <= 100
    ensures v.Page? ==> (v.percentComplete == 100 <== index == |questions| - 1)
    ensures v.Page? ==> (v.advance == Submit <==> index == |questions| - 1)
    ensures v.Page? ==> (v.advanceDisabled <==> selected.None?) && v.answerSelected == selected.Some?
    ensures v.Page? ==> |v.options| == |questions[index].options|
    ensures v.Page? ==> forall i | 0 <= i < |v.options| ::
      && v.options[i].letter == OptionLetter(i)
      && v.options[i].text == questions[index].options[i]
      && v.options[i].highlighted == (selected == Some(i))
  {
    if questions == [] then Loading
    else
      var q := questions[index];
      FormatTimeRoundTrip(timeRemaining);
      RoundPercentBounds(index + 1, |questions|);
      Page(
        index + 1,
        |questions|,
        RoundPercent(index + 1, |questions|),
        FormatTime(timeRemaining),
        q.question,
        seq(|q.options|, i requires 0 <= i < |q.options| =>
          OptionButton(OptionLetter(i), q.options[i], selected == Some(i))),
        selected.Some?,
        AdvanceAction(index, |questions|),
        selected.None?)
  }
}
