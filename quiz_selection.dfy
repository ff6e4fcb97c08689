/** The chapter-selection screen: one card per chapter with its progress,
    completion, remaining count and a start button that hands the chapter
    and the chosen language to the session. */
module QuizSelection {
  import opened Numbers
  import opened QuizTypes

  /** The language selected when the screen opens. */
  const DefaultLanguage: string := "english"

  datatype ButtonLabel = CompletedLabel | StartLabel | ContinueLabel

  datatype Card = Card(
    title: string,
    progress: int,
    completeBadge: bool,
    remaining: int,
    buttonLabel: ButtonLabel,
    disabled: bool,
    selects: (string, string))

  /** `getProgressPercentage`. */
  function ProgressPercentage(completed: int, total: int): (p: int)
    requires total > 0
    ensures total * (2 * p - 1) <= 200 * completed < total * (2 * p + 1)
  {
    RoundPercent(completed, total)
  }

  /** `isChapterCompleted`. */
  predicate IsChapterCompleted(completed: int, total: int) {
    completed >= total
  }

  /** Progress never drops as more questions are completed. */
  lemma ProgressMonotone(c: int, d: int, total: int)
    requires total > 0 && c <= d
    ensures ProgressPercentage(c, total) <= ProgressPercentage(d, total)
  {
    RoundHalfUpMonotone(100 * c, 100 * d, total);
  }

  /** `selectedLanguage === "hindi" ? nameHindi : name`. */
  function Title(chapter: Chapter, language: string): (title: string)
    ensures language == "hindi" ==> title == chapter.nameHindi
    ensures language != "hindi" ==> title == chapter.name
  {
    if language == "hindi" then chapter.nameHindi else chapter.name
  }

  /** The card of one chapter under the selected language. A completed
      chapter's button is disabled and reads "Completed"; otherwise it reads
      "Start" before any question is done and "Continue" after. Pressing it
      selects exactly this chapter in the selected language. */
  function ChapterCard(chapter: Chapter, language: string): (card: Card)
    requires chapter.totalQuestions > 0
    ensures card.title == Title(chapter, language)
    ensures card.progress == ProgressPercentage(chapter.completedQuestions, chapter.totalQuestions)
    ensures card.disabled <==> chapter.completedQuestions >= chapter.totalQuestions
    ensures card.completeBadge <==> card.disabled
    ensures card.buttonLabel == CompletedLabel <==> card.disabled
    ensures card.buttonLabel == StartLabel <==> !card.disabled && chapter.completedQuestions == 0
    ensures card.buttonLabel == ContinueLabel <==> !card.disabled && chapter.completedQuestions != 0
    ensures card.remaining == chapter.totalQuestions - chapter.completedQuestions
    ensures card.selects == (chapter.id, language)
  {
    var done := IsChapterCompleted(chapter.completedQuestions, chapter.totalQuestions);
    Card(
      Title(chapter, language),
      ProgressPercentage(chapter.completedQuestions, chapter.totalQuestions),
      done,
      chapter.totalQuestions - chapter.completedQuestions,
      if done then CompletedLabel else if chapter.completedQuestions == 0 then StartLabel else ContinueLabel,
      done,
      (chapter.id, language))
  }

  /** A chapter with every question done shows 100% and nothing remaining;
      one with none done shows 0%. */
  lemma CardExtremes(chapter: Chapter, language: string)
    requires chapter.totalQuestions > 0
    ensures chapter.completedQuestions == chapter.totalQuestions ==>
      ChapterCard(chapter, language).progress == 100 && ChapterCard(chapter, language).remaining == 0
    ensures chapter.completedQuestions == 0 ==>
      ChapterCard(chapter, language).progress == 0 && ChapterCard(chapter, language).buttonLabel == StartLabel
  {
    if chapter.completedQuestions == chapter.totalQuestions || chapter.completedQuestions == 0 {
      RoundPercentBounds(chapter.completedQuestions, chapter.totalQuestions);
    }
  }

  /** The grid: one card per chapter, in order. */
  function Cards(chapters: seq<Chapter>, language: string := DefaultLanguage): (cards: seq<Card>)
    requires forall c | c in chapters :: c.totalQuestions > 0
    ensures |cards| == |chapters|
    ensures forall i | 0 <= i < |cards| :: cards[i] == ChapterCard(chapters[i], language)
  {
    seq(|chapters|, i requires 0 <= i < |chapters| => ChapterCard(chapters[i], language))
  }

  /** Before the language select is touched the cards show the English
      names, and every button starts its chapter in English. */
  lemma OpeningCards(chapters: seq<Chapter>)
    requires forall c | c in chapters :: c.totalQuestions > 0
    ensures forall i | 0 <= i < |chapters| ::
      Cards(chapters)[i].title == chapters[i].name && Cards(chapters)[i].selects == (chapters[i].id, "english")
  {
  }
}
