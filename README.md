# CCC quiz trainer — a Dafny model

This project models the logic of a browser quiz trainer for the "Course on
Computer Concepts" exam. The app has six screens: welcome/login, dashboard,
chapter selection, a timed quiz, results with an answer review, and a leaderboard.

What is modelled:

- **The question bank** (`question_bank.dfy`). It builds a batch of `count`
  questions by cycling through a chapter's pool with wraparound. Each copy is
  renamed `<poolId>_<position>`. It also models the difficulty filter and the
  raw pool lookup. The bank is a `map` from chapter id to pool.
- **The session controller** of the index page (`quiz_controller.dfy`). It is a
  class whose fields are the page's state: screen, user, question index, staged
  answer, recorded answers, remaining seconds, chapter and language. Its methods
  are the page's handlers: login, select chapter, select answer, next, submit,
  the one-second tick and the navigation callbacks. It also holds the scoring
  done when the results screen renders, and the screen dispatch.
- **The screens' display rules.** Each screen is a module of functions from
  props to what is shown:
  - `quiz_interface.dfy`: the `m:ss` clock, completion percentage and advance button.
  - `results_screen.dfy`: the score bands, option marking and explanation text.
  - `leaderboard.dfy`: rank icons and badges, row style, podium, average and highest.
  - `dashboard.dfy`: best score, badges, the five most recent attempts and status.
  - `quiz_selection.dfy`: progress, completion and the start button.
  - `quiz_stats.dfy`: progress and the difficulty badge.
  - `welcome_screen.dfy`: the login form, a small class.

Shared pieces:

- `numbers.dfy` holds half-up rounding, decimal rendering with its parser, and
  the maximum and sum of a list.
- `quiz_types.dfy` holds the records the screens exchange.

The page as written quizzes on its own fixed list of three questions. It never
loads a batch from the bank when a chapter is selected. The model follows the
code: the session takes its question list as a constructor argument and is not
connected to the bank. Two behaviours of the code are kept as they are:

- The countdown reaching zero does not submit the quiz.
- The results screen is always told that a next batch exists.

`Math.round(100 * a / b)` is modelled as exact half-up rounding,
`(200a + b) / (2b)`. Its contract states what the result means: the integer
within one half of `100a/b`.

## Model

| member | source | states |
|---|---|---|
| Numbers.RoundPercent | src/pages/Index.tsx:182 | the rounded percentage r satisfies r - 1/2 <= 100a/b < r + 1/2 (half-up rounding of the ratio) |
| Numbers.RoundHalfUp | src/components/Leaderboard.tsx:205 | `Math.round(n / d)` is the integer within one half of n/d, halves rounded up |
| Numbers.RoundHalfUpMonotone | src/components/QuizSelection.tsx:26-28 | a larger numerator never rounds to a smaller value |
| Numbers.RoundPercentBounds | src/pages/Index.tsx:182-183 | a ratio between 0 and 1 gives a percentage in 0..100; all gives 100 and none gives 0 |
| Numbers.RoundPercentExtremes | src/pages/Index.tsx:182-183 | with fewer than 200 items, 100 is shown exactly when all count and 0 exactly when none do |
| Numbers.RoundPercentNearMiss | src/pages/Index.tsx:182 | with 200 items, 199 correct still shows 100 |
| Numbers.Decimal | src/data/questionBank.ts:517 | the rendering of a number is a non-empty digit string with no leading zero |
| Numbers.ParseDecimalOfDecimal | src/data/questionBank.ts:517 | reading the decimal rendering back gives the number |
| Numbers.DecimalInjective | src/data/questionBank.ts:517 | different positions render differently |
| Numbers.Max | src/components/Dashboard.tsx:23 | `Math.max` of a non-empty list is one of its elements and at least every element |
| Numbers.SumBounds | src/components/Leaderboard.tsx:205 | n scores between lo and hi sum to between n·lo and n·hi |
| QuestionBank.ChapterPool | src/data/questionBank.ts:532-534 | the stored pool of a known chapter, unchanged; an empty list for an unknown one; a well-formed bank gives only questions filed under that chapter |
| QuestionBank.GetQuestionsByChapter | src/data/questionBank.ts:507-523 | the loop produces a batch: count entries (none for a negative count; 50 by default); entry i is pool[i mod N] renamed `<id>_<i>`; an empty or unknown pool gives an empty batch; the bank is a value, so the stored pool is untouched |
| QuestionBank.BatchContent | src/data/questionBank.ts:513-517 | batch entry i equals pool[i mod N] in every field but the id, which is the pool id, `_`, then i |
| QuestionBank.DigitSuffixUnique | src/data/questionBank.ts:517 | a string of the form `<id>_<digits>` splits in only one way |
| QuestionBank.BatchIdsDistinct | src/data/questionBank.ts:517 | the ids within one batch are pairwise distinct, whatever the pool ids are |
| QuestionBank.BatchFiledUnder | src/data/questionBank.ts:508-518 | a batch from a well-formed bank holds only questions of the requested chapter with a valid correct-answer index into four options |
| QuestionBank.FilterDifficulty | src/data/questionBank.ts:528 | the filter's result is an in-order subsequence of the pool holding every entry of that difficulty as often as the pool does, and nothing else |
| QuestionBank.QuestionsByDifficulty | src/data/questionBank.ts:526-529 | `getQuestionsByDifficulty`: a subsequence of the chapter's pool whose entries all have the difficulty, and which contains every pool entry that has it |
| QuizInterface.AdvanceAction | src/components/QuizInterface.tsx:142 | the advance button submits exactly on the last question (index = length - 1) and moves to the next otherwise |
| QuizInterface.OptionLetter | src/components/QuizInterface.tsx:124 | option i is labelled 'A' + i |
| QuizInterface.PadStart2 | src/components/QuizInterface.tsx:62 | `padStart(2, '0')` leaves two-character strings alone and left-pads shorter ones with zeros to two characters |
| QuizInterface.FormatTime | src/components/QuizInterface.tsx:59-63 | the clock is digits, a colon, then exactly two digits; the minutes have no leading zero (a leading 0 means the clock is "0:ss") |
| QuizInterface.TwoDigitDecimal | src/components/QuizInterface.tsx:61-62 | a seconds value below 100 pads to exactly two digits |
| QuizInterface.FormatTimeRoundTrip | src/components/QuizInterface.tsx:59-63 | the clock reads back as minutes = s div 60 and seconds = s mod 60 < 60, so 60·mins + secs = s |
| QuizInterface.Render | src/components/QuizInterface.tsx:44-147 | an empty list shows the loading placeholder. Otherwise the page shows the position, the question's text and the `m:ss` clock of the remaining time. Completion is 100·(index+1)/length rounded half-up, in 0..100 and 100 on the last question. Advance submits iff on the last question and is disabled iff no answer is staged. The options are shown in order, lettered 'A' + i, with the staged one highlighted |
| QuizController.Offered | src/pages/Index.tsx:186-254 | the welcome screen offers no navigation; every other screen offers a way back to the dashboard or the selection; no callback leads into the quiz or back to the welcome screen |
| QuizController.WriteAt | src/pages/Index.tsx:147-148 | writing answer v at position i sets that entry (appending at the end) and leaves every other entry as it was |
| QuizController.CountCorrect | src/pages/Index.tsx:166-170 | the number of results flagged correct is at most the number of results |
| QuizController.CountCorrectAll | src/pages/Index.tsx:166-170 | every result is counted exactly when every result is correct |
| QuizController.CountCorrectNone | src/pages/Index.tsx:166-170 | nothing is counted exactly when no result is correct |
| QuizController.Reviews | src/pages/Index.tsx:167-180 | one review per question, in order, carrying that question's id, text, options and correct answer; the answer recorded at that position or -1, and correct iff it equals the question's correct answer |
| QuizController.ScoreRange | src/pages/Index.tsx:182-183 | the score is in 0..100 and at most all answers count; under 200 questions it is 100 iff every answer is right, and 0 iff none is |
| QuizController.UnansweredIsWrong | src/pages/Index.tsx:168-169 | a question with no recorded answer gets -1 and counts as wrong |
| QuizController.ChapterName | src/pages/Index.tsx:211-214 | the name of the first chapter whose id matches, or "Quiz" when that name is empty or no chapter matches |
| QuizController.Session.constructor | src/pages/Index.tsx:57-64 | the session starts on the welcome screen with no user, index 0, nothing staged or recorded and 1800 seconds |
| QuizController.Session.Login | src/pages/Index.tsx:122-129 | the user becomes the form data with the given id and the dashboard shows; nothing else changes |
| QuizController.Session.SelectChapter | src/pages/Index.tsx:131-139 | whatever the prior state: chapter and language are recorded; index 0, nothing staged, no answers, 1800 seconds, quiz screen |
| QuizController.Session.SelectAnswer | src/pages/Index.tsx:141-143 | only the staged answer changes |
| QuizController.Session.Next | src/pages/Index.tsx:145-154 | with a staged answer, it is written at the current index, the index grows by one and the stage clears; without one nothing changes |
| QuizController.Session.Submit | src/pages/Index.tsx:156-163 | a staged answer, if any, is written at the current index; the results screen shows; the index stays |
| QuizController.Session.Tick | src/pages/Index.tsx:113-120 | time drops by one only on the quiz screen with time left, so it never goes negative; reaching 0 changes nothing else |
| QuizController.Session.Navigate | src/pages/Index.tsx:196-246 | a navigation callback changes only the screen, to its target, never to the quiz |
| QuizController.Session.Advance | src/components/QuizInterface.tsx:142-143 | pressing advance with an answer staged appends it. Before the last question it moves on and clears the stage; on the last it shows results and the answer stays staged. User, clock, chapter and language are unchanged |
| QuizController.CalculateResults | src/pages/Index.tsx:165-184 | reads the questions and recorded answers, changes nothing, and returns exactly the summary `Score` defines, so `ScoreRange` applies to it. One result per question in order, carrying its id, text and options: a missing answer is -1, and a result is correct iff its answer equals the correct answer. The count is the number of correct flags, at most the number of questions; the score is its rounded percentage, in 0..100 |
| QuizController.Session.Render | src/pages/Index.tsx:186-254 | the view matches the screen. The dashboard gets the user's name, or "Student" when it is empty; the leaderboard gets the user's id. The quiz screen gets the chapter name and the quiz view of the session's questions, position, staged answer and clock. The results screen gets the chapter name, the score of the recorded answers, the number of questions and `hasNextBatch` true |
| QuizController.PlayThrough | src/pages/Index.tsx:145-163 | answering every question through the advance button records exactly the chosen answers, in order, and ends on the results screen |
| ResultsScreen.ScoreMessage | src/components/ResultsScreen.tsx:45-51 | the message is that of the first band reached (≥90, ≥80, ≥70, ≥60, else). The style is success from 80, warning for 60..79 and plain below 60 |
| ResultsScreen.ScoreVariantMonotone | src/components/ResultsScreen.tsx:45-51 | a higher score never gets a weaker style |
| ResultsScreen.OptionMark | src/components/ResultsScreen.tsx:195-200 | an option is marked correct iff it is the correct one, incorrect iff it is the user's and not correct, plain otherwise |
| ResultsScreen.OptionMarks | src/components/ResultsScreen.tsx:194-200 | at most one option is marked correct and at most one incorrect; -1 or a right answer marks none incorrect |
| ResultsScreen.OptionLabels | src/components/ResultsScreen.tsx:210 | the review labels option i with 'A' + i |
| ResultsScreen.Explanation | src/components/ResultsScreen.tsx:60-62 | the explanation is the fixed opening, then the correct option ("undefined" when the index is out of range), then the fixed closing sentence |
| ResultsScreen.Actions | src/components/ResultsScreen.tsx:95-105 | back-to-dashboard is always offered and the next batch exactly when `hasNextBatch` |
| Leaderboard.RankIconFor | src/components/Leaderboard.tsx:20-31 | ranks 1, 2 and 3 get three distinct icons; every other rank gets the trophy |
| Leaderboard.RankBadge | src/components/Leaderboard.tsx:33-37 | rank ≤ 3 gives the default badge, 4..10 secondary, above 10 outline |
| Leaderboard.RowStyleFor | src/components/Leaderboard.tsx:39-51 | the current user's row is highlighted even in the top three; other top-three rows get the podium style; the rest are plain |
| Leaderboard.PodiumStyleFor | src/components/Leaderboard.tsx:92-96 | gold for rank 1, silver for rank 2, bronze otherwise |
| Leaderboard.Split | src/components/Leaderboard.tsx:53-54 | podium ++ others is the board, and the podium has min(3, length) entries |
| Leaderboard.Rows | src/components/Leaderboard.tsx:144-177 | one row per entry, in the order given and unsorted. Each row has its rank's icon and badge, its style and the current-user flag |
| Leaderboard.AverageScore | src/components/Leaderboard.tsx:205 | 0 for an empty board, otherwise the integer within one half of the mean score |
| Leaderboard.AverageWithin | src/components/Leaderboard.tsx:205 | the average lies between any lower and upper bound of the scores |
| Leaderboard.HighestScore | src/components/Leaderboard.tsx:216 | 0 for an empty board, otherwise one of the scores and at least every score |
| Leaderboard.Render | src/components/Leaderboard.tsx:53-216 | the podium shows the first min(3, n) entries, each with its rank's icon, badge and gold/silver/bronze style. The list is `Rows` of every entry, in order. The empty-board message shows iff n = 0, the top-100 note iff n ≥ 100. Statistics are n, the average and the highest |
| Dashboard.BestScore | src/components/Dashboard.tsx:21-24 | 0 for an empty history, otherwise one of the scores and at least every score |
| Dashboard.ScoreBadge | src/components/Dashboard.tsx:28-32 | default from 90, secondary for 70..89, outline below 70 |
| Dashboard.Recent | src/components/Dashboard.tsx:128 | the first min(5, length) attempts, in order |
| Dashboard.ViewAllWhenHidden | src/components/Dashboard.tsx:128-145 | the "View All" button shows exactly when some attempt is not listed |
| Dashboard.Render | src/components/Dashboard.tsx:21-151 | best score, total = history length, "Active" iff history is non-empty. The empty prompt shows iff it is empty. The recent list pairs each attempt with its badge; "View All" shows iff length > 5 |
| QuizSelection.ProgressPercentage | src/components/QuizSelection.tsx:26-28 | the progress is the integer within one half of 100·completed/total |
| QuizSelection.ProgressMonotone | src/components/QuizSelection.tsx:26-28 | completing more questions never lowers the progress |
| QuizSelection.Title | src/components/QuizSelection.tsx:91 | the Hindi name iff the language is "hindi" |
| QuizSelection.ChapterCard | src/components/QuizSelection.tsx:76-147 | the button is disabled iff the chapter is complete (completed ≥ total). It reads Completed when complete, else Start iff nothing is done, else Continue. Remaining = total - completed; pressing selects (chapter id, language) |
| QuizSelection.CardExtremes | src/components/QuizSelection.tsx:26-32 | a fully done chapter shows 100% and 0 remaining; an untouched one shows 0% and Start |
| QuizSelection.Cards | src/components/QuizSelection.tsx:75-77 | one card per chapter, in order, under the selected language, "english" by default |
| QuizSelection.OpeningCards | src/components/QuizSelection.tsx:24 | before the language is changed the cards show the English names, and each button starts its chapter in English |
| QuizStats.DifficultyBadge | src/components/QuizStats.tsx:78-82 | default for "easy", secondary for "medium", outline for anything else |
| QuizStats.UpperAscii | src/components/QuizStats.tsx:84 | lower-case ASCII letters become upper case and other characters stay |
| QuizStats.Capitalize | src/components/QuizStats.tsx:84 | the first character is upper-cased and the rest kept, so the length is preserved |
| QuizStats.Render | src/components/QuizStats.tsx:21-84 | progress rounds 100·completed/total; remaining = total - completed; when all are done progress is 100 and remaining 0 |
| WelcomeScreen.LoginForm.constructor | src/components/WelcomeScreen.tsx:13-17 | the form opens with all three fields empty, which cannot log in |
| WelcomeScreen.LoginForm.SetName | src/components/WelcomeScreen.tsx:88 | editing the name leaves mobile and email as they were |
| WelcomeScreen.LoginForm.SetMobile | src/components/WelcomeScreen.tsx:101 | editing the mobile leaves name and email as they were |
| WelcomeScreen.LoginForm.SetEmail | src/components/WelcomeScreen.tsx:114 | editing the email leaves name and mobile as they were |
| WelcomeScreen.LoginForm.Submit | src/components/WelcomeScreen.tsx:19-24 | the login handler is called iff all three fields are non-empty, with exactly the form's contents |
| WelcomeScreen.FillAndSubmit | src/components/WelcomeScreen.tsx:13-24 | submitting before typing does nothing; after filling the fields, it submits exactly what was typed |

## Left out

- Rendering is not modelled: markup, CSS class strings, icons, emoji and
  animation delays. Row styles, badge variants and button labels are enums.
- `src/components/ui/button.tsx` is not part of this model. It is a styling
  wrapper with no logic of its own.
- The timer's `setInterval`/`clearInterval` scheduling is not modelled. Only
  the one-second step and its guard are (`Session.Tick`).
- `Date.now()` for the user id is a parameter of `Session.Login`.
- `toLocaleDateString` on attempt dates is not modelled.
- The content of the static data is not modelled: the question bank, the page's
  chapters, questions, history and leaderboard. They are parameters. The bank's
  shape is stated as `WellFormed` and assumed, not checked against the data.
- React lifecycle state is not modelled: the quiz screen's `mounted` flag, the
  results screen's explanation dialog and its language select. The chapter
  screen's language select is the `language` parameter of `QuizSelection.Cards`,
  which defaults to "english"; changing it is not modelled.
- Numbers.RoundPercent: exact half-up rounding of the ratio. The source computes
  `(a / b) * 100` in floating point, so it may round the other way at an
  exact .5 tie. Zero totals are excluded (`requires b > 0`): JavaScript gives
  NaN or Infinity there. Every chapter fixture has 250 questions. The quiz
  screen shows its loading placeholder for an empty list. The session scores
  a non-empty list (the page's has three).
- QuizController.Session.constructor: requires a non-empty question list with
  at most 26 options each, because option letters past 'Z' are not modelled.
  The page's questions have four options.
- QuizInterface.OptionLetter: only indexes below 26 are modelled. JavaScript
  goes on to the characters after 'Z'.
- QuizInterface.FormatTime: takes a natural number. Negative times are not
  modelled because the session never lets the time go below 0.
- QuizController.Session.Next: requires the quiz screen and an index before the
  last question. Only the quiz screen holds this handler, and its button calls
  it only there.
- QuizController.Session.Submit: requires the quiz screen, the only screen that
  holds it.
- QuizController.Session.Navigate: requires an event the current screen offers.
- Recorded answers are a dense sequence, not a possibly sparse JavaScript
  array. `Valid()` keeps index ≤ |answers| ≤ index + 1, so every write lands at
  the end or on the last entry and no hole can appear.
- QuizStats.UpperAscii: maps only the ASCII letters a-z to upper case and
  keeps every other character. JavaScript's `toUpperCase` also maps non-ASCII
  letters.
- QuizStats.Capitalize: upper-cases ASCII letters only. JavaScript's
  `toUpperCase` maps other letters too, and can lengthen a string ('ß' becomes
  "SS"), so length preservation holds only for the modelled case.
- QuestionBank.GetQuestionsByChapter: `count` is an integer. Fractional counts
  are not modelled.
- Lookups of inherited object keys such as "constructor" are not modelled.
  In JavaScript such a lookup finds a prototype member instead of a pool.
- The `default` branch of `renderScreen` is not modelled. The screen type is a
  closed enumeration, so it cannot be reached.
- WelcomeScreen.LoginForm.Submit: models `handleSubmit` alone. The browser
  checks the inputs' `required` and `type="email"` attributes before the
  handler runs, and that check is not modelled. On the page, a malformed email
  such as "abc" blocks submission even though every field is non-empty.
- WelcomeScreen.FillAndSubmit: drives `handleSubmit` directly, so the browser's
  `required`/`type="email"` validation is left out here too.
