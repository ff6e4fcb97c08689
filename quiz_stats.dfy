/** The chapter statistics card: progress, remaining questions and the
    difficulty badge with its capitalised label. */
module QuizStats {
  import opened Numbers
  import opened QuizTypes

  datatype View = View(progress: int, remaining: int, batch: int, badge: Badge, difficultyLabel: string)

  /** `difficulty === 'easy' ? 'default' : difficulty === 'medium' ? 'secondary' : 'outline'`. */
  function DifficultyBadge(difficulty: string): (b: Badge)
    ensures b == DefaultBadge <==> difficulty == "easy"
    ensures b == SecondaryBadge <==> difficulty == "medium"
    ensures b == OutlineBadge <==> difficulty != "easy" && difficulty != "medium"
  {
    if difficulty == "easy" then DefaultBadge
    else if difficulty == "medium" then SecondaryBadge
    else OutlineBadge
  }

  /** Upper case on the ASCII letters; any other character is kept. */
  function UpperAscii(c: char): (u: char)
    ensures 'a' <= c <= 'z' ==> 'A' <= u <= 'Z' && u as int == c as int - 32
    ensures !('a' <= c <= 'z') ==> u == c
  {
    if 'a' <= c <= 'z' then (c as int - 32) as char else c
  }

  /** `charAt(0).toUpperCase() + slice(1)`: the first character upper-cased,
      the rest as it was. */
  function Capitalize(s: string): (r: string)
    ensures |r| == |s|
    ensures s != [] ==> r[0] == UpperAscii(s[0]) && r[1..] == s[1..]
  {
    if s == [] then [] else [UpperAscii(s[0])] + s[1..]
  }

  /** The statistics card. */
  function Render(total: int, completed: int, questionsInBatch: int, difficulty: string): (v: View)
    requires total > 0
    ensures total * (2 * v.progress - 1) <= 200 * completed < total * (2 * v.progress + 1)
    ensures v.remaining == total - completed
    ensures completed == total ==> v.progress == 100 && v.remaining == 0
    ensures 0 <= completed <= total ==> 0 <= v.progress <= 100
    ensures v.batch == questionsInBatch
    ensures v.badge == DifficultyBadge(difficulty) && v.difficultyLabel == Capitalize(difficulty)
  {
    var v := View(RoundPercent(completed, total), total - completed, questionsInBatch,
                  DifficultyBadge(difficulty), Capitalize(difficulty));
    if 0 <= completed <= total then RoundPercentBounds(completed, total); v else v
  }
}
