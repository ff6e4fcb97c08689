/** The leaderboard screen: rank icons and badges, the row style, the
    podium of the first three entries, and the average and highest scores.
    Entries are shown in the order given; nothing is sorted here. */
module Leaderboard {
  import opened Numbers
  import opened QuizTypes

  datatype RankIcon = Crown | Medal | Award | Trophy

  /** `getRowClassName`, as the three looks it chooses between. */
  datatype RowStyle = CurrentUserRow | TopThreeRow | PlainRow

  /** The podium card's colouring by rank. */
  datatype PodiumStyle = Gold | Silver | Bronze

  datatype Row = Row(entry: LeaderboardEntry, icon: RankIcon, badge: Badge, style: RowStyle, isYou: bool)

  /** `getRankIcon`: three distinct icons for the first three ranks, a trophy
      for every other rank. */
  function RankIconFor(rank: int): (icon: RankIcon)
    ensures icon == Crown <==> rank == 1
    ensures icon == Medal <==> rank == 2
    ensures icon == Award <==> rank == 3
    ensures icon == Trophy <==> rank != 1 && rank != 2 && rank != 3
  {
    match rank
    case 1 => Crown
    case 2 => Medal
    case 3 => Award
    case _ => Trophy
  }

  /** `getRankBadgeVariant`. */
  function RankBadge(rank: int): (b: Badge)
    ensures b == DefaultBadge <==> rank <= 3
    ensures b == SecondaryBadge <==> 3 < rank <= 10
    ensures b == OutlineBadge <==> rank > 10
  {
    if rank <= 3 then DefaultBadge
    else if rank <= 10 then SecondaryBadge
    else OutlineBadge
  }

  /** `entry.id === currentUserId`: nobody matches when no user is given. */
  predicate IsCurrentUser(entry: LeaderboardEntry, currentUserId: Option<string>) {
    currentUserId.Some? && entry.id == currentUserId.value
  }

  /** `getRowClassName`: the current user's row stands out even in the top
      three; the top three come next; the rest are plain. */
  function RowStyleFor(entry: LeaderboardEntry, currentUserId: Option<string>): (style: RowStyle)
    ensures style == CurrentUserRow <==> IsCurrentUser(entry, currentUserId)
    ensures style == TopThreeRow <==> !IsCurrentUser(entry, currentUserId) && entry.rank <= 3
    ensures style == PlainRow <==> !IsCurrentUser(entry, currentUserId) && entry.rank > 3
  {
    if IsCurrentUser(entry, currentUserId) then CurrentUserRow
    else if entry.rank <= 3 then TopThreeRow
    else PlainRow
  }

  function PodiumStyleFor(rank: int): (p: PodiumStyle)
    ensures p == Gold <==> rank == 1
    ensures p == Silver <==> rank == 2
  {
    if rank == 1 then Gold else if rank == 2 then Silver else Bronze
  }

  /** `slice(0, 3)` and `slice(3)`: the podium and the rest, which together
      are the whole list in its order. */
  function Split(board: seq<LeaderboardEntry>): (parts: (seq<LeaderboardEntry>, seq<LeaderboardEntry>))
    ensures parts.0 + parts.1 == board
    ensures |parts.0| == if |board| < 3 then |board| else 3
  {
    var k := if |board| < 3 then |board| else 3;
    assert board[..k] + board[k..] == board;
    (board[..k], board[k..])
  }

  /** One row per entry, in the order given. */
  function Rows(board: seq<LeaderboardEntry>, currentUserId: Option<string>): (rows: seq<Row>)
    ensures |rows| == |board|
    ensures forall i | 0 <= i < |rows| ::
      && rows[i].entry == board[i]
      && rows[i].icon == RankIconFor(board[i].rank) && rows[i].badge == RankBadge(board[i].rank)
      && rows[i].style == RowStyleFor(board[i], currentUserId)
      && rows[i].isYou == IsCurrentUser(board[i], currentUserId)
  {
    seq(|board|, i requires 0 <= i < |board| =>
      Row(board[i], RankIconFor(board[i].rank), RankBadge(board[i].rank),
          RowStyleFor(board[i], currentUserId), IsCurrentUser(board[i], currentUserId)))
  }

  function Scores(board: seq<LeaderboardEntry>): (scores: seq<int>)
    ensures |scores| == |board| && forall i | 0 <= i < |board| :: scores[i] == board[i].score
  {
    seq(|board|, i requires 0 <= i < |board| => board[i].score)
  }

  /** The average score, rounded half up; 0 for an empty board. The
      division of two integers is exact at halves, so this is
      `Math.round` as computed. */
  function AverageScore(board: seq<LeaderboardEntry>): (avg: int)
    ensures board == [] ==> avg == 0
    ensures board != [] ==>
      |board| * (2 * avg - 1) <= 2 * Sum(Scores(board)) < |board| * (2 * avg + 1)
  {
    if |board| > 0 then RoundHalfUp(Sum(Scores(board)), |board|) else 0
  }

  /** The average lies between the lowest and highest possible score, so
      percentages average to a percentage. */
  lemma AverageWithin(board: seq<LeaderboardEntry>, lo: int, hi: int)
    requires board != [] && lo <= hi
    requires forall i | 0 <= i < |board| :: lo <= board[i].score <= hi
    ensures lo <= AverageScore(board) <= hi
  {
    var n, avg, total := |board|, AverageScore(board), Sum(Scores(board));
    SumBounds(Scores(board), lo, hi);
    assert n * lo <= total <= n * hi;
    assert n * (2 * lo) == 2 * (n * lo) && n * (2 * hi) == 2 * (n * hi);
    assert n * (2 * avg - 1) <= 2 * total < n * (2 * avg + 1);
    CancelPositive(n, 2 * lo, 2 * avg + 1);
    CancelPositive(n, 2 * avg - 1, 2 * hi);
  }

  /** The highest score; 0 for an empty board. */
  function HighestScore(board: seq<LeaderboardEntry>): (best: int)
    ensures board == [] ==> best == 0
    ensures board != [] ==> (exists i | 0 <= i < |board| :: board[i].score == best)
    ensures forall i | 0 <= i < |board| :: board[i].score <= best || board == []
  {
    if board == [] then 0 else Max(Scores(board))
  }

  /** The note under a full board. */
  function ShowsTop100Note(board: seq<LeaderboardEntry>): bool {
    |board| >= 100
  }

  datatype PodiumCard = PodiumCard(entry: LeaderboardEntry, icon: RankIcon, badge: Badge, style: PodiumStyle)

  datatype View = View(
    podium: seq<PodiumCard>,
    rows: seq<Row>,
    noScoresYet: bool,
    top100Note: bool,
    participants: nat,
    average: int,
    highest: int)

  /** The whole screen: the podium holds the first three entries, the full
      list holds every entry in order, and the statistics are over all. */
  function Render(board: seq<LeaderboardEntry>, currentUserId: Option<string>): (v: View)
    ensures |v.podium| == (if |board| < 3 then |board| else 3)
    ensures forall i | 0 <= i < |v.podium| ::
      v.podium[i] == PodiumCard(board[i], RankIconFor(board[i].rank), RankBadge(board[i].rank), PodiumStyleFor(board[i].rank))
    ensures v.noScoresYet <==> board == []
    ensures |v.rows| == |board| && forall i | 0 <= i < |board| :: v.rows[i].entry == board[i]
    ensures v.rows == Rows(board, currentUserId)
    ensures v.top100Note <==> |board| >= 100
    ensures v.participants == |board|
    ensures v.average == AverageScore(board) && v.highest == HighestScore(board)
  {
    var top := Split(board).0;
    View(
      seq(|top|, i requires 0 <= i < |top| =>
        PodiumCard(top[i], RankIconFor(top[i].rank), RankBadge(top[i].rank), PodiumStyleFor(top[i].rank))),
      Rows(board, currentUserId),
      board == [],
      ShowsTop100Note(board),
      |board|,
      AverageScore(board),
      HighestScore(board))
  }
}
