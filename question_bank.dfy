/** The static question bank and its three lookups: a batch of `count`
    questions cycled from a chapter's pool, the pool filtered by difficulty,
    and the raw pool. The bank's content is a parameter: only its shape
    (`WellFormed`) is modelled. */
module QuestionBank {
  import opened Numbers

  datatype Difficulty = Easy | Medium | Hard

  datatype Question = Question(
    id: string,
    question: string,
    options: seq<string>,
    correctAnswer: int,
    chapter: string,
    difficulty: Difficulty,
    topic: string)

  /** Chapter id to the chapter's pool of questions. */
  type Bank = map<string, seq<Question>>

  /** The batch size a quiz asks for when none is given. */
  const DefaultBatchSize: int := 50

  /** A stored question belongs to the chapter it is filed under and its
      correct answer indexes one of its four options. */
  predicate FiledUnder(q: Question, chapterId: string) {
    q.chapter == chapterId && |q.options| == 4 && 0 <= q.correctAnswer < 4
  }

  predicate WellFormed(bank: Bank) {
    forall c | c in bank :: forall q | q in bank[c] :: FiledUnder(q, c)
  }

  /** `getAllChapterQuestions`: the stored pool, or an empty list for an
      unknown chapter. */
  function ChapterPool(bank: Bank, chapterId: string): (pool: seq<Question>)
    ensures chapterId in bank ==> pool == bank[chapterId]
    ensures chapterId !in bank ==> pool == []
    ensures WellFormed(bank) ==> forall q | q in pool :: FiledUnder(q, chapterId)
  {
    if chapterId in bank then bank[chapterId] else []
  }

  /** The copy of `q` placed at batch position `i`: same content, id
      `<poolId>_<i>`. */
  function Instance(q: Question, i: nat): Question {
    q.(id := q.id + "_" + Decimal(i))
  }

  /** What a batch of `count` questions cut from `pool` is: empty for an empty
      pool; otherwise `count` entries (none for a negative count), entry i a
      copy of pool[i mod N] that differs from it only in its id. */
  predicate IsBatch(questions: seq<Question>, pool: seq<Question>, count: int) {
    if pool == [] then questions == []
    else
      && |questions| == (if count < 0 then 0 else count)
      && forall i | 0 <= i < |questions| :: questions[i] == Instance(pool[i % |pool|], i)
  }

  /** `getQuestionsByChapter`: cycles through the chapter's pool with
      wraparound, pushing a renamed copy at every position. */
  method GetQuestionsByChapter(bank: Bank, chapterId: string, count: int := DefaultBatchSize)
    returns (questions: seq<Question>)
    ensures IsBatch(questions, ChapterPool(bank, chapterId), count)
  {
    var pool := ChapterPool(bank, chapterId);
    questions := [];
    var i := 0;
    while i < count
      invariant 0 <= i <= (if count < 0 then 0 else count)
      invariant pool == [] ==> questions == []
      invariant pool != [] ==> |questions| == i
      invariant pool != [] ==> forall j | 0 <= j < i :: questions[j] == Instance(pool[j % |pool|], j)
    {
      // with an empty pool `i % 0` is NaN and the lookup finds nothing
      if pool != [] {
        var k := i % |pool|;
        questions := questions + [Instance(pool[k], i)];
      }
      i := i + 1;
    }
  }

  /** Entry i of a batch carries the content of pool[i mod N]: every field
      but the id is copied. */
  lemma BatchContent(questions: seq<Question>, pool: seq<Question>, count: int, i: int)
    requires IsBatch(questions, pool, count) && 0 <= i < |questions|
    ensures pool != [] && questions[i].(id := pool[i % |pool|].id) == pool[i % |pool|]
    ensures questions[i].id == pool[i % |pool|].id + "_" + Decimal(i)
  {
  }

  /** A well-formed bank yields well-formed batches of the requested chapter. */
  lemma BatchFiledUnder(bank: Bank, chapterId: string, questions: seq<Question>, count: int)
    requires WellFormed(bank) && IsBatch(questions, ChapterPool(bank, chapterId), count)
    ensures forall q | q in questions :: FiledUnder(q, chapterId)
  {
    var pool := ChapterPool(bank, chapterId);
    forall q | q in questions
      ensures FiledUnder(q, chapterId)
    {
      var i :| 0 <= i < |questions| && questions[i] == q;
      assert pool[i % |pool|] in pool;
    }
  }

  /** A separator followed by digits can be split off a string in only one
      way: the digits after the last `_` are determined. */
  lemma DigitSuffixUnique(a: string, d: string, b: string, e: string)
    requires AllDigits(d) && AllDigits(e)
    requires a + "_" + d == b + "_" + e
    ensures d == e && a == b
  {
    var s := a + "_" + d;
    assert s[|a|] == '_' && s[|b|] == '_';
    assert forall k | |a| < k < |s| :: s[k] == d[k - |a| - 1] && IsDigit(s[k]);
    assert forall k | |b| < k < |s| :: s[k] == e[k - |b| - 1] && IsDigit(s[k]);
    assert |a| == |b|;
    assert d == s[|s| - |d|..] == e;
    assert a == s[..|a|] == b;
  }

  /** The ids within one batch are pairwise distinct, whatever the pool's
      ids are. */
  lemma BatchIdsDistinct(questions: seq<Question>, pool: seq<Question>, count: int)
    requires IsBatch(questions, pool, count)
    ensures forall i, j | 0 <= i < j < |questions| :: questions[i].id != questions[j].id
  {
    forall i, j | 0 <= i < j < |questions|
      ensures questions[i].id != questions[j].id
    {
      if questions[i].id == questions[j].id {
        DigitSuffixUnique(pool[i % |pool|].id, Decimal(i), pool[j % |pool|].id, Decimal(j));
        DecimalInjective(i, j);
      }
    }
  }

  /** `a` occurs in `b` in order, possibly with gaps. */
  predicate IsSubsequence<T(==)>(a: seq<T>, b: seq<T>)
    decreases |b|
  {
    if a == [] then true
    else if b == [] then false
    else if a[0] == b[0] then IsSubsequence(a[1..], b[1..])
    else IsSubsequence(a, b[1..])
  }

  /** The entries of `pool` of difficulty `d`, in pool order. */
  function FilterDifficulty(pool: seq<Question>, d: Difficulty): (r: seq<Question>)
    ensures IsSubsequence(r, pool)
    ensures forall q :: multiset(r)[q] == if q.difficulty == d then multiset(pool)[q] else 0
  {
    if pool == [] then []
    else
      var rest := FilterDifficulty(pool[1..], d);
      assert pool == [pool[0]] + pool[1..];
      if pool[0].difficulty == d then [pool[0]] + rest
      else
        assert rest != [] ==> rest[0] in multiset(rest);
        rest
  }

  /** `getQuestionsByDifficulty`: exactly the chapter's entries of the given
      difficulty, each as often as in the pool, in pool order. */
  function QuestionsByDifficulty(bank: Bank, chapterId: string, d: Difficulty): (r: seq<Question>)
    ensures IsSubsequence(r, ChapterPool(bank, chapterId))
    ensures forall q :: multiset(r)[q] == if q.difficulty == d then multiset(ChapterPool(bank, chapterId))[q] else 0
    ensures forall q | q in r :: q.difficulty == d
    ensures forall q | q in ChapterPool(bank, chapterId) && q.difficulty == d :: q in r
  {
    var pool := ChapterPool(bank, chapterId);
    var r := FilterDifficulty(pool, d);
    assert forall q | q in r :: multiset(r)[q] > 0;
    assert forall q | q in pool :: multiset(pool)[q] > 0;
    r
  }
}
