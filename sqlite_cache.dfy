/**
 * The relational question store: three tables with primary keys
 *   questions(id PK, text, owner, solution)
 *   tags(tag, id, PK(tag, id))
 *   answers(id, text, index, PK(id, index))
 * The table contents are a `Tables` value; `Cached`, `QuestionAt` and
 * `Matching` say what an upsert writes and what a read rebuilds, and
 * the class `Store` holds the tables and updates them in place.
 */
module SQLiteCache {
  import opened Questions

  /** One row of the question table (its key, the id, is the map key). */
  datatype QuestionRow = QuestionRow(text: string, owner: string, solution: int)

  /** The three tables, each keyed by its primary key. */
  datatype Tables = Tables(
    questions: map<int, QuestionRow>,
    tags: set<(string, int)>,
    answers: map<(int, int), string>)

  /** All three tables without a row. */
  const Empty := Tables(map[], {}, map[])

  /**
   * The shape every write of `cacheQuestion` keeps: tag and answer rows
   * belong to a stored question, and the answer indices of each question
   * run densely from 0.
   */
  ghost predicate WellFormed(t: Tables) {
    && (forall r | r in t.tags :: r.1 in t.questions)
    && (forall k | k in t.answers :: k.0 in t.questions && 0 <= k.1)
    && (forall id, i, j | (id, i) in t.answers && 0 <= j <= i :: (id, j) in t.answers)
  }

  /** No tag row and no answer row is stored for `id`. */
  ghost predicate NoRowsFor(t: Tables, id: int) {
    && (forall r | r in t.tags :: r.1 != id)
    && (forall k | k in t.answers :: k.0 != id)
  }

  /** The tag rows written for `q`: one per tag, keyed (tag, id). */
  function TagRows(q: Question): set<(string, int)> {
    set tag | tag in q.tags :: (tag, q.id)
  }

  /** The answer rows written for `answers` under `id`: keys (id, 0) .. (id, n-1) in list order. */
  function AnswerRows(id: int, answers: seq<string>): map<(int, int), string> {
    map i | 0 <= i < |answers| :: (id, i) := answers[i]
  }

  /**
   * The tables after `cacheQuestion(q)`: every row is written with replace
   * semantics, so a row under the same primary key is overwritten and every
   * other row stays.
   */
  function Cached(t: Tables, q: Question): Tables {
    Tables(
      t.questions[q.id := QuestionRow(q.text, q.owner, q.solution)],
      t.tags + TagRows(q),
      t.answers + AnswerRows(q.id, q.answers))
  }

  /** The tables after caching `qs` one after the other, first to last. */
  function CachedAll(t: Tables, qs: seq<Question>): Tables
    decreases |qs|
  {
    if qs == [] then t else Cached(CachedAll(t, qs[..|qs| - 1]), qs[|qs| - 1])
  }

  /** The tags a read collects for `id`: every tag row of that id. */
  function TagsOf(t: Tables, id: int): set<string> {
    set r | r in t.tags && r.1 == id :: r.0
  }

  /** The answers of `id` at indices `from`, `from + 1`, ... as long as rows exist (at most up to `bound`). */
  function AnswerRun(answers: map<(int, int), string>, id: int, from: nat, bound: nat): seq<string>
    decreases bound - from
  {
    if from < bound && (id, from) in answers then
      [answers[(id, from)]] + AnswerRun(answers, id, from + 1, bound)
    else
      []
  }

  /** The answers a read collects for `id`, ordered by index. */
  function AnswersOf(t: Tables, id: int): seq<string> {
    AnswerRun(t.answers, id, 0, |t.answers|)
  }

  /** The question rebuilt from the rows stored under `id`. */
  function QuestionAt(t: Tables, id: int): Question
    requires id in t.questions
  {
    var row := t.questions[id];
    Question(id, row.text, AnswersOf(t, id), row.solution, TagsOf(t, id), row.owner)
  }

  /**
   * The questions of the join of the question and tag tables whose joined row
   * (question id, tag) the compiled tag predicate `matches` accepts, one per
   * question (the result is a set).
   */
  function Matching(t: Tables, matches: (int, string) -> bool): set<Question> {
    set r | r in t.tags && r.1 in t.questions && matches(r.1, r.0) :: QuestionAt(t, r.1)
  }

  // ---------------------------------------------------------------------
  // Lemmas about the table functions
  // ---------------------------------------------------------------------

  /** A run reads consecutive rows and stops at the first missing index or at the bound. */
  lemma {:induction false} AnswerRunShape(m: map<(int, int), string>, id: int, from: nat, bound: nat)
    requires from <= bound
    ensures from + |AnswerRun(m, id, from, bound)| <= bound
    ensures forall i :: from <= i < from + |AnswerRun(m, id, from, bound)| ==>
      (id, i) in m && AnswerRun(m, id, from, bound)[i - from] == m[(id, i)]
    ensures from + |AnswerRun(m, id, from, bound)| < bound ==>
      (id, from + |AnswerRun(m, id, from, bound)|) !in m
    decreases bound - from
  {
    if from < bound && (id, from) in m {
      AnswerRunShape(m, id, from + 1, bound);
      assert AnswerRun(m, id, from, bound) == [m[(id, from)]] + AnswerRun(m, id, from + 1, bound);
    }
  }

  /** A run over rows holding `s` at indices `from` .. |s|-1, and no row right after them, reads back the rest of `s`. */
  lemma {:induction false} AnswerRunOf(m: map<(int, int), string>, id: int, s: seq<string>, from: nat, bound: nat)
    requires from <= |s| <= bound
    requires forall j | from <= j < |s| :: (id, j) in m && m[(id, j)] == s[j]
    requires |s| == bound || (id, |s|) !in m
    ensures AnswerRun(m, id, from, bound) == s[from..]
    decreases bound - from
  {
    if from < |s| {
      AnswerRunOf(m, id, s, from + 1, bound);
      assert s[from..] == [s[from]] + s[from + 1..];
    }
  }

  /** The keys (id, 0) .. (id, n-1) are n distinct keys. */
  lemma {:induction false} IndexKeysCount(id: int, n: nat)
    ensures |set j | 0 <= j < n :: (id, j)| == n
  {
    if n > 0 {
      IndexKeysCount(id, n - 1);
      var smaller := set j | 0 <= j < n - 1 :: (id, j);
      assert (set j | 0 <= j < n :: (id, j)) == smaller + {(id, n - 1)};
      assert (id, n - 1) !in smaller;
    }
  }

  /** A map holding the keys (id, 0) .. (id, n-1) has at least n entries. */
  lemma IndexKeysBound(m: map<(int, int), string>, id: int, n: nat)
    requires forall j :: 0 <= j < n ==> (id, j) in m
    ensures n <= |m|
  {
    var keys := set j | 0 <= j < n :: (id, j);
    IndexKeysCount(id, n);
    var rest := m.Keys - keys;
    assert keys <= m.Keys;
    assert m.Keys == keys + rest;
    assert keys * rest == {};
  }

  /** In well-formed tables an answer index of a question is below the size of the answer table. */
  lemma AnswerIndexBelowSize(t: Tables, id: int, j: int)
    requires WellFormed(t)
    requires (id, j) in t.answers
    ensures 0 <= j < |t.answers|
  {
    assert forall i :: 0 <= i < j + 1 ==> (id, i) in t.answers;
    IndexKeysBound(t.answers, id, j + 1);
  }

  /**
   * Reading the answers of `id` yields exactly the answer rows of `id`,
   * ordered by index: row (id, j) exists iff j is a position of the result,
   * and position j holds that row's text.
   */
  lemma AnswersOfExact(t: Tables, id: int)
    requires WellFormed(t)
    ensures forall j :: (id, j) in t.answers <==> 0 <= j < |AnswersOf(t, id)|
    ensures forall j :: 0 <= j < |AnswersOf(t, id)| ==> AnswersOf(t, id)[j] == t.answers[(id, j)]
  {
    var r := AnswersOf(t, id);
    var n := |t.answers|;
    AnswerRunShape(t.answers, id, 0, n);
    forall j | (id, j) in t.answers
      ensures 0 <= j < |r|
    {
      if j >= |r| {
        assert (id, |r|) in t.answers;
        AnswerIndexBelowSize(t, id, |r|);
      }
    }
  }

  /** Caching a question keeps the tables well formed. */
  lemma CachedWellFormed(t: Tables, q: Question)
    requires WellFormed(t)
    ensures WellFormed(Cached(t, q))
  {
    var c := Cached(t, q);
    forall id, i, j | (id, i) in c.answers && 0 <= j <= i
      ensures (id, j) in c.answers
    {
      if (id, i) !in t.answers {
        assert id == q.id && i < |q.answers|;
        assert (id, j) in AnswerRows(q.id, q.answers);
      }
    }
  }

  /** Two answer tables that agree on the rows of `id` give the same run for `id`. */
  lemma {:induction false} AnswerRunAgree(m1: map<(int, int), string>, m2: map<(int, int), string>,
                                          id: int, from: nat, b1: nat, b2: nat)
    requires forall j :: (id, j) in m1 <==> (id, j) in m2
    requires forall j :: (id, j) in m1 ==> m1[(id, j)] == m2[(id, j)]
    requires from <= b1 && from <= b2
    requires forall j :: from <= j && (id, j) in m1 ==> j < b1 && j < b2
    ensures AnswerRun(m1, id, from, b1) == AnswerRun(m2, id, from, b2)
    decreases b1 - from
  {
    if from < b1 && (id, from) in m1 {
      AnswerRunAgree(m1, m2, id, from + 1, b1, b2);
    }
  }

  /** The answer rows of `q.id` after caching `q`: the new rows at 0 .. n-1, old rows elsewhere. */
  lemma CachedAnswerRow(t: Tables, q: Question, j: int)
    ensures (q.id, j) in Cached(t, q).answers <==> (q.id, j) in t.answers || 0 <= j < |q.answers|
    ensures (q.id, j) in Cached(t, q).answers ==>
      Cached(t, q).answers[(q.id, j)] == if 0 <= j < |q.answers| then q.answers[j] else t.answers[(q.id, j)]
  {
    if 0 <= j < |q.answers| {
      assert (q.id, j) in AnswerRows(q.id, q.answers);
    } else {
      assert (q.id, j) !in AnswerRows(q.id, q.answers);
    }
  }

  /**
   * Re-caching adds tag rows and never removes one: the rebuilt tag set is the
   * old tag set of that id plus the new tags.
   */
  lemma CachedTags(t: Tables, q: Question)
    ensures TagsOf(Cached(t, q), q.id) == TagsOf(t, q.id) + q.tags
  {
    forall tag
      ensures tag in TagsOf(Cached(t, q), q.id) <==> tag in TagsOf(t, q.id) + q.tags
    {
      if tag in q.tags {
        assert (tag, q.id) in TagRows(q);
      }
      if tag in TagsOf(t, q.id) {
        assert (tag, q.id) in t.tags;
      }
    }
  }

  /**
   * Re-caching a question under an id that already has answer rows: the
   * rebuilt answers are the new answers followed by the old answers beyond the
   * new length, because only rows whose primary key is written are replaced.
   */
  lemma CachedAnswers(t: Tables, q: Question)
    requires WellFormed(t)
    ensures |AnswersOf(Cached(t, q), q.id)| ==
      if |q.answers| < |AnswersOf(t, q.id)| then |AnswersOf(t, q.id)| else |q.answers|
    ensures forall j :: 0 <= j < |AnswersOf(Cached(t, q), q.id)| ==>
      AnswersOf(Cached(t, q), q.id)[j] ==
        if j < |q.answers| then q.answers[j] else AnswersOf(t, q.id)[j]
  {
    var c := Cached(t, q);
    CachedWellFormed(t, q);
    AnswersOfExact(t, q.id);
    AnswersOfExact(c, q.id);
    var before := AnswersOf(t, q.id);
    var now := AnswersOf(c, q.id);
    var len := if |q.answers| < |before| then |before| else |q.answers|;
    CachedAnswerRow(t, q, |now|);
    CachedAnswerRow(t, q, len);
    forall j | 0 <= j < |now|
      ensures now[j] == if j < |q.answers| then q.answers[j] else before[j]
    {
      CachedAnswerRow(t, q, j);
    }
  }

  /**
   * Round trip: caching a question into tables holding no tag or answer row
   * for its id and rebuilding it returns the same question (its answers in
   * the original order and its tag set).
   */
  lemma CacheThenRebuild(t: Tables, q: Question)
    requires NoRowsFor(t, q.id)
    ensures QuestionAt(Cached(t, q), q.id) == q
  {
    FreshAnswers(t, q);
    FreshTags(t, q);
  }

  /** A question cached into empty tables is the only one stored, and is read back whole. */
  lemma OnlyQuestion(q: Question)
    ensures Cached(Empty, q).questions.Keys == {q.id}
    ensures QuestionAt(Cached(Empty, q), q.id) == q
  {
    CacheThenRebuild(Empty, q);
  }

  /** The answers read back for a question cached under an id without rows are its own answers. */
  lemma FreshAnswers(t: Tables, q: Question)
    requires NoRowsFor(t, q.id)
    ensures AnswersOf(Cached(t, q), q.id) == q.answers
  {
    var m := Cached(t, q).answers;
    var n := |q.answers|;
    forall j | 0 <= j < n
      ensures (q.id, j) in m && m[(q.id, j)] == q.answers[j]
    {
      CachedAnswerRow(t, q, j);
    }
    CachedAnswerRow(t, q, n);
    IndexKeysBound(m, q.id, n);
    AnswerRunOf(m, q.id, q.answers, 0, |m|);
    assert q.answers[0..] == q.answers;
  }

  /** The tags read back for a question cached under an id without rows are its own tags. */
  lemma FreshTags(t: Tables, q: Question)
    requires NoRowsFor(t, q.id)
    ensures TagsOf(Cached(t, q), q.id) == q.tags
  {
    CachedTags(t, q);
    assert TagsOf(t, q.id) == {};
  }

  /** Caching `q` leaves the rebuilt form of every other stored question as it was. */
  lemma CachedKeepsOthers(t: Tables, q: Question, id: int)
    requires WellFormed(t)
    requires id in t.questions && id != q.id
    ensures id in Cached(t, q).questions
    ensures QuestionAt(Cached(t, q), id) == QuestionAt(t, id)
  {
    var c := Cached(t, q);
    CachedWellFormed(t, q);
    forall j | (id, j) in t.answers
      ensures (id, j) in c.answers && c.answers[(id, j)] == t.answers[(id, j)]
      ensures 0 <= j < |t.answers| && j < |c.answers|
    {
      assert (id, j) !in AnswerRows(q.id, q.answers);
      AnswerIndexBelowSize(t, id, j);
      AnswerIndexBelowSize(c, id, j);
    }
    forall j | (id, j) in c.answers
      ensures (id, j) in t.answers
    {
      assert (id, j) !in AnswerRows(q.id, q.answers);
    }
    AnswerRunAgree(t.answers, c.answers, id, 0, |t.answers|, |c.answers|);
    assert TagsOf(c, id) == TagsOf(t, id);
  }

  /** Caching the same question twice leaves the tables as caching it once. */
  lemma CachedIdempotent(t: Tables, q: Question)
    ensures Cached(Cached(t, q), q) == Cached(t, q)
  {
    var once := Cached(t, q);
    assert once.answers + AnswerRows(q.id, q.answers) == once.answers;
  }

  /**
   * The tag query is exact: a question is in the result iff it is the rebuilt
   * form of a stored question with a tag row that the predicate accepts.
   */
  lemma MatchingExact(t: Tables, matches: (int, string) -> bool, q: Question)
    requires WellFormed(t)
    ensures q in Matching(t, matches) <==>
      q.id in t.questions && q == QuestionAt(t, q.id) && exists tag :: tag in q.tags && matches(q.id, tag)
  {
    if q in Matching(t, matches) {
      var r :| r in t.tags && r.1 in t.questions && matches(r.1, r.0) && q == QuestionAt(t, r.1);
      assert r.0 in q.tags;
    }
    if q.id in t.questions && q == QuestionAt(t, q.id) && exists tag :: tag in q.tags && matches(q.id, tag) {
      var tag :| tag in q.tags && matches(q.id, tag);
      assert (tag, q.id) in t.tags;
    }
  }

  /**
   * Caching a question into tables with no rows for its id and then querying
   * with a predicate that accepts one of its tags finds that question, answers
   * in their original order.
   */
  lemma CacheThenQuery(t: Tables, q: Question, matches: (int, string) -> bool, tag: string)
    requires WellFormed(t)
    requires NoRowsFor(t, q.id)
    requires tag in q.tags && matches(q.id, tag)
    ensures q in Matching(Cached(t, q), matches)
  {
    CacheThenRebuild(t, q);
    CachedWellFormed(t, q);
    MatchingExact(Cached(t, q), matches, q);
  }

  /** Caching the questions of `qs` one by one adds each one's rows in turn. */
  lemma CachedAllSnoc(t: Tables, qs: seq<Question>, q: Question)
    ensures CachedAll(t, qs + [q]) == Cached(CachedAll(t, qs), q)
  {
    assert (qs + [q])[..|qs|] == qs;
  }

  /** Caching any sequence of questions keeps the tables well formed. */
  lemma {:induction false} CachedAllWellFormed(t: Tables, qs: seq<Question>)
    requires WellFormed(t)
    ensures WellFormed(CachedAll(t, qs))
    decreases |qs|
  {
    if qs != [] {
      CachedAllWellFormed(t, qs[..|qs| - 1]);
      CachedWellFormed(CachedAll(t, qs[..|qs| - 1]), qs[|qs| - 1]);
    }
  }

  // ---------------------------------------------------------------------
  // The store, updated in place
  // ---------------------------------------------------------------------

  class Store {
    var questions: map<int, QuestionRow>
    var tags: set<(string, int)>
    var answers: map<(int, int), string>

    /** The current contents of the three tables. */
    function Contents(): Tables
      reads this
    {
      Tables(questions, tags, answers)
    }

    ghost predicate Valid()
      reads this
    {
      WellFormed(Contents())
    }

    /** Opens the database with the tables found on disk. */
    constructor (existing: Tables)
      requires WellFormed(existing)
      ensures Valid() && Contents() == existing
    {
      questions, tags, answers := existing.questions, existing.tags, existing.answers;
    }

    /** Upserts the question row, one row per tag and one row per answer. */
    method CacheQuestion(q: Question)
      requires Valid()
      modifies this
      ensures Valid()
      ensures Contents() == Cached(old(Contents()), q)
    {
      questions := questions[q.id := QuestionRow(q.text, q.owner, q.solution)];
      InsertTagRows(q);
      InsertAnswerRows(q);
      CachedWellFormed(old(Contents()), q);
    }

    /** The tag loop of `cacheQuestion`: one replace per tag, keyed (tag, id). */
    method InsertTagRows(q: Question)
      modifies this`tags
      ensures tags == old(tags) + TagRows(q)
    {
      var remaining := q.tags;
      while remaining != {}
        invariant remaining <= q.tags
        invariant tags == old(tags) + (set tag | tag in q.tags && tag !in remaining :: (tag, q.id))
        decreases remaining
      {
        var tag :| tag in remaining;
        tags := tags + {(tag, q.id)};
        remaining := remaining - {tag};
      }
    }

    /** The answer loop of `cacheQuestion`: one replace per answer at (id, index), the index counting up from 0. */
    method InsertAnswerRows(q: Question)
      modifies this`answers
      ensures answers == old(answers) + AnswerRows(q.id, q.answers)
    {
      var index := 0;
      assert AnswerRows(q.id, q.answers[..index]) == map[];
      while index < |q.answers|
        invariant 0 <= index <= |q.answers|
        invariant answers == old(answers) + AnswerRows(q.id, q.answers[..index])
      {
        assert AnswerRows(q.id, q.answers[..index + 1])
          == AnswerRows(q.id, q.answers[..index])[(q.id, index) := q.answers[index]];
        answers := answers[(q.id, index) := q.answers[index]];
        index := index + 1;
      }
      assert q.answers[..index] == q.answers;
    }

    /** Deletes every row of the three tables. */
    method ClearCache()
      modifies this
      ensures Valid() && Contents() == Empty
    {
      questions, tags, answers := map[], {}, map[];
    }

    /** Drops the three tables and creates them again, empty. */
    method Reset()
      modifies this
      ensures Valid() && Contents() == Empty
    {
      questions, tags, answers := map[], {}, map[];
    }

    /** Reads the answer rows of `id` in index order. */
    method GetAnswersForQuestion(id: int) returns (r: seq<string>)
      requires Valid()
      ensures r == AnswersOf(Contents(), id)
      ensures forall j :: (id, j) in answers <==> 0 <= j < |r|
      ensures forall j :: 0 <= j < |r| ==> r[j] == answers[(id, j)]
    {
      ghost var expected := AnswersOf(Contents(), id);
      r := [];
      var index := 0;
      while index < |answers| && (id, index) in answers
        invariant 0 <= index <= |answers|
        invariant |r| == index
        invariant expected == r + AnswerRun(answers, id, index, |answers|)
        decreases |answers| - index
      {
        assert AnswerRun(answers, id, index, |answers|)
          == [answers[(id, index)]] + AnswerRun(answers, id, index + 1, |answers|);
        r := r + [answers[(id, index)]];
        index := index + 1;
      }
      AnswersOfExact(Contents(), id);
    }

    /** Reads the tag rows of `id` into a set. */
    method GetTagsForQuestion(id: int) returns (r: set<string>)
      ensures r == TagsOf(Contents(), id)
      ensures forall tag :: tag in r <==> (tag, id) in tags
    {
      r := {};
      var rows := tags;
      while rows != {}
        invariant rows <= tags
        invariant r == set row | row in tags - rows && row.1 == id :: row.0
        decreases rows
      {
        var row :| row in rows;
        if row.1 == id {
          r := r + {row.0};
        }
        rows := rows - {row};
      }
      assert tags - rows == tags;
    }

    /** Rebuilds the question stored under `id` from its rows. */
    method ConstructQuestion(id: int) returns (q: Question)
      requires Valid()
      requires id in questions
      ensures q == QuestionAt(Contents(), id)
      ensures q.id == id && q.text == questions[id].text
      ensures q.owner == questions[id].owner && q.solution == questions[id].solution
    {
      var answerList := GetAnswersForQuestion(id);
      var tagSet := GetTagsForQuestion(id);
      var row := questions[id];
      q := Question(id, row.text, answerList, row.solution, tagSet, row.owner);
    }

    /** One arbitrarily chosen stored question, or none when the question table is empty. */
    method GetRandomQuestion() returns (r: Option<Question>)
      requires Valid()
      ensures r.None? <==> questions == map[]
      ensures r.Some? ==> r.value.id in questions && r.value == QuestionAt(Contents(), r.value.id)
    {
      if questions == map[] {
        r := None;
      } else {
        var row :| row in questions.Items;
        var id := row.0;
        var q := ConstructQuestion(id);
        r := Some(q);
      }
    }

    /** The questions whose joined (id, tag) rows the compiled predicate accepts. */
    method GetQuestionSetByTag(matches: (int, string) -> bool) returns (r: set<Question>)
      requires Valid()
      ensures r == Matching(Contents(), matches)
    {
      r := {};
      var rows := set row | row in tags && row.1 in questions;
      ghost var all := rows;
      while rows != {}
        invariant rows <= all
        invariant r == set row | row in all - rows && matches(row.1, row.0) :: QuestionAt(Contents(), row.1)
        decreases rows
      {
        var row :| row in rows;
        if matches(row.1, row.0) {
          var q := ConstructQuestion(row.1);
          r := r + {q};
        }
        rows := rows - {row};
      }
      assert all - rows == all;
    }
  }
}
