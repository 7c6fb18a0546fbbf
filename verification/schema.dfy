/** The tables of src/db/schema.ts that the answer pipeline touches, as
    values: the row shapes, their NOT NULL and default columns, and the
    foreign keys with their referential actions. The tables themselves live
    in AnswerStore.Store. */
module Schema {

  type UserId = string

  /** A `uuid` column drawn by `defaultRandom()`; only its identity matters,
      so it is a natural number here. */
  type Uuid = nat

  /** A `timestamp` column; `now()` is the start time of the transaction. */
  type Timestamp = nat

  /** The values an INSERT into `star_answers` supplies. Every text column is
      NOT NULL, so each is a plain string; `id` and `created_at` are absent
      because only their column defaults fill them. */
  datatype NewStarAnswer = NewStarAnswer(
    userId: UserId,
    competency: string,
    question: string,
    situation: string,
    task: string,
    action: string,
    result: string,
    fullAnswer: string)

  /** A stored `star_answers` row: the inserted values plus the two columns
      the database assigns. */
  datatype StarAnswerRow = StarAnswerRow(id: Uuid, createdAt: Timestamp, values: NewStarAnswer)

  /** A `practice_sessions` row, reduced to its keys (the media columns play
      no part in any constraint). */
  datatype PracticeSessionRow = PracticeSessionRow(id: Uuid, userId: UserId, answerId: Uuid)

  /** A `session` or `account` row, reduced to its key and owner. */
  datatype AuthRow = AuthRow(id: string, userId: UserId)

  /** The rows an INSERT of `values` creates in one transaction started at
      `at`, with fresh ids drawn from `firstId` on: every row of one insert
      carries the same `created_at`. */
  function Stamp(values: seq<NewStarAnswer>, firstId: Uuid, at: Timestamp): (rows: seq<StarAnswerRow>)
    ensures |rows| == |values|
    ensures forall k :: 0 <= k < |rows| ==>
      rows[k].values == values[k] && rows[k].createdAt == at && rows[k].id == firstId + k
  {
    seq(|values|, k requires 0 <= k < |values| => StarAnswerRow(firstId + k, at, values[k]))
  }

  /** The inserted values of some rows, in order. */
  function Contents(rows: seq<StarAnswerRow>): (vs: seq<NewStarAnswer>)
    ensures |vs| == |rows| && forall k :: 0 <= k < |rows| ==> vs[k] == rows[k].values
  {
    if rows == [] then [] else [rows[0].values] + Contents(rows[1..])
  }

  /** `WHERE user_id = u`, keeping the stored order. */
  function RowsOf(rows: seq<StarAnswerRow>, u: UserId): (r: seq<StarAnswerRow>)
    ensures |r| <= |rows|
    ensures forall x :: x in r <==> x in rows && x.values.userId == u
  {
    if rows == [] then []
    else if rows[0].values.userId == u then [rows[0]] + RowsOf(rows[1..], u)
    else RowsOf(rows[1..], u)
  }

  /** The rows a `DELETE ... WHERE user_id = u` leaves behind, in order. */
  function RowsNotOf(rows: seq<StarAnswerRow>, u: UserId): (r: seq<StarAnswerRow>)
    ensures |r| <= |rows|
    ensures forall x :: x in r <==> x in rows && x.values.userId != u
  {
    if rows == [] then []
    else if rows[0].values.userId != u then [rows[0]] + RowsNotOf(rows[1..], u)
    else RowsNotOf(rows[1..], u)
  }

  /** `session` and `account` rows that survive deleting user `u`. */
  function AuthRowsNotOf(rows: seq<AuthRow>, u: UserId): (r: seq<AuthRow>)
    ensures forall x :: x in r <==> x in rows && x.userId != u
  {
    if rows == [] then []
    else if rows[0].userId != u then [rows[0]] + AuthRowsNotOf(rows[1..], u)
    else AuthRowsNotOf(rows[1..], u)
  }

  /** Filtering distributes over concatenation, keeping `u`'s rows ... */
  lemma {:induction false} RowsOfAppend(a: seq<StarAnswerRow>, b: seq<StarAnswerRow>, u: UserId)
    ensures RowsOf(a + b, u) == RowsOf(a, u) + RowsOf(b, u)
  {
    if a == [] {
      assert a + b == b;
    } else {
      assert (a + b)[0] == a[0];
      assert (a + b)[1..] == a[1..] + b;
      RowsOfAppend(a[1..], b, u);
      if a[0].values.userId == u {
        assert RowsOf(a, u) + RowsOf(b, u) == [a[0]] + (RowsOf(a[1..], u) + RowsOf(b, u));
      }
    }
  }

  /** ... and dropping them. */
  lemma {:induction false} RowsNotOfAppend(a: seq<StarAnswerRow>, b: seq<StarAnswerRow>, u: UserId)
    ensures RowsNotOf(a + b, u) == RowsNotOf(a, u) + RowsNotOf(b, u)
  {
    if a == [] {
      assert a + b == b;
    } else {
      assert (a + b)[0] == a[0];
      assert (a + b)[1..] == a[1..] + b;
      RowsNotOfAppend(a[1..], b, u);
      if a[0].values.userId != u {
        assert RowsNotOf(a, u) + RowsNotOf(b, u) == [a[0]] + (RowsNotOf(a[1..], u) + RowsNotOf(b, u));
      }
    }
  }

  /** Rows that all belong to `u` are all kept by `RowsOf` and all dropped by
      `RowsNotOf`. */
  lemma {:induction false} RowsOfOwned(rows: seq<StarAnswerRow>, u: UserId)
    requires forall x :: x in rows ==> x.values.userId == u
    ensures RowsOf(rows, u) == rows && RowsNotOf(rows, u) == []
  {
    if rows != [] {
      RowsOfOwned(rows[1..], u);
    }
  }

  /** After deleting `u`'s rows, `u` owns none, and deleting again changes
      nothing: the purge is idempotent. */
  lemma {:induction false} RowsNotOfPurged(rows: seq<StarAnswerRow>, u: UserId)
    ensures RowsOf(RowsNotOf(rows, u), u) == []
    ensures RowsNotOf(RowsNotOf(rows, u), u) == RowsNotOf(rows, u)
  {
    if rows != [] {
      RowsNotOfPurged(rows[1..], u);
    }
  }

  /** Deleting `u`'s rows leaves every other user's rows exactly as they were,
      in the same order. */
  lemma {:induction false} RowsNotOfKeepsOthers(rows: seq<StarAnswerRow>, u: UserId, v: UserId)
    requires u != v
    ensures RowsOf(RowsNotOf(rows, u), v) == RowsOf(rows, v)
  {
    if rows != [] {
      RowsNotOfKeepsOthers(rows[1..], u, v);
    }
  }

  /** Rows are in non-decreasing `created_at` order. */
  ghost predicate StampOrdered(rows: seq<StarAnswerRow>)
  {
    forall i, j :: 0 <= i < j < |rows| ==> rows[i].createdAt <= rows[j].createdAt
  }

  /** What `SELECT ... WHERE user_id = u ORDER BY created_at` may return:
      exactly `u`'s rows, each once, in non-decreasing `created_at` order.
      Rows with equal `created_at` (the rows of one insert) may come back in
      any order: the query leaves their order unspecified. */
  ghost predicate IsOrderedRead(rows: seq<StarAnswerRow>, u: UserId, read: seq<StarAnswerRow>)
  {
    multiset(read) == multiset(RowsOf(rows, u)) && StampOrdered(read)
  }

  /** Rows in the order they were inserted: ids drawn in increasing order,
      `created_at` never going back. */
  ghost predicate InsertOrdered(rows: seq<StarAnswerRow>)
  {
    forall i, j :: 0 <= i < j < |rows| ==> rows[i].id < rows[j].id && rows[i].createdAt <= rows[j].createdAt
  }

  /** Filtering, either way, keeps the insertion order. */
  lemma FilterInsertOrdered(rows: seq<StarAnswerRow>, u: UserId)
    requires InsertOrdered(rows)
    ensures InsertOrdered(RowsOf(rows, u)) && InsertOrdered(RowsNotOf(rows, u))
  {
    RowsOfInsertOrdered(rows, u);
    RowsNotOfInsertOrdered(rows, u);
  }

  lemma {:induction false} RowsOfInsertOrdered(rows: seq<StarAnswerRow>, u: UserId)
    requires InsertOrdered(rows)
    ensures InsertOrdered(RowsOf(rows, u))
  {
    if rows != [] {
      RowsOfInsertOrdered(rows[1..], u);
      var r := RowsOf(rows, u);
      if rows[0].values.userId == u {
        forall j | 0 < j < |r|
          ensures r[0].id < r[j].id && r[0].createdAt <= r[j].createdAt
        {
          assert r[j] in rows[1..];
        }
      }
    }
  }

  lemma {:induction false} RowsNotOfInsertOrdered(rows: seq<StarAnswerRow>, u: UserId)
    requires InsertOrdered(rows)
    ensures InsertOrdered(RowsNotOf(rows, u))
  {
    if rows != [] {
      RowsNotOfInsertOrdered(rows[1..], u);
      var n := RowsNotOf(rows, u);
      if rows[0].values.userId != u {
        forall j | 0 < j < |n|
          ensures n[0].id < n[j].id && n[0].createdAt <= n[j].createdAt
        {
          assert n[j] in rows[1..];
        }
      }
    }
  }

  /** In any ordered read, a row of an earlier insert (smaller `created_at`)
      comes before every row of a later insert: the read orders batches, even
      though it does not order rows inside one batch. */
  lemma BatchesInInsertOrder(rows: seq<StarAnswerRow>, u: UserId, read: seq<StarAnswerRow>, i: nat, j: nat)
    requires IsOrderedRead(rows, u, read)
    requires i < |read| && j < |read| && read[i].createdAt < read[j].createdAt
    ensures i < j
  {
  }

  /** Two ordered reads of the same table hold the same rows and have the
      same length: the count a snapshot reports does not depend on how ties
      were broken. */
  lemma OrderedReadsAgreeOnRows(rows: seq<StarAnswerRow>, u: UserId, r1: seq<StarAnswerRow>, r2: seq<StarAnswerRow>)
    requires IsOrderedRead(rows, u, r1) && IsOrderedRead(rows, u, r2)
    ensures multiset(r1) == multiset(r2) && |r1| == |r2| == |RowsOf(rows, u)|
  {
    assert |multiset(r1)| == |r1|;
    assert |multiset(r2)| == |r2|;
    assert |multiset(RowsOf(rows, u))| == |RowsOf(rows, u)|;
  }

  /** `practice_sessions.answer_id` points at an answer. */
  predicate Referenced(practice: seq<PracticeSessionRow>, id: Uuid)
  {
    exists p :: p in practice && p.answerId == id
  }

  /** `practice_sessions.answer_id` has no `onDelete`, so PostgreSQL's
      default (NO ACTION) rejects a DELETE of `u`'s answers when any of them is
      still referenced by a practice session. */
  predicate AnswerDeleteBlocked(rows: seq<StarAnswerRow>, practice: seq<PracticeSessionRow>, u: UserId)
  {
    exists x :: x in rows && x.values.userId == u && Referenced(practice, x.id)
  }

  /** `star_answers.user_id` and `practice_sessions.user_id` have no
      `onDelete` either, so deleting a user who still owns answers or practice
      sessions is rejected; `session` and `account` rows cascade. */
  predicate UserDeleteBlocked(rows: seq<StarAnswerRow>, practice: seq<PracticeSessionRow>, u: UserId)
  {
    (exists x :: x in rows && x.values.userId == u) || (exists p :: p in practice && p.userId == u)
  }

  function AnswerIds(rows: seq<StarAnswerRow>): set<Uuid>
  {
    set x | x in rows :: x.id
  }

  /** Every foreign key of the five tables holds. */
  ghost predicate ForeignKeysHold(
    users: set<UserId>, sessions: seq<AuthRow>, accounts: seq<AuthRow>,
    rows: seq<StarAnswerRow>, practice: seq<PracticeSessionRow>)
  {
    && (forall s :: s in sessions ==> s.userId in users)
    && (forall a :: a in accounts ==> a.userId in users)
    && (forall x :: x in rows ==> x.values.userId in users)
    && (forall p :: p in practice ==> p.userId in users && p.answerId in AnswerIds(rows))
  }
}
