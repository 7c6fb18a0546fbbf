/** The database the answer pipeline reads and writes: the `user`,
    `session`, `account`, `star_answers` and `practice_sessions` tables of
    src/db/schema.ts, as one object whose tables are updated in place by
    single statements (a DELETE, a multi-row INSERT). */
module AnswerStore {
  import opened Schema

  class Store {
    var users: set<UserId>
    var sessions: seq<AuthRow>
    var accounts: seq<AuthRow>
    /** `star_answers`, in insertion order. */
    var answers: seq<StarAnswerRow>
    var practice: seq<PracticeSessionRow>
    /** The start time of the latest insert; every insert runs in a later
        transaction than the one before. */
    var clock: Timestamp
    /** Every uuid drawn so far is below this. */
    var nextId: Uuid

    ghost predicate Valid()
      reads this
    {
      && ForeignKeysHold(users, sessions, accounts, answers, practice)
      && InsertOrdered(answers)
      && (forall i :: 0 <= i < |answers| ==> answers[i].id < nextId && answers[i].createdAt <= clock)
    }

    constructor ()
      ensures Valid()
      ensures users == {} && sessions == [] && accounts == [] && answers == [] && practice == []
    {
      users, sessions, accounts, answers, practice := {}, [], [], [], [];
      clock, nextId := 0, 0;
    }

    /** The rows `SELECT * FROM star_answers WHERE user_id = u ORDER BY
        created_at` returns when ties keep their insertion order; any other
        ordered read differs from it only inside one insert's rows. */
    function Snapshot(u: UserId): (r: seq<StarAnswerRow>)
      reads this
      requires Valid()
      ensures IsOrderedRead(answers, u, r)
      ensures forall x :: x in r ==> x.values.userId == u
    {
      FilterInsertOrdered(answers, u);
      RowsOf(answers, u)
    }

    /** Sign-up (done by the auth library) inserts the `user` row that answers
        and sessions refer to. */
    method AddUser(u: UserId)
      requires Valid()
      modifies this
      ensures Valid()
      ensures users == old(users) + {u}
      ensures sessions == old(sessions) && accounts == old(accounts)
      ensures answers == old(answers) && practice == old(practice)
      ensures clock == old(clock) && nextId == old(nextId)
    {
      users := users + {u};
    }

    /** Sign-in inserts a `session` row; it must name an existing user. */
    method AddSession(id: string, u: UserId) returns (ok: bool)
      requires Valid()
      modifies this
      ensures Valid()
      ensures ok == (u in old(users))
      ensures sessions == if ok then old(sessions) + [AuthRow(id, u)] else old(sessions)
      ensures users == old(users) && accounts == old(accounts)
      ensures answers == old(answers) && practice == old(practice)
      ensures clock == old(clock) && nextId == old(nextId)
    {
      ok := u in users;
      if ok {
        sessions := sessions + [AuthRow(id, u)];
      }
    }

    /** Inserting a `practice_sessions` row: both its user and the answer it
        practises must exist. */
    method AddPracticeSession(u: UserId, answerId: Uuid) returns (ok: bool)
      requires Valid()
      modifies this
      ensures Valid()
      ensures ok == (u in old(users) && answerId in AnswerIds(old(answers)))
      ensures practice == if ok then old(practice) + [PracticeSessionRow(old(nextId), u, answerId)] else old(practice)
      ensures nextId == if ok then old(nextId) + 1 else old(nextId)
      ensures users == old(users) && sessions == old(sessions) && accounts == old(accounts)
      ensures answers == old(answers) && clock == old(clock)
    {
      ok := u in users && answerId in AnswerIds(answers);
      if ok {
        practice := practice + [PracticeSessionRow(nextId, u, answerId)];
        nextId := nextId + 1;
      }
    }

    /** `DELETE FROM star_answers WHERE user_id = u`. It deletes every row of
        `u` and no other row, or, when a practice session still refers to one
        of them, is rejected as a whole and deletes nothing. */
    method Purge(u: UserId) returns (ok: bool)
      requires Valid()
      modifies this
      ensures Valid()
      ensures ok == !AnswerDeleteBlocked(old(answers), old(practice), u)
      ensures answers == if ok then RowsNotOf(old(answers), u) else old(answers)
      ensures users == old(users) && sessions == old(sessions) && accounts == old(accounts)
      ensures practice == old(practice) && clock == old(clock) && nextId == old(nextId)
    {
      ok := !AnswerDeleteBlocked(answers, practice, u);
      if ok {
        var rest := RowsNotOf(answers, u);
        FilterInsertOrdered(answers, u);
        forall p | p in practice ensures p.answerId in AnswerIds(rest) {
          var x :| x in answers && x.id == p.answerId;
          assert x.values.userId != u;
          assert x in rest;
        }
        answers := rest;
        forall i | 0 <= i < |answers| ensures answers[i].id < nextId && answers[i].createdAt <= clock {
          assert answers[i] in old(answers);
        }
      }
    }

    /** `INSERT INTO star_answers VALUES ...` of several rows in one
        statement: one transaction, so every row gets the same `created_at`,
        later than any stored row's, and a fresh id. It is rejected as a whole
        when some row names a user that does not exist. */
    method Insert(values: seq<NewStarAnswer>) returns (ok: bool)
      requires Valid()
      modifies this
      ensures Valid()
      ensures ok == forall v :: v in values ==> v.userId in old(users)
      ensures ok ==> clock == old(clock) + 1 && nextId == old(nextId) + |values|
      ensures answers == if ok then old(answers) + Stamp(values, old(nextId), clock) else old(answers)
      ensures !ok ==> clock == old(clock) && nextId == old(nextId)
      ensures users == old(users) && sessions == old(sessions) && accounts == old(accounts)
      ensures practice == old(practice)
    {
      ok := forall v :: v in values ==> v.userId in users;
      if ok {
        clock := clock + 1;
        var added := Stamp(values, nextId, clock);
        assert forall x :: x in added ==> x.values in values;
        answers := answers + added;
        nextId := nextId + |values|;
        assert AnswerIds(old(answers)) <= AnswerIds(answers);
      }
    }

    /** Deleting a `user` row cascades to its `session` and `account` rows,
        and is rejected while any answer or practice session still belongs to
        the user. */
    method DeleteUser(u: UserId) returns (ok: bool)
      requires Valid()
      modifies this
      ensures Valid()
      ensures ok == !UserDeleteBlocked(old(answers), old(practice), u)
      ensures users == if ok then old(users) - {u} else old(users)
      ensures sessions == if ok then AuthRowsNotOf(old(sessions), u) else old(sessions)
      ensures accounts == if ok then AuthRowsNotOf(old(accounts), u) else old(accounts)
      ensures answers == old(answers) && practice == old(practice)
      ensures clock == old(clock) && nextId == old(nextId)
    {
      ok := !UserDeleteBlocked(answers, practice, u);
      if ok {
        users := users - {u};
        sessions := AuthRowsNotOf(sessions, u);
        accounts := AuthRowsNotOf(accounts, u);
      }
    }
  }
}
