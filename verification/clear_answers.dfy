/** POST /api/clear-answers (src/app/api/clear-answers/route.ts): delete
    every stored answer of the caller. */
module ClearAnswers {
  import opened Common
  import opened Schema
  import opened AnswerStore

  datatype ClearResponse =
    | Unauthorized   // 401
    | ServerError    // 500
    | Cleared        // { success: true }

  /** The route: a failed session lookup or a rejected DELETE is a 500 and
      leaves the table as it was; without a signed-in user id it is a 401 and
      nothing is deleted; otherwise the caller's rows are gone, whether or not
      there were any, and every other user's rows are untouched. */
  method ClearAnswers(store: Store, session: Session) returns (r: ClearResponse)
    requires store.Valid()
    modifies store
    ensures store.Valid()
    ensures session.LookupError? ==> r == ServerError
    ensures !session.LookupError? && !Authenticated(session) ==> r == Unauthorized
    ensures Authenticated(session) ==>
      r == if AnswerDeleteBlocked(old(store.answers), old(store.practice), session.userId) then ServerError else Cleared
    ensures r.Cleared? ==> store.answers == RowsNotOf(old(store.answers), session.userId)
    ensures r.Cleared? ==> store.Snapshot(session.userId) == []
    ensures r.Cleared? ==> forall v :: v != session.userId ==> store.Snapshot(v) == old(store.Snapshot(v))
    ensures !r.Cleared? ==> store.answers == old(store.answers)
    ensures store.users == old(store.users) && store.practice == old(store.practice)
    ensures store.sessions == old(store.sessions) && store.accounts == old(store.accounts)
    ensures store.clock == old(store.clock) && store.nextId == old(store.nextId)
  {
    if session.LookupError? {
      return ServerError;
    }
    if !Authenticated(session) {
      return Unauthorized;
    }
    var ok := store.Purge(session.userId);
    if !ok {
      return ServerError;
    }
    RowsNotOfPurged(old(store.answers), session.userId);
    forall v | v != session.userId
      ensures RowsOf(store.answers, v) == RowsOf(old(store.answers), v)
    {
      RowsNotOfKeepsOthers(old(store.answers), session.userId, v);
    }
    r := Cleared;
  }

  /** Clearing twice: the second call succeeds as well and changes nothing. */
  method ClearTwice(store: Store, session: Session) returns (first: ClearResponse, second: ClearResponse)
    requires store.Valid()
    modifies store
    ensures store.Valid()
    ensures first.Cleared? ==> second.Cleared?
    ensures first.Cleared? ==> session.SignedIn? && store.answers == RowsNotOf(old(store.answers), session.userId)
  {
    first := ClearAnswers(store, session);
    ghost var between := store.answers;
    second := ClearAnswers(store, session);
    if first.Cleared? {
      RowsNotOfPurged(old(store.answers), session.userId);
      assert !AnswerDeleteBlocked(between, store.practice, session.userId);
    }
  }
}
