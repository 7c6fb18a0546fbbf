/** GET /api/get-answers (src/app/api/get-answers/route.ts): the polling
    snapshot of the caller's answers with positional display ids. The rows
    the ordered SELECT returned are a parameter (None when the query threw). */
module GetAnswers {
  import opened Common
  import opened Schema

  /** One answer as the snapshot sends it: a display id instead of the uuid,
      and no owner. */
  datatype AnswerPayload = AnswerPayload(
    id: nat,
    competency: string,
    question: string,
    situation: string,
    task: string,
    action: string,
    result: string,
    fullAnswer: string)

  /** The payload carries the row's seven text columns unchanged. */
  predicate Copies(p: AnswerPayload, row: StarAnswerRow)
  {
    && p.competency == row.values.competency
    && p.question == row.values.question
    && p.situation == row.values.situation
    && p.task == row.values.task
    && p.action == row.values.action
    && p.result == row.values.result
    && p.fullAnswer == row.values.fullAnswer
  }

  function FormatFrom(rows: seq<StarAnswerRow>, offset: nat): (r: seq<AnswerPayload>)
    ensures |r| == |rows|
    ensures forall i :: 0 <= i < |r| ==> r[i].id == offset + i + 1 && Copies(r[i], rows[i])
  {
    if rows == [] then []
    else
      var row := rows[0].values;
      [AnswerPayload(offset + 1, row.competency, row.question, row.situation, row.task, row.action, row.result, row.fullAnswer)]
        + FormatFrom(rows[1..], offset + 1)
  }

  /** `answers.map((a, i) => ({ id: i + 1, ... }))`, shared by this route and
      by `fetchAnswers` in the event stream: one payload per row, in the
      read's order, numbered 1..n by position whatever the stored uuids are. */
  function FormatAnswers(rows: seq<StarAnswerRow>): (r: seq<AnswerPayload>)
    ensures |r| == |rows|
    ensures forall i :: 0 <= i < |r| ==> r[i].id == i + 1 && Copies(r[i], rows[i])
  {
    FormatFrom(rows, 0)
  }

  datatype GetAnswersResponse =
    | Unauthorized              // 401
    | ServerError               // 500
    | Answers(answers: seq<AnswerPayload>, count: nat)

  /** The route: a failed session lookup or a failed read is a 500; without a
      signed-in user id it is a 401 whatever the table holds; otherwise every
      row read is returned, numbered by position, with its count. */
  function GetAnswers(session: Session, read: Option<seq<StarAnswerRow>>): (r: GetAnswersResponse)
    ensures session.LookupError? ==> r == ServerError
    ensures !session.LookupError? && !Authenticated(session) ==> r == Unauthorized
    ensures Authenticated(session) ==> (r.Answers? <==> read.Some?)
    ensures r.Answers? ==> r.count == |r.answers| == |read.value|
    ensures r.Answers? ==> forall i :: 0 <= i < r.count ==> r.answers[i].id == i + 1 && Copies(r.answers[i], read.value[i])
  {
    if session.LookupError? then ServerError
    else if !Authenticated(session) then Unauthorized
    else match read
      case None => ServerError
      case Some(rows) =>
        var answers := FormatAnswers(rows);
        Answers(answers, |answers|)
  }

  /** What a signed-in caller sees when the read is an ordered read of the
      table: as many answers as the caller owns rows, each copying one of the
      caller's rows, and the rows of an earlier insert numbered before those of
      a later one. */
  lemma PollingSnapshot(rows: seq<StarAnswerRow>, u: UserId, read: seq<StarAnswerRow>)
    requires u != "" && IsOrderedRead(rows, u, read)
    ensures var r := GetAnswers(SignedIn(u), Some(read));
      && r.Answers?
      && r.count == |RowsOf(rows, u)|
      && (forall i :: 0 <= i < r.count ==> exists x :: x in rows && x.values.userId == u && Copies(r.answers[i], x))
      && (forall i, j :: 0 <= i < r.count && 0 <= j < r.count && read[i].createdAt < read[j].createdAt ==>
            r.answers[i].id < r.answers[j].id)
  {
    var r := GetAnswers(SignedIn(u), Some(read));
    OrderedReadsAgreeOnRows(rows, u, read, read);
    forall i | 0 <= i < r.count
      ensures exists x :: x in rows && x.values.userId == u && Copies(r.answers[i], x)
    {
      assert read[i] in multiset(RowsOf(rows, u));
    }
    forall i, j | 0 <= i < r.count && 0 <= j < r.count && read[i].createdAt < read[j].createdAt
      ensures r.answers[i].id < r.answers[j].id
    {
      BatchesInInsertOrder(rows, u, read, i, j);
    }
  }
}
