/** Shapes shared by the server routes, the background job and the pages. */
module Common {

  datatype Option<T> = None | Some(value: T)

  /** What the identity collaborator answers for one request: no session, a
      signed-in user (whose id may still be the empty string), or a failed
      lookup (the lookup threw). */
  datatype Session = NoSession | SignedIn(userId: string) | LookupError

  /** `session?.user.id` is truthy: a session exists and its user id is not
      the empty string. Every route guards on exactly this. */
  predicate Authenticated(s: Session)
  {
    s.SignedIn? && s.userId != ""
  }

  /** One generated behavioural-interview answer in STAR form, as the
      language model returns it; `fullAnswer` may be absent. */
  datatype StarAnswer = StarAnswer(
    id: int,
    competency: string,
    question: string,
    situation: string,
    task: string,
    action: string,
    result: string,
    fullAnswer: Option<string>)

  function Min(a: int, b: int): int
  {
    if a <= b then a else b
  }

  function Max(a: int, b: int): int
  {
    if a >= b then a else b
  }
}
