/** What the user API routes share: the server-session lookup and the JSON reply shape. */
module ApiCommon {
  import opened Wrappers
  import opened Domain

  /** `getServerSession`: it threw, there is no session, or a session whose user may carry an e-mail. */
  datatype SessionLookup = SessionThrew | NoSession | SignedIn(email: Option<string>)

  /** The session passes the routes' `!session || !session.user?.email` check. */
  predicate Authorized(session: SessionLookup) {
    session.SignedIn? && Truthy(session.email)
  }

  /** A JSON reply: a success body (status 200) or an `{ error }` body with its status. */
  datatype Reply<T> = Ok(body: T) | Fail(status: int, error: string)

  const Unauthorized: string := "Unauthorized"

  /** `error.message || fallback`: the text a route's `catch` block replies with. */
  function ErrorText(message: string, fallback: string): (e: string)
    ensures message != "" ==> e == message
    ensures message == "" ==> e == fallback
  {
    if message != "" then message else fallback
  }
}
