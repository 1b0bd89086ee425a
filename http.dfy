/** What a route handler returns and what it can catch. */
module Http {

  import opened Wrappers
  import opened Js
  import opened Json

  /** `NextResponse.json(body, { status })`. */
  datatype Response = Response(status: nat, body: Json)

  /** A value a handler catches: an `Error` with its message, or anything
      else that was thrown. */
  datatype Thrown = Error(message: string) | NonError

  /** `error instanceof Error ? error.message : fallback`. */
  function CaughtMessage(t: Thrown, fallback: string): (m: string)
    ensures t.Error? ==> m == t.message
    ensures t.NonError? ==> m == fallback
  {
    match t
    case Error(message) => message
    case NonError => fallback
  }

  /** What `fetch` resolved to, as far as the handlers look at it: `ok`,
      the status line, and what `.json()` gives (or throws). */
  datatype Reply = Reply(ok: bool, status: nat, statusText: string, json: Result<Json, Thrown>)

  /** The error the handlers throw for a reply that is not ok:
      `${prefix}: ${status} ${statusText}`. */
  function StatusError(prefix: string, reply: Reply): (t: Thrown)
    ensures t.Error? && |t.message| > |prefix| + 2 && t.message[..|prefix| + 2] == prefix + ": "
  {
    Error(prefix + ": " + NatToString(reply.status) + " " + reply.statusText)
  }

  /** A request field that passes `!field`: present and not the empty string. */
  predicate Present(field: Option<string>) {
    field.Some? && field.value != ""
  }

  /** `NextResponse.json({ error: message }, { status })`. */
  function ErrorResponse(status: nat, message: string): (r: Response)
    ensures r.status == status && Get(Some(r.body), "error") == Some(JStr(message))
  {
    Response(status, ErrorBody(message))
  }
}
