/**
 * What the API routes answer and what their backend calls return. A route
 * replies with a JSON body and status 200, or with `{ error }` and an error
 * status. A backend query either yields its data or throws, and the
 * route's `catch` turns the thrown error's message into a 500 reply.
 */
module Http {
  import opened Wrappers
  import opened Types

  datatype Reply<T> = Ok(body: T) | Err(status: int, error: string) {
    function Status(): int {
      if Ok? then 200 else status
    }
  }

  /** The result of a backend call: its data, or the message of the error it raised. */
  datatype Fetch<T> = Loaded(value: T) | Threw(message: string)

  /** What a page's `fetch` to an API route answered: `response.ok` and the body's `error`, if any. */
  datatype Answer = Answer(ok: bool, error: Option<string>)

  /** A toast a page shows: its text and whether it reports success. */
  datatype Toast = Toast(message: string, success: bool)

  /** How an admin-only route lets a request through or turns it away. */
  datatype Gate = Admit(user: AuthUser) | Deny(status: int, error: string)

  /**
   * The gate shared by every admin route: no signed-in user is 401
   * Unauthorized; a user whose profile role (`role`, None when the profile
   * lookup found no row) is not "admin" is 403 Forbidden.
   */
  function AdminGate(user: Option<AuthUser>, role: Option<string>): (g: Gate)
    ensures g.Admit? <==> user.Some? && role == Some("admin")
    ensures g.Admit? ==> g.user == user.value
    ensures user.None? ==> g == Deny(401, "Unauthorized")
    ensures user.Some? && role != Some("admin") ==> g == Deny(403, "Forbidden")
  {
    if user.None? then Deny(401, "Unauthorized")
    else if role != Some("admin") then Deny(403, "Forbidden")
    else Admit(user.value)
  }
}
