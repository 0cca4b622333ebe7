/** What an HTTP call made with axios can come back with. A call resolves
    for a 2xx answer and rejects otherwise; a rejection carries the
    server's answer when there was one (`err.response`), and otherwise
    only a message (`err.request` set, or an error raised before sending). */
module Http {
  import opened Common

  datatype Outcome<T> =
    | Resolved(status: int, data: T)
    | Rejected(status: int, body: map<string, string>)
    | NoResponse(message: string)
    | Failed(message: string)

  /** The message a catch block builds as
      `err.response ? (err.response.data.error || serverFallback) : (err.message || otherFallback)`. */
  function CaughtMessage<T>(o: Outcome<T>, serverFallback: string, otherFallback: string): (m: string)
    requires !o.Resolved?
    requires serverFallback != "" && otherFallback != ""
    ensures m != ""
    ensures o.Rejected? && Truthy(Get(o.body, "error")) ==> m == o.body["error"]
    ensures o.Rejected? && !Truthy(Get(o.body, "error")) ==> m == serverFallback
    ensures !o.Rejected? ==> m == if o.message != "" then o.message else otherFallback
  {
    match o
    case Rejected(_, body) => OrElse(Get(body, "error"), serverFallback)
    case NoResponse(msg) => if msg != "" then msg else otherFallback
    case Failed(msg) => if msg != "" then msg else otherFallback
  }

  /** The message a catch block builds as `err.response?.data?.error || fallback`. */
  function ServerErrorOr<T>(o: Outcome<T>, fallback: string): (m: string)
    requires !o.Resolved?
    requires fallback != ""
    ensures m != ""
    ensures o.Rejected? && Truthy(Get(o.body, "error")) ==> m == o.body["error"]
    ensures !(o.Rejected? && Truthy(Get(o.body, "error"))) ==> m == fallback
  {
    if o.Rejected? then OrElse(Get(o.body, "error"), fallback) else fallback
  }

  const NoResponseText: string := "No response from server. Please check your network."
  const UnexpectedText: string := "An unexpected error occurred. Please try again."

  /** The message the signup and application forms build in their catch
      block: the server's `error`, else its `message`, else `serverFallback`
      when there was an answer; a network message when the request got no
      answer; a generic message otherwise. */
  function ExplainedFailure<T>(o: Outcome<T>, serverFallback: string): (m: string)
    requires !o.Resolved?
    requires serverFallback != ""
    ensures m != ""
    ensures o.Rejected? && Truthy(Get(o.body, "error")) ==> m == o.body["error"]
    ensures o.Rejected? && !Truthy(Get(o.body, "error")) && Truthy(Get(o.body, "message")) ==> m == o.body["message"]
    ensures o.Rejected? && !Truthy(Get(o.body, "error")) && !Truthy(Get(o.body, "message")) ==> m == serverFallback
    ensures o.NoResponse? ==> m == NoResponseText
    ensures o.Failed? ==> m == UnexpectedText
  {
    match o
    case Rejected(_, body) => OrElse(Get(body, "error"), OrElse(Get(body, "message"), serverFallback))
    case NoResponse(_) => NoResponseText
    case Failed(_) => UnexpectedText
  }
}
