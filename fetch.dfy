/**
 A network exchange as the pages see it once `fetch` and `response.json()` are
 abstracted away: either the promise rejected (network failure, a body that is
 not JSON) with an error whose message is `reason`, or the server answered with
 the HTTP `ok` flag and a decoded body carrying `status`, `message` and a payload.
 An absent `status` or `message` is the empty string: the pages only compare
 them with literals or pass them to `||`.
 */
module Fetch {
  import opened Js

  datatype Reply<P> =
    | Rejected(reason: string)
    | Answered(ok: bool, status: string, message: string, payload: P)

  /** `response.ok`. */
  predicate TransportOk<P>(r: Reply<P>)
  {
    r.Answered? && r.ok
  }

  /** `data.status === "success"`. */
  predicate StatusSuccess<P>(r: Reply<P>)
  {
    r.Answered? && r.status == "success"
  }

  /** Neither `!response.ok` nor `data.status === "fail"`. */
  predicate OkAndNotFail<P>(r: Reply<P>)
  {
    r.Answered? && r.ok && r.status != "fail"
  }

  /**
   The message of the error a `catch` block receives: the rejection's own, or the
   `new Error(data.message || fallback)` a handler throws on a bad answer.
   */
  function ErrorMessage<P>(r: Reply<P>, fallback: string): (m: string)
    ensures r.Rejected? ==> m == r.reason
    ensures r.Answered? && r.message != "" ==> m == r.message
    ensures r.Answered? && r.message == "" ==> m == fallback
  {
    match r
    case Rejected(reason) => reason
    case Answered(_, _, message, _) => Or(message, fallback)
  }
}
