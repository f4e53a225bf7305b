/**
 * How a page sees one backend call. The request client resolves only when
 * the reply's business code is 200 or 201 and rejects otherwise; a page then
 * reads the resolved value's `data` field inside a `try` whose `catch`
 * swallows the error.
 */
module Backend {
  import opened Common
  import opened Js

  /**
   * `response.data` of a call, or None when the call rejects or resolves
   * with a nullish value (reading a field of it throws).
   */
  function Payload(reply: Reply<JsValue>): (p: Option<JsValue>)
    ensures p.Some? <==> reply.Ok? && !Nullish(reply.data)
    ensures p.Some? ==> p.value == Get(reply.data, "data")
  {
    match reply
    case Failed => None
    case Ok(response) => if Nullish(response) then None else Some(Get(response, "data"))
  }
}
