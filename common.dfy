/** Small wrapper types shared by every part of the model. */
module Common {

  datatype Option<+T> = None | Some(value: T)

  /**
   * The outcome of one backend call as a page handler sees it. The HTTP
   * client resolves only when the business code is 200 or 201 and rejects
   * otherwise (timeouts, HTTP errors, business errors alike), so a handler
   * observes either the payload it reads from the response or a failure.
   */
  datatype Reply<+T> = Ok(data: T) | Failed
}
