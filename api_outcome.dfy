/**
 * What an awaited `axios.post` comes back with, as seen by the pages: a
 * response body, or a rejection whose response may carry a `message`.
 */
module ApiOutcome {
  import opened Wrappers

  /** `Ok` carries the session fields a verify route answers with; other routes' bodies are not read. */
  datatype Outcome = Ok(token: string, user: string) | Err(message: Option<string>)

  /**
   * `err.response?.data?.message || fallback`: the server's message, unless it
   * is missing or empty (both falsy), in which case the fallback.
   */
  function ErrorText(message: Option<string>, fallback: string): (text: string)
    ensures message.Some? && message.value != "" ==> text == message.value
    ensures message.None? || message.value == "" ==> text == fallback
    ensures fallback != "" ==> text != ""
  {
    if message.Some? && message.value != "" then message.value else fallback
  }
}
