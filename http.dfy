/**
 * The outcome of one HTTP call made through the axios client. Every network
 * request of the front end is modelled as a single atomic step whose outcome is
 * a parameter: either the response body, or a failure carrying the server's
 * `response.data.message` (the empty string when the server sent none).
 */
module Http {

  datatype Response<+T> = Ok(data: T) | Failed(message: string)

  /** `err.response?.data?.message || fallback`: the server message when it is truthy. */
  function ErrorText(message: string, fallback: string): (r: string)
    ensures message != "" ==> r == message
    ensures message == "" ==> r == fallback
  {
    if message != "" then message else fallback
  }
}
