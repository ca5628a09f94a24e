/** The provider SDK seen from the tools: every call yields either the
    response's data or an error payload. Payloads that the tools only
    serialise are represented by their JSON text. */
module Sdk {
  import opened Wrappers

  datatype Response<T> = Data(data: T) | Error(json: string)

  /** `if (response.error) throw new Error(`${context}: ${JSON.stringify(response.error)}`)`,
      otherwise the data; `prefix` is the message up to the serialised error,
      colon and space included. */
  function Unwrap<T>(response: Response<T>, prefix: string): (r: Result<T, string>)
    ensures r.Err? <==> response.Error?
    ensures r.Err? ==> r.error == prefix + response.json
    ensures r.Ok? ==> r.value == response.data
  {
    match response
    case Data(d) => Ok(d)
    case Error(json) => Err(prefix + json)
  }

  /** The reply of both send-email handlers: the serialised response data after
      "Email sent successfully! ", or a failure embedding the error payload. */
  function SentReply(response: Response<string>): (r: Result<string, string>)
    ensures response.Data? ==> r == Ok("Email sent successfully! " + response.data)
    ensures response.Error? ==> r == Err("Email failed to send: " + response.json)
  {
    match Unwrap(response, "Email failed to send: ")
    case Ok(json) => Ok("Email sent successfully! " + json)
    case Err(e) => Err(e)
  }
}
