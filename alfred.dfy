/** The JSON reply both commands print for Alfred (`alfredResponse`). A zero
    `rerun`, an empty map or an empty string stands for a field that
    `omitempty` leaves out of the JSON. */
module Alfred {
  datatype Response = Response(
    response: string,
    rerun: real,
    variables: map<string, string>,
    behaviour: map<string, string>,
    footer: string)

  /** The rerun interval, in seconds, of every reply that polls again. */
  const RerunInterval: real := 0.1

  /** `respondError`: the error text and nothing else. */
  function RespondError(err: string): Response {
    Response(err, 0.0, map[], map[], "")
  }
}
