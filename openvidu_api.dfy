/** The OpenVidu service as the recording handlers see it. Its code is not
    part of this model: each of its answers is an input, and each backend
    call either returns a value or fails with an error whose message is the
    backend's status code as text. */
module OpenViduApi {
  import opened Http

  datatype Outcome<+T> = Ok(value: T) | Fail(message: string)

  /** One call to the recording backend, as recorded in a handler's log. */
  datatype Call =
    | ListAllRecordings
    | ListRecordingsBySessionIdAndDate(sessionId: string, date: string)
    | StartRecording(sessionId: string)
    | StopRecording(recordingId: string)
    | DeleteRecording(recordingId: string)

  /** The answers the service gives during one request. A missing session
      cookie makes `sessionIdFromCookie` return "". */
  datatype OpenVidu = OpenVidu(
    sessionIdFromCookie: Cookies -> string,
    dateFromCookie: Cookies -> string,
    isValidToken: (string, Cookies) -> bool,
    listAllRecordings: Outcome<seq<Recording>>,
    listRecordingsBySessionIdAndDate: (string, string) -> Outcome<seq<Recording>>,
    startRecording: string -> Outcome<Recording>,
    stopRecording: string -> Outcome<Recording>,
    deleteRecording: string -> Outcome<()>,
    basicAuth: string)
}
