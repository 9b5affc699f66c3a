/** The catch blocks of the recording handlers: each turns the message of
    the error it caught into a status and one curated message, with a table
    of its own. None of them ever echoes the backend's payload. */
module RecordingErrors {
  import opened Js
  import opened Http

  const NoRecordingExist := "No recording exist for the session"
  const UnexpectedList := "Unexpected error getting all recordings"
  const AlreadyRecorded := "The session is already being recorded."
  const ModuleDisabled := "OpenVidu Server recording module is disabled"
  const NoParticipants := "The session has no connected participants"
  const UnexpectedStart := "Unexpected error starting recording"
  const StillStarting := "Recording has STARTING status. Wait until STARTED status before stopping the recording"
  const UnexpectedStop := "Unexpected error stopping recording"
  const StartedBeforeDeletion := "The recording has STARTED status. Stop it before deletion."
  const NoRecordingExists := "No recording exists for the session"
  const UnexpectedDelete := "Unexpected error deleting the recording"
  const UnexpectedDownload := "Unexpected error downloading the recording"

  /** The catch block of `GET /`. */
  function ListError(code: JsNumber): (r: Response)
    ensures r.status == Num(OrElse500(code))
    ensures r.body == Message(NoRecordingExist) <==> code == Num(404)
    ensures r.body == Message(UnexpectedList) <==> code != Num(404)
  {
    var message := if code == Num(404) then NoRecordingExist else UnexpectedList;
    Response(Num(OrElse500(code)), Message(message))
  }

  /** The catch block of `POST /start`. */
  function StartError(code: JsNumber): (r: Response)
    ensures r.status == Num(OrElse500(code))
    ensures r.body == Message(AlreadyRecorded) <==> code == Num(409)
    ensures r.body == Message(ModuleDisabled) <==> code == Num(501)
    ensures r.body == Message(NoParticipants) <==> code == Num(406)
    ensures r.body == Message(UnexpectedStart) <==> code !in {Num(409), Num(501), Num(406)}
  {
    var message :=
      if code == Num(409) then AlreadyRecorded
      else if code == Num(501) then ModuleDisabled
      else if code == Num(406) then NoParticipants
      else UnexpectedStart;
    Response(Num(OrElse500(code)), Message(message))
  }

  /** The catch block of `POST /stop`. */
  function StopError(code: JsNumber): (r: Response)
    ensures r.status == Num(OrElse500(code))
    ensures r.body == Message(ModuleDisabled) <==> code == Num(501)
    ensures r.body == Message(StillStarting) <==> code == Num(406)
    ensures r.body == Message(UnexpectedStop) <==> code !in {Num(501), Num(406)}
  {
    var message :=
      if code == Num(501) then ModuleDisabled
      else if code == Num(406) then StillStarting
      else UnexpectedStop;
    Response(Num(OrElse500(code)), Message(message))
  }

  /** The catch block of `DELETE /delete/:recordingId`, with its second test
      of 409 kept as written. The status is the parsed code itself: there is
      no fallback to 500, so a non-numeric message yields status NaN. */
  function DeleteError(code: JsNumber): (r: Response)
    ensures r.status == code
    ensures r.body == Message(StartedBeforeDeletion) <==> code == Num(409)
    ensures r.body == Message(ModuleDisabled) <==> code == Num(501)
    ensures r.body == Message(UnexpectedDelete) <==> code !in {Num(409), Num(501)}
  {
    var message :=
      if code == Num(409) then StartedBeforeDeletion
      else if code == Num(501) then ModuleDisabled
      else if code == Num(409) then NoRecordingExists
      else UnexpectedDelete;
    Response(code, Message(message))
  }

  /** The proxy's `onError` hook for `GET /download/:recordingId`. */
  function DownloadError(code: JsNumber): (r: Response)
    ensures r.status == Num(OrElse500(code))
    ensures r.body == Message(NoRecordingExist) <==> code == Num(404)
    ensures r.body == Message(UnexpectedDownload) <==> code != Num(404)
  {
    var message := if code == Num(404) then NoRecordingExist else UnexpectedDownload;
    Response(Num(OrElse500(code)), Message(message))
  }

  /** The delete handler's second 409 branch can never be taken: no error
      makes it answer "No recording exists for the session". */
  lemma DeleteSecondConflictUnreachable(code: JsNumber)
    ensures DeleteError(code).body != Message(NoRecordingExists)
  {
  }

  /** A backend error whose message is the decimal code `n` answers with
      status `n` in every table that falls back to 500, except that code 0
      is falsy and becomes 500. */
  lemma DecimalCodeStatus(n: nat)
    ensures var s := if n == 0 then 500 else n;
      && ListError(ToNumber(Decimal(n))).status == Num(s)
      && StartError(ToNumber(Decimal(n))).status == Num(s)
      && StopError(ToNumber(Decimal(n))).status == Num(s)
      && DownloadError(ToNumber(Decimal(n))).status == Num(s)
  {
    ToNumberDecimal(n);
  }

  /** The delete table passes a non-numeric message on as status NaN where
      every other table answers 500. */
  lemma DeleteHasNoFallback(message: string)
    requires ToNumber(message) == NaN
    ensures DeleteError(ToNumber(message)).status == NaN
    ensures StartError(ToNumber(message)).status == Num(500)
    ensures ListError(ToNumber(message)).status == Num(500)
  {
  }
}
