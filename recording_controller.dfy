/** The recording routes: list, start, stop and delete, and the hooks of the
    proxy that serves `GET /download/:recordingId`. Every handler decides
    whether the caller is admitted, calls the backend or not, keeps the
    per-session `recordingMap` up to date and turns a backend error into a
    status and a curated message. */
module RecordingController {
  import opened Js
  import opened JsStrings
  import opened Http
  import opened OpenViduApi
  import opened RecordingErrors
  import Auth

  const PermissionsDenied := "Permissions denied to drive recording"
  const RecordingDisabled := "Recording is disabled"
  const CallRecordingDisabled := "OpenVidu Call Recording is disabled"
  const NotBeingRecorded := "Session was not being recorded"
  const MissingRecordingId := "Missing recording id parameter."
  const Enabled := "ENABLED"

  /** What the handlers read from a request: its cookies, `req.body.sessionId`
      and `req.params.recordingId` ("" when absent). */
  datatype Request = Request(cookies: Cookies, bodySessionId: string, recordingIdParam: string)

  /** Who a request is admitted as. */
  datatype Admission = Denied | Participant(sessionId: string) | Admin

  /** The feature-flag test of `GET /`: `CALL_RECORDING.toUpperCase() === 'ENABLED'`. */
  function ListRecordingEnabled(callRecording: string): (enabled: bool)
    ensures enabled <==>
      && |callRecording| == |Enabled|
      && forall i :: 0 <= i < |callRecording| ==> UpperChar(callRecording[i]) == Enabled[i]
  {
    var upper := ToUpperCase(callRecording);
    assert upper == Enabled <==> |upper| == |Enabled| && forall i :: 0 <= i < |upper| ==> upper[i] == Enabled[i];
    upper == Enabled
  }

  /** The feature-flag test of start and stop: `CALL_RECORDING === 'ENABLED'`.
      It is the stricter test: whatever enables start and stop enables listing. */
  function DriveRecordingEnabled(callRecording: string): (enabled: bool)
    ensures enabled ==> ListRecordingEnabled(callRecording)
  {
    UpperCaseFixed(Enabled);
    callRecording == Enabled
  }

  /** The converse fails: "enabled" lets participants list recordings but
      not start or stop them. */
  lemma ListFlagIgnoresCase()
    ensures ListRecordingEnabled("enabled")
    ensures !DriveRecordingEnabled("enabled")
  {
    UpperCaseMatches("enabled", Enabled);
  }

  /** Admission to `GET /`: a participant needs a session id, the recording
      flag and a valid token; a valid admin session suffices on its own and
      takes precedence. */
  function ListAdmission(sessionId: string, recordingEnabled: bool, tokenValid: bool, adminValid: bool): (a: Admission)
    ensures a != Denied <==> (sessionId != "" && recordingEnabled && tokenValid) || adminValid
    ensures a == Admin <==> adminValid
    ensures a.Participant? ==> a.sessionId == sessionId
  {
    if adminValid then Admin
    else if sessionId != "" && recordingEnabled && tokenValid then Participant(sessionId)
    else Denied
  }

  /** Admission to delete and download: the same, without the recording flag. */
  function ManageAdmission(sessionId: string, tokenValid: bool, adminValid: bool): (a: Admission)
    ensures a != Denied <==> (sessionId != "" && tokenValid) || adminValid
    ensures a == Admin <==> adminValid
    ensures a.Participant? ==> a.sessionId == sessionId
  {
    if adminValid then Admin
    else if sessionId != "" && tokenValid then Participant(sessionId)
    else Denied
  }

  /** Whoever may list may delete and download; the converse fails only
      through the recording flag. */
  lemma ListAdmissionWithinManage(sessionId: string, recordingEnabled: bool, tokenValid: bool, adminValid: bool)
    ensures ListAdmission(sessionId, recordingEnabled, tokenValid, adminValid) != Denied ==>
      ManageAdmission(sessionId, tokenValid, adminValid) != Denied
    ensures recordingEnabled ==>
      ListAdmission(sessionId, recordingEnabled, tokenValid, adminValid) == ManageAdmission(sessionId, tokenValid, adminValid)
  {
  }

  /** `recordingMap.get(sessionId)?.recordingId`, with `undefined` read as "". */
  function RecordingIdOf(recordingMap: map<string, string>, sessionId: string): (recordingId: string)
    ensures sessionId !in recordingMap ==> recordingId == ""
    ensures sessionId in recordingMap ==> recordingId == recordingMap[sessionId]
  {
    if sessionId in recordingMap then recordingMap[sessionId] else ""
  }

  /** A successful listing answers 200 with the list; a failed one goes
      through the handler's error table. */
  function ListingOr(recordings: Outcome<seq<Recording>>, table: JsNumber -> Response): Response {
    match recordings
    case Ok(list) => Response(Num(200), Listing(list))
    case Fail(message) => table(ToNumber(message))
  }

  class RecordingRouter {
    /** Session id -> id of the recording in progress ("" when none). The
        entries are created by the session routes, which are not part of
        this model. */
    var recordingMap: map<string, string>
    /** The CALL_RECORDING setting. */
    const callRecording: string
    /** The CALL_OPENVIDU_CERTTYPE setting. */
    const certType: string
    /** Whether the download proxy verifies the backend's certificate. */
    const secure: bool
    const auth: Auth.AuthService

    constructor (callRecording: string, certType: string, auth: Auth.AuthService, recordingMap: map<string, string>)
      ensures this.callRecording == callRecording && this.certType == certType && this.auth == auth
      ensures this.recordingMap == recordingMap
      ensures secure <==> certType != "selfsigned"
    {
      this.callRecording := callRecording;
      this.certType := certType;
      this.auth := auth;
      this.recordingMap := recordingMap;
      this.secure := certType != "selfsigned";
    }

    function AdminValid(req: Request, now: int): bool
      reads auth
    {
      auth.IsAdminSessionValid(CookieValue(req.cookies, Auth.AdminCookieName), now)
    }

    function ListDecision(req: Request, ov: OpenVidu, now: int): Admission
      reads auth
    {
      var sessionId := ov.sessionIdFromCookie(req.cookies);
      ListAdmission(sessionId, ListRecordingEnabled(callRecording),
                    ov.isValidToken(sessionId, req.cookies), AdminValid(req, now))
    }

    function ManageDecision(req: Request, ov: OpenVidu, now: int): Admission
      reads auth
    {
      var sessionId := ov.sessionIdFromCookie(req.cookies);
      ManageAdmission(sessionId, ov.isValidToken(sessionId, req.cookies), AdminValid(req, now))
    }

    /** Start and stop admit a caller when the flag is exactly "ENABLED" and
        the token for the session named in the body is valid. */
    predicate MayDriveRecording(req: Request, ov: OpenVidu) {
      DriveRecordingEnabled(callRecording) && ov.isValidToken(req.bodySessionId, req.cookies)
    }

    /** `GET /`. `calls` is the sequence of backend calls the request made. */
    method List(req: Request, ov: OpenVidu, now: int) returns (resp: Response, ghost calls: seq<Call>)
      ensures ListDecision(req, ov, now) == Denied ==>
        && calls == []
        && resp == Response(Num(403), Message(if ListRecordingEnabled(callRecording) then PermissionsDenied else RecordingDisabled))
      ensures ListDecision(req, ov, now) == Admin ==>
        && calls == [ListAllRecordings]
        && resp == ListingOr(ov.listAllRecordings, ListError)
      ensures ListDecision(req, ov, now).Participant? ==>
        var sessionId, date := ov.sessionIdFromCookie(req.cookies), ov.dateFromCookie(req.cookies);
        && calls == [ListRecordingsBySessionIdAndDate(sessionId, date)]
        && resp == ListingOr(ov.listRecordingsBySessionIdAndDate(sessionId, date), ListError)
    {
      var isRecordingEnabled := ListRecordingEnabled(callRecording);
      var sessionId := ov.sessionIdFromCookie(req.cookies);
      var adminSessionId := CookieValue(req.cookies, Auth.AdminCookieName);
      var isAdminSessionValid := auth.IsAdminSessionValid(adminSessionId, now);
      calls := [];
      if (sessionId != "" && isRecordingEnabled && ov.isValidToken(sessionId, req.cookies)) || isAdminSessionValid {
        var recordings;
        if isAdminSessionValid {
          calls := calls + [ListAllRecordings];
          recordings := ov.listAllRecordings;
        } else {
          var date := ov.dateFromCookie(req.cookies);
          calls := calls + [ListRecordingsBySessionIdAndDate(sessionId, date)];
          recordings := ov.listRecordingsBySessionIdAndDate(sessionId, date);
        }
        match recordings {
          case Ok(list) =>
            resp := Response(Num(200), Listing(list));
          case Fail(message) =>
            resp := ListError(ToNumber(message));
        }
      } else {
        var message := if isRecordingEnabled then PermissionsDenied else RecordingDisabled;
        resp := Response(Num(403), Message(message));
      }
    }

    /** `POST /start`. A started recording's id is stored in the session's
        existing entry; when there is no entry the assignment throws after
        the backend has started the recording, and the handler answers with
        its generic error (the thrown TypeError's message is not a number). */
    method Start(req: Request, ov: OpenVidu) returns (resp: Response, ghost calls: seq<Call>)
      modifies this`recordingMap
      ensures !DriveRecordingEnabled(callRecording) ==>
        && resp == Response(Num(403), Message(CallRecordingDisabled))
        && calls == [] && recordingMap == old(recordingMap)
      ensures DriveRecordingEnabled(callRecording) && !ov.isValidToken(req.bodySessionId, req.cookies) ==>
        && resp == Response(Num(403), Message(PermissionsDenied))
        && calls == [] && recordingMap == old(recordingMap)
      ensures MayDriveRecording(req, ov) ==> calls == [StartRecording(req.bodySessionId)]
      ensures MayDriveRecording(req, ov) && ov.startRecording(req.bodySessionId).Ok? ==>
        var recording := ov.startRecording(req.bodySessionId).value;
        if req.bodySessionId in old(recordingMap) then
          && resp == Response(Num(200), Descriptor(recording))
          && recordingMap == old(recordingMap)[req.bodySessionId := recording.id]
        else
          && resp == StartError(NaN) && resp.status == Num(500)
          && recordingMap == old(recordingMap)
      ensures MayDriveRecording(req, ov) && ov.startRecording(req.bodySessionId).Fail? ==>
        && resp == StartError(ToNumber(ov.startRecording(req.bodySessionId).message))
        && recordingMap == old(recordingMap)
    {
      var sessionId := req.bodySessionId;
      calls := [];
      if DriveRecordingEnabled(callRecording) {
        if ov.isValidToken(sessionId, req.cookies) {
          calls := calls + [StartRecording(sessionId)];
          var startingRecording := ov.startRecording(sessionId);
          match startingRecording {
            case Ok(recording) =>
              if sessionId in recordingMap {
                recordingMap := recordingMap[sessionId := recording.id];
                resp := Response(Num(200), Descriptor(recording));
              } else {
                resp := StartError(NaN);
              }
            case Fail(message) =>
              resp := StartError(ToNumber(message));
          }
        } else {
          resp := Response(Num(403), Message(PermissionsDenied));
        }
      } else {
        resp := Response(Num(403), Message(CallRecordingDisabled));
      }
    }

    /** `POST /stop`. The session's recording id is cleared only after both
        the backend stop and the re-listing have succeeded. */
    method Stop(req: Request, ov: OpenVidu) returns (resp: Response, ghost calls: seq<Call>)
      modifies this`recordingMap
      ensures !DriveRecordingEnabled(callRecording) ==>
        && resp == Response(Num(403), Message(CallRecordingDisabled))
        && calls == [] && recordingMap == old(recordingMap)
      ensures DriveRecordingEnabled(callRecording) && !ov.isValidToken(req.bodySessionId, req.cookies) ==>
        && resp == Response(Num(403), Message(PermissionsDenied))
        && calls == [] && recordingMap == old(recordingMap)
      ensures MayDriveRecording(req, ov) && RecordingIdOf(old(recordingMap), req.bodySessionId) == "" ==>
        && resp == Response(Num(404), Message(NotBeingRecorded))
        && calls == [] && recordingMap == old(recordingMap)
      ensures MayDriveRecording(req, ov) && RecordingIdOf(old(recordingMap), req.bodySessionId) != "" ==>
        var recordingId := RecordingIdOf(old(recordingMap), req.bodySessionId);
        ov.stopRecording(recordingId).Fail? ==>
          && calls == [StopRecording(recordingId)]
          && resp == StopError(ToNumber(ov.stopRecording(recordingId).message))
          && recordingMap == old(recordingMap)
      ensures MayDriveRecording(req, ov) && RecordingIdOf(old(recordingMap), req.bodySessionId) != "" ==>
        var sessionId, date := req.bodySessionId, ov.dateFromCookie(req.cookies);
        var recordingId := RecordingIdOf(old(recordingMap), sessionId);
        var recordingList := ov.listRecordingsBySessionIdAndDate(sessionId, date);
        ov.stopRecording(recordingId).Ok? ==>
          && calls == [StopRecording(recordingId), ListRecordingsBySessionIdAndDate(sessionId, date)]
          && (recordingList.Fail? ==>
                resp == StopError(ToNumber(recordingList.message)) && recordingMap == old(recordingMap))
          && (recordingList.Ok? ==>
                resp == Response(Num(200), Listing(recordingList.value)) && recordingMap == old(recordingMap)[sessionId := ""])
    {
      var sessionId := req.bodySessionId;
      calls := [];
      if DriveRecordingEnabled(callRecording) {
        if ov.isValidToken(sessionId, req.cookies) {
          var recordingId := RecordingIdOf(recordingMap, sessionId);
          if recordingId != "" {
            resp, calls := StopAndRelist(sessionId, recordingId, req.cookies, ov);
          } else {
            resp := Response(Num(404), Message(NotBeingRecorded));
          }
        } else {
          resp := Response(Num(403), Message(PermissionsDenied));
        }
      } else {
        resp := Response(Num(403), Message(CallRecordingDisabled));
      }
    }

    /** The part of `POST /stop` after admission: stop the recording, list
        the session's recordings, and only then clear the session's entry. */
    method StopAndRelist(sessionId: string, recordingId: string, cookies: Cookies, ov: OpenVidu)
      returns (resp: Response, ghost calls: seq<Call>)
      modifies this`recordingMap
      ensures ov.stopRecording(recordingId).Fail? ==>
        && calls == [StopRecording(recordingId)]
        && resp == StopError(ToNumber(ov.stopRecording(recordingId).message))
        && recordingMap == old(recordingMap)
      ensures ov.stopRecording(recordingId).Ok? ==>
        calls == [StopRecording(recordingId), ListRecordingsBySessionIdAndDate(sessionId, ov.dateFromCookie(cookies))]
      ensures ov.stopRecording(recordingId).Ok? ==>
        var recordingList := ov.listRecordingsBySessionIdAndDate(sessionId, ov.dateFromCookie(cookies));
        recordingList.Fail? ==>
          resp == StopError(ToNumber(recordingList.message)) && recordingMap == old(recordingMap)
      ensures ov.stopRecording(recordingId).Ok? ==>
        var recordingList := ov.listRecordingsBySessionIdAndDate(sessionId, ov.dateFromCookie(cookies));
        recordingList.Ok? ==>
          resp == Response(Num(200), Listing(recordingList.value)) && recordingMap == old(recordingMap)[sessionId := ""]
    {
      calls := [StopRecording(recordingId)];
      var stopped := ov.stopRecording(recordingId);
      match stopped {
        case Fail(message) =>
          resp := StopError(ToNumber(message));
        case Ok(_) =>
          var date := ov.dateFromCookie(cookies);
          calls := calls + [ListRecordingsBySessionIdAndDate(sessionId, date)];
          var recordingList := ov.listRecordingsBySessionIdAndDate(sessionId, date);
          match recordingList {
            case Fail(message) =>
              resp := StopError(ToNumber(message));
            case Ok(list) =>
              recordingMap := recordingMap[sessionId := ""];
              resp := Response(Num(200), Listing(list));
          }
      }
    }

    /** `DELETE /delete/:recordingId`. The missing parameter is noticed only
        once the caller is admitted, and the answer to it is plain text. */
    method Delete(req: Request, ov: OpenVidu, now: int) returns (resp: Response, ghost calls: seq<Call>)
      ensures ManageDecision(req, ov, now) == Denied ==>
        calls == [] && resp == Response(Num(403), Message(PermissionsDenied))
      ensures ManageDecision(req, ov, now) != Denied && req.recordingIdParam == "" ==>
        calls == [] && resp == Response(Num(400), Text(MissingRecordingId))
      ensures ManageDecision(req, ov, now) != Denied && req.recordingIdParam != "" ==>
        var recordingId := req.recordingIdParam;
        match ov.deleteRecording(recordingId)
        case Fail(message) =>
          calls == [DeleteRecording(recordingId)] && resp == DeleteError(ToNumber(message))
        case Ok(_) =>
          if ManageDecision(req, ov, now) == Admin then
            && calls == [DeleteRecording(recordingId), ListAllRecordings]
            && resp == ListingOr(ov.listAllRecordings, DeleteError)
          else
            var sessionId, date := ov.sessionIdFromCookie(req.cookies), ov.dateFromCookie(req.cookies);
            && calls == [DeleteRecording(recordingId), ListRecordingsBySessionIdAndDate(sessionId, date)]
            && resp == ListingOr(ov.listRecordingsBySessionIdAndDate(sessionId, date), DeleteError)
    {
      var sessionId := ov.sessionIdFromCookie(req.cookies);
      var adminSessionId := CookieValue(req.cookies, Auth.AdminCookieName);
      var isAdminSessionValid := auth.IsAdminSessionValid(adminSessionId, now);
      calls := [];
      if (sessionId != "" && ov.isValidToken(sessionId, req.cookies)) || isAdminSessionValid {
        var recordingId := req.recordingIdParam;
        if recordingId == "" {
          return Response(Num(400), Text(MissingRecordingId)), calls;
        }
        calls := calls + [DeleteRecording(recordingId)];
        var deleted := ov.deleteRecording(recordingId);
        match deleted {
          case Fail(message) =>
            resp := DeleteError(ToNumber(message));
          case Ok(_) =>
            var recordings;
            if isAdminSessionValid {
              calls := calls + [ListAllRecordings];
              recordings := ov.listAllRecordings;
            } else {
              var date := ov.dateFromCookie(req.cookies);
              calls := calls + [ListRecordingsBySessionIdAndDate(sessionId, date)];
              recordings := ov.listRecordingsBySessionIdAndDate(sessionId, date);
            }
            resp := ListingOr(recordings, DeleteError);
        }
      } else {
        resp := Response(Num(403), Message(PermissionsDenied));
      }
    }

    /** The proxy's `onProxyReq` hook. The inbound cookies never reach the
        backend. An admitted request with a recording id gets a keep-alive
        connection and the backend's Basic credential, and the hook sends no
        reply of its own (`reply == None`). Every other request gets its 400
        or 403 reply here; the hook does not stop the outbound request the
        proxy has already issued, which then goes out without `Cookie` and
        without the backend's credential. */
    method OnProxyReq(proxyReq: ProxyRequest, req: Request, ov: OpenVidu, now: int) returns (reply: Option<Response>)
      modifies proxyReq
      ensures "cookie" !in proxyReq.headers
      ensures ManageDecision(req, ov, now) == Denied ==>
        && reply == Some(Response(Num(403), Message(PermissionsDenied)))
        && proxyReq.headers == old(proxyReq.headers) - {"cookie"}
      ensures ManageDecision(req, ov, now) != Denied && req.recordingIdParam == "" ==>
        && reply == Some(Response(Num(400), Message(MissingRecordingId)))
        && proxyReq.headers == old(proxyReq.headers) - {"cookie"}
      ensures ManageDecision(req, ov, now) != Denied && req.recordingIdParam != "" ==>
        && reply == None
        && proxyReq.headers == (old(proxyReq.headers) - {"cookie"})["connection" := "keep-alive"]["authorization" := ov.basicAuth]
    {
      var adminSessionId := CookieValue(req.cookies, Auth.AdminCookieName);
      var isAdminSessionValid := auth.IsAdminSessionValid(adminSessionId, now);
      var sessionId := ov.sessionIdFromCookie(req.cookies);
      proxyReq.headers := proxyReq.headers - {"cookie"};
      if (sessionId != "" && ov.isValidToken(sessionId, req.cookies)) || isAdminSessionValid {
        var recordingId := req.recordingIdParam;
        if recordingId == "" {
          reply := Some(Response(Num(400), Message(MissingRecordingId)));
        } else {
          proxyReq.headers := proxyReq.headers["connection" := "keep-alive"];
          proxyReq.headers := proxyReq.headers["authorization" := ov.basicAuth];
          reply := None;
        }
      } else {
        reply := Some(Response(Num(403), Message(PermissionsDenied)));
      }
    }

    /** The proxy's `onProxyRes` hook: the backend's `set-cookie` header is
        nulled on every response, and nothing else changes. */
    method OnProxyRes(proxyRes: ProxyResponse)
      modifies proxyRes
      ensures "set-cookie" in proxyRes.headers && proxyRes.headers["set-cookie"] == None
      ensures proxyRes.headers == old(proxyRes.headers)["set-cookie" := None]
    {
      proxyRes.headers := proxyRes.headers["set-cookie" := None];
    }

    /** A start followed by a stop of the same session: when the backend
        succeeds throughout and returns a non-empty id, the session's entry
        holds that id in between and is empty again at the end. */
    method StartThenStop(req: Request, ov: OpenVidu) returns (started: Response, stopped: Response)
      requires MayDriveRecording(req, ov)
      requires req.bodySessionId in recordingMap
      requires ov.startRecording(req.bodySessionId).Ok? && ov.startRecording(req.bodySessionId).value.id != ""
      requires ov.stopRecording(ov.startRecording(req.bodySessionId).value.id).Ok?
      requires ov.listRecordingsBySessionIdAndDate(req.bodySessionId, ov.dateFromCookie(req.cookies)).Ok?
      modifies this`recordingMap
      ensures started == Response(Num(200), Descriptor(ov.startRecording(req.bodySessionId).value))
      ensures stopped == Response(Num(200), Listing(ov.listRecordingsBySessionIdAndDate(req.bodySessionId, ov.dateFromCookie(req.cookies)).value))
      ensures recordingMap == old(recordingMap)[req.bodySessionId := ""]
    {
      ghost var startCalls, stopCalls;
      started, startCalls := Start(req, ov);
      assert RecordingIdOf(recordingMap, req.bodySessionId) == ov.startRecording(req.bodySessionId).value.id;
      stopped, stopCalls := Stop(req, ov);
    }
  }
}
