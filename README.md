# OpenVidu Call recording back end: request-decision model

This project models the request-decision layer of the OpenVidu Call back end
in Dafny. That layer decides, for each request, whether a caller may list,
start, stop, delete or download recordings. It also mediates the download
proxy and runs the HTTP Basic `authorizer` middleware.

- `RecordingController` (`recording_controller.dfy`) models the router. It
  holds the shared per-session `recordingMap`, which maps a session id to the
  id of the recording in progress, or to `""`. There is one method per
  handler. Each method returns the response and a ghost log of the backend
  calls it made, so "no backend call" can be stated as `calls == []`. `Start`
  and `Stop` update `recordingMap` in place. The proxy hooks rewrite the
  header maps of the outbound request and the inbound response.
- `RecordingErrors` (`recording_errors.dfy`) holds the catch blocks. Each one
  turns `Number(error.message)` into a status and a curated message, using
  the handler's own table.
- `Auth` (`auth_service.dfy`) models the `AuthService` class:
  - the admin-session store `adminSessions`, which maps a session id to an
    expiry in milliseconds;
  - `isAdminSessionValid`, which uses a strict `expires > now` test;
  - `checkPassword`, which appends the fixed salt;
  - `safeCompare`, written over byte buffers as the source does;
  - the `authorizer` decision: `next()`, 401 `Unauthorized` or 500 `Exception`;
  - `undefined` becoming the text `"undefined"` under `+` when a credential
    has no password.
- `Js` and `JsStrings` (`js.dfy`, `js_strings.dfy`) give the JavaScript
  semantics the core relies on:
  - `Number(string)`;
  - the `code || 500` fallback;
  - `toUpperCase()`;
  - `split(':')`.
- `Http` and `OpenViduApi` (`http.dfy`, `openvidu_api.dfy`) hold the values
  exchanged with the outside world. The OpenVidu service is an input: its
  cookie parsing and token check are functions, and each backend call is
  either `Ok(value)` or `Fail(message)`.

Some points of the source's behaviour are easy to miss. The model keeps
them as written:
- `GET /` does check the recording flag on the participant path. The check
  is case-insensitive.
- Delete and download check for a missing `recordingId` only after the
  caller has been admitted.
- A successful start does not create a missing `recordingMap` entry. The
  assignment throws instead, and the handler answers 500 with its generic
  message, even though the backend has already started the recording.
- The delete handler answers with the parsed code itself and has no 500
  fallback.

## Model

| member | source | states |
|---|---|---|
| `Js.ToNumber` | openvidu-call-back/src/controllers/RecordingController.ts:37 | `Number(message)`: text of white space only is 0; a string of decimal digits is its value; a negative value needs a '-' in the text |
| `Js.ToNumberDecimal` | openvidu-call-back/src/controllers/RecordingController.ts:37 | `Number()` of the decimal text of a code gives that code back |
| `Js.ToNumberNegated` | openvidu-call-back/src/controllers/RecordingController.ts:66 | `Number()` of a minus sign followed by digits is the negated value |
| `Js.ToNumberPadded` | openvidu-call-back/src/controllers/RecordingController.ts:105 | white space of any length before and after a code's decimal text does not change the code |
| `Js.OrElse500` | openvidu-call-back/src/controllers/RecordingController.ts:42 | the fallback to 500 never yields 0: a non-zero code is kept, and 0 or NaN become 500 |
| `JsStrings.ToUpperCase` | openvidu-call-back/src/controllers/RecordingController.ts:18 | `toUpperCase()` keeps the length and upper-cases each ASCII letter in place |
| `JsStrings.SplitColon` | openvidu-call-back/src/services/AuthService.ts:26 | `split(':')` gives at least one piece; a single piece is the whole input; otherwise the first piece is the prefix of the input that a ':' ends |
| `JsStrings.SplitJoin` | openvidu-call-back/src/services/AuthService.ts:26 | joining the pieces of `split(':')` with ':' gives back the credential |
| `JsStrings.SplitPiecesColonFree` | openvidu-call-back/src/services/AuthService.ts:26 | no piece of `split(':')` contains ':' |
| `JsStrings.JoinSplit` | openvidu-call-back/src/services/AuthService.ts:26 | splitting a ':'-join of colon-free pieces gives the pieces back, so `split(':')` is fully determined |
| `RecordingErrors.ListError` | openvidu-call-back/src/controllers/RecordingController.ts:35-43 | list errors: status is the code, or 500 for 0/NaN; the message is the 404 message iff the code is 404 |
| `RecordingErrors.StartError` | openvidu-call-back/src/controllers/RecordingController.ts:64-76 | start errors: status is the code or 500; there is one distinct message each for 409, 501 and 406, and the generic message for every other code |
| `RecordingErrors.StopError` | openvidu-call-back/src/controllers/RecordingController.ts:103-113 | stop errors: status is the code or 500; 501 and 406 have their own messages, and every other code gets the generic one |
| `RecordingErrors.DeleteError` | openvidu-call-back/src/controllers/RecordingController.ts:139-151 | delete errors: status is the raw parsed code with no fallback; 409 gets the STARTED message, 501 the module message, and every other code the generic one |
| `RecordingErrors.DownloadError` | openvidu-call-back/src/controllers/RecordingController.ts:177-186 | download errors (`onError`): status is the code or 500; the 404 message is given iff the code is 404 |
| `RecordingErrors.DeleteSecondConflictUnreachable` | openvidu-call-back/src/controllers/RecordingController.ts:147-148 | the second 409 branch of delete never yields its message |
| `RecordingErrors.DecimalCodeStatus` | openvidu-call-back/src/controllers/RecordingController.ts:42 | a backend error "n" yields status n in every table that falls back to 500, and code 0 yields 500 |
| `RecordingErrors.DeleteHasNoFallback` | openvidu-call-back/src/controllers/RecordingController.ts:150 | a non-numeric message gives status NaN in delete, where start and list give 500 |
| `RecordingController.ListRecordingEnabled` | openvidu-call-back/src/controllers/RecordingController.ts:18 | the list flag holds iff the setting has seven characters that upper-case one by one to ENABLED |
| `RecordingController.DriveRecordingEnabled` | openvidu-call-back/src/controllers/RecordingController.ts:49 | a flag that passes the exact test of start/stop also passes the case-insensitive test of list |
| `RecordingController.ListFlagIgnoresCase` | openvidu-call-back/src/controllers/RecordingController.ts:49 | "enabled" enables listing but not start or stop |
| `RecordingController.ListAdmission` | openvidu-call-back/src/controllers/RecordingController.ts:23-24 | list admits iff (session id non-empty, flag enabled and token valid) or admin valid; the admin case takes precedence |
| `RecordingController.ManageAdmission` | openvidu-call-back/src/controllers/RecordingController.ts:122 | delete/download admit iff (session id non-empty and token valid) or admin valid, with no flag test |
| `RecordingController.ListAdmissionWithinManage` | openvidu-call-back/src/controllers/RecordingController.ts:162 | whoever may list may delete and download; with the flag on, the two admissions coincide |
| `RecordingController.RecordingIdOf` | openvidu-call-back/src/controllers/RecordingController.ts:84 | a session with no entry reads as having no recording id; a session with an entry reads its stored id |
| `RecordingController.RecordingRouter.constructor` | openvidu-call-back/src/controllers/RecordingController.ts:156 | the proxy verifies certificates iff the cert type is not `selfsigned` |
| `RecordingController.RecordingRouter.List` | openvidu-call-back/src/controllers/RecordingController.ts:16-44 | a denial is 403 with no backend call, and its message depends only on the flag; an admin re-lists all recordings, even when a token is also valid; a participant lists by session and cookie date |
| `RecordingController.RecordingRouter.Start` | openvidu-call-back/src/controllers/RecordingController.ts:46-77 | flag not exactly ENABLED gives 403 disabled; an invalid token gives 403 denied; neither makes a call or changes the map. Success sets the existing entry to the returned id and changes nothing else; with no entry the answer is 500 and the map is unchanged |
| `RecordingController.RecordingRouter.Stop` | openvidu-call-back/src/controllers/RecordingController.ts:79-114 | the same 403 cases as start; an absent or empty recording id gives 404 with no call; the entry is cleared to "" only after both the stop and the re-list succeed |
| `RecordingController.RecordingRouter.StopAndRelist` | openvidu-call-back/src/controllers/RecordingController.ts:87-92 | after admission, a failed stop makes no further call and keeps the map; after a successful stop the session is re-listed, and the entry becomes "" only when that listing succeeds |
| `RecordingController.RecordingRouter.Delete` | openvidu-call-back/src/controllers/RecordingController.ts:116-152 | denial is 403 with no call; the 400 plain-text answer comes only after admission; a delete is followed by a re-list of all recordings (admin) or of the session's (participant) |
| `RecordingController.RecordingRouter.OnProxyReq` | openvidu-call-back/src/controllers/RecordingController.ts:157-173 | the Cookie header is removed on every path; on admission with an id, `Connection: keep-alive` and `Authorization` are set and the hook sends no reply; otherwise the hook replies 400 or 403 and adds no header |
| `RecordingController.RecordingRouter.OnProxyRes` | openvidu-call-back/src/controllers/RecordingController.ts:174-176 | `set-cookie` is nulled on every response and no other header changes |
| `RecordingController.RecordingRouter.StartThenStop` | openvidu-call-back/src/controllers/RecordingController.ts:53-54 | when the backend succeeds with a non-empty id, start then stop leaves the session's entry at "" |
| `Auth.AuthService.IsAdminSessionValid` | openvidu-call-back/src/services/AuthService.ts:52-57 | valid iff the id is non-empty, stored, and `now < expires`; an empty or unknown id is never valid |
| `Auth.AuthService.ExpiryIsStrict` | openvidu-call-back/src/services/AuthService.ts:56 | valid 1 ms before the expiry and invalid at the expiry itself |
| `Auth.AuthService.ExpiredStaysExpired` | openvidu-call-back/src/services/AuthService.ts:55-56 | reading never renews: once invalid, a session stays invalid later |
| `Auth.SaltedCandidate` | openvidu-call-back/src/services/AuthService.ts:59-63 | the compared string is the input followed by the fixed salt |
| `Auth.SaltedCandidateInjective` | openvidu-call-back/src/services/AuthService.ts:62 | distinct passwords give distinct salted candidates |
| `Auth.BcryptCompare` | openvidu-call-back/src/services/AuthService.ts:62 | bcryptjs `compare` rejects a stored hash that is not a string, answers false for a hash that is not 60 characters long, and can answer true only for a 60-character hash |
| `Auth.AuthService.CheckPassword` | openvidu-call-back/src/services/AuthService.ts:59-63 | the check rejects when the user has no stored password; it can succeed only when bcrypt accepts the input followed by the salt against a well-formed hash |
| `Auth.AuthService.SafeCompare` | openvidu-call-back/src/services/AuthService.ts:65-76 | false when either argument is empty; otherwise true iff the two byte strings are equal, although `b` is cut or zero-padded to `a`'s length |
| `Auth.TimingSafeEqual` | openvidu-call-back/src/services/AuthService.ts:73 | comparing two equal-length buffers by or-ing byte differences is byte equality |
| `Auth.Write` | openvidu-call-back/src/services/AuthService.ts:70-72 | `buffer.write` copies as many leading bytes as fit and leaves the rest of the buffer |
| `Auth.UserOf` | openvidu-call-back/src/services/AuthService.ts:27 | the user name is a prefix of the credential, and a ':' follows it whenever it is shorter than the credential |
| `Auth.PasswordOf` | openvidu-call-back/src/services/AuthService.ts:28 | there is a password iff the user name does not take up the whole credential |
| `Auth.PasswordArgument` | openvidu-call-back/src/services/AuthService.ts:62 | a present password is passed on as it is; a missing one is never passed as the empty password |
| `Auth.UserIsTextBeforeFirstColon` | openvidu-call-back/src/services/AuthService.ts:26-27 | the user is the colon-free prefix that ends at the first ':'; a password exists iff the credential has a ':' |
| `Auth.PlainCredentialSplits` | openvidu-call-back/src/services/AuthService.ts:26-28 | a credential `user:pass` with colon-free parts yields exactly that user and that password |
| `Auth.PasswordStopsAtSecondColon` | openvidu-call-back/src/services/AuthService.ts:26-28 | the password is only the text between the first and second ':' |
| `Auth.MissingPasswordReadsUndefined` | openvidu-call-back/src/services/AuthService.ts:28 | a credential without ':' is checked with the password "undefined" |
| `Auth.AuthService.Authorizer` | openvidu-call-back/src/services/AuthService.ts:23-50 | private access not ENABLED means `next()`; otherwise `next()` iff the user is found and bcrypt accepts the salted password; 500 `Exception` iff the lookup fails or the comparison rejects, so a user with no stored password gets 500; every other case is 401 `Unauthorized` |

## Left out

- Express routing, the `req` and `res` objects, `JSON.stringify` and `console.log` are left out. A response is modelled as a status and a body value.
- The forwarding and streaming inside `http-proxy-middleware` are left out, as is the `res.end()` that closes the connection after `onError`. Only the hooks' decisions and their header rewrites are modelled.
- RecordingController.RecordingRouter.OnProxyReq: the hook runs after `http-proxy` has issued the outbound request, and returning a 400 or 403 reply does not abort it. The model does not capture that a denied download request still goes to the backend, without `Cookie` and without the backend's Basic credential.
- The OpenVidu service is not part of this model. That covers `isValidToken`, `getSessionIdFromCookie`, `getDateFromCookie`, `getBasicAuth` and the backend recording calls. Their answers are inputs. A backend error always carries a message.
- The code that creates `recordingMap` entries belongs to the session routes, which are not part of this model. The router's constructor takes the initial map instead.
- Handlers are atomic sequential methods. Concurrent requests that interleave at `await`, and so race on the same `recordingMap` entry, are not modelled.
- Js.ToNumber: handles only integers in decimal notation, with an optional sign and surrounding ASCII white space (space, tab, CR, LF). Hexadecimal, fractions, exponents, `Infinity` and other Unicode white space become NaN, unlike JavaScript's `Number`. Backend error messages are integer codes.
- JsStrings.ToUpperCase: maps only ASCII letters. Unicode case mapping is left out.
- The user store (`User.findOne`) is an input `findUser` that returns a record, no record, or a failure. The record type is a Mongoose schema with no logic, and only its optional `password` field is used.
- bcrypt's hashing is not part of this model. `BcryptCompare` keeps the checks bcryptjs makes before hashing. The check of a 60-character hash is the input `hashCompare`, which may reject.
- Node's base64 and ASCII decoding of the `Authorization` header is left out. `Authorizer` takes the decoded credential.
- A missing `Authorization` header, or one with no space, throws before the `try` block and outside the middleware's own error handling. `Authorizer` does not model that case.
- Auth.AuthService.SafeCompare: takes the UTF-8 bytes of its arguments. It does not model how `Buffer.write` avoids splitting a multi-byte character. That only matters when the byte lengths differ, and then the result is false anyway.
- The constant-time behaviour of `timingSafeEqual` is left out. Only its functional result is modelled.
- `new Date().getTime()` is the parameter `now`.
- The `getInstance` singleton and the private constructor are left out. `AuthService` and the router are ordinary objects.
- The status NaN that the delete handler can pass to `res.status` is kept as a value. Express's reaction to that status is not modelled.
