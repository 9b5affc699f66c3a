/** The HTTP values the handlers produce and the header objects the
    download proxy rewrites. Header names are kept in lower case, as Node
    stores them, so `removeHeader('Cookie')` removes the key "cookie". */
module Http {
  import opened Js

  /** A recording descriptor as the backend returns it. */
  datatype Recording = Recording(id: string, sessionId: string)

  /** What a handler passes to `send`: a JSON `{message}` object, a JSON
      recording descriptor, a JSON list of descriptors, or plain text. */
  datatype Body =
    | Message(text: string)
    | Descriptor(recording: Recording)
    | Listing(recordings: seq<Recording>)
    | Text(content: string)

  /** `res.status(status).send(body)`; the status is whatever number the
      handler passed, which for the delete handler may be NaN. */
  datatype Response = Response(status: JsNumber, body: Body)

  /** The cookies of a request, by name. */
  type Cookies = map<string, string>

  /** `req.cookies[name]`; a missing cookie reads as "", which the handlers
      treat exactly like `undefined` (both are falsy). */
  function CookieValue(cookies: Cookies, name: string): string {
    if name in cookies then cookies[name] else ""
  }

  /** The outbound request the proxy sends to the backend. */
  class ProxyRequest {
    var headers: map<string, string>

    constructor (headers: map<string, string>)
      ensures this.headers == headers
    {
      this.headers := headers;
    }
  }

  /** The backend's response as the proxy relays it; `None` is JavaScript
      `null` stored under a header name. */
  class ProxyResponse {
    var headers: map<string, Option<string>>

    constructor (headers: map<string, Option<string>>)
      ensures this.headers == headers
    {
      this.headers := headers;
    }
  }
}
