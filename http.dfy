/** The slice of net/http the handlers use: request fields read, responses written. */
module Http {

  /**
   * A request. Header names are canonical and each header, query parameter and
   * form field maps to its first value.
   */
  datatype Request = Request(
    verb: string,        // the HTTP method
    path: string,
    query: map<string, string>,
    header: map<string, string>,
    form: map<string, string>)

  /** Header.Get, URL.Query().Get and FormValue: the first value, or "" when absent. */
  function Lookup(values: map<string, string>, name: string): string {
    if name in values then values[name] else ""
  }

  datatype ImageEntry = ImageEntry(url: string, filename: string)

  /** What a handler writes as the response body. */
  datatype Body =
    | NoBody
    | Message(text: string)
    | RandomImages(images: seq<ImageEntry>, count: int)
    | Health(status: string, imageCount: int)
    | File(filename: string)
    | Page(template: string, error: string)
    | NewKeyPage(name: string, rawKey: string, error: string)
    | DashboardPage(username: string, enabledImages: int, totalImages: int,
                    apiKeys: int, activeApiKeys: int, requests: int)

  datatype Response = Response(status: int, header: map<string, string>, body: Body)

  const StatusOK := 200
  const StatusSeeOther := 303
  const StatusBadRequest := 400
  const StatusUnauthorized := 401
  const StatusNotFound := 404
  const StatusMethodNotAllowed := 405
  const StatusInternalServerError := 500
  const StatusServiceUnavailable := 503

  /** The headers http.Error sets. */
  const PlainTextHeader := map["Content-Type" := "text/plain; charset=utf-8", "X-Content-Type-Options" := "nosniff"]

  /** The header of a rendered page. */
  const HtmlHeader := map["Content-Type" := "text/html; charset=utf-8"]

  /** http.Error: a plain-text message with the given status. */
  function Error(status: int, message: string): (r: Response)
    ensures r.status == status && r.body == Message(message)
  {
    Response(status, PlainTextHeader, Message(message))
  }

  /** http.Redirect with 303 See Other. */
  function Redirect(location: string): (r: Response)
    ensures r.status == StatusSeeOther && "Location" in r.header && r.header["Location"] == location
  {
    Response(StatusSeeOther, map["Location" := location], NoBody)
  }

  /** The answers shared by several handlers and guards. */
  const MissingKey := Error(StatusUnauthorized, "API key required")
  const InvalidKey := Error(StatusUnauthorized, "Invalid API key")
  const InternalError := Error(StatusInternalServerError, "Internal server error")

  /** A rendered template page; `error` is the form error shown, "" for none. */
  function Render(template: string, error: string): Response {
    Response(StatusOK, HtmlHeader, Page(template, error))
  }
}
