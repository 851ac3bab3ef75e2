/**
 * `apiClient`, the one request primitive behind every store operation
 * except the streaming conversion. It resolves the endpoint against the
 * configured API base address, chooses the headers by the kind of body,
 * hands the request to axios, and collapses every axios failure into an
 * `Error` with a single message.
 *
 * What axios and the network do with the request is not modelled: it
 * arrives as an `Outcome`, and `Settle` is what `apiClient` makes of it.
 */
module ApiClient {
  import opened Wrappers
  import opened Http

  datatype ResponseType = JsonResponse | BlobResponse | StreamResponse

  /** The caller's request options (axios options other than `url`). */
  datatype Options = Options(
    httpMethod: Option<Method>,
    data: Body,
    headers: Option<Headers>,
    responseType: Option<ResponseType>)

  /** The request handed to axios. */
  datatype Config = Config(
    url: string,
    httpMethod: Option<Method>,
    data: Body,
    headers: Headers,
    responseType: Option<ResponseType>)

  /** A response as axios resolves it; `data` is already decoded. */
  datatype Response<T> = Response(data: T, status: int, statusText: string)

  /**
   * What the transport did with the request:
   * - `Ok`: a successful response;
   * - `HttpError`: an axios error that carries a response, whose body as
   *   the server sent it may hold a string `message` field;
   * - `Transport`: an axios error without a response (connection, DNS, ...),
   *   with the error's own message;
   * - `Other`: any other thrown value, axios or not.
   */
  datatype Outcome<T> =
    | Ok(response: Response<T>)
    | HttpError(status: int, statusText: string, serverMessage: Option<string>)
    | Transport(message: string)
    | Other(thrown: Thrown)

  /** The caller's headers; absent headers spread as an empty object. */
  function GivenHeaders(headers: Option<Headers>): Headers
  {
    headers.GetOr(map[])
  }

  /**
   * The headers `apiClient` sends: a copy of the caller's for a form body,
   * otherwise a JSON content type the caller's headers may override.
   */
  function RequestHeaders(data: Body, headers: Option<Headers>): (h: Headers)
    ensures data.FormBody? ==> h == GivenHeaders(headers)
    ensures !data.FormBody? ==>
      && ContentType in h
      && h[ContentType] == (if ContentType in GivenHeaders(headers)
                           then GivenHeaders(headers)[ContentType]
                           else ApplicationJson)
    ensures !data.FormBody? ==> forall k :: k != ContentType ==>
      (k in h <==> k in GivenHeaders(headers)) && (k in h ==> h[k] == GivenHeaders(headers)[k])
  {
    var given := GivenHeaders(headers);
    if data.FormBody? then given else map[ContentType := ApplicationJson] + given
  }

  /**
   * The request `apiClient` builds: the URL is the base address followed
   * by the endpoint, the computed headers replace the caller's, and every
   * other option passes through unchanged.
   */
  function RequestConfig(apiUrl: string, endpoint: string, options: Options): (c: Config)
    ensures |c.url| == |apiUrl| + |endpoint|
    ensures c.url[..|apiUrl|] == apiUrl && c.url[|apiUrl|..] == endpoint
    ensures c.httpMethod == options.httpMethod && c.data == options.data
    ensures c.responseType == options.responseType
    ensures c.headers == RequestHeaders(options.data, options.headers)
  {
    Config(apiUrl + endpoint, options.httpMethod, options.data,
           RequestHeaders(options.data, options.headers), options.responseType)
  }

  /** JavaScript truthiness of the optional `message` field. */
  predicate Truthy(message: Option<string>)
  {
    message.Some? && message.value != ""
  }

  /**
   * The outcome as `apiClient`'s `catch` block reads it for a request with
   * the given response type. With `blob`, an error response's `data` is a
   * Blob, which has no `message` property, so only the status text is left;
   * with any other response type the server's `message` is read as sent.
   */
  function ReceivedAs<T>(responseType: Option<ResponseType>, o: Outcome<T>): (r: Outcome<T>)
    ensures o.HttpError? && responseType == Some(BlobResponse) ==> r == HttpError(o.status, o.statusText, None)
    ensures !(o.HttpError? && responseType == Some(BlobResponse)) ==> r == o
  {
    match o
    case HttpError(status, statusText, _) =>
      if responseType == Some(BlobResponse) then HttpError(status, statusText, None) else o
    case _ => o
  }

  /**
   * How `apiClient` settles: a response is returned unchanged; an axios
   * error becomes an `Error` whose message is the server's non-empty
   * `message`, else the status text, or, without a response, the
   * transport's own message; anything else is rethrown as it is.
   */
  function Settle<T>(o: Outcome<T>): (r: Result<Response<T>>)
    ensures o.Ok? <==> r.Returned?
    ensures o.Ok? ==> r.value == o.response
    ensures o.HttpError? && Truthy(o.serverMessage) ==> r == Threw(ErrorValue(o.serverMessage.value))
    ensures o.HttpError? && !Truthy(o.serverMessage) ==> r == Threw(ErrorValue(o.statusText))
    ensures o.Transport? ==> r == Threw(ErrorValue(o.message))
    ensures o.Other? ==> r == Threw(o.thrown)
  {
    match o
    case Ok(response) => Returned(response)
    case HttpError(_, statusText, message) =>
      Threw(ErrorValue(if Truthy(message) then message.value else statusText))
    case Transport(message) => Threw(ErrorValue(message))
    case Other(thrown) => Threw(thrown)
  }

  /**
   * A request that asks for a `blob` response fails with the bare status
   * text, whatever message the server's error body carries.
   */
  lemma BlobErrorShowsStatusText<T>(o: Outcome<T>)
    requires o.HttpError?
    ensures Settle(ReceivedAs(Some(BlobResponse), o)) == Threw(ErrorValue(o.statusText))
  {
  }
}
