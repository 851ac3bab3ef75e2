/**
 * Shapes shared by every request the data layer sends: methods, headers,
 * the four kinds of request body, the browser's `FormData`, values a
 * JavaScript `throw` can carry, and the `fetch` request/response pair used
 * by the streaming conversion.
 */
module Http {
  import opened Wrappers
  import Json

  datatype Method = Get | Post | Delete

  /** Header names are matched exactly, as in a JavaScript object literal. */
  type Headers = map<string, string>

  const ContentType: string := "Content-Type"
  const ApplicationJson: string := "application/json"

  /** A browser `File`; its contents are not modelled. */
  datatype FileRef = FileRef(name: string)

  datatype FormValue = FileField(file: FileRef) | TextField(text: string)

  datatype FormEntry = FormEntry(name: string, value: FormValue)

  /**
   * A request body: none, a plain object (serialised by the transport), a
   * string sent as is, or a multipart form.
   */
  datatype Body =
    | NoBody
    | ObjectBody(members: seq<Json.Member>)
    | StringBody(text: string)
    | FormBody(entries: seq<FormEntry>)

  /**
   * A thrown value: an `Error` (anything `instanceof Error`) with its
   * message, or any other value.
   */
  datatype Thrown = ErrorValue(message: string) | NonError(description: string)

  /** How an asynchronous call settles: with a value or by throwing. */
  datatype Result<T> = Returned(value: T) | Threw(thrown: Thrown)

  /** `FormData.get`: the value of the first entry with the given name. */
  function FormGet(entries: seq<FormEntry>, name: string): Option<FormValue>
  {
    if entries == [] then None
    else if entries[0].name == name then Some(entries[0].value)
    else FormGet(entries[1..], name)
  }

  /** The browser's `FormData`: entries kept in the order they are appended. */
  class FormData {
    var entries: seq<FormEntry>

    constructor ()
      ensures entries == []
    {
      entries := [];
    }

    method Append(name: string, value: FormValue)
      modifies this
      ensures entries == old(entries) + [FormEntry(name, value)]
    {
      entries := entries + [FormEntry(name, value)];
    }
  }

  /** The arguments of a `fetch` call. */
  datatype FetchInit = FetchInit(url: string, httpMethod: Method, headers: Headers, body: string)

  /** An open response body that nobody has read yet. */
  datatype StreamHandle = StreamHandle(id: nat)

  datatype FetchResponse = FetchResponse(status: int, statusText: string, body: StreamHandle) {
    /** `Response.ok`: the status is in the range 200-299. */
    predicate Ok() {
      200 <= status <= 299
    }
  }

  /** What the network did with a `fetch`: a response of any status, or a rejection. */
  datatype FetchOutcome = Resolved(response: FetchResponse) | Rejected(thrown: Thrown)
}
