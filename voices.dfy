/**
 * The voices store: the fetched voice list, the last fetch error, the
 * form fields of the "add voice" page and the `isFetching` flag, with the
 * operations that list, create and delete voices.
 */
module Voices {
  import opened Wrappers
  import opened Json
  import opened Http
  import opened ApiClient
  import opened Lifecycle

  datatype Voice = Voice(voiceId: string, name: string)

  /** Whether the server should strip background noise from the samples. */
  datatype RemoveBgNoise = True | False {
    /** The enum member's string value, which `toString` yields. */
    function Name(): string {
      match this
      case True => "true"
      case False => "false"
    }
  }

  const VoicesEndpoint: string := "/api/voices"
  const FetchLoading: string := "Loading voices..."
  const FetchSuccess: string := "Voices fetched successfully"
  const FetchFallback: string := "An unknown error occurred trying to fetch voices"
  const CreateLoading: string := "Creating a new voice..."
  const CreateSuccess: string := "Voice created successfully"
  const CreateFailed: string := "Failed to create voice: "
  const CreateFallback: string := "An unknown error occurred trying to create voice"
  const DeleteLoading: string := "Deleting voice..."
  const DeleteSuccess: string := "Voice deleted successfully"
  const DeleteFailed: string := "Failed to delete voice: "
  const DeleteFallback: string := "An unknown error occurred trying to delete voice"

  /** The list request: no method (axios's default GET), no body, no headers. */
  function ListRequest(apiUrl: string): Config
  {
    RequestConfig(apiUrl, VoicesEndpoint, Options(None, NoBody, None, None))
  }

  /** The three form entries of a new voice, in the order they are appended. */
  function VoiceForm(file: FileRef, name: string, flag: RemoveBgNoise): seq<FormEntry>
  {
    [ FormEntry("files", FileField(file)),
      FormEntry("name", TextField(name)),
      FormEntry("removeBackgroundNoise", TextField(flag.Name())) ]
  }

  /** The create request: a POST of the form, with no headers. */
  function CreateRequest(apiUrl: string, file: FileRef, name: string, flag: RemoveBgNoise): Config
  {
    RequestConfig(apiUrl, VoicesEndpoint, Options(Some(Post), FormBody(VoiceForm(file, name, flag)), None, None))
  }

  /** The delete body: the JSON text of `{ voiceId }`. */
  function DeleteBody(voiceId: string): string
  {
    Stringify([Member("voiceId", Str(voiceId))])
  }

  /** The delete request: a DELETE whose data is the JSON string, not an object. */
  function DeleteRequest(apiUrl: string, voiceId: string): Config
  {
    RequestConfig(apiUrl, VoicesEndpoint, Options(Some(Delete), StringBody(DeleteBody(voiceId)), None, None))
  }

  /**
   * The toast text of a failed create or delete: the operation's prefix
   * before an `Error`'s message, else its fixed fallback.
   */
  function FailureText(t: Thrown, prefix: string, fallback: string): (s: string)
    ensures t.ErrorValue? ==> |s| == |prefix| + |t.message| && s[..|prefix|] == prefix && s[|prefix|..] == t.message
    ensures t.NonError? ==> s == fallback
  {
    match t
    case ErrorValue(message) => prefix + message
    case NonError(_) => fallback
  }

  /** The toast event that ends a create or delete settling with `r`. */
  function OperationToast(r: Result<()>, success: string, prefix: string, fallback: string): (e: ToastEvent)
    ensures e.Succeeded? <==> r.Returned?
    ensures e.Succeeded? ==> e.caption == success
    ensures r.Threw? && r.thrown.ErrorValue? ==> e == Failed(prefix + r.thrown.message)
    ensures r.Threw? && r.thrown.NonError? ==> e == Failed(fallback)
  {
    match r
    case Returned(_) => Succeeded(success)
    case Threw(t) => Failed(FailureText(t, prefix, fallback))
  }

  /** Listing voices sends a GET-by-default without a body, and so gets the JSON content type. */
  lemma ListRequestShape(apiUrl: string)
    ensures ListRequest(apiUrl).url == apiUrl + VoicesEndpoint
    ensures ListRequest(apiUrl).httpMethod == None && ListRequest(apiUrl).data == NoBody
    ensures ListRequest(apiUrl).headers == map[ContentType := ApplicationJson]
  {
  }

  /**
   * The create request posts a form whose entries are the file, the name
   * and the flag's string, and adds no content type, so the browser can
   * set the multipart boundary.
   */
  lemma CreateRequestShape(apiUrl: string, file: FileRef, name: string, flag: RemoveBgNoise)
    ensures CreateRequest(apiUrl, file, name, flag).url == apiUrl + VoicesEndpoint
    ensures CreateRequest(apiUrl, file, name, flag).httpMethod == Some(Post)
    ensures CreateRequest(apiUrl, file, name, flag).data
         == FormBody([ FormEntry("files", FileField(file)),
                       FormEntry("name", TextField(name)),
                       FormEntry("removeBackgroundNoise", TextField(if flag == True then "true" else "false")) ])
    ensures CreateRequest(apiUrl, file, name, flag).headers == map[]
    ensures FormGet(CreateRequest(apiUrl, file, name, flag).data.entries, "files") == Some(FileField(file))
    ensures FormGet(CreateRequest(apiUrl, file, name, flag).data.entries, "name") == Some(TextField(name))
    ensures FormGet(CreateRequest(apiUrl, file, name, flag).data.entries, "removeBackgroundNoise")
         == Some(TextField(if flag == True then "true" else "false"))
  {
    var entries := VoiceForm(file, name, flag);
    assert FormGet(entries, "removeBackgroundNoise") == FormGet(entries[1..], "removeBackgroundNoise");
    assert FormGet(entries[1..], "removeBackgroundNoise") == FormGet(entries[1..][1..], "removeBackgroundNoise");
  }

  /**
   * The delete request is a DELETE whose JSON-string body gets the JSON
   * content type and decodes to exactly `{ voiceId }`.
   */
  lemma DeleteRequestShape(apiUrl: string, voiceId: string)
    ensures DeleteRequest(apiUrl, voiceId).url == apiUrl + VoicesEndpoint
    ensures DeleteRequest(apiUrl, voiceId).data == StringBody(DeleteBody(voiceId))
    ensures DeleteRequest(apiUrl, voiceId).httpMethod == Some(Delete)
    ensures DeleteRequest(apiUrl, voiceId).headers == map[ContentType := ApplicationJson]
    ensures ParseObject(DeleteRequest(apiUrl, voiceId).data.text) == Some([Member("voiceId", Str(voiceId))])
  {
    StringifyRoundTrip([Member("voiceId", Str(voiceId))]);
  }

  /**
   * For an id without quotes, backslashes or control characters (such as
   * "v42") the body is the id between `{"voiceId":"` and `"}`.
   */
  lemma {:induction false} DeleteBodyOfPlainId(voiceId: string)
    requires forall i :: 0 <= i < |voiceId| ==> Plain(voiceId[i])
    ensures DeleteBody(voiceId) == "{\"voiceId\":\"" + voiceId + "\"}"
  {
    PlainMemberText("voiceId", voiceId);
    KeyPrefix();
  }

  // A proof aid: joins the literal pieces around the key, which is cheaper here than inline.
  lemma KeyPrefix()
    ensures "{\"" + "voiceId" + "\":\"" == "{\"voiceId\":\""
  {
  }

  /** A 500 answer whose body says "not found" is shown as "Failed to delete voice: not found". */
  lemma DeleteNotFoundText()
    ensures OperationToast(Threw(Settle<()>(HttpError(500, "Internal Server Error", Some("not found"))).thrown),
                           DeleteSuccess, DeleteFailed, DeleteFallback)
         == Failed("Failed to delete voice: not found")
  {
    assert Truthy(Some("not found"));
    assert Settle<()>(HttpError(500, "Internal Server Error", Some("not found"))) == Threw(ErrorValue("not found"));
    assert DeleteFailed + "not found" == "Failed to delete voice: not found";
  }

  class VoicesStore {
    /** The configured API base address. */
    const apiUrl: string

    var error: Option<string>
    var voices: seq<Voice>
    var name: Option<string>
    var files: Option<FileRef>
    var removeBackgroundNoise: RemoveBgNoise
    var delVoiceId: Option<string>
    var isFetching: bool

    /** Requests sent and toasts shown, in order. */
    var effects: seq<Effect>

    /** `isFetching` is the last busy-flag write the log records. */
    ghost predicate Valid()
      reads this
    {
      isFetching == BusyAfter(effects, false)
    }

    /** The store as the module creates it. */
    constructor (apiUrl: string)
      ensures Valid()
      ensures this.apiUrl == apiUrl
      ensures error == None && voices == [] && name == None && files == None
      ensures removeBackgroundNoise == True && delVoiceId == None && !isFetching
      ensures effects == []
    {
      this.apiUrl := apiUrl;
      error, voices, name, files := None, [], None, None;
      removeBackgroundNoise, delVoiceId, isFetching := True, None, false;
      effects := [];
    }

    /**
     * `fetchVoices`: on success the list is replaced wholesale and the
     * error cleared; on failure the list stays, the error field and the
     * toast show the same text, and the failure propagates past the reset
     * of `isFetching`, which therefore stays up.
     */
    method FetchVoices(outcome: Outcome<seq<Voice>>) returns (r: Result<()>)
      requires Valid()
      modifies this`isFetching, this`voices, this`error, this`effects
      ensures Valid()
      ensures outcome.Ok? ==> voices == outcome.response.data && error == None && !isFetching
      ensures outcome.Ok? ==>
        effects == old(effects) + [Busy(true), Sent(ListRequest(apiUrl)), Toast(Loading(FetchLoading)),
                                   Toast(Succeeded(FetchSuccess)), Busy(false)]
      ensures outcome.Ok? <==> r.Returned?
      ensures r.Threw? ==> r.thrown == Settle(outcome).thrown
      ensures r.Threw? ==>
        && voices == old(voices) && isFetching
        && error == Some(ErrorText(r.thrown, FetchFallback))
        && effects == old(effects) + [Busy(true), Sent(ListRequest(apiUrl)), Toast(Loading(FetchLoading)),
                                      Toast(Failed(error.value))]
    {
      ghost var before := effects;
      isFetching := true;
      effects := effects + [Busy(true)];
      BusyAfterWrite(before, true, false);
      ghost var raised := effects;
      var request := ListRequest(apiUrl);
      effects := effects + [Sent(request), Toast(Loading(FetchLoading))];
      var settled: ToastEvent;
      match Settle(outcome) {
        case Returned(response) =>
          voices := response.data;
          error := None;
          settled := Succeeded(FetchSuccess);
          effects := effects + [Toast(settled)];
          r := Returned(());
        case Threw(t) =>
          var message := ErrorText(t, FetchFallback);
          error := Some(message);
          settled := Failed(message);
          effects := effects + [Toast(settled)];
          r := Threw(t);
      }
      BusyAfterQuiet(raised, Sent(request), Loading(FetchLoading), settled, false);
      if r.Returned? {
        BusyAfterWrite(effects, false, false);
        isFetching := false;
        effects := effects + [Busy(false)];
      }
    }

    /**
     * `addVoice`: builds the three-entry form from its arguments (not from
     * the store's fields) and posts it; only the log changes.
     */
    method AddVoice(file: FileRef, voiceName: string, flag: RemoveBgNoise, outcome: Outcome<()>) returns (r: Result<()>)
      requires Valid()
      modifies this`effects
      ensures Valid()
      ensures outcome.Ok? <==> r.Returned?
      ensures r.Threw? ==> r.thrown == Settle(outcome).thrown
      ensures effects == old(effects) + [Sent(CreateRequest(apiUrl, file, voiceName, flag)), Toast(Loading(CreateLoading)),
                                         Toast(OperationToast(r, CreateSuccess, CreateFailed, CreateFallback))]
    {
      ghost var before := effects;
      var form := new FormData();
      form.Append("files", FileField(file));
      form.Append("name", TextField(voiceName));
      form.Append("removeBackgroundNoise", TextField(flag.Name()));
      assert form.entries == VoiceForm(file, voiceName, flag);
      var request := RequestConfig(apiUrl, VoicesEndpoint, Options(Some(Post), FormBody(form.entries), None, None));
      effects := effects + [Sent(request), Toast(Loading(CreateLoading))];
      match Settle(outcome) {
        case Returned(_) => r := Returned(());
        case Threw(t) => r := Threw(t);
      }
      effects := effects + [Toast(OperationToast(r, CreateSuccess, CreateFailed, CreateFallback))];
      BusyAfterQuiet(before, Sent(request), Loading(CreateLoading),
                     OperationToast(r, CreateSuccess, CreateFailed, CreateFallback), false);
    }

    /** `delVoice`: sends the DELETE for the given id; only the log changes. */
    method DelVoice(voiceId: string, outcome: Outcome<()>) returns (r: Result<()>)
      requires Valid()
      modifies this`effects
      ensures Valid()
      ensures outcome.Ok? <==> r.Returned?
      ensures r.Threw? ==> r.thrown == Settle(outcome).thrown
      ensures effects == old(effects) + [Sent(DeleteRequest(apiUrl, voiceId)), Toast(Loading(DeleteLoading)),
                                         Toast(OperationToast(r, DeleteSuccess, DeleteFailed, DeleteFallback))]
    {
      ghost var before := effects;
      var request := DeleteRequest(apiUrl, voiceId);
      effects := effects + [Sent(request), Toast(Loading(DeleteLoading))];
      match Settle(outcome) {
        case Returned(_) => r := Returned(());
        case Threw(t) => r := Threw(t);
      }
      effects := effects + [Toast(OperationToast(r, DeleteSuccess, DeleteFailed, DeleteFallback))];
      BusyAfterQuiet(before, Sent(request), Loading(DeleteLoading),
                     OperationToast(r, DeleteSuccess, DeleteFailed, DeleteFallback), false);
    }
  }
}
