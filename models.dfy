/**
 * The models store: the fetched model list and the last fetch error, with
 * the operation that lists the models.
 */
module Models {
  import opened Wrappers
  import opened Http
  import opened ApiClient
  import opened Lifecycle

  datatype Language = Language(name: string, languageId: string)

  /** A model as the server describes it; only `modelId` is always present. */
  datatype Model = Model(
    modelId: string,
    name: Option<string>,
    canDoTTS: Option<bool>,
    canDoVoiceConversion: Option<bool>,
    description: Option<string>,
    languages: Option<seq<Language>>)

  const ModelsEndpoint: string := "/api/models"
  const FetchLoading: string := "Loading models..."
  const FetchSuccess: string := "Models fetched successfully"
  const FetchFallback: string := "An unknown error occurred trying to fetch models"

  /** The list request: no method (axios's default GET), no body, no headers. */
  function ListRequest(apiUrl: string): Config
  {
    RequestConfig(apiUrl, ModelsEndpoint, Options(None, NoBody, None, None))
  }

  /** Listing models sends a GET-by-default without a body, and so gets the JSON content type. */
  lemma ListRequestShape(apiUrl: string)
    ensures ListRequest(apiUrl).url == apiUrl + ModelsEndpoint
    ensures ListRequest(apiUrl).httpMethod == None && ListRequest(apiUrl).data == NoBody
    ensures ListRequest(apiUrl).headers == map[ContentType := ApplicationJson]
  {
  }

  class ModelsStore {
    /** The configured API base address. */
    const apiUrl: string

    var models: seq<Model>
    var error: Option<string>

    /** Requests sent and toasts shown, in order. */
    var effects: seq<Effect>

    /** The store as the module creates it. */
    constructor (apiUrl: string)
      ensures this.apiUrl == apiUrl
      ensures models == [] && error == None && effects == []
    {
      this.apiUrl := apiUrl;
      models, error := [], None;
      effects := [];
    }

    /**
     * `fetchModels`: on success the list is replaced wholesale and the
     * error cleared; on failure the list is left as it was, and the error
     * field and the toast show the same text.
     */
    method FetchModels(outcome: Outcome<seq<Model>>) returns (r: Result<()>)
      modifies this`models, this`error, this`effects
      ensures outcome.Ok? <==> r.Returned?
      ensures outcome.Ok? ==> models == outcome.response.data && error == None
      ensures outcome.Ok? ==>
        effects == old(effects) + [Sent(ListRequest(apiUrl)), Toast(Loading(FetchLoading)), Toast(Succeeded(FetchSuccess))]
      ensures r.Threw? ==> r.thrown == Settle(outcome).thrown
      ensures r.Threw? ==>
        && models == old(models)
        && error == Some(ErrorText(r.thrown, FetchFallback))
        && effects == old(effects) + [Sent(ListRequest(apiUrl)), Toast(Loading(FetchLoading)), Toast(Failed(error.value))]
    {
      var request := ListRequest(apiUrl);
      effects := effects + [Sent(request), Toast(Loading(FetchLoading))];
      match Settle(outcome) {
        case Returned(response) =>
          models := response.data;
          error := None;
          effects := effects + [Toast(Succeeded(FetchSuccess))];
          r := Returned(());
        case Threw(t) =>
          var message := ErrorText(t, FetchFallback);
          error := Some(message);
          effects := effects + [Toast(Failed(message))];
          r := Threw(t);
      }
    }
  }

  /**
   * A client of the store: a failed fetch after a successful one keeps the
   * fetched list and records the server's message, and the next success
   * clears that message again.
   */
  method FetchModelsTwice(apiUrl: string)
  {
    var store := new ModelsStore(apiUrl);
    var m1 := Model("m1", None, None, None, None, None);
    var r := store.FetchModels(Ok(Response([m1], 200, "OK")));
    assert store.models == [m1] && store.error == None;
    r := store.FetchModels(HttpError(500, "Internal Server Error", Some("quota exceeded")));
    assert store.models == [m1] && store.error == Some("quota exceeded");
    r := store.FetchModels(Ok(Response([], 200, "OK")));
    assert store.models == [] && store.error == None;
  }
}
