/**
 * The text-to-speech store: the conversion parameters the page binds to,
 * the `isConverting` busy flag, and the two conversion operations.
 *
 * `Convert` posts the parameters through `apiClient` and yields the audio
 * blob; `ConvertAsStream` posts them with `fetch` and yields the open
 * response. Both raise the busy flag before the request and lower it in a
 * `finally`, prefix any `Error` with "Conversion failed: ", and rethrow
 * anything else unchanged.
 */
module Tts {
  import opened Wrappers
  import opened Json
  import opened Http
  import opened ApiClient
  import opened Lifecycle

  datatype ModelId =
    | ElevenMonolingualV1
    | ElevenMultilingualV1
    | ElevenMultilingualV2
    | ElevenTurboV2
    | ElevenFlashV2
    | ElevenTurboV2_5
    | ElevenFlashV2_5
    | ElevenEnglishStsV2
    | ElevenMultilingualStsV2
  {
    /** The enum member's string value, as sent to the server. */
    function Name(): string {
      match this
      case ElevenMonolingualV1 => "eleven_monolingual_v1"
      case ElevenMultilingualV1 => "eleven_multilingual_v1"
      case ElevenMultilingualV2 => "eleven_multilingual_v2"
      case ElevenTurboV2 => "eleven_turbo_v2"
      case ElevenFlashV2 => "eleven_flash_v2"
      case ElevenTurboV2_5 => "eleven_turbo_v2_5"
      case ElevenFlashV2_5 => "eleven_flash_v2_5"
      case ElevenEnglishStsV2 => "eleven_english_sts_v2"
      case ElevenMultilingualStsV2 => "eleven_multilingual_sts_v2"
    }
  }

  datatype OutputFormat =
    | Mp3_22050_32
    | Mp3_44100_32
    | Mp3_44100_64
    | Mp3_44100_96
    | Mp3_44100_128
    | Mp3_44100_192
  {
    /** The enum member's string value, as sent to the server. */
    function Name(): string {
      match this
      case Mp3_22050_32 => "mp3_22050_32"
      case Mp3_44100_32 => "mp3_44100_32"
      case Mp3_44100_64 => "mp3_44100_64"
      case Mp3_44100_96 => "mp3_44100_96"
      case Mp3_44100_128 => "mp3_44100_128"
      case Mp3_44100_192 => "mp3_44100_192"
    }
  }

  /** The conversion parameters, read from the store at call time. */
  datatype Parameters = Parameters(voiceId: Option<string>, text: Option<string>, outputFormat: OutputFormat, modelId: ModelId)

  /** Audio bytes as the server returns them. */
  datatype Blob = Blob(bytes: seq<bv8>)

  const ConvertEndpoint: string := "/api/tts/convert"
  const StreamEndpoint: string := "/api/tts/stream"
  const ConversionFailed: string := "Conversion failed: "
  const ConvertLoading: string := "Converting text to speech..."
  const StreamLoading: string := "Converting text to speech as stream..."
  const ConvertSuccess: string := "Conversion completed successfully"
  const ConvertFallback: string := "An unknown error occurred trying to convert text-to-speech"
  const StreamFallback: string := "An unknown error occurred trying to convert text-to-speech as stream"

  /** Distinct models are sent as distinct strings. */
  lemma ModelIdNamesDistinct(a: ModelId, b: ModelId)
    ensures a.Name() == b.Name() ==> a == b
  {
  }

  /** Distinct output formats are sent as distinct strings. */
  lemma OutputFormatNamesDistinct(a: OutputFormat, b: OutputFormat)
    ensures a.Name() == b.Name() ==> a == b
  {
  }

  function Nullable(s: Option<string>): Value
  {
    match s
    case None => Null
    case Some(v) => Str(v)
  }

  /** The property names of a conversion request body. */
  const VoiceIdKey: string := "voiceId"
  const TextKey: string := "text"
  const OutputFormatKey: string := "outputFormat"
  const ModelIdKey: string := "modelId"

  /** The request body's properties, in the order the object literal lists them. */
  function ConversionMembers(p: Parameters): seq<Member>
  {
    [ Member(VoiceIdKey, Nullable(p.voiceId)),
      Member(TextKey, Nullable(p.text)),
      Member(OutputFormatKey, Str(p.outputFormat.Name())),
      Member(ModelIdKey, Str(p.modelId.Name())) ]
  }

  /**
   * The buffered conversion request: a JSON POST to the convert endpoint
   * asking for a blob, whose body is exactly the four parameters.
   */
  function ConvertRequest(apiUrl: string, p: Parameters): (c: Config)
    ensures c.url == apiUrl + ConvertEndpoint
    ensures c.httpMethod == Some(Post) && c.responseType == Some(BlobResponse)
    ensures c.headers == map[ContentType := ApplicationJson]
    ensures c.data == ObjectBody(ConversionMembers(p))
  {
    var options := Options(Some(Post), ObjectBody(ConversionMembers(p)), None, Some(BlobResponse));
    var c := RequestConfig(apiUrl, ConvertEndpoint, options);
    assert c.url == apiUrl + ConvertEndpoint;
    c
  }

  /**
   * The streaming conversion request: a POST to the stream endpoint with a
   * JSON content type and the parameters as a JSON string.
   */
  function StreamRequest(apiUrl: string, p: Parameters): (r: FetchInit)
    ensures |r.url| == |apiUrl| + |StreamEndpoint|
    ensures r.url[..|apiUrl|] == apiUrl && r.url[|apiUrl|..] == StreamEndpoint
    ensures r.httpMethod == Post && r.headers == map[ContentType := ApplicationJson]
  {
    FetchInit(apiUrl + StreamEndpoint, Post, map[ContentType := ApplicationJson], Stringify(ConversionMembers(p)))
  }

  /**
   * The streaming request always carries the JSON content type, and its
   * body decodes to exactly the four parameters read at call time.
   */
  lemma StreamRequestCarriesParameters(apiUrl: string, p: Parameters)
    ensures StreamRequest(apiUrl, p).url == apiUrl + StreamEndpoint
    ensures StreamRequest(apiUrl, p).headers == map[ContentType := ApplicationJson]
    ensures ParseObject(StreamRequest(apiUrl, p).body) == Some(ConversionMembers(p))
  {
    StringifyRoundTrip(ConversionMembers(p));
  }

  /**
   * The conversions' `catch` block: an `Error` becomes a new `Error` whose
   * message is the original one behind the "Conversion failed: " prefix;
   * any other value is rethrown as it is.
   */
  function ConversionError(t: Thrown): (r: Thrown)
    ensures r.ErrorValue? <==> t.ErrorValue?
    ensures t.ErrorValue? ==>
      && |r.message| == |ConversionFailed| + |t.message|
      && r.message[..|ConversionFailed|] == ConversionFailed
      && r.message[|ConversionFailed|..] == t.message
    ensures t.NonError? ==> r == t
  {
    match t
    case ErrorValue(message) => ErrorValue(ConversionFailed + message)
    case NonError(_) => t
  }

  /**
   * How `convert` settles: with the response's data, or with the
   * `apiClient` error behind the "Conversion failed: " prefix. The request
   * asks for a `blob`, so an error response's body is a Blob and the error
   * carries the status text.
   */
  function ConvertResult(o: Outcome<Blob>): (r: Result<Blob>)
    ensures r.Returned? <==> o.Ok?
    ensures o.Ok? ==> r.value == o.response.data
    ensures o.HttpError? ==> r == Threw(ErrorValue(ConversionFailed + o.statusText))
    ensures o.Transport? ==> r == Threw(ErrorValue(ConversionFailed + o.message))
    ensures o.Other? ==> r == Threw(ConversionError(o.thrown))
  {
    match Settle(ReceivedAs(Some(BlobResponse), o))
    case Returned(response) => Returned(response.data)
    case Threw(t) => Threw(ConversionError(t))
  }

  /**
   * How `convertAsStream` settles: an ok response is handed back as the
   * same object; any other status fails with its status text behind the
   * "Conversion failed: " prefix; a rejected `fetch` goes through the same
   * `catch` block.
   */
  function StreamResult(o: FetchOutcome): (r: Result<FetchResponse>)
    ensures r.Returned? <==> o.Resolved? && o.response.Ok()
    ensures r.Returned? ==> r.value == o.response
    ensures o.Resolved? && !o.response.Ok() ==>
      r == Threw(ErrorValue(ConversionFailed + o.response.statusText))
    ensures o.Rejected? ==> r == Threw(ConversionError(o.thrown))
  {
    match o
    case Resolved(response) =>
      if response.Ok() then Returned(response)
      else Threw(ConversionError(ErrorValue(response.statusText)))
    case Rejected(t) => Threw(ConversionError(t))
  }

  /** An `Error` from either conversion is shown in the toast with the prefix in place. */
  lemma FailureToastShowsPrefix(t: Thrown, fallback: string)
    requires t.ErrorValue?
    ensures ErrorText(ConversionError(t), fallback) == ConversionFailed + t.message
  {
  }

  /** A 503 from the stream endpoint reaches the caller and the toast as "Conversion failed: Service Unavailable". */
  lemma StreamServiceUnavailable(h: StreamHandle)
    ensures StreamResult(Resolved(FetchResponse(503, "Service Unavailable", h)))
         == Threw(ErrorValue("Conversion failed: Service Unavailable"))
  {
  }

  class TtsStore {
    /** The configured API base address. */
    const apiUrl: string

    var voiceId: Option<string>
    var text: Option<string>
    var outputFormat: OutputFormat
    var modelId: ModelId
    var isConverting: bool

    /** Requests sent, toasts shown and busy-flag writes, in order. */
    var effects: seq<Effect>

    /**
     * The busy flag is its last logged write, and every request was sent
     * while it was up.
     */
    ghost predicate Valid()
      reads this
    {
      isConverting == BusyAfter(effects, false) && RequestsWhileBusy(effects, false)
    }

    /** The store as the module creates it. */
    constructor (apiUrl: string)
      ensures this.apiUrl == apiUrl
      ensures voiceId == None && text == None
      ensures outputFormat == Mp3_44100_128 && modelId == ElevenMultilingualV2
      ensures !isConverting && effects == []
      ensures Valid()
    {
      this.apiUrl := apiUrl;
      voiceId, text := None, None;
      outputFormat, modelId := Mp3_44100_128, ElevenMultilingualV2;
      isConverting := false;
      effects := [];
    }

    function Current(): Parameters
      reads this
    {
      Parameters(voiceId, text, outputFormat, modelId)
    }

    /**
     * `convert`: raises the busy flag, posts the current parameters, and
     * lowers the flag however the request ends.
     */
    method Convert(outcome: Outcome<Blob>) returns (r: Result<Blob>)
      requires Valid()
      modifies this`isConverting, this`effects
      ensures Valid() && !isConverting
      ensures r == ConvertResult(outcome)
      ensures effects == old(effects) + Bracketed(Sent(ConvertRequest(apiUrl, Current())), ConvertLoading,
                                                  SettledToast(r, ConvertSuccess, ConvertFallback))
    {
      ghost var before := effects;
      isConverting := true;
      effects := effects + [Busy(true)];
      var request := ConvertRequest(apiUrl, Current());
      effects := effects + [Sent(request), Toast(Loading(ConvertLoading))];
      match Settle(ReceivedAs(request.responseType, outcome)) {
        case Returned(response) =>
          r := Returned(response.data);
        case Threw(t) =>
          r := Threw(ConversionError(t));
      }
      // finally
      isConverting := false;
      effects := effects + [Busy(false), Toast(SettledToast(r, ConvertSuccess, ConvertFallback))];
      BracketedInSteps(before, Sent(request), ConvertLoading, SettledToast(r, ConvertSuccess, ConvertFallback));
      BracketedKeepsDiscipline(before, Sent(request), ConvertLoading,
                               SettledToast(r, ConvertSuccess, ConvertFallback));
    }

    /**
     * `convertAsStream`: raises the busy flag, posts the current parameters
     * as a JSON string with `fetch`, fails on a status that is not ok, and
     * lowers the flag however the request ends.
     */
    method ConvertAsStream(outcome: FetchOutcome) returns (r: Result<FetchResponse>)
      requires Valid()
      modifies this`isConverting, this`effects
      ensures Valid() && !isConverting
      ensures r == StreamResult(outcome)
      ensures effects == old(effects) + Bracketed(Fetched(StreamRequest(apiUrl, Current())), StreamLoading,
                                                  SettledToast(r, ConvertSuccess, StreamFallback))
    {
      ghost var before := effects;
      isConverting := true;
      effects := effects + [Busy(true)];
      var request := StreamRequest(apiUrl, Current());
      effects := effects + [Fetched(request), Toast(Loading(StreamLoading))];
      match outcome {
        case Resolved(response) =>
          if !response.Ok() {
            r := Threw(ConversionError(ErrorValue(response.statusText)));
          } else {
            r := Returned(response);
          }
        case Rejected(t) =>
          r := Threw(ConversionError(t));
      }
      // finally
      isConverting := false;
      effects := effects + [Busy(false), Toast(SettledToast(r, ConvertSuccess, StreamFallback))];
      BracketedInSteps(before, Fetched(request), StreamLoading, SettledToast(r, ConvertSuccess, StreamFallback));
      BracketedKeepsDiscipline(before, Fetched(request), StreamLoading,
                               SettledToast(r, ConvertSuccess, StreamFallback));
    }
  }

  /**
   * A client of the store: a streaming conversion answered with 503 fails
   * with the status text behind the prefix, and the busy flag is down
   * afterwards, so a buffered conversion can follow.
   */
  method StreamThenConvert(apiUrl: string, h: StreamHandle, audio: Blob)
  {
    var store := new TtsStore(apiUrl);
    store.voiceId, store.text := Some("v1"), Some("Hello");
    var s := store.ConvertAsStream(Resolved(FetchResponse(503, "Service Unavailable", h)));
    StreamServiceUnavailable(h);
    assert s == Threw(ErrorValue("Conversion failed: Service Unavailable"));
    assert !store.isConverting;
    var r := store.Convert(Ok(Response(audio, 200, "OK")));
    assert r == Returned(audio) && !store.isConverting;
  }
}
