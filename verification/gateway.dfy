/** The HTTP service: the API-key dependency, the health check and the
    prediction endpoint, with their mapping from exceptions to responses. */
module Gateway {
  import opened Base
  import opened Config
  import opened Inference

  /** The file field of a `POST /predict`: its bytes and its declared media
      type, which the client may leave out. */
  datatype Upload = Upload(contents: seq<byte>, contentType: Option<string>)

  /** A JSON body returned with status 200. */
  datatype Body =
    | Health(appName: Option<string>, version: Option<string>, message: string)
    | Classified(prediction: Prediction)

  /** What the client receives: 200 with a body, or an error status with a
      `detail` string. */
  datatype Response = Success(body: Body) | HttpError(status: nat, detail: string)

  /** The outcome of the API-key dependency. */
  datatype Access = Granted(apiKey: string) | Denied(error: Response)

  /** How the `try` block of the prediction handler ends: with a value, with
      an `HTTPException`, or with any other exception. */
  datatype Exit =
    | Returned(prediction: Prediction)
    | HttpException(status: nat, detail: string)
    | OtherException(cause: string)

  /** The web framework's answer when the key header is missing or empty. */
  const NotAuthenticated: string := "Not authenticated"
  const NotAuthorized: string := "You are not authorized to use this API"
  const EmptyFile: string := "Empty file provided"
  const NotAnImage: string := "File must be an image"
  const UpAndRunning: string := "Up & running"
  const ImagePrefix: string := "image/"
  /** What Python raises when `.startswith` is called on `None`. */
  const NoneHasNoStartswith: string := "'NoneType' object has no attribute 'startswith'"

  /** The request carries a non-empty `X-API-Key` header. */
  predicate HeaderPresent(header: Option<string>)
  {
    header.Some? && header.value != ""
  }

  /** The request carries a key that is exactly the configured secret. When
      no secret is configured, no string equals it. */
  predicate KeyMatches(settings: Settings, header: Option<string>)
  {
    HeaderPresent(header) && settings.apiSecretKey == Some(header.value)
  }

  /** An authorised upload that passes both validation checks. */
  predicate Admissible(settings: Settings, apiKey: Option<string>, upload: Upload)
  {
    && KeyMatches(settings, apiKey)
    && |upload.contents| > 0
    && upload.contentType.Some?
    && StartsWith(upload.contentType.value, ImagePrefix)
  }

  /** The framework's `APIKeyHeader` dependency: it hands on the header's
      value, and refuses a request whose header is missing or empty. */
  function ApiKeyHeader(header: Option<string>): (r: Access)
    ensures r.Granted? <==> HeaderPresent(header)
    ensures r.Granted? ==> Some(r.apiKey) == header
    ensures r.Denied? ==> r.error == HttpError(403, NotAuthenticated)
  {
    match header
    case Some(key) =>
      if key == "" then Denied(HttpError(403, NotAuthenticated)) else Granted(key)
    case None => Denied(HttpError(403, NotAuthenticated))
  }

  /** `verify_api_key`. */
  function VerifyApiKey(settings: Settings, apiKey: string): (r: Access)
    ensures r.Granted? <==> settings.apiSecretKey == Some(apiKey)
    ensures r.Granted? ==> r.apiKey == apiKey
    ensures r.Denied? ==> r.error == HttpError(403, NotAuthorized)
  {
    match settings.apiSecretKey
    case Some(secret) =>
      if apiKey != secret then Denied(HttpError(403, NotAuthorized)) else Granted(apiKey)
    case None => Denied(HttpError(403, NotAuthorized))
  }

  /** The dependency chain in front of both endpoints: the header, then the
      comparison with the secret. */
  function Authenticate(settings: Settings, header: Option<string>): (r: Access)
    ensures r.Granted? <==> KeyMatches(settings, header)
    ensures !HeaderPresent(header) ==> r == Denied(HttpError(403, NotAuthenticated))
    ensures HeaderPresent(header) && !KeyMatches(settings, header) ==>
      r == Denied(HttpError(403, NotAuthorized))
  {
    match ApiKeyHeader(header)
    case Denied(error) => Denied(error)
    case Granted(key) => VerifyApiKey(settings, key)
  }

  /** `GET /`: the identity of the service, once the key is accepted. */
  function Home(settings: Settings, apiKey: Option<string>): (r: Response)
    ensures KeyMatches(settings, apiKey) ==>
      r == Success(Health(settings.appName, settings.version, UpAndRunning))
    ensures !HeaderPresent(apiKey) ==> r == HttpError(403, NotAuthenticated)
    ensures HeaderPresent(apiKey) && !KeyMatches(settings, apiKey) ==> r == HttpError(403, NotAuthorized)
  {
    match Authenticate(settings, apiKey)
    case Denied(error) => error
    case Granted(_) => Success(Health(settings.appName, settings.version, UpAndRunning))
  }

  /** The `try` block of `classify`: the emptiness check, then the media
      type check (which raises on a missing type), then classification. */
  function TryBlock(lib: Imaging, model: Model, upload: Upload): (e: Exit)
    ensures |upload.contents| == 0 ==> e == HttpException(400, EmptyFile)
    ensures e.HttpException? ==> e.status == 400
    ensures e.Returned? ==> Ok(e.prediction) == ClassifyImage(lib, model, upload.contents)
  {
    if |upload.contents| == 0 then HttpException(400, EmptyFile)
    else
      match upload.contentType
      case None => OtherException(NoneHasNoStartswith)
      case Some(t) =>
        if !StartsWith(t, ImagePrefix) then HttpException(400, NotAnImage)
        else
          match ClassifyImage(lib, model, upload.contents)
          case Ok(p) => Returned(p)
          case Raised(c) => OtherException(c)
  }

  /** The `except` clauses of `classify`: an `HTTPException` is raised again
      as it is, any other exception becomes a 500 with the prefix. */
  function Except(e: Exit): (r: Response)
    ensures e.Returned? <==> r.Success?
    ensures e.Returned? ==> r == Success(Classified(e.prediction))
    ensures e.HttpException? ==> r == HttpError(e.status, e.detail)
    ensures e.OtherException? ==> r == HttpError(500, FailurePrefix + e.cause)
  {
    match e
    case Returned(p) => Success(Classified(p))
    case HttpException(status, detail) => HttpError(status, detail)
    case OtherException(cause) => HttpError(500, FailurePrefix + cause)
  }

  /** `POST /predict`: the key first, then the handler body. */
  function Classify(settings: Settings, apiKey: Option<string>, upload: Upload, lib: Imaging, model: Model): (r: Response)
    // Authentication precedes everything else.
    ensures !HeaderPresent(apiKey) ==> r == HttpError(403, NotAuthenticated)
    ensures HeaderPresent(apiKey) && !KeyMatches(settings, apiKey) ==> r == HttpError(403, NotAuthorized)
    // The empty-file check precedes the media type check.
    ensures KeyMatches(settings, apiKey) && |upload.contents| == 0 ==>
      r == HttpError(400, EmptyFile)
    ensures KeyMatches(settings, apiKey) && |upload.contents| > 0 && upload.contentType.None? ==>
      r == HttpError(500, FailurePrefix + NoneHasNoStartswith)
    ensures && KeyMatches(settings, apiKey) && |upload.contents| > 0
            && upload.contentType.Some? && !StartsWith(upload.contentType.value, ImagePrefix) ==>
      r == HttpError(400, NotAnImage)
    // Past validation, the response is what classification gives.
    ensures Admissible(settings, apiKey, upload) ==>
      (r.Success? <==> ClassifyImage(lib, model, upload.contents).Ok?)
    ensures r.Success? ==> r == Success(Classified(ClassifyImage(lib, model, upload.contents).value))
    ensures Admissible(settings, apiKey, upload) && r.HttpError? ==>
      r == HttpError(500, FailurePrefix + ClassifyImage(lib, model, upload.contents).cause)
    // The only client errors are the two validation messages.
    ensures r.HttpError? && r.status == 400 ==> r.detail == EmptyFile || r.detail == NotAnImage
    ensures r.HttpError? ==> r.status == 403 || r.status == 400 || r.status == 500
    ensures r.HttpError? && r.status == 403 ==> !KeyMatches(settings, apiKey)
  {
    match Authenticate(settings, apiKey)
    case Denied(error) => error
    case Granted(_) => Except(TryBlock(lib, model, upload))
  }

  /** A request that fails authentication or validation gets the same
      response whatever the imaging library and the model would do: the
      classifier is never consulted for it. */
  lemma RejectedWithoutClassifying(settings: Settings, apiKey: Option<string>, upload: Upload, lib: Imaging, model: Model)
    requires !Admissible(settings, apiKey, upload)
    ensures forall lib': Imaging, model': Model ::
      Classify(settings, apiKey, upload, lib', model') == Classify(settings, apiKey, upload, lib, model)
  {
  }

  /** A failure inside classification reaches the client with the prefix
      twice: once from `classify_image`, once from the handler. */
  lemma ClassificationFailureIsPrefixedTwice(settings: Settings, apiKey: Option<string>, upload: Upload, lib: Imaging, model: Model)
    requires Admissible(settings, apiKey, upload)
    requires ClassifyImage(lib, model, upload.contents).Raised?
    ensures Classify(settings, apiKey, upload, lib, model).status == 500
    ensures StartsWith(Classify(settings, apiKey, upload, lib, model).detail, FailurePrefix + FailurePrefix)
  {
  }
}
