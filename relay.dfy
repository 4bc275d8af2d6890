/** The `youtube-download` edge function: answer the CORS preflight, check the request body,
    build the request for the conversion provider, and turn the provider's reply into the
    response sent back to the browser. Reading the request body and the provider's reply are
    inputs (they are I/O); the handler itself is a function of them. */
module Relay {
  import opened Wrappers
  import opened JsValue

  /** The CORS headers every response carries. */
  const CorsHeaders: map<string, string> := map[
    "Access-Control-Allow-Origin" := "*",
    "Access-Control-Allow-Headers" := "authorization, x-client-info, apikey, content-type"
  ]

  /** `{ ...corsHeaders, 'Content-Type': 'application/json' }`. */
  const JsonHeaders: map<string, string> := CorsHeaders["Content-Type" := "application/json"]

  const UrlRequiredMessage: string := "URL é obrigatória"
  const ProviderErrorMessage: string := "Erro ao processar o vídeo"
  const UnexpectedReplyMessage: string := "Resposta inesperada do servidor"
  const InternalErrorMessage: string := "Erro interno do servidor"
  const DefaultQuality: string := "720"
  const DefaultFilename: string := "video"

  /** The object serialized into the provider request. */
  datatype ProviderRequest = ProviderRequest(
    url: Json,
    vCodec: string,
    vQuality: Json,
    aFormat: string,
    filenamePattern: string,
    isAudioOnly: bool)

  /** The JSON body of a response. A field the source leaves `undefined` is `Undefined` here,
      which `JSON.stringify` drops just as it drops an absent field. */
  datatype Body =
    | Failure(error: Json)                          // { success: false, error }
    | Download(downloadUrl: Json, filename: Json)   // { success: true, downloadUrl, filename }
    | Choices(options: Json)                        // { success: true, picker: true, options }
  {
    /** The `success` field. */
    predicate Success()
    {
      !Failure?
    }
  }

  /** A response: its status code, its headers and its body (`None` for the empty preflight body). */
  datatype Response = Response(status: int, headers: map<string, string>, body: Option<Body>)

  /** What one invocation does: the provider request it sends, if any, and the response. */
  datatype Outcome = Outcome(sent: Option<ProviderRequest>, response: Response)

  function JsonResponse(status: int, body: Body): Response
  {
    Response(status, JsonHeaders, Some(body))
  }

  /** The `catch` block's error text. */
  function ErrorText(e: Thrown): string
  {
    match e
    case ErrorInstance(message) => message
    case OtherValue(_) => InternalErrorMessage
  }

  /** The `catch` block's response. */
  function Caught(e: Thrown): Response
  {
    JsonResponse(500, Failure(Str(ErrorText(e))))
  }

  /** The provider request built from the client's fields. */
  function BuildRequest(url: Json, format: Json, quality: Json): (rq: ProviderRequest)
    ensures rq.url == url
    ensures rq.vCodec == "h264" && rq.aFormat == "mp3" && rq.filenamePattern == "basic"
    ensures Truthy(rq.vQuality)
    ensures Truthy(quality) ==> rq.vQuality == quality
    ensures !Truthy(quality) ==> rq.vQuality == Str(DefaultQuality)
    ensures rq.isAudioOnly <==> format == Str("audio")
  {
    ProviderRequest(url, "h264", Or(quality, Str(DefaultQuality)), "mp3", "basic", format == Str("audio"))
  }

  /** The response for a parsed provider reply that is not nullish, by its `status` field. */
  function Classify(data: Json): (r: Response)
    requires !IsNullish(data)
    ensures r.headers == JsonHeaders && r.body.Some?
    ensures r.body.value.Success() <==> Get(data, "status") in {Str("redirect"), Str("stream"), Str("picker")}
    ensures r.body.value.Success() <==> r.status == 200
    ensures !r.body.value.Success() ==> r.status == (if Get(data, "status") == Str("error") then 400 else 500)
    ensures r.body.value.Failure? ==> Truthy(r.body.value.error)
    ensures r.body.value.Choices? <==> Get(data, "status") == Str("picker")
  {
    var status := Get(data, "status");
    if status == Str("error") then
      JsonResponse(400, Failure(Or(Get(data, "text"), Str(ProviderErrorMessage))))
    else if status == Str("redirect") || status == Str("stream") then
      JsonResponse(200, Download(Get(data, "url"), Or(Get(data, "filename"), Str(DefaultFilename))))
    else if status == Str("picker") then
      JsonResponse(200, Choices(Get(data, "picker")))
    else
      JsonResponse(500, Failure(Str(UnexpectedReplyMessage)))
  }

  /** The part of the `try` block after the request was sent: the awaited reply, then its status. */
  function Answer(reply: Attempt<Json>, typeError: string): (r: Response)
    ensures r.headers == JsonHeaders && r.body.Some?
    ensures reply.Threw? ==> r.status == 500 && r.body.value == Failure(Str(ErrorText(reply.thrown)))
    ensures reply.Done? && IsNullish(reply.value) ==> r.status == 500 && r.body.value == Failure(Str(typeError))
    ensures r.body.value.Success() ==> reply.Done? && !IsNullish(reply.value)
  {
    match reply
    case Threw(e) => Caught(e)
    case Done(data) => if IsNullish(data) then Caught(ErrorInstance(typeError)) else Classify(data)
  }

  /** The handler. `verb` is the HTTP method (`req.method`); `body` is what `req.json()` yields or throws;
      `reply` is what the provider call and `response.json()` yield or throw; `typeError` is the
      message of the `TypeError` the runtime throws when a property of `null` is read. */
  function Handle(verb: string, body: Attempt<Json>, reply: Attempt<Json>, typeError: string): (o: Outcome)
    // every response carries the CORS headers
    ensures forall k :: k in CorsHeaders ==> k in o.response.headers && o.response.headers[k] == CorsHeaders[k]
    // only the preflight has an empty body, and it has only the CORS headers
    ensures o.response.body.None? <==> verb == "OPTIONS"
    ensures o.response.body.None? ==> o.response.headers == CorsHeaders && o.response.status == 200
    // the status code agrees with the success flag
    ensures o.response.body.Some? ==> (o.response.body.value.Success() <==> o.response.status == 200)
    ensures o.response.status == 200 || o.response.status == 400 || o.response.status == 500
    // a provider request is sent only for a non-preflight request with a truthy url
    ensures o.sent.Some? ==> verb != "OPTIONS" && Truthy(o.sent.value.url)
  {
    if verb == "OPTIONS" then
      Outcome(None, Response(200, CorsHeaders, None))
    else
      match body
      case Threw(e) => Outcome(None, Caught(e))
      case Done(v) =>
        if IsNullish(v) then
          Outcome(None, Caught(ErrorInstance(typeError)))
        else
          var url, format, quality := Get(v, "url"), Get(v, "format"), Get(v, "quality");
          if !Truthy(url) then
            Outcome(None, JsonResponse(400, Failure(Str(UrlRequiredMessage))))
          else
            Outcome(Some(BuildRequest(url, format, quality)), Answer(reply, typeError))
  }

  /** The client's body was read and holds a truthy `url`: the provider is asked. */
  predicate Forwarded(verb: string, body: Attempt<Json>)
  {
    verb != "OPTIONS" && body.Done? && !IsNullish(body.value) && Truthy(Get(body.value, "url"))
  }

  /** The preflight answer does not depend on the body or the provider: the body is never read. */
  lemma PreflightIgnoresBody(b1: Attempt<Json>, r1: Attempt<Json>, t1: string,
                             b2: Attempt<Json>, r2: Attempt<Json>, t2: string)
    ensures Handle("OPTIONS", b1, r1, t1) == Handle("OPTIONS", b2, r2, t2)
    ensures Handle("OPTIONS", b1, r1, t1).sent.None?
  {
  }

  /** A body whose `url` is missing or falsy is rejected with 400 before any provider request. */
  lemma MissingUrlRejected(verb: string, v: Json, reply: Attempt<Json>, typeError: string)
    requires verb != "OPTIONS" && !IsNullish(v) && !Truthy(Get(v, "url"))
    ensures Handle(verb, Done(v), reply, typeError) ==
      Outcome(None, Response(400, JsonHeaders, Some(Failure(Str(UrlRequiredMessage)))))
  {
  }

  /** A provider request is sent exactly when the body was read and has a truthy `url`; then it
      carries that url, the fixed codec, audio format and filename pattern, the quality or
      `'720'`, and `isAudioOnly` exactly when `format` is the string `'audio'`. */
  lemma ProviderRequestShape(verb: string, body: Attempt<Json>, reply: Attempt<Json>, typeError: string)
    ensures Handle(verb, body, reply, typeError).sent.Some? <==> Forwarded(verb, body)
    ensures Forwarded(verb, body) ==>
      var rq := Handle(verb, body, reply, typeError).sent.value;
      var quality := Get(body.value, "quality");
      rq.url == Get(body.value, "url") &&
      rq.vCodec == "h264" && rq.aFormat == "mp3" && rq.filenamePattern == "basic" &&
      rq.vQuality == (if Truthy(quality) then quality else Str(DefaultQuality)) &&
      (rq.isAudioOnly <==> Get(body.value, "format") == Str("audio"))
  {
  }

  /** When no provider request is sent, the provider's reply has no influence on the response. */
  lemma ReplyUnusedWithoutRequest(verb: string, body: Attempt<Json>, r1: Attempt<Json>, r2: Attempt<Json>,
                                  typeError: string)
    requires Handle(verb, body, r1, typeError).sent.None?
    ensures Handle(verb, body, r1, typeError) == Handle(verb, body, r2, typeError)
  {
  }

  /** Provider status `'error'`: 400, with the provider's `text` when truthy, else the default
      message; either way the error is truthy. */
  lemma ProviderErrorReported(verb: string, body: Attempt<Json>, data: Json, typeError: string)
    requires Forwarded(verb, body) && !IsNullish(data) && Get(data, "status") == Str("error")
    ensures var r := Handle(verb, body, Done(data), typeError).response;
      r.status == 400 && r.body.Some? && r.body.value.Failure? && Truthy(r.body.value.error) &&
      r.body.value.error == (if Truthy(Get(data, "text")) then Get(data, "text") else Str(ProviderErrorMessage))
  {
  }

  /** Provider status `'redirect'` or `'stream'`: success with the provider's `url` and its
      `filename`, or `'video'` when that is falsy. */
  lemma DownloadRelayed(verb: string, body: Attempt<Json>, data: Json, typeError: string)
    requires Forwarded(verb, body) && !IsNullish(data)
    requires Get(data, "status") == Str("redirect") || Get(data, "status") == Str("stream")
    ensures var r := Handle(verb, body, Done(data), typeError).response;
      r.status == 200 && r.headers == JsonHeaders && r.body.Some? && r.body.value.Download? &&
      r.body.value.downloadUrl == Get(data, "url") &&
      r.body.value.filename == (if Truthy(Get(data, "filename")) then Get(data, "filename") else Str(DefaultFilename))
  {
  }

  /** Provider status `'picker'`: success with the provider's `picker` list as the options. */
  lemma PickerRelayed(verb: string, body: Attempt<Json>, data: Json, typeError: string)
    requires Forwarded(verb, body) && !IsNullish(data) && Get(data, "status") == Str("picker")
    ensures var r := Handle(verb, body, Done(data), typeError).response;
      r.status == 200 && r.body == Some(Choices(Get(data, "picker")))
  {
  }

  /** `success` is true exactly when the provider was asked and replied with status `'redirect'`,
      `'stream'` or `'picker'`; every other status gives 500 with the fixed message. */
  lemma SuccessIffKnownStatus(verb: string, body: Attempt<Json>, reply: Attempt<Json>, typeError: string)
    ensures var r := Handle(verb, body, reply, typeError).response;
      (r.body.Some? && r.body.value.Success()) <==>
        Forwarded(verb, body) && reply.Done? && !IsNullish(reply.value) &&
        Get(reply.value, "status") in {Str("redirect"), Str("stream"), Str("picker")}
    ensures (Forwarded(verb, body) && reply.Done? && !IsNullish(reply.value) &&
             Get(reply.value, "status") !in {Str("error"), Str("redirect"), Str("stream"), Str("picker")}) ==>
      Handle(verb, body, reply, typeError).response ==
        Response(500, JsonHeaders, Some(Failure(Str(UnexpectedReplyMessage))))
  {
  }

  /** A thrown value gives 500 with the `Error`'s message, or the generic message for a value
      that is not an `Error`. The value is thrown by reading the body, by destructuring a `null`
      or `undefined` body (a `TypeError`), or by the provider call. */
  lemma ExceptionReported(verb: string, body: Attempt<Json>, reply: Attempt<Json>, typeError: string, e: Thrown)
    requires verb != "OPTIONS"
    requires body == Threw(e) ||
             (body.Done? && IsNullish(body.value) && e == ErrorInstance(typeError)) ||
             (Forwarded(verb, body) && reply == Threw(e))
    ensures var r := Handle(verb, body, reply, typeError).response;
      r.status == 500 && r.body == Some(Failure(Str(ErrorText(e)))) &&
      (e.ErrorInstance? ==> r.body.value.error == Str(e.message)) &&
      (e.OtherValue? ==> r.body.value.error == Str(InternalErrorMessage))
  {
  }
}
