/**
 * The API client (`src/services/api.ts`): the module-level `API_KEY`, the
 * axios instance's default headers, the two request builders and the
 * extraction of `data[0].url` from a response.
 *
 * The HTTP round trip itself is not modelled: a request is a value, and what
 * came back (a response body or a rejection) is a parameter.
 */
module Api {
  import opened Wrappers

  const API_BASE_URL := "https://api.xlap.top/v1"
  /** The local-storage key under which the X key is persisted. */
  const STORAGE_KEY := "nano_banana_x_key"
  const GENERATIONS_PATH := "/images/generations"
  const EDITS_PATH := "/images/edits"
  const DEFAULT_ASPECT_RATIO := "4:3"
  const DEFAULT_MODEL := "nano-banana"
  const AUTHORIZATION := "Authorization"
  const CONTENT_TYPE := "Content-Type"
  const JSON_TYPE := "application/json"

  /** A browser `File`: its name and its MIME `type`. */
  datatype File = File(name: string, mimeType: string)

  /** Which of the two exported calls a session makes, with its arguments. */
  datatype Call =
    | Generate(prompt: string, aspectRatio: string, model: string)
    | Edit(prompt: string, image: File, model: string)

  /** One part of a multipart form: a text field or a file field. */
  datatype Part = TextPart(name: string, value: string) | FilePart(name: string, file: File)

  /** A JSON object body, fields in serialisation order, or a multipart form. */
  datatype Body = Json(fields: seq<(string, string)>) | Form(parts: seq<Part>)

  /** A POST request: absolute URL, the headers it carries, its body. */
  datatype Request = Post(url: string, headers: map<string, string>, body: Body)

  /** One element of the response's `data` list; its `url` may be absent. */
  datatype Item = Item(url: Option<string>)

  /** The response body; `data` is absent when the body has no such list. */
  datatype ResponseBody = ResponseBody(data: Option<seq<Item>>)

  /**
   * What a call can throw. `Raised` is whatever axios or the network threw
   * (`message` is present when the thrown value is an `Error`); `MissingResult`
   * is the `TypeError` raised by reading `data[0].url` when there is no
   * first element.
   */
  datatype ApiError = Raised(message: Option<string>) | MissingResult

  /** How the round trip ended, before the client looks at the body. */
  datatype Reply = Responded(body: ResponseBody) | Rejected(error: ApiError)

  function Bearer(key: string): string
  {
    "Bearer " + key
  }

  /** The value `localStorage.getItem(STORAGE_KEY)` yields when it is truthy (present and non-empty). */
  function SavedKey(storage: map<string, string>): (saved: Option<string>)
    ensures saved.Some? <==> STORAGE_KEY in storage && storage[STORAGE_KEY] != ""
    ensures saved.Some? ==> saved.value == storage[STORAGE_KEY]
  {
    if STORAGE_KEY in storage && storage[STORAGE_KEY] != "" then Some(storage[STORAGE_KEY]) else None
  }

  /** The headers handed to `axios.create`: JSON content and the bearer key. */
  function CreationHeaders(key: string): map<string, string>
  {
    map[CONTENT_TYPE := JSON_TYPE, AUTHORIZATION := Bearer(key)]
  }

  /**
   * The headers axios sends for a request: the `common` defaults, overridden
   * by the headers given at creation, which sit at the top level of the
   * instance's defaults.
   */
  function SentHeaders(common: map<string, string>, instance: map<string, string>): (h: map<string, string>)
    ensures h.Keys == common.Keys + instance.Keys
    ensures forall n :: n in instance ==> h[n] == instance[n]
    ensures forall n :: n in common && n !in instance ==> h[n] == common[n]
  {
    common + instance
  }

  /** `generateImage`'s request: JSON `{model, prompt, aspect_ratio}` to the generations endpoint. */
  function GenerationRequest(prompt: string, aspectRatio: Option<string>, model: Option<string>,
                             headers: map<string, string>): (r: Request)
    ensures r.url == API_BASE_URL + GENERATIONS_PATH && r.headers == headers
    ensures r.body.Json? && |r.body.fields| == 3 && r.body.fields[1] == ("prompt", prompt)
    ensures r.body.fields[0] == ("model", if model.Some? then model.value else DEFAULT_MODEL)
    ensures r.body.fields[2] == ("aspect_ratio", if aspectRatio.Some? then aspectRatio.value else DEFAULT_ASPECT_RATIO)
  {
    Post(API_BASE_URL + GENERATIONS_PATH, headers,
         Json([("model", model.GetOr(DEFAULT_MODEL)),
               ("prompt", prompt),
               ("aspect_ratio", aspectRatio.GetOr(DEFAULT_ASPECT_RATIO))]))
  }

  /**
   * `editImage`'s request: form fields `model`, `prompt`, `image` to the edits
   * endpoint, with only an Authorization header built from the key at call time.
   */
  function EditRequest(prompt: string, image: File, model: Option<string>, apiKey: string): (r: Request)
    ensures r.url == API_BASE_URL + EDITS_PATH
    ensures r.headers.Keys == {AUTHORIZATION} && r.headers[AUTHORIZATION] == Bearer(apiKey)
    ensures r.body.Form? && |r.body.parts| == 3
    ensures r.body.parts[0] == TextPart("model", if model.Some? then model.value else DEFAULT_MODEL)
    ensures r.body.parts[1] == TextPart("prompt", prompt) && r.body.parts[2] == FilePart("image", image)
  {
    Post(API_BASE_URL + EDITS_PATH, map[AUTHORIZATION := Bearer(apiKey)],
         Form([TextPart("model", model.GetOr(DEFAULT_MODEL)),
               TextPart("prompt", prompt),
               FilePart("image", image)]))
  }

  /** The names of the fields a body carries, in order. */
  function FieldNames(body: Body): (names: seq<string>)
    ensures |names| == if body.Json? then |body.fields| else |body.parts|
  {
    match body
    case Json(fields) => seq(|fields|, i requires 0 <= i < |fields| => fields[i].0)
    case Form(parts) => seq(|parts|, i requires 0 <= i < |parts| => parts[i].name)
  }

  /** The default arguments apply when an argument is omitted, and the JSON body keeps the field order. */
  lemma GenerationDefaults(prompt: string, headers: map<string, string>)
    ensures GenerationRequest(prompt, None, None, headers).url == "https://api.xlap.top/v1/images/generations"
    ensures GenerationRequest(prompt, None, None, headers).body
            == Json([("model", "nano-banana"), ("prompt", prompt), ("aspect_ratio", "4:3")])
  {
  }

  /**
   * Mode exclusivity at the wire: a generation request carries an aspect
   * ratio and no image, an edit request an image and no aspect ratio, and
   * neither carries anything besides model and prompt.
   */
  lemma {:induction false} RequestFieldsExclusive(prompt: string, aspectRatio: Option<string>, image: File,
                                                  model: Option<string>, headers: map<string, string>, apiKey: string)
    ensures FieldNames(GenerationRequest(prompt, aspectRatio, model, headers).body) == ["model", "prompt", "aspect_ratio"]
    ensures FieldNames(EditRequest(prompt, image, model, apiKey).body) == ["model", "prompt", "image"]
    ensures "image" !in FieldNames(GenerationRequest(prompt, aspectRatio, model, headers).body)
    ensures "aspect_ratio" !in FieldNames(EditRequest(prompt, image, model, apiKey).body)
  {
    var g := FieldNames(GenerationRequest(prompt, aspectRatio, model, headers).body);
    var e := FieldNames(EditRequest(prompt, image, model, apiKey).body);
    assert g[0] == "model" && g[1] == "prompt" && g[2] == "aspect_ratio";
    assert e[0] == "model" && e[1] == "prompt" && e[2] == "image";
  }

  /** `response.data.data[0].url`: a missing or empty `data` list throws. */
  function ExtractUrl(body: ResponseBody): (r: Result<Option<string>, ApiError>)
    ensures r.Ok? <==> body.data.Some? && |body.data.value| > 0
    ensures r.Ok? ==> r.value == body.data.value[0].url
    ensures r.Err? ==> r.error == MissingResult
  {
    match body.data
    case None => Err(MissingResult)
    case Some(items) => if |items| == 0 then Err(MissingResult) else Ok(items[0].url)
  }

  /**
   * What `generateImage` and `editImage` resolve or reject with: the catch
   * block logs and rethrows, so a rejection reaches the caller unchanged.
   */
  function Settle(reply: Reply): (r: Result<Option<string>, ApiError>)
    ensures reply.Rejected? ==> r == Err(reply.error)
    ensures reply.Responded? ==>
              (r.Ok? <==> reply.body.data.Some? && |reply.body.data.value| > 0)
    ensures reply.Responded? && r.Ok? ==> r.value == reply.body.data.value[0].url
    ensures reply.Responded? && r.Err? ==> r.error == MissingResult
  {
    match reply
    case Rejected(e) => Err(e)
    case Responded(body) => ExtractUrl(body)
  }

  /**
   * As written, `setApiKey` writes the new bearer value into the `common`
   * defaults, but the Authorization given at creation sits above `common`
   * and wins: a generation request still carries the key the module was
   * loaded with.
   */
  lemma StaleAuthorizationAsWritten(initialKey: string, newKey: string)
    requires initialKey != newKey
    ensures var sent := SentHeaders(map[AUTHORIZATION := Bearer(newKey)], CreationHeaders(initialKey));
            AUTHORIZATION in sent && sent[AUTHORIZATION] == Bearer(initialKey) && sent[AUTHORIZATION] != Bearer(newKey)
  {
    assert Bearer(initialKey)[7..] == initialKey;
    assert Bearer(newKey)[7..] == newKey;
  }

  /**
   * The instance behind `apiClient` together with the module-level `API_KEY`.
   */
  class Client {
    /** The module-level `API_KEY`. */
    var apiKey: string
    /** `apiClient.defaults.headers.common`, as far as this module writes it. */
    var commonHeaders: map<string, string>
    /** The headers given to `axios.create`, at the top level of the instance's defaults. */
    var instanceHeaders: map<string, string>

    /** Every request made through the client carries the current key. */
    ghost predicate Valid()
      reads this
    {
      instanceHeaders == CreationHeaders(apiKey)
      && (AUTHORIZATION in commonHeaders ==> commonHeaders[AUTHORIZATION] == Bearer(apiKey))
    }

    /** Module initialisation: `API_KEY` is the saved key when there is one, then the instance is created with it. */
    constructor (storage: map<string, string>)
      ensures Valid()
      ensures apiKey == SavedKey(storage).GetOr("")
      ensures apiKey == "" <==> SavedKey(storage).None?
      ensures commonHeaders == map[]
      ensures instanceHeaders[AUTHORIZATION] == Bearer(apiKey)
    {
      var key := "";
      if STORAGE_KEY in storage && storage[STORAGE_KEY] != "" {
        key := storage[STORAGE_KEY];
      }
      apiKey := key;
      commonHeaders := map[];
      instanceHeaders := CreationHeaders(key);
    }

    /** `setApiKey` as written: only the `common` Authorization is updated. */
    method SetApiKeyAsWritten(newKey: string)
      modifies this
      ensures KeySetAsWritten(this, newKey)
    {
      apiKey := newKey;
      commonHeaders := commonHeaders[AUTHORIZATION := Bearer(apiKey)];
    }

    /**
     * `setApiKey` with the Authorization the instance was created with
     * replaced as well, so that it is the one requests carry.
     */
    method SetApiKey(newKey: string)
      requires Valid()
      modifies this
      ensures Valid()
      ensures apiKey == newKey
      ensures commonHeaders == old(commonHeaders)[AUTHORIZATION := Bearer(newKey)]
      ensures instanceHeaders == old(instanceHeaders)[AUTHORIZATION := Bearer(newKey)]
    {
      apiKey := newKey;
      commonHeaders := commonHeaders[AUTHORIZATION := Bearer(apiKey)];
      instanceHeaders := instanceHeaders[AUTHORIZATION := Bearer(apiKey)];
    }

    /**
     * The request the call sends, built from the client's state at call time:
     * a generation goes through the instance with its merged default headers,
     * an edit through plain axios with only the current key.
     */
    function RequestFor(call: Call): (r: Request)
      reads this
      ensures r.url == API_BASE_URL + (if call.Generate? then GENERATIONS_PATH else EDITS_PATH)
      ensures call.Generate? ==> r.headers == SentHeaders(commonHeaders, instanceHeaders)
      ensures call.Edit? ==> r.headers == map[AUTHORIZATION := Bearer(apiKey)]
      ensures call.Generate? ==> r.body == Json([("model", call.model), ("prompt", call.prompt), ("aspect_ratio", call.aspectRatio)])
      ensures call.Edit? ==> r.body == Form([TextPart("model", call.model), TextPart("prompt", call.prompt), FilePart("image", call.image)])
    {
      match call
      case Generate(prompt, ratio, model) =>
        GenerationRequest(prompt, Some(ratio), Some(model), SentHeaders(commonHeaders, instanceHeaders))
      case Edit(prompt, image, model) =>
        EditRequest(prompt, image, Some(model), apiKey)
    }
  }

  /**
   * What `setApiKey` as written changes: `API_KEY` and the `common`
   * Authorization become the new key's; the headers given at creation stay.
   */
  twostate predicate KeySetAsWritten(c: Client, key: string)
    reads c
  {
    c.apiKey == key
    && c.commonHeaders == old(c.commonHeaders)[AUTHORIZATION := Bearer(key)]
    && c.instanceHeaders == old(c.instanceHeaders)
  }

  /**
   * Both calls authenticate with the key current at call time, provided the
   * client is in the state `setApiKey` (corrected) maintains; only a
   * generation request declares a JSON content type.
   */
  lemma RequestCarriesCurrentKey(client: Client, call: Call)
    requires client.Valid()
    ensures AUTHORIZATION in client.RequestFor(call).headers
    ensures client.RequestFor(call).headers[AUTHORIZATION] == Bearer(client.apiKey)
    ensures (CONTENT_TYPE in client.RequestFor(call).headers) <==> call.Generate?
    ensures client.RequestFor(call).url == API_BASE_URL + (if call.Generate? then GENERATIONS_PATH else EDITS_PATH)
  {
    var r := client.RequestFor(call);
    if call.Edit? {
      assert r.headers.Keys == {AUTHORIZATION};
    }
  }
}
