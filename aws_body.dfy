/**
 * The request-body construction shared by the two Bedrock embedding entry points
 * (`create_embeddings` in providers/aws.py and `AWSEmbeddings` in embeddings/aws.py):
 * the input documents, the dict manipulations on `body_fields` and the returned vector.
 */
module AwsBody {

  import opened Wrappers
  import opened Values

  datatype Document = Document(id: string, pageNumber: int, pageContent: Option<string>, image: Option<string>)

  datatype TextChunk = TextChunk(id: string, chunk: string, chunkNumber: int, documentId: string)

  /** The `document: Document | TextChunk | str` argument. */
  datatype EmbeddingInput = DocumentInput(doc: Document) | ChunkInput(textChunk: TextChunk) | StringInput(s: string)

  /** The returned `Vector`; its `content` is a `str` field, so pydantic refuses `None` there. */
  datatype Vector = Vector(documentId: string, vector: seq<real>, size: int, dataType: string, content: string)

  datatype EmbeddingError =
    | AwsConnectionNotFound
    | ModelNotFound(model: string)
    | NotADocument          // a plain `str` has neither `page_content` nor `id`
    | ImageNotReadable(path: string)
    | UnknownSetting(key: string)
    | VectorContentMissing  // `Vector(content=None)`: no truthy text and no image path

  /** The arguments of `client.invoke_model`. */
  datatype Request = Request(body: Dict, modelId: string, accept: string, contentType: string)

  const JsonMime: string := "application/json"

  /** Python truthiness of an optional string. */
  predicate Truthy(s: Option<string>) { s.Some? && |s.value| > 0 }

  /** `text_input`: the page content of a document, the text of a chunk; a plain string has no `page_content`. */
  function TextInput(d: EmbeddingInput): Result<Option<string>, EmbeddingError>
  {
    match d
    case DocumentInput(doc) => Ok(doc.pageContent)
    case ChunkInput(c) => Ok(Some(c.chunk))
    case StringInput(_) => Err(NotADocument)
  }

  /** `image_input`: the image path of a document, `None` for anything else. */
  function ImageInput(d: EmbeddingInput): Option<string>
  {
    if d.DocumentInput? then d.doc.image else None
  }

  function DocumentId(d: EmbeddingInput): string
  {
    match d
    case DocumentInput(doc) => doc.id
    case ChunkInput(c) => c.id
    case StringInput(_) => ""
  }

  /** The override loop: only keys the body already has take the user's value; others are ignored. */
  function Overridden(body: Dict, settings: Dict): (r: Dict)
    ensures r.Keys == body.Keys
    ensures forall k :: k in r && k in settings ==> r[k] == settings[k]
    ensures forall k :: k in r && k !in settings ==> r[k] == body[k]
  {
    map k | k in body :: if k in settings then settings[k] else body[k]
  }

  /** The body without its `PydanticUndefined` entries. */
  function Defined(body: Dict): (r: Dict)
    ensures forall k :: k in r <==> k in body && body[k] != Undefined
    ensures forall k :: k in r ==> r[k] == body[k]
  {
    map k | k in body && body[k] != Undefined :: body[k]
  }

  /**
   * `body_fields` just before the undefined entries are dropped: the schema defaults with
   * the user's overrides, `inputText`, `inputImage` (the encoded image, only when there is
   * one) and `model_name`.
   */
  function Filled(schema: Dict, settings: Dict, text: Option<string>, image: Option<string>, model: string): Dict
  {
    var withText := Overridden(schema, settings)["inputText" := OptStr(text)];
    var withImage := if image.Some? then withText["inputImage" := Str(image.value)] else withText;
    withImage["model_name" := Str(model)]
  }

  /** The JSON body that is sent: `Filled` without undefined entries and without `model_name`. */
  function SentBody(schema: Dict, settings: Dict, text: Option<string>, image: Option<string>, model: string): (r: Dict)
    ensures "model_name" !in r
    ensures r.Keys <= schema.Keys + {"inputText", "inputImage"}
  {
    Defined(Filled(schema, settings, text, image, model)) - {"model_name"}
  }

  /** The keys `body_fields` has when the newer version checks the user's keys. */
  function KnownKeys(schema: Dict, image: Option<string>): set<string>
  {
    schema.Keys + {"inputText", "model_name"} + (if image.Some? then {"inputImage"} else {})
  }

  lemma FilledKeys(schema: Dict, settings: Dict, text: Option<string>, image: Option<string>, model: string)
    ensures Filled(schema, settings, text, image, model).Keys == KnownKeys(schema, image)
  {
  }

  /** The sent body: never `model_name`; always the extracted text; the image only when present. */
  lemma SentBodyInputs(schema: Dict, settings: Dict, text: Option<string>, image: Option<string>, model: string)
    ensures "model_name" !in SentBody(schema, settings, text, image, model)
    ensures "inputText" in SentBody(schema, settings, text, image, model)
    ensures SentBody(schema, settings, text, image, model)["inputText"] == OptStr(text)
    ensures image.Some? ==> "inputImage" in SentBody(schema, settings, text, image, model) &&
                            SentBody(schema, settings, text, image, model)["inputImage"] == Str(image.value)
    ensures image.None? ==> ("inputImage" in SentBody(schema, settings, text, image, model) <==>
                             "inputImage" in schema && Overridden(schema, settings)["inputImage"] != Undefined)
  {
  }

  /**
   * Every other key of the sent body is a schema key, holding the user's value when one
   * was given and the default otherwise, and is present exactly when that value is defined.
   */
  lemma SentBodySettings(schema: Dict, settings: Dict, text: Option<string>, image: Option<string>, model: string, k: string)
    requires k !in {"inputText", "inputImage", "model_name"}
    ensures k in SentBody(schema, settings, text, image, model) <==>
      k in schema && (if k in settings then settings[k] else schema[k]) != Undefined
    ensures k in SentBody(schema, settings, text, image, model) ==>
      SentBody(schema, settings, text, image, model)[k] == (if k in settings then settings[k] else schema[k])
  {
  }

  /** A user setting for a key the schema does not have never reaches the body. */
  lemma UnknownSettingsIgnored(schema: Dict, settings: Dict, text: Option<string>, image: Option<string>, model: string, k: string)
    requires k in settings && k !in KnownKeys(schema, image)
    ensures k !in SentBody(schema, settings, text, image, model)
  {
  }

  /**
   * The base64 text put in `inputImage`: read from the image file when the document has a
   * non-empty image path (`files` maps each readable path to the base64 of its bytes).
   */
  function EncodedImage(d: EmbeddingInput, files: map<string, string>): (r: Result<Option<string>, EmbeddingError>)
    ensures r.Ok? && r.value.Some? <==> Truthy(ImageInput(d)) && ImageInput(d).value in files
    ensures r.Err? <==> Truthy(ImageInput(d)) && ImageInput(d).value !in files
  {
    var image := ImageInput(d);
    if !Truthy(image) then Ok(None)
    else if image.value in files then Ok(Some(files[image.value]))
    else Err(ImageNotReadable(image.value))
  }

  /** The body the older entry point sends, or the error it raises first while building it. */
  function Body(schema: Dict, settings: Dict, d: EmbeddingInput, model: string, files: map<string, string>): (r: Result<Dict, EmbeddingError>)
    ensures r.Err? <==> d.StringInput? || EncodedImage(d, files).Err?
    ensures d.StringInput? ==> r == Err(NotADocument)
    ensures !d.StringInput? && EncodedImage(d, files).Err? ==> r == Err(ImageNotReadable(ImageInput(d).value))
    ensures r.Ok? ==> r.value == SentBody(schema, settings, TextInput(d).value, EncodedImage(d, files).value, model)
  {
    var text :- TextInput(d);
    var image :- EncodedImage(d, files);
    Ok(SentBody(schema, settings, text, image, model))
  }

  /** The loop `for key, value in model_settings.items(): if key in body_fields: body_fields[key] = value`. */
  method ApplyOverrides(body: Dict, settings: Dict) returns (r: Dict)
    ensures r == Overridden(body, settings)
  {
    r := body;
    var todo := settings.Keys;
    while todo != {}
      invariant todo <= settings.Keys
      invariant r.Keys == body.Keys
      invariant forall k :: k in r ==> r[k] == (if k in settings && k !in todo then settings[k] else body[k])
      decreases |todo|
    {
      var key :| key in todo;
      if key in r {
        r := r[key := settings[key]];
      }
      todo := todo - {key};
    }
  }

  /** `keys_to_delete = [... if value is PydanticUndefined]`, then `del body_fields[key]` for each. */
  method StripUndefined(body: Dict) returns (r: Dict)
    ensures r == Defined(body)
  {
    var keysToDelete := set k | k in body && body[k] == Undefined;
    r := body;
    while keysToDelete != {}
      invariant forall k :: k in keysToDelete ==> k in body && body[k] == Undefined
      invariant forall k :: k in r <==> k in body && (body[k] != Undefined || k in keysToDelete)
      invariant forall k :: k in r ==> r[k] == body[k]
      decreases |keysToDelete|
    {
      var key :| key in keysToDelete;
      r := r - {key};
      keysToDelete := keysToDelete - {key};
    }
  }

  /** `for key in model_settings.keys(): if key not in body_fields: raise ValueError(...)`. */
  method FindUnknownKey(settings: Dict, keys: set<string>) returns (unknown: Option<string>)
    ensures unknown.None? <==> settings.Keys <= keys
    ensures unknown.Some? ==> unknown.value in settings && unknown.value !in keys
  {
    var todo := settings.Keys;
    while todo != {}
      invariant todo <= settings.Keys
      invariant forall k :: k in settings && k !in todo ==> k in keys
      decreases |todo|
    {
      var key :| key in todo;
      if key !in keys {
        return Some(key);
      }
      todo := todo - {key};
    }
    unknown := None;
  }

  /**
   * The returned `Vector`: the text when it is truthy, the image path otherwise. With
   * neither, `content` would be `None`, which the `Vector` model refuses.
   */
  function ToVector(input: EmbeddingInput, text: Option<string>, image: Option<string>, embedding: seq<real>): (r: Result<Vector, EmbeddingError>)
    ensures r.Err? <==> !Truthy(text) && image.None?
    ensures r.Err? ==> r.error == VectorContentMissing
    ensures r.Ok? ==> r.value.size == |r.value.vector| && r.value.vector == embedding
    ensures r.Ok? ==> (r.value.dataType == "text" <==> Truthy(text))
    ensures r.Ok? ==> (r.value.dataType == "image" <==> !Truthy(text))
    ensures r.Ok? && Truthy(text) ==> Some(r.value.content) == text
    ensures r.Ok? && !Truthy(text) ==> Some(r.value.content) == image
  {
    if Truthy(text) then Ok(Vector(DocumentId(input), embedding, |embedding|, "text", text.value))
    else if image.Some? then Ok(Vector(DocumentId(input), embedding, |embedding|, "image", image.value))
    else Err(VectorContentMissing)
  }

  /** `model_settings`, with `None` read as an empty dict. */
  function SettingsOrEmpty(modelSettings: Option<Dict>): Dict
  {
    if modelSettings.Some? then modelSettings.value else map[]
  }

  /** The defaults of `AmazonTitanEmbedTextV2Input.ModelInputSchema`. */
  const TitanTextV2Schema: Dict := map["inputText" := Null, "dimensions" := Int(1024), "normalize" := Bool(true)]

  /**
   * The defaults of `AmazonTitanMultimodalEmbeddingsG1Input.ModelInputSchema`; `embeddingConfig`
   * is built by a default factory, so its `.default` is undefined.
   */
  const TitanMultimodalSchema: Dict := map["inputText" := Null, "inputImage" := Null, "embeddingConfig" := Undefined]

  /** The Titan text-v2 request for a document with dimensions 512. */
  lemma TitanTextExample(text: string)
    ensures SentBody(TitanTextV2Schema, map["dimensions" := Int(512), "normalize" := Bool(true)], Some(text), None, "amazon.titan-embed-text-v2:0")
         == map["inputText" := Str(text), "dimensions" := Int(512), "normalize" := Bool(true)]
  {
    var b := SentBody(TitanTextV2Schema, map["dimensions" := Int(512), "normalize" := Bool(true)], Some(text), None, "amazon.titan-embed-text-v2:0");
    assert b.Keys == {"inputText", "dimensions", "normalize"};
  }

  /** Without a user `embeddingConfig` the multimodal request omits it, and a text-only document sends a null image. */
  lemma TitanMultimodalExample(text: string)
    ensures SentBody(TitanMultimodalSchema, map[], Some(text), None, "amazon.titan-embed-image-v1")
         == map["inputText" := Str(text), "inputImage" := Null]
  {
    var b := SentBody(TitanMultimodalSchema, map[], Some(text), None, "amazon.titan-embed-image-v1");
    assert b.Keys == {"inputText", "inputImage"};
  }
}
