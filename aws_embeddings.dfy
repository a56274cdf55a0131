/**
 * `AWSEmbeddings` of embeddings/aws.py: the newer Bedrock entry point, which builds the
 * body like `create_embeddings` but refuses a user setting whose key the body lacks.
 */
module AwsEmbeddings {

  import opened Wrappers
  import opened Values
  import opened AwsBody
  import AwsProvider

  /** The setting keys are acceptable: each is a schema field, `inputText`, `model_name`, or `inputImage` when an image was read. */
  predicate SettingsKnown(schema: Dict, settings: Dict, d: EmbeddingInput, files: map<string, string>)
    requires EncodedImage(d, files).Ok?
  {
    settings.Keys <= KnownKeys(schema, EncodedImage(d, files).value)
  }

  /**
   * The body-building and validation part of `AWSEmbeddings`: the same body as the older
   * entry point, unless a setting key is unknown, which raises `ValueError` naming that key.
   */
  method BuildBody(schema: Dict, settings: Dict, document: EmbeddingInput, model: string, files: map<string, string>)
    returns (r: Result<Dict, EmbeddingError>)
    ensures Body(schema, settings, document, model, files).Err? ==> r == Body(schema, settings, document, model, files)
    ensures Body(schema, settings, document, model, files).Ok? ==>
      (r.Ok? <==> SettingsKnown(schema, settings, document, files)) &&
      (r.Ok? ==> r == Body(schema, settings, document, model, files)) &&
      (r.Err? ==> r.error.UnknownSetting? && r.error.key in settings &&
                  r.error.key !in KnownKeys(schema, EncodedImage(document, files).value))
  {
    var textInput := TextInput(document);
    if textInput.Err? {
      return Err(textInput.error);
    }
    var text := textInput.value;
    var encoded := EncodedImage(document, files);
    var body := ApplyOverrides(schema, settings);
    body := body["inputText" := OptStr(text)];
    if encoded.Err? {
      return Err(encoded.error);
    }
    if encoded.value.Some? {
      body := body["inputImage" := Str(encoded.value.value)];
    }
    body := body["model_name" := Str(model)];
    FilledKeys(schema, settings, text, encoded.value, model);
    var unknown := FindUnknownKey(settings, body.Keys);
    if unknown.Some? {
      return Err(UnknownSetting(unknown.value));
    }
    body := StripUndefined(body);
    if "model_name" in body {
      body := body - {"model_name"};
    }
    r := Ok(body);
  }

  /**
   * `AWSEmbeddings`, with the same parameters as `AwsProvider.CreateEmbeddings`; a `None`
   * `model_settings` is treated as an empty dict.
   */
  method AWSEmbeddings(conn: AwsProvider.AWSConnection?, schema: Option<Dict>, model: string, document: EmbeddingInput,
                       modelSettings: Option<Dict>, files: map<string, string>, embedding: seq<real>)
    returns (r: Result<AwsProvider.Embedded, EmbeddingError>)
    modifies conn
    ensures conn == null ==> r == Err(AwsConnectionNotFound)
    ensures conn != null && schema.None? ==> r == Err(ModelNotFound(model))
    ensures conn != null && schema.Some? ==>
      var settings := SettingsOrEmpty(modelSettings);
      var body := Body(schema.value, settings, document, model, files);
      (body.Err? ==> r == Err(body.error)) &&
      (body.Ok? && !SettingsKnown(schema.value, settings, document, files) ==> r.Err? && r.error.UnknownSetting?) &&
      (body.Ok? && SettingsKnown(schema.value, settings, document, files) ==>
        var vector := ToVector(document, TextInput(document).value, ImageInput(document), embedding);
        (vector.Err? ==> r == Err(vector.error)) &&
        (vector.Ok? ==> r == Ok(AwsProvider.Embedded(Request(body.value, model, JsonMime, JsonMime), vector.value))))
    ensures conn != null && (schema.None? || Body(schema.value, SettingsOrEmpty(modelSettings), document, model, files).Err? ||
                             !SettingsKnown(schema.value, SettingsOrEmpty(modelSettings), document, files)) ==>
      conn.client == old(conn.client)
    ensures conn != null && schema.Some? && Body(schema.value, SettingsOrEmpty(modelSettings), document, model, files).Ok? &&
            SettingsKnown(schema.value, SettingsOrEmpty(modelSettings), document, files) ==>
      conn.client != null && (old(conn.client) != null ==> conn.client == old(conn.client))
  {
    if conn == null {
      return Err(AwsConnectionNotFound);
    }
    if schema.None? {
      return Err(ModelNotFound(model));
    }
    var body := BuildBody(schema.value, SettingsOrEmpty(modelSettings), document, model, files);
    if body.Err? {
      return Err(body.error);
    }
    var client := conn.GetClient();
    var request := Request(body.value, model, JsonMime, JsonMime);
    var vector :- ToVector(document, TextInput(document).value, ImageInput(document), embedding);
    r := Ok(AwsProvider.Embedded(request, vector));
  }

  /** The two entry points send the same body whenever the newer one accepts the settings. */
  lemma SameBodyWhenAccepted(schema: Dict, settings: Dict, d: EmbeddingInput, model: string, files: map<string, string>)
    requires Body(schema, settings, d, model, files).Ok?
    ensures EncodedImage(d, files).Ok?
    ensures SettingsKnown(schema, settings, d, files) <==>
      forall k :: k in settings ==> k in schema || k in {"inputText", "model_name"} || (k == "inputImage" && Truthy(ImageInput(d)))
  {
  }

  /** `{"dimensions": 512, "normalize": true}` is accepted for Titan text v2, `{"foo": 1}` is not. */
  lemma TitanTextSettings(text: string)
    ensures SettingsKnown(TitanTextV2Schema, map["dimensions" := Int(512), "normalize" := Bool(true)],
                          ChunkInput(TextChunk("doc1", text, 1, "doc1")), map[])
    ensures !SettingsKnown(TitanTextV2Schema, map["foo" := Int(1)], ChunkInput(TextChunk("doc1", text, 1, "doc1")), map[])
  {
    assert "foo" !in KnownKeys(TitanTextV2Schema, None);
  }
}
