/**
 * The AWS (Bedrock) provider of providers/aws.py: its lazily initialised connection, the
 * login guard and `create_embeddings`, which builds the request body without checking the
 * user's setting keys.
 */
module AwsProvider {

  import opened Wrappers
  import opened Values
  import opened AwsBody

  /** `boto3.client(...)`; only the arguments it was built with are observable. */
  class AwsClient {
    const serviceName: Value
    const accessKeyId: string
    const secretAccessKey: string
    const regionName: Value

    constructor (serviceName: Value, accessKeyId: string, secretAccessKey: string, regionName: Value)
      ensures this.serviceName == serviceName && this.accessKeyId == accessKeyId
      ensures this.secretAccessKey == secretAccessKey && this.regionName == regionName
    {
      this.serviceName := serviceName;
      this.accessKeyId := accessKeyId;
      this.secretAccessKey := secretAccessKey;
      this.regionName := regionName;
    }
  }

  const DefaultRegion: Value := Str("us-east-1")
  const DefaultService: Value := Str("bedrock")

  /** `AWSConnection`: `client == null` until the first `GetClient`, initialised afterwards. */
  class AWSConnection {
    const accessKeyId: string
    const secretAccessKey: string
    const regionName: Value
    const serviceName: Value
    var client: AwsClient?

    /** Region and service come from the settings, defaulting to "us-east-1" and "bedrock". */
    constructor (accessKey: string, secretAccessKey: string, otherSetting: Dict)
      ensures accessKeyId == accessKey && this.secretAccessKey == secretAccessKey
      ensures regionName == (if "region_name" in otherSetting then otherSetting["region_name"] else DefaultRegion)
      ensures serviceName == (if "service_name" in otherSetting then otherSetting["service_name"] else DefaultService)
      ensures client == null
    {
      accessKeyId := accessKey;
      this.secretAccessKey := secretAccessKey;
      regionName := GetOr(otherSetting, "region_name", DefaultRegion);
      serviceName := GetOr(otherSetting, "service_name", DefaultService);
      client := null;
    }

    /** Builds a new client from the stored credentials, service and region. */
    method InitConnection()
      modifies this
      ensures client != null && fresh(client)
      ensures client.serviceName == serviceName && client.regionName == regionName
      ensures client.accessKeyId == accessKeyId && client.secretAccessKey == secretAccessKey
    {
      client := new AwsClient(serviceName, accessKeyId, secretAccessKey, regionName);
    }

    /** Initialises only when there is no client yet, then returns the client. */
    method GetClient() returns (c: AwsClient)
      modifies this
      ensures client == c
      ensures old(client) != null ==> c == old(client)
      ensures old(client) == null ==> fresh(c) && c.accessKeyId == accessKeyId && c.regionName == regionName
    {
      if client == null {
        InitConnection();
      }
      c := client;
    }
  }

  /** The AWS connection built from the settings of the source's own test: region kept, service defaulted. */
  method ConnectionExample() returns (conn: AWSConnection)
    ensures conn.regionName == Str("us-west-2") && conn.serviceName == Str("bedrock")
    ensures conn.accessKeyId == "access_key" && conn.secretAccessKey == "secret_key"
  {
    conn := new AWSConnection("access_key", "secret_key", map["region_name" := Str("us-west-2")]);
  }

  datatype LoginError = AWSConnectionNotFound

  /** `require_login`: the wrapped call runs, unchanged, only when an "AWS" connection is registered. */
  function RequireLogin<A, B>(registered: set<string>, f: A -> B, args: A): (r: Result<B, LoginError>)
    ensures r.Ok? <==> "AWS" in registered
    ensures r.Ok? ==> r.value == f(args)
  {
    if "AWS" !in registered then Err(AWSConnectionNotFound) else Ok(f(args))
  }

  /** What a successful call produces: the request handed to `invoke_model` and the vector returned. */
  datatype Embedded = Embedded(request: Request, vector: Vector)

  /**
   * The body-building part of `create_embeddings`: defaults, overrides of known keys
   * (unknown keys silently ignored), the inputs, then undefined entries and `model_name` dropped.
   */
  method BuildBody(schema: Dict, settings: Dict, document: EmbeddingInput, model: string, files: map<string, string>)
    returns (r: Result<Dict, EmbeddingError>)
    ensures r == Body(schema, settings, document, model, files)
  {
    var textInput := TextInput(document);
    if textInput.Err? {
      return Err(textInput.error);
    }
    var text := textInput.value;
    var encoded := EncodedImage(document, files);
    var body := ApplyOverrides(schema, settings);
    body := body["inputText" := OptStr(text)];
    if encoded.Err? {
      return Err(encoded.error);
    }
    if encoded.value.Some? {
      body := body["inputImage" := Str(encoded.value.value)];
    }
    body := body["model_name" := Str(model)];
    body := StripUndefined(body);
    if "model_name" in body {
      body := body - {"model_name"};
    }
    r := Ok(body);
  }

  /**
   * `create_embeddings`. `conn` is what the connection manager holds under "AWS" (null when
   * nothing is registered), `schema` the model's input-field defaults (`None` when the model
   * is not in the models map), `files` the readable image files and `embedding` what
   * `invoke_model` answers. The client is initialised once the body is built, so a
   * refused `Vector` leaves it initialised.
   */
  method CreateEmbeddings(conn: AWSConnection?, schema: Option<Dict>, model: string, document: EmbeddingInput,
                          modelSettings: Option<Dict>, files: map<string, string>, embedding: seq<real>)
    returns (r: Result<Embedded, EmbeddingError>)
    modifies conn
    ensures conn == null ==> r == Err(AwsConnectionNotFound)
    ensures conn != null && schema.None? ==> r == Err(ModelNotFound(model))
    ensures conn != null && schema.Some? ==>
      var body := Body(schema.value, SettingsOrEmpty(modelSettings), document, model, files);
      (body.Err? ==> r == Err(body.error)) &&
      (body.Ok? ==>
        var vector := ToVector(document, TextInput(document).value, ImageInput(document), embedding);
        (vector.Err? ==> r == Err(vector.error)) &&
        (vector.Ok? ==> r == Ok(Embedded(Request(body.value, model, JsonMime, JsonMime), vector.value))))
    ensures conn != null && (schema.None? || Body(schema.value, SettingsOrEmpty(modelSettings), document, model, files).Err?) ==>
      conn.client == old(conn.client)
    ensures conn != null && schema.Some? && Body(schema.value, SettingsOrEmpty(modelSettings), document, model, files).Ok? ==>
      conn.client != null && (old(conn.client) != null ==> conn.client == old(conn.client))
  {
    if conn == null {
      return Err(AwsConnectionNotFound);
    }
    if schema.None? {
      return Err(ModelNotFound(model));
    }
    var body := BuildBody(schema.value, SettingsOrEmpty(modelSettings), document, model, files);
    if body.Err? {
      return Err(body.error);
    }
    var client := conn.GetClient();
    var request := Request(body.value, model, JsonMime, JsonMime);
    var vector :- ToVector(document, TextInput(document).value, ImageInput(document), embedding);
    r := Ok(Embedded(request, vector));
  }
}
