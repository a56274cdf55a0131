/**
 * Credential record types of the vault, one constructor per pydantic model, with the
 * same field defaults. The `id` field's `uuid4().hex` default factory is not a
 * deterministic value, so the id is an explicit, opaque argument.
 */
module AuthFormat {

  import opened Wrappers
  import opened Values

  /** An opaque record identifier (the source draws a fresh uuid4 hex string). */
  type Id = nat

  /** The record class, used where the source passes the class itself rather than an instance. */
  datatype AuthKind = AWSKind | OpenAIKind | AnthropicKind | MistralKind | PineconeKind

  datatype AuthRecord =
    | AWSAuth(id: Id, service_name: string := "AWS", name: Option<string> := None,
              access_key: Option<string> := None, secret_access_key: Option<string> := None,
              other_setting: Option<Dict> := None)
    | OpenAIAuth(id: Id, service_name: string := "OpenAI", name: Option<string> := None,
                 api_key: Option<string> := None, other_setting: Option<Dict> := None)
    | AnthropicAuth(id: Id, service_name: string := "Anthropic", name: Option<string> := None,
                    api_key: Option<string> := None, other_setting: Option<Dict> := None)
    | MistralAuth(id: Id, service_name: string := "Mistral", name: Option<string> := None,
                  api_key: Option<string> := None, other_setting: Option<Dict> := None)
    | PineconeAuth(id: Id, service_name: string := "Pinecone", name: Option<string> := None,
                   api_key: Option<string> := None, other_setting: Option<Dict> := None)
  {
    /** `model_dump().get("api_key")`: only the non-AWS records have the field. */
    function ApiKey(): Option<string>
    {
      if AWSAuth? then None else api_key
    }

    /** `model_dump().get("access_key")`: only `AWSAuth` has the field. */
    function AccessKey(): Option<string>
    {
      if AWSAuth? then access_key else None
    }

    /** `model_dump().get("secret_access_key")`: only `AWSAuth` has the field. */
    function SecretAccessKey(): Option<string>
    {
      if AWSAuth? then secret_access_key else None
    }
  }

  /** The `service_name` an instance of the record class gets by default: `provider().service_name`. */
  function DefaultServiceName(kind: AuthKind): (s: string)
    ensures s == Default(kind, 0).service_name
  {
    match kind
    case AWSKind => "AWS"
    case OpenAIKind => "OpenAI"
    case AnthropicKind => "Anthropic"
    case MistralKind => "Mistral"
    case PineconeKind => "Pinecone"
  }

  /** The record the class builds when only its id is supplied. */
  function Default(kind: AuthKind, id: Id): AuthRecord
  {
    match kind
    case AWSKind => AWSAuth(id)
    case OpenAIKind => OpenAIAuth(id)
    case AnthropicKind => AnthropicAuth(id)
    case MistralKind => MistralAuth(id)
    case PineconeKind => PineconeAuth(id)
  }

  /** `AWSAuth`: service "AWS", both secrets, the label and the settings absent. */
  lemma AWSAuthDefaults(id: Id)
    ensures AWSAuth(id).service_name == "AWS"
    ensures AWSAuth(id).access_key.None? && AWSAuth(id).secret_access_key.None?
    ensures AWSAuth(id).name.None? && AWSAuth(id).other_setting.None?
  {
  }

  /** `OpenAIAuth`: service "OpenAI", no api key, label or settings. */
  lemma OpenAIAuthDefaults(id: Id)
    ensures OpenAIAuth(id).service_name == "OpenAI"
    ensures OpenAIAuth(id).api_key.None?
    ensures OpenAIAuth(id).name.None? && OpenAIAuth(id).other_setting.None?
  {
  }

  /** The three api-key-only records differ only in their default service name. */
  lemma ApiKeyRecordDefaults(id: Id)
    ensures AnthropicAuth(id).service_name == "Anthropic"
    ensures MistralAuth(id).service_name == "Mistral"
    ensures PineconeAuth(id).service_name == "Pinecone"
    ensures forall k: AuthKind :: k != AWSKind ==>
      Default(k, id).ApiKey().None? && Default(k, id).name.None? && Default(k, id).other_setting.None?
  {
  }

  /** Whatever the class, a default record carries no secret at all and keeps its id. */
  lemma DefaultsCarryNoSecret(kind: AuthKind, id: Id)
    ensures Default(kind, id).id == id
    ensures Default(kind, id).ApiKey().None?
    ensures Default(kind, id).AccessKey().None?
    ensures Default(kind, id).SecretAccessKey().None?
  {
  }
}
