/**
 * Queries over the provider map: `list_models` and `get_model_settings`. A provider
 * entry lists embedding models only when it has an `embeddings_models` key; its
 * `models_map` is an ordered dict from model name to the model's settings.
 */
module EmbeddingsRegistry {

  import opened Wrappers
  import opened Values

  datatype ModelEntry = ModelEntry(name: string, modelSettings: Dict)

  /** A provider of `providers_list_map`: its key and, when present, the `models_map` under `embeddings_models`. */
  datatype ProviderEntry = ProviderEntry(name: string, embeddingsModels: Option<seq<ModelEntry>>)

  /** Dict keys are distinct. */
  predicate DistinctNames(registry: seq<ProviderEntry>)
  {
    forall i, j :: 0 <= i < j < |registry| ==> registry[i].name != registry[j].name
  }

  function Models(p: ProviderEntry): seq<ModelEntry>
  {
    if p.embeddingsModels.Some? then p.embeddingsModels.value else []
  }

  /** The model names of one provider, in `models_map` order; none without `embeddings_models`. */
  function ModelNames(p: ProviderEntry): (names: seq<string>)
    ensures |names| == |Models(p)|
    ensures forall j :: 0 <= j < |names| ==> names[j] == Models(p)[j].name
  {
    seq(|Models(p)|, j requires 0 <= j < |Models(p)| => Models(p)[j].name)
  }

  /** The one key of each provider's entry in the `list_models` answer. */
  const EmbeddingsModelsKey: string := "embeddings_models"

  /** `list_models`: one key per provider, mapped to `{"embeddings_models": <its model names>}`. */
  method ListModels(registry: seq<ProviderEntry>) returns (out: map<string, map<string, seq<string>>>)
    requires DistinctNames(registry)
    ensures out.Keys == set i | 0 <= i < |registry| :: registry[i].name
    ensures forall i :: 0 <= i < |registry| ==> out[registry[i].name] == map[EmbeddingsModelsKey := ModelNames(registry[i])]
  {
    out := map[];
    var i := 0;
    while i < |registry|
      invariant 0 <= i <= |registry|
      invariant out.Keys == set k | 0 <= k < i :: registry[k].name
      invariant forall k :: 0 <= k < i ==> out[registry[k].name] == map[EmbeddingsModelsKey := ModelNames(registry[k])]
    {
      var provider := registry[i];
      out := out[provider.name := map[EmbeddingsModelsKey := []]];
      if provider.embeddingsModels.Some? {
        var models := provider.embeddingsModels.value;
        var j := 0;
        while j < |models|
          invariant 0 <= j <= |models|
          invariant out.Keys == (set k | 0 <= k < i :: registry[k].name) + {provider.name}
          invariant forall k :: 0 <= k < i ==> out[registry[k].name] == map[EmbeddingsModelsKey := ModelNames(registry[k])]
          invariant out[provider.name] == map[EmbeddingsModelsKey := ModelNames(provider)[..j]]
        {
          var names := out[provider.name][EmbeddingsModelsKey];
          out := out[provider.name := map[EmbeddingsModelsKey := names + [models[j].name]]];
          assert ModelNames(provider)[..j + 1] == ModelNames(provider)[..j] + [models[j].name];
          j := j + 1;
        }
      }
      assert ModelNames(provider)[..|Models(provider)|] == ModelNames(provider);
      i := i + 1;
    }
  }

  /** `model in models_map` for a provider that has `embeddings_models`. */
  predicate Lists(p: ProviderEntry, model: string)
  {
    p.embeddingsModels.Some? && exists j :: 0 <= j < |Models(p)| && Models(p)[j].name == model
  }

  /** `models_map[model]().model_settings`: the settings of the entry with that name. */
  function SettingsOf(models: seq<ModelEntry>, model: string): Dict
    requires exists j :: 0 <= j < |models| && models[j].name == model
  {
    if models[0].name == model then models[0].modelSettings else SettingsOf(models[1..], model)
  }

  datatype RegistryError = ModelNotInSettings(model: string)

  /** `get_model_settings`: the settings from the first provider listing the model, else `ValueError`. */
  method GetModelSettings(registry: seq<ProviderEntry>, model: string) returns (r: Result<Dict, RegistryError>)
    ensures r.Err? <==> forall i :: 0 <= i < |registry| ==> !Lists(registry[i], model)
    ensures r.Err? ==> r.error == ModelNotInSettings(model)
    ensures r.Ok? ==> exists i :: (0 <= i < |registry| && Lists(registry[i], model) &&
      (forall k :: 0 <= k < i ==> !Lists(registry[k], model)) &&
      r.value == SettingsOf(Models(registry[i]), model))
  {
    var i := 0;
    while i < |registry|
      invariant 0 <= i <= |registry|
      invariant forall k :: 0 <= k < i ==> !Lists(registry[k], model)
    {
      var provider := registry[i];
      if provider.embeddingsModels.Some? {
        var found := FindModel(provider.embeddingsModels.value, model);
        assert Models(provider) == provider.embeddingsModels.value;
        if found.Some? {
          assert Lists(registry[i], model);
          return Ok(found.value);
        }
      }
      assert !Lists(provider, model);
      i := i + 1;
    }
    r := Err(ModelNotInSettings(model));
  }

  /** The dict lookup `models_map[model]`, or `None` when the name is not a key. */
  method FindModel(models: seq<ModelEntry>, model: string) returns (r: Option<Dict>)
    ensures r.Some? <==> exists j :: 0 <= j < |models| && models[j].name == model
    ensures r.Some? ==> r.value == SettingsOf(models, model)
  {
    var j := 0;
    while j < |models|
      invariant 0 <= j <= |models|
      invariant forall k :: 0 <= k < j ==> models[k].name != model
    {
      if models[j].name == model {
        SettingsAt(models, j, model);
        return Some(models[j].modelSettings);
      }
      j := j + 1;
    }
    r := None;
  }

  /** The first entry with the name gives the settings. */
  lemma {:induction false} SettingsAt(models: seq<ModelEntry>, j: nat, model: string)
    requires j < |models| && models[j].name == model
    requires forall k :: 0 <= k < j ==> models[k].name != model
    ensures SettingsOf(models, model) == models[j].modelSettings
  {
    if j > 0 {
      SettingsAt(models[1..], j - 1, model);
    }
  }

  // ------------------------------------------------------------ the provider table

  /** The `model_settings` the three embedding model classes declare. */
  const TitanImageSettings: Dict :=
    map["embeddingConfig" := Obj(map["outputEmbeddingLength" := Str("Only the following values are accepted: 256, 512, 1024.")])]
  const TitanTextSettings: Dict :=
    map["dimensions" := Str("Only the following values are accepted: 1024 (default), 512, 256."),
        "normalize" := Str("True or False")]
  const ClipSettings: Dict := map["device" := Str("torch device: mps, cpu, cuda")]

  /** The provider table as the settings module writes it: the models sit under `embeddings_model`, so no entry has `embeddings_models`. */
  const ShippedRegistry: seq<ProviderEntry> := [ProviderEntry("AWS", None), ProviderEntry("OpenAI", None)]

  /**
   * The table as `list_models` and `get_model_settings` read it: the models under
   * `embeddings_models`. Readers of the table are split between the two keys.
   */
  const IntendedRegistry: seq<ProviderEntry> := [
    ProviderEntry("AWS", Some([ModelEntry("amazon.titan-embed-image-v1", TitanImageSettings),
                               ModelEntry("amazon.titan-embed-text-v2:0", TitanTextSettings)])),
    ProviderEntry("OpenAI", Some([ModelEntry("openai.clip-vit-base-patch32", ClipSettings)]))
  ]

  /** As written, every provider lists no models and no model can be looked up. */
  lemma ShippedRegistryListsNothing(model: string)
    ensures DistinctNames(ShippedRegistry)
    ensures forall i :: 0 <= i < |ShippedRegistry| ==> ModelNames(ShippedRegistry[i]) == [] && !Lists(ShippedRegistry[i], model)
  {
  }

  /** As written, looking up the Titan text model fails although the settings module declares it. */
  method ShippedLookupFails() returns (r: Result<Dict, RegistryError>)
    ensures r == Err(ModelNotInSettings("amazon.titan-embed-text-v2:0"))
  {
    ShippedRegistryListsNothing("amazon.titan-embed-text-v2:0");
    r := GetModelSettings(ShippedRegistry, "amazon.titan-embed-text-v2:0");
  }

  /** With the models under the key these two functions read, they are listed in declaration order. */
  lemma IntendedRegistryListsModels()
    ensures DistinctNames(IntendedRegistry)
    ensures ModelNames(IntendedRegistry[0]) == ["amazon.titan-embed-image-v1", "amazon.titan-embed-text-v2:0"]
    ensures ModelNames(IntendedRegistry[1]) == ["openai.clip-vit-base-patch32"]
  {
  }

  /** With the models under the key these two functions read, looking up the Titan text model gives its declared settings. */
  method IntendedLookupFinds() returns (r: Result<Dict, RegistryError>)
    ensures r == Ok(TitanTextSettings)
  {
    var models := Models(IntendedRegistry[0]);
    assert models[1].name == "amazon.titan-embed-text-v2:0";
    assert Lists(IntendedRegistry[0], "amazon.titan-embed-text-v2:0");
    assert !Lists(IntendedRegistry[1], "amazon.titan-embed-text-v2:0");
    r := GetModelSettings(IntendedRegistry, "amazon.titan-embed-text-v2:0");
  }
}
