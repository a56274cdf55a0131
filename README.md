# ntropy credential vault and provider core, in Dafny

This project models the deterministic core of the ntropy multimodal RAG toolkit. Its
centre is the credential vault `BaseAuth`. The vault keeps a `providers` table of
third-party credentials: service name, label, three secret columns and a JSON settings
column. Each secret is encrypted with the vault's RSA public key (RSAES-OAEP with SHA-256
and MGF1-SHA-256, section 7.1 of RFC 8017). The vault offers five operations:

- `add_provider` appends a row.
- `update_provider` does a null-coalescing update of every row of a service.
- `delete_provider` removes every row of a service.
- `list_providers` shows a masked view.
- `get_creds` shows a decrypted view.

`connect` opens a vault and walks the decrypted credentials. For each service the provider
registry knows, it builds the provider's connection, initialises it and registers it in
the connection manager.

Around the vault the model covers:

- the credential record types and their defaults;
- the chat history kept by `ChatManager`;
- the OpenAI and AWS connections, which build their SDK client lazily, and the login guards;
- the conversion of a chat history into OpenAI chat-completions messages;
- the request body the two Bedrock embedding entry points build;
- the RAG prompt assembly;
- the `list_models` and `get_model_settings` queries over the provider table.

Modules, one per component:

| module | file | models |
|---|---|---|
| `Wrappers`, `Values`, `Strings` | wrappers.dfy, values.dfy, strings.dfy | `None`/exceptions as `Option`/`Result`/`Outcome`, Python dict values, string slicing and UTF-8 length |
| `AuthFormat` | auth_format.dfy | the five pydantic credential records |
| `Cipher` | cipher.dfy | the vault's `encrypt`/`decrypt` |
| `VaultTable` | vault_table.dfy | the rows of the `providers` table and the pure rules the vault applies to them |
| `Vault` | vault.dfy | `BaseAuth`, the database tables and the `connect` registration loop |
| `Connections` | connections.dfy | the connection manager, seen as a map, and the provider registry used by `connect` |
| `Chat` | chat.dfy | `ChatManager` |
| `OpenAIProvider` | openai_provider.dfy | `OpenAIConnection`, `require_login`, `format_chat_to_openai_format` |
| `AwsBody`, `AwsProvider`, `AwsEmbeddings` | aws_body.dfy, aws_provider.dfy, aws_embeddings.dfy | `AWSConnection`, `require_login`, the body building of `create_embeddings` and `AWSEmbeddings` |
| `Prompt` | prompt.dfy | `RagPrompt` |
| `EmbeddingsRegistry` | embeddings_registry.dfy | `list_models`, `get_model_settings` |

Modelling choices:

- **Encryption.** The cipher is modelled concretely. A ciphertext records the key pair that made
  it, the padding's random seed and the plaintext. Decryption succeeds exactly when the private
  key belongs to that pair. A plaintext longer than 190 UTF-8 bytes is refused, because
  k - 2hLen - 2 = 256 - 64 - 2 (section 7.1.1 of RFC 8017). The seed is a parameter of every
  encryption, and a record's three secrets take three seeds (`VaultTable.Seeds`), one per
  `encrypt` call.
- **Database.** The database is a `Database` object with two `seq` fields: `auth` (public keys)
  and `providers` (rows). SQL NULL is `None`.
- **Settings column.** The JSON column is a `JsonText` wrapping the dict that `json.loads` gives
  back.
- **Truthiness.** Python truthiness is modelled explicitly. An empty secret is stored as NULL, and
  so is an empty settings dict. A label is stored as given.
- **`connect` inputs.** `connect` receives the key material, the database (`null` when the file
  does not exist), the provider registry and the connection manager as parameters.
- **Connection manager.** Provider functions that consult the connection manager receive what it
  holds: the set of registered names, or the `AWSConnection` registered under "AWS".
- **File reads.** Reading an image file is a `files` map from path to base64 text. The existence
  check of `RagPrompt` is a set of existing paths. Its download branch is a map from URL to the
  temporary file the image was saved in.

Three behaviours of `connect` and `delete_provider` are modelled as the vault code has them:

- **Eager initialisation.** `connect` calls `init_connection` on every connection it builds
  before registering it (build/lib/ntropy/core/auth/__init__.py:118), so the client exists
  from the start.
- **Stop on first refusal.** An exception raised by `model_validate` or by the connection
  constructor ends `connect` (build/lib/ntropy/core/auth/__init__.py:116-117). Connections
  registered before it stay registered, and later credentials are not looked at.
- **Delete all matches.** `DELETE ... WHERE service_name = ?`
  (build/lib/ntropy/core/auth/__init__.py:214) removes every row of the service, not just one.

## Model

| member | source | states |
|---|---|---|
| AuthFormat.DefaultServiceName | ntropy/core/utils/auth_format.py:6-45 | the service name a record class gets by default is the `service_name` of its default instance |
| AuthFormat.AWSAuthDefaults | ntropy/core/utils/auth_format.py:6-12 | `AWSAuth` defaults: service "AWS", no access key, no secret, no label, no settings |
| AuthFormat.OpenAIAuthDefaults | ntropy/core/utils/auth_format.py:15-20 | `OpenAIAuth` defaults: service "OpenAI", no api key, no label, no settings |
| AuthFormat.ApiKeyRecordDefaults | ntropy/core/utils/auth_format.py:23-45 | Anthropic, Mistral and Pinecone default to their own service names, and every api-key record defaults to no key, label or settings |
| AuthFormat.DefaultsCarryNoSecret | ntropy/core/utils/auth_format.py:6-45 | a default record of any class keeps its id and carries no secret |
| Cipher.Encrypt | build/lib/ntropy/core/auth/__init__.py:24-32 | encryption fails exactly when the UTF-8 text exceeds the OAEP limit of 190 bytes |
| Cipher.Decrypt | build/lib/ntropy/core/auth/__init__.py:34-42 | decryption fails exactly when the private key is not of the encrypting pair |
| Cipher.RoundTrip | build/lib/ntropy/core/auth/__init__.py:24-42 | `decrypt(encrypt(s)) == s` under a matching key pair |
| Cipher.WrongKeyRejected | build/lib/ntropy/core/auth/__init__.py:34-42 | a private key of another pair is refused |
| Cipher.Probabilistic | build/lib/ntropy/core/auth/__init__.py:24-32 | two different padding seeds give two different ciphertexts of one text |
| Cipher.ShortTextsFit | build/lib/ntropy/core/auth/__init__.py:24-32 | any text of at most 47 characters can be encrypted |
| Cipher.LongTextsRefused | build/lib/ntropy/core/auth/__init__.py:24-32 | any text of more than 190 characters is refused |
| Strings.Take | build/lib/ntropy/core/auth/__init__.py:187 | `s[:n]` is the prefix of length min(n, len(s)) |
| Strings.TakeLast | build/lib/ntropy/core/auth/__init__.py:189 | for n > 0, `s[-n:]` is the suffix of length min(n, len(s)) |
| VaultTable.EncryptField | build/lib/ntropy/core/auth/__init__.py:161-163 | an empty or missing secret is stored as NULL; a present one is encrypted, failing without a public key or when it is too long |
| VaultTable.DecryptField | build/lib/ntropy/core/auth/__init__.py:181-183 | a NULL column decrypts to `None`; a stored one needs the loaded key of its pair |
| VaultTable.Seal | build/lib/ntropy/core/auth/__init__.py:159-163 | the encrypted columns exist exactly when no present secret is unstorable, the api-key error coming first; each secret column is set exactly for a non-empty secret, the settings exactly for a non-empty dict |
| VaultTable.NewRow | build/lib/ntropy/core/auth/__init__.py:159-167 | the inserted row exists exactly when every present secret can be encrypted; it copies service name and label and has a secret column exactly where the record has a non-empty secret |
| VaultTable.Coalesce | build/lib/ntropy/core/auth/__init__.py:137 | SQL `COALESCE`: the new value when given, else the old one |
| VaultTable.UpdateRows | build/lib/ntropy/core/auth/__init__.py:134-139 | same row count, rows of other services unchanged, rows of the service coalesced column by column |
| VaultTable.DecryptRow | build/lib/ntropy/core/auth/__init__.py:245-257 | a decrypted row keeps service name and label and parses the settings text |
| VaultTable.MaskApiKey | build/lib/ntropy/core/auth/__init__.py:187 | a present api key shows as its first two characters and "******"; none stays none |
| VaultTable.MaskAccessKey | build/lib/ntropy/core/auth/__init__.py:189 | a present access key shows as first two characters, "******", last two characters; none stays none |
| VaultTable.FirstMatch | build/lib/ntropy/core/auth/__init__.py:224-225 | the index of the first row of a service, or none when no row has it |
| VaultTable.StoredRowDecrypts | build/lib/ntropy/core/auth/__init__.py:159-167 | a row added with the public key decrypts, under the matching private key, to the record's own values, with empty ones as NULL |
| VaultTable.EqualSecretsStoredApart | build/lib/ntropy/core/auth/__init__.py:161-163 | each `encrypt` call draws its own padding seed, so two equal secrets of one record get different ciphertexts |
| VaultTable.ShortSecretsStore | build/lib/ntropy/core/auth/__init__.py:161-163 | a record whose secrets have at most 47 characters can always be stored once a public key is loaded |
| VaultTable.EmptyUpdateIsNoOp | build/lib/ntropy/core/auth/__init__.py:135-139 | an update carrying no label, secret or settings leaves the table unchanged |
| VaultTable.UpdateKeepsUnsupplied | build/lib/ntropy/core/auth/__init__.py:135-139 | every column the update leaves NULL keeps its old value in every row, and no service name changes |
| VaultTable.UpdateIdempotent | build/lib/ntropy/core/auth/__init__.py:135-139 | applying the same update twice equals applying it once |
| VaultTable.RemoveMatches | build/lib/ntropy/core/auth/__init__.py:214 | `DELETE ... WHERE service_name = ?` leaves no row of the service and removes exactly as many rows as `COUNT(*)` counts |
| VaultTable.RemoveAppend | build/lib/ntropy/core/auth/__init__.py:214 | deleting from a concatenation deletes from each part |
| VaultTable.RemoveNothing | build/lib/ntropy/core/auth/__init__.py:206-212 | deleting a service with no row leaves the table unchanged |
| VaultTable.RemoveExact | build/lib/ntropy/core/auth/__init__.py:214 | after deletion no row of the service remains, exactly the matching rows are gone, and every remaining row was there before |
| VaultTable.RemoveKeepsOthers | build/lib/ntropy/core/auth/__init__.py:214 | every row of another service survives deletion |
| VaultTable.AddThenDelete | build/lib/ntropy/core/auth/__init__.py:166-167 | adding a credential and then deleting its service equals deleting the service alone |
| VaultTable.DecryptRowsPointwise | build/lib/ntropy/core/auth/__init__.py:241-258 | `get_creds()` succeeds exactly when every row decrypts, and then returns one record per row in table order |
| VaultTable.MaskRowsPointwise | build/lib/ntropy/core/auth/__init__.py:174-194 | `list_providers` succeeds exactly when every row decrypts, and then returns one entry per row in table order |
| VaultTable.MaskIffDecrypt | build/lib/ntropy/core/auth/__init__.py:179-191 | a row can be listed exactly when it can be decrypted |
| VaultTable.ApiKeyMaskHides | build/lib/ntropy/core/auth/__init__.py:187 | two api keys that share their first two characters have the same mask |
| VaultTable.AccessKeyMaskHides | build/lib/ntropy/core/auth/__init__.py:189 | two access keys that share their first two and last two characters have the same mask |
| VaultTable.MaskLengths | build/lib/ntropy/core/auth/__init__.py:187-189 | a masked key shows at most two (api key) or four (access key) characters besides the stars |
| VaultTable.ListedView | build/lib/ntropy/core/auth/__init__.py:178-191 | each listed entry keeps service, label and raw settings, masks both keys and shows the secret only as "******" |
| Vault.Database.constructor | build/lib/ntropy/core/auth/__init__.py:80-84 | a new database has one public-key row and no credentials |
| Vault.StepFor | build/lib/ntropy/core/auth/__init__.py:113-120 | a credential is skipped exactly when its service is not in the registry; a registration uses the credential's own keys and settings, under its service name |
| Vault.PlanFor | build/lib/ntropy/core/auth/__init__.py:112-120 | the loop registers at most one connection per credential and ends without an error exactly when no credential is refused |
| Vault.PlanRegistersKnownOnly | build/lib/ntropy/core/auth/__init__.py:114-115 | `connect` registers only names found in the registry |
| Vault.SkipsUnknown | build/lib/ntropy/core/auth/__init__.py:114-115 | a credential of an unknown service changes nothing `connect` does |
| Vault.LatestIsLast | build/lib/ntropy/core/auth/__init__.py:120 | a name is registered exactly when some registration names it, and its connection is the one from its last registration |
| Vault.ReconnectResilience | build/lib/ntropy/core/auth/__init__.py:112-120 | with an unknown service stored before a valid AWS credential, `connect` completes and registers exactly the AWS connection |
| Vault.SingleAwsCredential | build/lib/ntropy/core/auth/__init__.py:113-120 | one well-formed AWS credential yields exactly one registration, under "AWS", with its keys and settings |
| Vault.StoredAwsCredentialConnects | build/lib/ntropy/core/auth/__init__.py:101-120 | an AWS credential added to the vault decrypts on `connect` and yields the AWS connection with the stored keys and settings |
| Vault.BaseAuth.constructor | build/lib/ntropy/core/auth/__init__.py:16-21 | a new vault has no database open and no key loaded |
| Vault.BaseAuth.AddProvider | build/lib/ntropy/core/auth/__init__.py:144-168 | fails without a database, or without a public-key row, leaving the table unchanged; otherwise appends exactly the encrypted row, or leaves the table unchanged when a secret cannot be encrypted |
| Vault.BaseAuth.UpdateProvider | build/lib/ntropy/core/auth/__init__.py:124-141 | fails without a database; otherwise the table becomes the coalescing update of the record's service, or stays unchanged when a secret cannot be encrypted |
| Vault.BaseAuth.DeleteProvider | build/lib/ntropy/core/auth/__init__.py:196-216 | fails without a database; otherwise removes exactly the rows of the record's service, and is a no-op when there are none |
| Vault.BaseAuth.ListProviders | build/lib/ntropy/core/auth/__init__.py:171-194 | fails without a database; otherwise returns the masked view of every row, in order |
| Vault.BaseAuth.GetCreds | build/lib/ntropy/core/auth/__init__.py:240-258 | fails without a database; otherwise returns the decrypted view of every row, in order |
| Vault.BaseAuth.GetCredsOf | build/lib/ntropy/core/auth/__init__.py:223-239 | fails without a database; otherwise returns none exactly when no row has the class's default service name, and else the decrypted first such row |
| Vault.BaseAuth.Connect | build/lib/ntropy/core/auth/__init__.py:87-120 | missing database and missing or unreadable key fail; otherwise the database and key are set, an empty auth table fails, and the public key is its first row; then every registered name gets a fresh, initialised connection realising its last registration, other entries unchanged |
| Vault.RegisterAll | build/lib/ntropy/core/auth/__init__.py:112-120 | the loop registers, in order, a fresh initialised connection for each known service, stops at the first refused credential, and leaves other manager entries unchanged |
| Connections.ConnectionManager.constructor | build/lib/ntropy/core/auth/__init__.py:120 | a new manager holds no connection |
| Connections.ConnectionManager.AddConnection | build/lib/ntropy/core/auth/__init__.py:120 | registering a name overwrites its entry and changes no other |
| Connections.ConnectionManager.GetConnection | ntropy/core/providers/aws.py:87-91 | `get_connection(name)` as the AWS and OpenAI helpers and login guards call it (also ntropy/core/providers/openai.py:34, 47): the entry under a name, or none exactly when nothing is registered under it |
| Connections.Open | build/lib/ntropy/core/auth/__init__.py:116-118 | the connection is built from the validated credential and initialised |
| Chat.NewMessage | ntropy/core/utils/chat/__init__.py:11-14 | a stored message keeps role, content and timestamp, and has images exactly when the given list is non-empty |
| Chat.CopyImages | ntropy/core/utils/chat/__init__.py:22 | reported images are an element-wise copy, or none when absent or empty |
| Chat.History | ntropy/core/utils/chat/__init__.py:17-26 | one entry per message, in order, each the message's projection |
| Chat.HistoryAppend | ntropy/core/utils/chat/__init__.py:15-26 | the history of a longer message list extends the old history by the new entry |
| Chat.RoleNames | ntropy/core/utils/chat/__init__.py:10 | the role is one of "user", "assistant", "system", and distinct roles have distinct names |
| Chat.EntryImages | ntropy/core/utils/chat/__init__.py:11-22 | the history reports a message's images exactly when a non-empty list was added |
| Chat.ChatManager.constructor | ntropy/core/utils/chat/__init__.py:7-8 | a fresh manager has no messages |
| Chat.ChatManager.AddMessage | ntropy/core/utils/chat/__init__.py:10-15 | the message list grows by exactly the new message at the end, and so does the history |
| Chat.ChatManager.GetHistory | ntropy/core/utils/chat/__init__.py:17-26 | the history is the per-message projection of the stored list |
| OpenAIProvider.OpenAIConnection.constructor | ntropy/core/providers/openai.py:56-66 | the key and the settings are stored as given, with no client yet |
| OpenAIProvider.OpenAIConnection.InitConnection | ntropy/core/providers/openai.py:68-76 | a new client is built from the stored key |
| OpenAIProvider.OpenAIConnection.GetClient | ntropy/core/providers/openai.py:79-88 | initialises only when there is no client, otherwise returns the existing one |
| OpenAIProvider.OpenAIConnection.GetOtherSetting | ntropy/core/providers/openai.py:90-97 | returns the settings given at construction |
| OpenAIProvider.GetClientTwice | ntropy/core/providers/openai.py:79-88 | two calls return the same client, built once |
| OpenAIProvider.RequireLogin | ntropy/core/providers/openai.py:36-50 | the wrapped call runs, unchanged, exactly when "OpenAI" is registered |
| OpenAIProvider.Formatted | ntropy/core/providers/openai.py:115-126 | a formatted message keeps the role, starts with the text part and has one `image_url` part per image, in order |
| OpenAIProvider.FormatMessage | ntropy/core/providers/openai.py:116-125 | one entry formats exactly when each of its images starts with "http" |
| OpenAIProvider.FormatChatToOpenAIFormat | ntropy/core/providers/openai.py:104-127 | succeeds exactly when every image of every entry is a URL, and then gives one formatted message per entry, in order |
| AwsProvider.AWSConnection.constructor | ntropy/core/providers/aws.py:60-66 | region and service default to "us-east-1" and "bedrock" when absent from the settings; no client yet |
| AwsProvider.AWSConnection.InitConnection | ntropy/core/providers/aws.py:68-79 | a new client is built from the stored keys, service and region |
| AwsProvider.AWSConnection.GetClient | ntropy/core/providers/aws.py:81-84 | initialises only when there is no client, otherwise returns the existing one |
| AwsProvider.ConnectionExample | tests/providers-aws-test.py:27-31 | settings `{"region_name": "us-west-2"}` keep that region and default the service to "bedrock" |
| AwsProvider.RequireLogin | ntropy/core/providers/aws.py:89-94 | the wrapped call runs, unchanged, exactly when "AWS" is registered |
| AwsProvider.BuildBody | ntropy/core/providers/aws.py:116-147 | the body-building steps compute the specified body, or the first error |
| AwsProvider.CreateEmbeddings | ntropy/core/providers/aws.py:98-163 | no connection and unknown model fail, and so does a body error; otherwise the client is built lazily, the request carries the specified body, model id and JSON mime types, and the result is the vector built from the answer, or its refusal when there is neither text nor image |
| AwsBody.Body | ntropy/core/providers/aws.py:116-147 | building fails exactly for a plain string (no `page_content`) or an unreadable image, with that error; otherwise it is the sent body of the document's text and encoded image |
| AwsBody.SentBody | ntropy/core/providers/aws.py:119-147 | the sent body never holds `model_name`, and holds only schema keys, `inputText` and `inputImage` |
| AwsBody.Overridden | ntropy/core/providers/aws.py:119-124 | the keys stay the schema keys; a key takes the user's value when given, the default otherwise |
| AwsBody.Defined | ntropy/core/providers/aws.py:139-141 | exactly the keys with a defined value remain, with their values |
| AwsBody.EncodedImage | ntropy/core/providers/aws.py:131-132 | an image is encoded exactly when the document has a readable, non-empty image path |
| AwsBody.FilledKeys | ntropy/core/embeddings/aws.py:96-113 | before stripping, the body's keys are the schema keys plus `inputText`, `model_name`, and `inputImage` when an image was read |
| AwsBody.SentBodyInputs | ntropy/core/providers/aws.py:127-147 | the sent body never has `model_name`, always has `inputText` with the text, and has `inputImage` with the encoded image when one was read |
| AwsBody.SentBodySettings | ntropy/core/providers/aws.py:119-141 | every other key is a schema key, present exactly when its value (user's or default) is defined, and holds that value |
| AwsBody.UnknownSettingsIgnored | ntropy/core/providers/aws.py:122-124 | a user setting outside the schema never reaches the body |
| AwsBody.ApplyOverrides | ntropy/core/providers/aws.py:122-124 | the override loop computes the overridden body |
| AwsBody.StripUndefined | ntropy/core/providers/aws.py:139-141 | the deletion loop removes exactly the undefined entries |
| AwsBody.FindUnknownKey | ntropy/core/embeddings/aws.py:116-118 | finds a user key outside the body keys exactly when there is one; which unknown key is named is not fixed (see Left out) |
| AwsBody.ToVector | ntropy/core/providers/aws.py:156-162 | refused exactly when the text is falsy and there is no image path (`content: str` takes no `None`); otherwise `size` is the vector's length, the data type is "text" exactly when the text is non-empty, and the content is the text, else the image path |
| AwsBody.TitanTextExample | ntropy/core/providers/aws.py:44-53 | Titan text v2 with dimensions 512 sends text, dimensions 512 and normalize |
| AwsBody.TitanMultimodalExample | ntropy/core/providers/aws.py:28-40 | Titan multimodal without settings omits the factory-built `embeddingConfig` |
| AwsEmbeddings.BuildBody | ntropy/core/embeddings/aws.py:93-129 | the same body as the older entry point when every user key is known; otherwise `ValueError` naming an unknown key |
| AwsEmbeddings.AWSEmbeddings | ntropy/core/embeddings/aws.py:73-145 | a `None` settings dict counts as empty; a body error or an unknown key fails before the client is touched; otherwise the request and the vector, or the vector's refusal when there is neither text nor image, are as in the older entry point |
| AwsEmbeddings.SameBodyWhenAccepted | ntropy/core/embeddings/aws.py:113-118 | the known keys are the schema fields, `inputText`, `model_name`, and `inputImage` for a document with an image |
| AwsEmbeddings.TitanTextSettings | ntropy/core/embeddings/aws.py:116-118 | `dimensions`/`normalize` are accepted for Titan text v2; `foo` is refused |
| Prompt.PartitionSizes | ntropy/core/utils/prompt.py:14-30 | every document lands in one list: text once in `doc_list`, each image twice in `images_list` |
| Prompt.ImagesIffImageDoc | ntropy/core/utils/prompt.py:15-33 | the image list is non-empty exactly when some context document is an image |
| Prompt.PromptText | ntropy/core/utils/prompt.py:33-37 | the prompt starts with "Using this data: " and the space-joined documents and ends with the query |
| Prompt.PromptShape | ntropy/core/utils/prompt.py:33-37 | both prompt forms start with the joined data and end with the query; the image form is 15 characters longer |
| Prompt.Partition | ntropy/core/utils/prompt.py:14-30 | the loop succeeds exactly when every image is usable, building both lists; otherwise it raises for the first unusable image |
| Prompt.RagPrompt.constructor | ntropy/core/utils/prompt.py:32-37 | stores both lists and the context, and the prompt mentions images exactly when there are some |
| Prompt.NewRagPrompt | ntropy/core/utils/prompt.py:11-37 | the prompt exists exactly when every image is usable, with the partition, the unchanged context and the prompt text |
| EmbeddingsRegistry.ModelNames | ntropy/core/embeddings/__init__.py:8-11 | a provider's model names, in order, and none without `embeddings_models` |
| EmbeddingsRegistry.ListModels | ntropy/core/embeddings/__init__.py:5-12 | one key per provider, mapped to `{"embeddings_models": names}` with the provider's model names in `models_map` order |
| EmbeddingsRegistry.GetModelSettings | ntropy/core/embeddings/__init__.py:14-19 | the settings from the first provider listing the model, `ValueError` exactly when none does |
| EmbeddingsRegistry.FindModel | ntropy/core/embeddings/__init__.py:16-17 | the lookup finds a model exactly when the map has it, giving its settings |
| EmbeddingsRegistry.ShippedRegistryListsNothing | ntropy/core/utils/settings.py:15-43 | as written, no provider lists a model |
| EmbeddingsRegistry.ShippedLookupFails | ntropy/core/embeddings/__init__.py:14-19 | as written, looking up "amazon.titan-embed-text-v2:0" raises |
| EmbeddingsRegistry.IntendedRegistryListsModels | ntropy/core/embeddings/__init__.py:5-12 | with the models filed under the key `list_models` reads, they are listed in declaration order |
| EmbeddingsRegistry.IntendedLookupFinds | ntropy/core/providers/aws.py:44-49 | with the models filed under the key `get_model_settings` reads, the Titan text model's declared settings are found |

## Left out

- RSA key generation, PEM serialisation and the OAEP padding arithmetic are not modelled. These are foreign cryptography calls; the cipher model keeps their observable contract (round trip, wrong-key refusal, length limit, and randomness through one padding seed per `encrypt` call).
- `create_db` is not modelled as an operation. Its interactive overwrite prompt, directory and key-file writing, and printing are I/O. The tables it writes are the `Database` constructor. The closed sqlite handle it leaves in `self.db` is not modelled.
- Reading a key file in `connect` is I/O. The key text becomes `KeyMaterial`, with PEM parsing reduced to "loadable or not".
- `connect` does not check that the stored public key belongs to the loaded private key (neither does the source). A mismatch shows up only as a decryption failure.
- AwsBody.FindUnknownKey: the map of user settings has no iteration order, so when several keys are unknown the model names any one of them, where the source names the first in insertion order; whether an error is raised is the same.
- `list_providers` returns the JSON text of the masked list and prints a `tabulate` table; the model returns the list.
- Vault.BaseAuth.Connect: the settings module that `connect` instantiates cannot be built as written (it names `AWSauth`, `OpenAIauth` and a `create_embeddings` of the OpenAI provider, none of which exist). The registry is therefore a parameter, `Connections.ProvidersListMap` giving the intended "AWS" and "OpenAI" entries.
- The `ConnectionManager` source is not part of this model. It is modelled as a map from name to connection where the last registration wins; singleton identity and thread safety are left out.
- `init_connection` failures (`NoCredentialsError`, a refused OpenAI client) are not modelled; initialisation always succeeds.
- AwsProvider.CreateEmbeddings: the pydantic `model_validate` of the body is not modelled (its field constraints live in pydantic), nor is the metadata with `datetime.now()`. The same holds for AwsEmbeddings.AWSEmbeddings.
- `invoke_model`, its JSON response and the float embedding are left out. The embedding is a `seq<real>` parameter standing for the answer.
- The image file read and base64 encoding are the `files` map. In `RagPrompt`, the download of an http image is the `downloads` map and the existence check is the `existing` set.
- The OpenAI chat and CLIP embedding paths, ollama, Pinecone, Chroma and PDF loading are SDK wrappers outside this model.

## Findings

| source | as written | input that shows it | evidently intended | confidence | as-written member | corrected member |
|---|---|---|---|---|---|---|
| ntropy/core/utils/settings.py:22 | the provider table files each provider's models under the key `embeddings_model`, while `list_models` and `get_model_settings` look for `embeddings_models` (ntropy/core/embeddings/__init__.py:9, 16); the readers of the table are split, since `AWSEmbeddings` and the CLIP loader (ntropy/core/providers/openai.py:172) read `embeddings_models` and `create_embeddings` (ntropy/core/providers/aws.py:103) reads `embeddings_model` | `get_model_settings("amazon.titan-embed-text-v2:0")` raises `ValueError`, and `list_models()` gives every provider an empty list; as written `ModelsBaseSettings()` already fails on its imports, so this shows once those imports are repaired | the table as `list_models` and `get_model_settings` read it, with the models under `embeddings_models` | medium, not executed | EmbeddingsRegistry.ShippedLookupFails | EmbeddingsRegistry.IntendedLookupFinds |
