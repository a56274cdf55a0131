/**
 * The OpenAI provider: its lazily initialised connection, the login guard and the
 * conversion of a chat history into the chat-completions message format.
 */
module OpenAIProvider {

  import opened Wrappers
  import opened Values
  import opened Strings
  import Chat

  /** The SDK client `openai.OpenAI(api_key=...)`; only the key it was built with is observable. */
  class OpenAIClient {
    const apiKey: string

    constructor (apiKey: string)
      ensures this.apiKey == apiKey
    {
      this.apiKey := apiKey;
    }
  }

  /**
   * `OpenAIConnection`: a two-state machine, `client == null` until the first
   * `GetClient` (or an explicit `InitConnection`), initialised afterwards.
   */
  class OpenAIConnection {
    const apiKey: string
    const otherSetting: Option<Dict>
    var client: OpenAIClient?

    /** Stores the key and the settings as given; no client yet. */
    constructor (apiKey: string, otherSetting: Option<Dict>)
      ensures this.apiKey == apiKey && this.otherSetting == otherSetting
      ensures client == null
    {
      this.apiKey := apiKey;
      this.otherSetting := otherSetting;
      client := null;
    }

    /** Builds a new SDK client from the stored key. */
    method InitConnection()
      modifies this
      ensures client != null && fresh(client)
      ensures client.apiKey == apiKey
    {
      client := new OpenAIClient(apiKey);
    }

    /** Initialises only when there is no client yet; afterwards hands back the same client. */
    method GetClient() returns (c: OpenAIClient)
      modifies this
      ensures client == c
      ensures old(client) != null ==> c == old(client)
      ensures old(client) == null ==> fresh(c) && c.apiKey == apiKey
    {
      if client == null {
        InitConnection();
      }
      c := client;
    }

    /** The settings given at construction. */
    function GetOtherSetting(): (s: Option<Dict>)
      ensures s == otherSetting
    {
      otherSetting
    }
  }

  /** Two calls in a row build one client: the second returns the first one's client. */
  method GetClientTwice(conn: OpenAIConnection) returns (c1: OpenAIClient, c2: OpenAIClient)
    modifies conn
    ensures c1 == c2 && conn.client == c1
    ensures old(conn.client) == null ==> fresh(c1) && c1.apiKey == conn.apiKey
  {
    c1 := conn.GetClient();
    c2 := conn.GetClient();
  }

  datatype LoginError = OpenAIConnectionNotFound

  /**
   * `require_login`: the wrapped call runs, unchanged, only when an "OpenAI" connection is
   * registered (`registered` is the set of names the connection manager holds).
   */
  function RequireLogin<A, B>(registered: set<string>, f: A -> B, args: A): (r: Result<B, LoginError>)
    ensures r.Ok? <==> "OpenAI" in registered
    ensures r.Ok? ==> r.value == f(args)
  {
    if "OpenAI" !in registered then Err(OpenAIConnectionNotFound) else Ok(f(args))
  }

  /** One element of a chat-completions message's `content` list. */
  datatype ContentPart = TextPart(text: string) | ImageUrlPart(url: string)

  datatype OpenAIMessage = OpenAIMessage(role: string, content: seq<ContentPart>)

  datatype FormatError = ImageMustBeUrl

  /** The images of a history entry (`None` and `[]` alike give none). */
  function Images(e: Chat.HistoryEntry): seq<string>
  {
    if e.images.Some? then e.images.value else []
  }

  predicate IsUrl(image: string) { StartsWith(image, "http") }

  /** The entry can be formatted: each of its images is a URL. */
  predicate Formattable(e: Chat.HistoryEntry)
  {
    forall j :: 0 <= j < |Images(e)| ==> IsUrl(Images(e)[j])
  }

  /** The message the formatter emits for one entry: the text part, then one `image_url` part per image. */
  function Formatted(e: Chat.HistoryEntry): (m: OpenAIMessage)
    ensures m.role == e.role
    ensures |m.content| == 1 + |Images(e)|
    ensures m.content[0] == TextPart(e.content)
    ensures forall j :: 0 <= j < |Images(e)| ==> m.content[1 + j] == ImageUrlPart(Images(e)[j])
  {
    OpenAIMessage(e.role, [TextPart(e.content)] + seq(|Images(e)|, j requires 0 <= j < |Images(e)| => ImageUrlPart(Images(e)[j])))
  }

  /** The loop body of the formatter for one entry: its content parts, or `ValueError` on a non-URL image. */
  method FormatMessage(message: Chat.HistoryEntry) returns (r: Result<OpenAIMessage, FormatError>)
    ensures r.Ok? <==> Formattable(message)
    ensures r.Ok? ==> r.value == Formatted(message)
  {
    var content := [TextPart(message.content)];
    if message.images.Some? && |message.images.value| > 0 {
      var images := message.images.value;
      var j := 0;
      while j < |images|
        invariant 0 <= j <= |images|
        invariant forall k :: 0 <= k < j ==> IsUrl(images[k])
        invariant |content| == 1 + j && content[0] == TextPart(message.content)
        invariant forall k :: 0 <= k < j ==> content[1 + k] == ImageUrlPart(images[k])
      {
        if StartsWith(images[j], "http") {
          content := content + [ImageUrlPart(images[j])];
        } else {
          assert !IsUrl(Images(message)[j]);
          return Err(ImageMustBeUrl);
        }
        j := j + 1;
      }
    }
    assert content == Formatted(message).content;
    r := Ok(OpenAIMessage(message.role, content));
  }

  /**
   * `utils.format_chat_to_openai_format`: one message per entry, in order, or `ValueError`
   * as soon as an image is not a URL.
   */
  method FormatChatToOpenAIFormat(chat: seq<Chat.HistoryEntry>) returns (r: Result<seq<OpenAIMessage>, FormatError>)
    ensures r.Ok? <==> forall i :: 0 <= i < |chat| ==> Formattable(chat[i])
    ensures r.Ok? ==> |r.value| == |chat| && forall i :: 0 <= i < |chat| ==> r.value[i] == Formatted(chat[i])
  {
    var messages: seq<OpenAIMessage> := [];
    var i := 0;
    while i < |chat|
      invariant 0 <= i <= |chat|
      invariant forall k :: 0 <= k < i ==> Formattable(chat[k])
      invariant |messages| == i
      invariant forall k :: 0 <= k < i ==> messages[k] == Formatted(chat[k])
    {
      var m := FormatMessage(chat[i]);
      if m.Err? {
        return Err(m.error);
      }
      messages := messages + [m.value];
      i := i + 1;
    }
    r := Ok(messages);
  }
}
