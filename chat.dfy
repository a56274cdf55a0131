/** The chat history kept by a chat model: an append-only list of messages. */
module Chat {

  import opened Wrappers

  /** `Literal['user', 'assistant', 'system']`: pydantic refuses any other role. */
  datatype Role = User | Assistant | System

  function RoleName(r: Role): string
  {
    match r
    case User => "user"
    case Assistant => "assistant"
    case System => "system"
  }

  /** `ChatMessage`; `images` is `None` unless the message carries at least one image. */
  datatype ChatMessage = ChatMessage(role: Role, content: string, images: Option<seq<string>>, timestamp: Option<string>)

  /** One dict of `get_history()`. */
  datatype HistoryEntry = HistoryEntry(role: string, content: string, images: Option<seq<string>>, timestamp: Option<string>)

  /** The message `add_message` stores: the images only when the list is non-empty (`if images:`). */
  function NewMessage(role: Role, content: string, images: Option<seq<string>>, timestamp: Option<string>): (m: ChatMessage)
    ensures m.role == role && m.content == content && m.timestamp == timestamp
    ensures m.images.Some? <==> images.Some? && |images.value| > 0
    ensures m.images.Some? ==> m.images == images
  {
    if images.Some? && |images.value| > 0 then ChatMessage(role, content, images, timestamp)
    else ChatMessage(role, content, None, timestamp)
  }

  /** `[image for image in message.images] if message.images else None`. */
  function CopyImages(images: Option<seq<string>>): (r: Option<seq<string>>)
    ensures r.Some? <==> images.Some? && |images.value| > 0
    ensures r.Some? ==> (|r.value| == |images.value| &&
      forall i :: 0 <= i < |r.value| ==> r.value[i] == images.value[i])
  {
    if images.Some? && |images.value| > 0 then Some(seq(|images.value|, i requires 0 <= i < |images.value| => images.value[i]))
    else None
  }

  /** The dict `get_history` reports for one message. */
  function Entry(m: ChatMessage): HistoryEntry
  {
    HistoryEntry(RoleName(m.role), m.content, CopyImages(m.images), m.timestamp)
  }

  /** `get_history` over a list of messages. */
  function History(messages: seq<ChatMessage>): (h: seq<HistoryEntry>)
    ensures |h| == |messages|
    ensures forall i :: 0 <= i < |h| ==> h[i] == Entry(messages[i])
  {
    seq(|messages|, i requires 0 <= i < |messages| => Entry(messages[i]))
  }

  /** The history of a longer list extends the history of the shorter one by the new entry. */
  lemma HistoryAppend(messages: seq<ChatMessage>, m: ChatMessage)
    ensures History(messages + [m]) == History(messages) + [Entry(m)]
  {
  }

  /** A role survives the history and the formatter's projection unchanged, and only the three literals occur. */
  lemma RoleNames(r: Role)
    ensures RoleName(r) in {"user", "assistant", "system"}
    ensures forall r' :: RoleName(r') == RoleName(r) ==> r' == r
  {
  }

  /** A stored message's images survive `get_history` exactly, and an image-less message reports `None`. */
  lemma {:induction false} EntryImages(role: Role, content: string, images: Option<seq<string>>, timestamp: Option<string>)
    ensures Entry(NewMessage(role, content, images, timestamp)).images ==
      (if images.Some? && |images.value| > 0 then images else None)
  {
    var m := NewMessage(role, content, images, timestamp);
    if images.Some? && |images.value| > 0 {
      assert CopyImages(m.images).value == images.value;
    }
  }

  class ChatManager {
    var messages: seq<ChatMessage>

    /** A fresh manager has no messages. */
    constructor ()
      ensures messages == []
    {
      messages := [];
    }

    /** Appends one message at the end; the earlier messages are untouched. */
    method AddMessage(role: Role, content: string, images: Option<seq<string>> := None, timestamp: Option<string> := None)
      modifies this
      ensures messages == old(messages) + [NewMessage(role, content, images, timestamp)]
      ensures GetHistory() == old(GetHistory()) + [Entry(NewMessage(role, content, images, timestamp))]
    {
      messages := messages + [NewMessage(role, content, images, timestamp)];
      HistoryAppend(old(messages), NewMessage(role, content, images, timestamp));
    }

    /** One entry per message, in insertion order, with the same role, content, images and timestamp. */
    function GetHistory(): (h: seq<HistoryEntry>)
      reads this
      ensures h == History(messages)
    {
      History(messages)
    }
  }
}
