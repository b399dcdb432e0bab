// The gateway's serializer: turns a WhatsApp message event into the flat JSON object
// the core ingests. Protobuf parts and fields that may be unset are Options; the nil-safe
// getters of the generated code become the functions below.

module MessageSerializer {
  import opened Wrappers
  import opened Json

  datatype ExtendedTextMessage = ExtendedTextMessage(text: Option<string>)
  datatype ImageMessage = ImageMessage(caption: Option<string>)
  datatype VideoMessage = VideoMessage(caption: Option<string>)
  datatype AudioMessage = AudioMessage

  /** The parts of a message the gateway looks at; any other content is left unset here. */
  datatype Message = Message(
    conversation: Option<string>,
    extendedText: Option<ExtendedTextMessage>,
    image: Option<ImageMessage>,
    video: Option<VideoMessage>,
    audio: Option<AudioMessage>)

  /** A WhatsApp address: the user part (a phone number or group id) and the server. */
  datatype Jid = Jid(user: string, server: string)

  /** The envelope of a message; the timestamp is already in Unix seconds. */
  datatype MessageInfo = MessageInfo(
    id: string, chat: Jid, sender: Jid, pushName: string, timestamp: int, isFromMe: bool)

  /** A message event; the message itself may be missing. */
  datatype MessageEvent = MessageEvent(info: MessageInfo, message: Option<Message>)

  // ---------------------------------------------------------------------------
  // Nil-safe getters: an unset part or field reads as "" (or as absent)
  // ---------------------------------------------------------------------------

  function Conversation(m: Option<Message>): string {
    if m.Some? then m.value.conversation.GetOr("") else ""
  }

  function ExtendedText(m: Option<Message>): string {
    if m.Some? && m.value.extendedText.Some? then m.value.extendedText.value.text.GetOr("") else ""
  }

  function ImageCaption(m: Option<Message>): string {
    if m.Some? && m.value.image.Some? then m.value.image.value.caption.GetOr("") else ""
  }

  function VideoCaption(m: Option<Message>): string {
    if m.Some? && m.value.video.Some? then m.value.video.value.caption.GetOr("") else ""
  }

  predicate HasExtendedText(m: Option<Message>) { m.Some? && m.value.extendedText.Some? }
  predicate HasImage(m: Option<Message>) { m.Some? && m.value.image.Some? }
  predicate HasVideo(m: Option<Message>) { m.Some? && m.value.video.Some? }
  predicate HasAudio(m: Option<Message>) { m.Some? && m.value.audio.Some? }

  // ---------------------------------------------------------------------------
  // The reference rule: the first non-empty string of a priority list
  // ---------------------------------------------------------------------------

  /** The first non-empty string in `ss`, or "" when there is none. */
  function FirstNonEmpty(ss: seq<string>): (r: string)
    ensures r == "" <==> forall i :: 0 <= i < |ss| ==> ss[i] == ""
    ensures r != "" ==> exists i :: 0 <= i < |ss| && ss[i] == r && forall j :: 0 <= j < i ==> ss[j] == ""
  {
    if ss == [] then ""
    else if ss[0] != "" then ss[0]
    else
      var r := FirstNonEmpty(ss[1..]);
      assert forall i :: 1 <= i < |ss| ==> ss[i] == ss[1..][i - 1];
      if r != "" then
        var k :| 0 <= k < |ss[1..]| && ss[1..][k] == r && forall j :: 0 <= j < k ==> ss[1..][j] == "";
        assert ss[k + 1] == r;
        r
      else r
  }

  /** A string is chosen exactly when every string before it is empty and it is not. */
  lemma {:induction false} FirstNonEmptyIsFirst(ss: seq<string>, i: nat)
    requires i < |ss| && ss[i] != ""
    requires forall j :: 0 <= j < i ==> ss[j] == ""
    ensures FirstNonEmpty(ss) == ss[i]
  {
    if i > 0 {
      assert ss[0] == "";
      assert forall j :: 0 <= j < i - 1 ==> ss[1..][j] == ss[j + 1];
      FirstNonEmptyIsFirst(ss[1..], i - 1);
    }
  }

  /** When every string but the last is empty, the last one is chosen, empty or not. */
  lemma FirstNonEmptyIsLast(ss: seq<string>)
    requires ss != [] && forall j :: 0 <= j < |ss| - 1 ==> ss[j] == ""
    ensures FirstNonEmpty(ss) == ss[|ss| - 1]
  {
    if ss[|ss| - 1] != "" {
      FirstNonEmptyIsFirst(ss, |ss| - 1);
    }
  }

  // ---------------------------------------------------------------------------
  // Content, type and name
  // ---------------------------------------------------------------------------

  /** The texts content is drawn from, in priority order. */
  function TextParts(m: Option<Message>): (parts: seq<string>)
    ensures |parts| == 4
  {
    [Conversation(m), ExtendedText(m), ImageCaption(m), VideoCaption(m)]
  }

  /**
   * The content switch: the conversation text, else the extended text, else the image
   * caption, else the video caption, taking the first that is non-empty; otherwise "".
   */
  function Content(m: Option<Message>): (content: string)
    ensures content == FirstNonEmpty(TextParts(m))
  {
    if |Conversation(m)| > 0 then FirstNonEmptyIsFirst(TextParts(m), 0); Conversation(m)
    else if |ExtendedText(m)| > 0 then FirstNonEmptyIsFirst(TextParts(m), 1); ExtendedText(m)
    else if |ImageCaption(m)| > 0 then FirstNonEmptyIsFirst(TextParts(m), 2); ImageCaption(m)
    else if |VideoCaption(m)| > 0 then FirstNonEmptyIsFirst(TextParts(m), 3); VideoCaption(m)
    else ""
  }

  /** The type tags getMessageType can return. */
  const MessageTypes: seq<string> := ["text", "image", "video", "audio", "extended_text", "unknown"]

  /**
   * The type tag: "text" for a non-empty conversation, otherwise the first part present
   * among image, video, audio and extended text, otherwise "unknown".
   */
  function MessageType(m: Option<Message>): (t: string)
    ensures t == "text" <==> Conversation(m) != ""
    ensures t == "image" <==> Conversation(m) == "" && HasImage(m)
    ensures t == "video" <==> Conversation(m) == "" && !HasImage(m) && HasVideo(m)
    ensures t == "audio" <==> Conversation(m) == "" && !HasImage(m) && !HasVideo(m) && HasAudio(m)
    ensures t == "extended_text" <==>
      Conversation(m) == "" && !HasImage(m) && !HasVideo(m) && !HasAudio(m) && HasExtendedText(m)
    ensures t == "unknown" <==>
      Conversation(m) == "" && !HasImage(m) && !HasVideo(m) && !HasAudio(m) && !HasExtendedText(m)
    ensures t in MessageTypes
  {
    if Conversation(m) != "" then "text"
    else if HasImage(m) then "image"
    else if HasVideo(m) then "video"
    else if HasAudio(m) then "audio"
    else if HasExtendedText(m) then "extended_text"
    else "unknown"
  }

  /** A message tagged "unknown" carries no content, and one tagged "text" carries its conversation. */
  lemma TypeBoundsContent(m: Option<Message>)
    ensures MessageType(m) == "unknown" ==> Content(m) == ""
    ensures MessageType(m) == "text" ==> Content(m) == Conversation(m)
    ensures Content(m) != "" ==> MessageType(m) != "unknown"
  {
  }

  /** A message holding only an audio part serialises with no content and the "audio" tag. */
  lemma AudioOnly(a: AudioMessage)
    ensures var m := Some(Message(None, None, None, None, Some(a)));
      Content(m) == "" && MessageType(m) == "audio"
  {
  }

  /**
   * The tag follows which parts are present while the content follows which texts are
   * non-empty: an extended text next to an uncaptioned image gives the extended text as
   * content under the "image" tag.
   */
  lemma TagAndContentDiffer(text: string)
    requires text != ""
    ensures var m := Some(Message(None, Some(ExtendedTextMessage(Some(text))), Some(ImageMessage(None)), None, None));
      Content(m) == text && MessageType(m) == "image"
  {
  }

  /** The sender name: the custom name when it is non-empty, otherwise the push name. */
  function SenderName(customName: string, pushName: string): (name: string)
    ensures customName != "" ==> name == customName
    ensures customName == "" ==> name == pushName
    ensures name == FirstNonEmpty([customName, pushName])
  {
    if customName == "" then pushName else customName
  }

  /** The keys of a serialised message. */
  const PayloadKeys: set<string> :=
    {"id", "chat_jid", "sender_jid", "sender", "content", "timestamp", "is_from_me", "message_type"}

  /**
   * SerializeMessage: the flat payload of an event. Chat and sender are given by their user
   * parts only, the timestamp as a number and the self flag as a boolean.
   */
  function SerializeMessage(evt: MessageEvent, customName: string): (payload: Object)
    ensures payload.Keys == PayloadKeys
    ensures payload["id"] == JString(evt.info.id)
    ensures payload["chat_jid"] == JString(evt.info.chat.user)
    ensures payload["sender_jid"] == JString(evt.info.sender.user)
    ensures payload["sender"] == JString(SenderName(customName, evt.info.pushName))
    ensures payload["content"] == JString(FirstNonEmpty(TextParts(evt.message)))
    ensures payload["timestamp"] == JNumber(evt.info.timestamp)
    ensures payload["is_from_me"] == JBool(evt.info.isFromMe)
    ensures payload["message_type"] == JString(MessageType(evt.message))
  {
    map[
      "id" := JString(evt.info.id),
      "chat_jid" := JString(evt.info.chat.user),
      "sender_jid" := JString(evt.info.sender.user),
      "sender" := JString(SenderName(customName, evt.info.pushName)),
      "content" := JString(Content(evt.message)),
      "timestamp" := JNumber(evt.info.timestamp),
      "is_from_me" := JBool(evt.info.isFromMe),
      "message_type" := JString(MessageType(evt.message))
    ]
  }
}
