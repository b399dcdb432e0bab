// How the payload the gateway sends meets the core's checks: the validator would accept it
// (the ingest route itself never calls it), and the two database writes issue rows built
// from the event's own fields.

module GatewayToCore {
  import opened Wrappers
  import opened Json
  import opened MessageValidator
  import opened MessageDatabase
  import opened MessageSerializer
  import opened Gateway

  /** Every serialised event carries the required fields and a boolean self flag, so it would pass validate_message. */
  lemma {:induction false} PayloadValidates(evt: MessageEvent, customName: string)
    ensures ValidateMessage(SerializeMessage(evt, customName)) == Pass
  {
    var p := SerializeMessage(evt, customName);
    forall f | f in RequiredFields ensures f in p {
      assert f in PayloadKeys;
    }
  }

  /**
   * The payload has no chat_name, so the chat row is named "Desconocido"; a chat whose user
   * part is empty is not written.
   */
  lemma PayloadChatRow(evt: MessageEvent, customName: string)
    ensures UpsertChat(true, SerializeMessage(evt, customName))
         == (if evt.info.chat.user == "" then Skipped else Issued(ChatRow(evt.info.chat.user, "Desconocido")))
  {
    assert "chat_name" !in PayloadKeys;
  }

  /**
   * The message row holds the event's id, chat, chosen name, content and self flag, and its
   * time narrowed to a C++ `int`.
   */
  lemma PayloadMessageRow(evt: MessageEvent, customName: string)
    ensures var row := MessageRow(evt.info.id, evt.info.chat.user, SenderName(customName, evt.info.pushName),
                                  Content(evt.message), IntCast(evt.info.timestamp), evt.info.isFromMe);
      InsertMessage(true, SerializeMessage(evt, customName)) == (if evt.info.id == "" then Skipped else Issued(row))
  {
  }

  /**
   * The gateway sends 64-bit Unix seconds but insert_message reads them as an `int`: a time
   * up to 2^31 - 1 (January 2038) is stored as sent, and the next second is stored as -2^31.
   */
  lemma TimestampNarrowing(evt: MessageEvent, customName: string)
    requires evt.info.id != ""
    ensures IntMin <= evt.info.timestamp <= IntMax ==>
      InsertMessage(true, SerializeMessage(evt, customName)).row.timestamp == evt.info.timestamp
    ensures evt.info.timestamp == IntMax + 1 ==>
      InsertMessage(true, SerializeMessage(evt, customName)).row.timestamp == IntMin
  {
    PayloadMessageRow(evt, customName);
  }

  /** A forwarded event would always pass validate_message, and is stored under its chat name. */
  lemma ForwardedIsStored(evt: MessageEvent, group: Option<GroupInfo>, contact: Option<ContactInfo>)
    requires HandleMessage(evt, group, contact).Forwarded?
    requires evt.info.id != "" && ChatName(evt, group, contact) != ""
    ensures var p := HandleMessage(evt, group, contact).payload;
      && ValidateMessage(p) == Pass
      && InsertMessage(true, p).Issued?
      && InsertMessage(true, p).row.sender == ChatName(evt, group, contact)
  {
    PayloadValidates(evt, ChatName(evt, group, contact));
    PayloadMessageRow(evt, ChatName(evt, group, contact));
  }
}
