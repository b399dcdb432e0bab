// The gateway's message handler: which events are forwarded, and under which display name.
// The group-info and contact lookups of the WhatsApp client are inputs: None stands for a
// lookup that returned an error.

module Gateway {
  import opened Wrappers
  import opened Json
  import opened MessageSerializer

  /** What a successful group-info lookup gives. */
  datatype GroupInfo = GroupInfo(name: string)

  /** What a successful contact lookup gives; `found` is false for an unknown contact. */
  datatype ContactInfo = ContactInfo(found: bool, fullName: string, pushName: string)

  const SelfName := "Yo (Sistema)"
  const GroupServer := "g.us"
  const GroupPrefix := "Grupo "
  const StatusBroadcast := "status@broadcast"

  /**
   * GetChatName: "Yo (Sistema)" for a message of one's own; in a group chat the group's
   * name, or "Grupo " and the chat's user when the lookup fails; otherwise a found
   * contact's non-empty full name or push name, then the message's non-empty push name,
   * then the sender's number.
   */
  function ChatName(evt: MessageEvent, group: Option<GroupInfo>, contact: Option<ContactInfo>): (name: string)
    ensures evt.info.isFromMe ==> name == SelfName
    ensures !evt.info.isFromMe && evt.info.chat.server == GroupServer ==>
      name == (if group.Some? then group.value.name else GroupPrefix + evt.info.chat.user)
    ensures !evt.info.isFromMe && evt.info.chat.server != GroupServer ==>
      name == FirstNonEmpty(ContactNames(contact) + [evt.info.pushName, evt.info.sender.user])
  {
    var sender := evt.info.sender;
    var chat := evt.info.chat;
    if evt.info.isFromMe then SelfName
    else if chat.server == GroupServer then
      if group.Some? then group.value.name else GroupPrefix + chat.user
    else if contact.Some? && contact.value.found && contact.value.fullName != "" then
      FirstNonEmptyIsFirst(ContactNames(contact) + [evt.info.pushName, sender.user], 0);
      contact.value.fullName
    else if contact.Some? && contact.value.found && contact.value.pushName != "" then
      FirstNonEmptyIsFirst(ContactNames(contact) + [evt.info.pushName, sender.user], 1);
      contact.value.pushName
    else if evt.info.pushName != "" then
      FirstNonEmptyIsFirst(ContactNames(contact) + [evt.info.pushName, sender.user], |ContactNames(contact)|);
      evt.info.pushName
    else
      FirstNonEmptyIsLast(ContactNames(contact) + [evt.info.pushName, sender.user]);
      sender.user
  }

  /** The names a contact lookup offers, in priority order: none unless the contact was found. */
  function ContactNames(contact: Option<ContactInfo>): (names: seq<string>)
    ensures |names| <= 2
  {
    if contact.Some? && contact.value.found then [contact.value.fullName, contact.value.pushName] else []
  }

  /** A message of one's own gets the self name whatever the lookups would give. */
  lemma SelfIgnoresLookups(evt: MessageEvent, g1: Option<GroupInfo>, c1: Option<ContactInfo>,
                           g2: Option<GroupInfo>, c2: Option<ContactInfo>)
    requires evt.info.isFromMe
    ensures ChatName(evt, g1, c1) == ChatName(evt, g2, c2) == SelfName
  {
  }

  /** A non-group name is never empty unless the sender's number itself is empty. */
  lemma NameIsNonEmpty(evt: MessageEvent, group: Option<GroupInfo>, contact: Option<ContactInfo>)
    requires evt.info.chat.server != GroupServer && evt.info.sender.user != ""
    ensures ChatName(evt, group, contact) != ""
  {
    if !evt.info.isFromMe {
      var names := ContactNames(contact) + [evt.info.pushName, evt.info.sender.user];
      assert names[|names| - 1] != "";
    }
  }

  /**
   * The textual form of a JID: "user@server", or only the server when the user is empty.
   * Device and agent suffixes are not modelled.
   */
  function JidString(j: Jid): (s: string)
    ensures j.user == "" ==> s == j.server
    ensures j.user != "" ==> |s| == |j.user| + 1 + |j.server|
    ensures j.user != "" ==> s[..|j.user|] == j.user && s[|j.user|] == '@' && s[|j.user| + 1..] == j.server
  {
    if j.user == "" then j.server else j.user + "@" + j.server
  }

  /** The only JIDs whose text is "status@broadcast". */
  lemma {:induction false} StatusBroadcastJid(j: Jid)
    ensures JidString(j) == StatusBroadcast <==>
      (j.user == "status" && j.server == "broadcast") || (j.user == "" && j.server == StatusBroadcast)
  {
    if j.user != "" && JidString(j) == StatusBroadcast {
      var s := JidString(j);
      assert s[|j.user|] == '@';
      assert forall i :: 0 <= i < |s| && i != 6 ==> s[i] != '@';
      assert |j.user| == 6;
      assert j.user == s[..6];
    }
  }

  /** The result of handling one event: ignored, or the payload sent to the core. */
  datatype Handling = Ignored | Forwarded(payload: Object)

  /**
   * handleMessage's decision: status updates and events without a message are ignored
   * before any lookup; every other event is forwarded, serialised under its chat name.
   */
  function HandleMessage(evt: MessageEvent, group: Option<GroupInfo>, contact: Option<ContactInfo>): (h: Handling)
    ensures h.Ignored? <==> JidString(evt.info.chat) == StatusBroadcast || evt.message.None?
    ensures h.Forwarded? ==>
      && h.payload == SerializeMessage(evt, ChatName(evt, group, contact))
      && (ChatName(evt, group, contact) != "" ==> h.payload["sender"] == JString(ChatName(evt, group, contact)))
      && (ChatName(evt, group, contact) == "" ==> h.payload["sender"] == JString(evt.info.pushName))
  {
    if JidString(evt.info.chat) == StatusBroadcast then Ignored
    else if evt.message.None? then Ignored
    else
      var realName := ChatName(evt, group, contact);
      Forwarded(SerializeMessage(evt, realName))
  }

  /** The events handleMessage ignores, in terms of the chat's parts. */
  lemma IgnoredEvents(evt: MessageEvent, group: Option<GroupInfo>, contact: Option<ContactInfo>)
    ensures HandleMessage(evt, group, contact).Ignored? <==>
      || (evt.info.chat.user == "status" && evt.info.chat.server == "broadcast")
      || (evt.info.chat.user == "" && evt.info.chat.server == StatusBroadcast)
      || evt.message.None?
  {
    StatusBroadcastJid(evt.info.chat);
  }
}
