/**
 * MessageDatabase: the MariaDB-backed repository. Running SQL is an oracle: each operation
 * receives what the server answered (a failed query, no result set, or the fetched rows,
 * whose columns may be NULL) and the model covers what the C++ code does with it.
 */
module MessageDatabase {
  import opened Wrappers
  import opened Text
  import opened Json

  /** DBMessage: a stored message as the RAG layer receives it. */
  datatype DBMessage = DBMessage(id: string, sender: string, content: string)

  /** What mysql_query and mysql_store_result produced. */
  datatype QueryResult<R> = QueryFailed | NoResultSet | ResultSet(rows: seq<R>)

  /** A row of `SELECT id, sender, content`; None is a NULL column. */
  datatype HistoryRow = HistoryRow(id: Option<string>, sender: Option<string>, content: Option<string>)

  /** A row of `SELECT sender, content`; None is a NULL column. */
  datatype ContentRow = ContentRow(sender: Option<string>, content: Option<string>)

  // ---------------------------------------------------------------------------
  // GetAllMessages
  // ---------------------------------------------------------------------------

  /** A history row with its NULL columns defaulted. */
  function FromRow(row: HistoryRow): DBMessage {
    DBMessage(row.id.GetOr(""), row.sender.GetOr("Unknown"), row.content.GetOr(""))
  }

  /** A message worth returning: it has an id and some content. */
  predicate Usable(m: DBMessage) {
    m.id != "" && m.content != ""
  }

  /** The messages the fetch loop keeps, in row order. */
  function Kept(rows: seq<HistoryRow>): seq<DBMessage> {
    if rows == [] then []
    else
      var m := FromRow(rows[|rows| - 1]);
      Kept(rows[..|rows| - 1]) + (if Usable(m) then [m] else [])
  }

  /**
   * The positions of the rows the loop keeps: strictly increasing, so the result is a
   * subsequence of the rows in their order.
   */
  function KeptPositions(rows: seq<HistoryRow>): (ix: seq<nat>)
    ensures |ix| == |Kept(rows)|
    ensures forall j :: 0 <= j < |ix| ==> ix[j] < |rows| && Kept(rows)[j] == FromRow(rows[ix[j]])
    ensures forall a, b :: 0 <= a < b < |ix| ==> ix[a] < ix[b]
  {
    if rows == [] then []
    else
      var init := rows[..|rows| - 1];
      assert forall j :: 0 <= j < |init| ==> rows[j] == init[j];
      KeptPositions(init) + (if Usable(FromRow(rows[|rows| - 1])) then [|rows| - 1] else [])
  }

  /** A row is kept exactly when, once defaulted, it has an id and content. */
  lemma {:induction false} KeptExactly(rows: seq<HistoryRow>)
    ensures forall m :: m in Kept(rows) ==> Usable(m)
    ensures forall i :: 0 <= i < |rows| && Usable(FromRow(rows[i])) ==> FromRow(rows[i]) in Kept(rows)
    ensures forall i :: 0 <= i < |rows| && Usable(FromRow(rows[i])) ==> i in KeptPositions(rows)
    ensures |Kept(rows)| <= |rows|
  {
    if rows != [] {
      var init := rows[..|rows| - 1];
      KeptExactly(init);
      forall i | 0 <= i < |rows| - 1 ensures rows[i] == init[i] { }
    }
  }

  /** A row with a NULL id or NULL content never reaches the result. */
  lemma NullIdOrContentDropped(rows: seq<HistoryRow>, i: nat)
    requires i < |rows| && (rows[i].id.None? || rows[i].content.None?)
    ensures forall j :: 0 <= j < |KeptPositions(rows)| ==> KeptPositions(rows)[j] != i
  {
    var ix := KeptPositions(rows);
    KeptExactly(rows);
    forall j | 0 <= j < |ix| ensures ix[j] != i {
      assert Kept(rows)[j] in Kept(rows);
    }
  }

  /**
   * GetAllMessages(limit) after the server answered `result`: nothing without a connection,
   * a failed query or a missing result set; otherwise the usable rows, with a NULL sender
   * shown as "Unknown". Filtering runs after LIMIT, so at most `limit` messages come back.
   */
  method GetAllMessages(connected: bool, limit: int, result: QueryResult<HistoryRow>) returns (messages: seq<DBMessage>)
    ensures !connected || !result.ResultSet? ==> messages == []
    ensures connected && result.ResultSet? ==> messages == Kept(result.rows)
    ensures forall m :: m in messages ==> Usable(m)
    ensures result.ResultSet? ==> |messages| <= |result.rows|
    ensures result.ResultSet? && |result.rows| <= limit ==> |messages| <= limit
  {
    messages := [];
    if !connected {
      return;
    }
    if !result.ResultSet? {
      return;
    }
    var rows := result.rows;
    var i := 0;
    while i < |rows|
      invariant 0 <= i <= |rows|
      invariant messages == Kept(rows[..i])
    {
      var msg := FromRow(rows[i]);
      if msg.content != "" && msg.id != "" {
        messages := messages + [msg];
      }
      assert rows[..i + 1][..i] == rows[..i];
      i := i + 1;
    }
    assert rows[..i] == rows;
    KeptExactly(rows);
  }

  // ---------------------------------------------------------------------------
  // GetMessageContentById
  // ---------------------------------------------------------------------------

  /**
   * GetMessageContentById after the server answered `result`: the first row as
   * "sender: content", a NULL sender shown as "Desconocido" and a NULL content as empty;
   * "" without a connection, result set or row. So the text is non-empty exactly when a row
   * came back.
   */
  function GetMessageContentById(connected: bool, result: QueryResult<ContentRow>): (text: string)
    ensures text != "" <==> connected && result.ResultSet? && result.rows != []
  {
    if !connected then ""
    else match result
      case QueryFailed => ""
      case NoResultSet => ""
      case ResultSet(rows) =>
        if rows == [] then ""
        else Labelled(rows[0].sender.GetOr("Desconocido"), rows[0].content.GetOr(""))
  }

  /**
   * The text of a found row splits back into its sender and content, each NULL column
   * read as its default ("Desconocido" for the sender, "" for the content).
   */
  lemma ContentByIdSplits(row: ContentRow, rest: seq<ContentRow>)
    requires NoSeparator(row.sender.GetOr("Desconocido"))
    ensures SplitLabelled(GetMessageContentById(true, ResultSet([row] + rest)))
      == Some((row.sender.GetOr("Desconocido"), row.content.GetOr("")))
  {
    LabelledRoundTrip(row.sender.GetOr("Desconocido"), row.content.GetOr(""));
  }

  /** A row with a NULL sender is attributed to "Desconocido", and a NULL content reads as "". */
  lemma NullColumnsDefaulted(content: Option<string>, rest: seq<ContentRow>)
    ensures SplitLabelled(GetMessageContentById(true, ResultSet([ContentRow(None, content)] + rest)))
      == Some(("Desconocido", content.GetOr("")))
    ensures GetMessageContentById(true, ResultSet([ContentRow(None, None)] + rest)) == "Desconocido: "
  {
    ContentByIdSplits(ContentRow(None, content), rest);
  }

  // ---------------------------------------------------------------------------
  // upsert_chat and insert_message
  // ---------------------------------------------------------------------------

  /** What a write did: returned before any query, threw json type_error, or issued a query. */
  datatype Write<R> = Skipped | Rejected(error: TypeError) | Issued(row: R)

  datatype ChatRow = ChatRow(jid: string, name: string)

  datatype MessageRow = MessageRow(
    id: string, chatJid: string, sender: string, content: string, timestamp: int, isFromMe: bool)

  /**
   * upsert_chat: with a connection, reads chat_jid (default "") and chat_name (default
   * "Desconocido"); an empty jid issues no query.
   */
  function UpsertChat(connected: bool, msg: Object): (w: Write<ChatRow>)
    ensures !connected ==> w == Skipped
    ensures w.Issued? ==> w.row.jid != "" && StringValue(msg, "chat_jid", "") == Success(w.row.jid)
    ensures w.Issued? <==>
      && connected
      && StringValue(msg, "chat_jid", "").Success? && StringValue(msg, "chat_jid", "").value != ""
      && StringValue(msg, "chat_name", "Desconocido").Success?
    ensures w.Rejected? <==>
      connected && (StringValue(msg, "chat_jid", "").Failure? || StringValue(msg, "chat_name", "Desconocido").Failure?)
  {
    if !connected then Skipped
    else match StringValue(msg, "chat_jid", "")
      case Failure(e) => Rejected(e)
      case Success(jid) =>
        match StringValue(msg, "chat_name", "Desconocido")
        case Failure(e) => Rejected(e)
        case Success(name) => if jid == "" then Skipped else Issued(ChatRow(jid, name))
  }

  /** The string members insert_message reads besides the id, each with default "". */
  const TextColumns: seq<string> := ["chat_jid", "sender_jid", "sender", "content"]

  /**
   * insert_message: with a connection, reads every column (a mistyped one throws, even when
   * the id is empty), then an empty id issues no query.
   */
  function InsertMessage(connected: bool, msg: Object): (w: Write<MessageRow>)
    ensures !connected ==> w == Skipped
    ensures w.Issued? ==> w.row.id != "" && StringValue(msg, "id", "") == Success(w.row.id)
    ensures connected && StringValue(msg, "sender_jid", "").Failure? ==> w.Rejected?
    ensures w.Issued? <==>
      && connected
      && StringValue(msg, "id", "").Success? && StringValue(msg, "id", "").value != ""
      && (forall key :: key in TextColumns ==> StringValue(msg, key, "").Success?)
      && IntegerValue(msg, "timestamp", 0).Success?
      && BoolValue(msg, "is_from_me", false).Success?
    ensures w.Rejected? <==>
      && connected
      && (|| StringValue(msg, "id", "").Failure?
          || (exists key :: key in TextColumns && StringValue(msg, key, "").Failure?)
          || IntegerValue(msg, "timestamp", 0).Failure?
          || BoolValue(msg, "is_from_me", false).Failure?)
  {
    if !connected then Skipped
    else match StringValue(msg, "id", "")
      case Failure(e) => Rejected(e)
      case Success(id) =>
      match StringValue(msg, "chat_jid", "")
      case Failure(e) => Rejected(e)
      case Success(chatJid) =>
      match StringValue(msg, "sender_jid", "")
      case Failure(e) => Rejected(e)
      case Success(_) =>
      match StringValue(msg, "sender", "")
      case Failure(e) => Rejected(e)
      case Success(sender) =>
      match StringValue(msg, "content", "")
      case Failure(e) => Rejected(e)
      case Success(content) =>
      match IntegerValue(msg, "timestamp", 0)
      case Failure(e) => Rejected(e)
      case Success(timestamp) =>
      match BoolValue(msg, "is_from_me", false)
      case Failure(e) => Rejected(e)
      case Success(isFromMe) =>
        if id == "" then Skipped
        else Issued(MessageRow(id, chatJid, sender, content, timestamp, isFromMe))
  }
}
