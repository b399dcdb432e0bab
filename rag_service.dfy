/**
 * RagService: ingestion of messages into the vector store, question answering over it, and
 * the warm-up that replays stored history.
 *
 * The language model (GetEmbedding, Chat) and the repository (GetMessageContentById,
 * GetAllMessages) are oracles: total functions fixed when the service is built. A ghost
 * trace records every call made to them and to the store's Search, so that the calls a
 * path does not make can be stated.
 */
module RagPipeline {
  import opened Wrappers
  import opened Text
  import opened VectorIndex
  import opened MessageDatabase

  /** The embedding and chat capabilities of the language-model client. */
  datatype Llm = Llm(embed: string -> Vector, chat: (string, string) -> Option<string>)

  /** The two repository reads the service uses. */
  datatype Repository = Repository(contentById: string -> string, allMessages: int -> seq<DBMessage>)

  /** A call the service makes to a collaborator. */
  datatype Call =
    | Embed(text: string)
    | SearchIndex(k: int)
    | FetchContent(id: string)
    | Chat(system: string, user: string)
    | FetchHistory(limit: int)

  /** How many neighbours a question retrieves. */
  const AskK: nat := 8
  /** How many stored messages the warm-up replays. */
  const HistoryLimit: int := 1000

  const ProcessingFailed: string := "Tuve un problema procesando tu pregunta."
  const NoInformation: string := "No encontré información relacionada en tus chats."
  const ModelFailed: string := "El modelo no pudo generar una respuesta."

  /** The fixed instructions sent as the system prompt of every grounded question. */
  const SystemPrompt: string :=
    "Eres un Asistente de Memoria Personal inteligente y útil. "
    + "Tu trabajo es responder a mis preguntas basándote en el historial de mis chats recuperados.\n"
    + "\nINSTRUCCIONES CLAVE:"
    + "\n1. INTERPRETACIÓN DE USUARIOS: El nombre 'Yo (Sistema)' o 'Yo' se refiere a MÍ (el usuario actual). Cuando hables de lo que dije, usa 'Tú dijiste...'. Los otros nombres son mis contactos."
    + "\n2. FUENTE DE VERDAD: Usa ÚNICAMENTE el bloque de 'CONTEXTO'. Si la respuesta no está ahí, di 'No recuerdo haber hablado de eso'."
    + "\n3. CONTRADICCIONES: Si encuentras información contradictoria (ej. dos colores favoritos o dos claves distintas), menciona AMBAS opciones indicando que aparecen en momentos diferentes."
    + "\n4. PRIVACIDAD: Estos son mis datos personales. Si pregunto por un dato exacto (como una clave, dirección o número) que aparece en el contexto, tienes permiso para mostrármelo."

  const PromptHeader: string := "Consulta los siguientes fragmentos de mi historial de chat:\n\n" + "### CONTEXTO ###\n"
  const PromptFooter: string := "### FIN CONTEXTO ###\n\n" + "Basado en lo anterior, responde: "

  /** The user prompt: the header, the context block, the footer, then the question. */
  function UserPrompt(context: string, question: string): string {
    PromptHeader + context + PromptFooter + question
  }

  // ---------------------------------------------------------------------------
  // Ingestion
  // ---------------------------------------------------------------------------

  /** The index state after IngestMessage(msgId, content, sender). */
  function Ingested(st: IndexState, dim: nat, embed: string -> Vector, msgId: string, content: string, sender: string): IndexState {
    if Utf8Length(content) < 2 then st
    else
      var e := embed(Labelled(sender, content));
      if e == [] then st else Added(st, dim, msgId, e)
  }

  /** The calls IngestMessage makes: one embedding of the labelled text, unless the content is too short. */
  function IngestCalls(content: string, sender: string): seq<Call> {
    if Utf8Length(content) < 2 then [] else [Embed(Labelled(sender, content))]
  }

  /** The index state after ingesting `msgs` one after another, in order. */
  function IngestedAll(st: IndexState, dim: nat, embed: string -> Vector, msgs: seq<DBMessage>): IndexState {
    if msgs == [] then st
    else
      var m := msgs[|msgs| - 1];
      Ingested(IngestedAll(st, dim, embed, msgs[..|msgs| - 1]), dim, embed, m.id, m.content, m.sender)
  }

  /** The calls made by ingesting `msgs` in order. */
  function IngestAllCalls(msgs: seq<DBMessage>): seq<Call> {
    if msgs == [] then []
    else
      var m := msgs[|msgs| - 1];
      IngestAllCalls(msgs[..|msgs| - 1]) + IngestCalls(m.content, m.sender)
  }

  /** A message that ingestion stores: long enough, and embedded to a vector of the store's dimension. */
  predicate Indexable(dim: nat, embed: string -> Vector, m: DBMessage) {
    var e := embed(Labelled(m.sender, m.content));
    Utf8Length(m.content) >= 2 && e != [] && |e| == dim
  }

  /** The number of messages of `msgs` that ingestion stores. */
  function CountIndexable(dim: nat, embed: string -> Vector, msgs: seq<DBMessage>): nat {
    if msgs == [] then 0
    else CountIndexable(dim, embed, msgs[..|msgs| - 1]) + (if Indexable(dim, embed, msgs[|msgs| - 1]) then 1 else 0)
  }

  /**
   * Ingesting a sequence of messages keeps the store's invariant, keeps every earlier vector
   * and map entry, adds one slot per indexable message, and maps each new slot to the id of
   * one of the messages.
   */
  lemma {:induction false} IngestedAllGrows(st: IndexState, dim: nat, embed: string -> Vector, msgs: seq<DBMessage>)
    requires Coherent(st, dim)
    ensures var st' := IngestedAll(st, dim, embed, msgs);
      && Coherent(st', dim)
      && st'.nextId == st.nextId + CountIndexable(dim, embed, msgs)
      && st.vectors <= st'.vectors
      && (forall s :: s in st.idMap ==> st'.idMap[s] == st.idMap[s])
      && (forall s :: st.nextId <= s < st'.nextId ==> exists m :: m in msgs && st'.idMap[s] == m.id)
  {
    if msgs != [] {
      var init := msgs[..|msgs| - 1];
      var m := msgs[|msgs| - 1];
      IngestedAllGrows(st, dim, embed, init);
      var mid := IngestedAll(st, dim, embed, init);
      var e := embed(Labelled(m.sender, m.content));
      AddedCoherent(mid, dim, m.id, e);
      var st' := IngestedAll(st, dim, embed, msgs);
      forall s | st.nextId <= s < st'.nextId ensures exists m' :: m' in msgs && st'.idMap[s] == m'.id {
        if s < mid.nextId {
          var m' :| m' in init && mid.idMap[s] == m'.id;
          assert m' in msgs;
        } else {
          assert st'.idMap[s] == m.id;
        }
      }
    }
  }

  /**
   * Replay makes only embedding calls, of the labelled text of a message with at least two
   * bytes of content; every such message is embedded, and there are no more calls than messages.
   */
  lemma {:induction false} IngestAllCallsAreEmbeddings(msgs: seq<DBMessage>)
    ensures forall c :: c in IngestAllCalls(msgs) ==> c.Embed? && exists m :: m in msgs && Utf8Length(m.content) >= 2 && c.text == Labelled(m.sender, m.content)
    ensures forall i :: 0 <= i < |msgs| && Utf8Length(msgs[i].content) >= 2 ==>
      Embed(Labelled(msgs[i].sender, msgs[i].content)) in IngestAllCalls(msgs)
    ensures |IngestAllCalls(msgs)| <= |msgs|
  {
    if msgs != [] {
      var init := msgs[..|msgs| - 1];
      IngestAllCallsAreEmbeddings(init);
      forall i | 0 <= i < |msgs| - 1 ensures msgs[i] == init[i] { }
      forall c | c in IngestAllCalls(msgs)
        ensures c.Embed? && exists m :: m in msgs && Utf8Length(m.content) >= 2 && c.text == Labelled(m.sender, m.content)
      {
        if c in IngestAllCalls(init) {
          var m :| m in init && Utf8Length(m.content) >= 2 && c.text == Labelled(m.sender, m.content);
          assert m in msgs;
        } else {
          assert msgs[|msgs| - 1] in msgs;
        }
      }
    }
  }

  // ---------------------------------------------------------------------------
  // The grounding context
  // ---------------------------------------------------------------------------

  /** The context line for one resolved text: nothing when the text is empty. */
  function Bullet(text: string): string {
    if text == "" then "" else "- " + text + "\n"
  }

  /** The context block: one "- text\n" line per non-empty text, in rank order. */
  function ContextBlock(texts: seq<string>): string {
    if texts == [] then ""
    else ContextBlock(texts[..|texts| - 1]) + Bullet(texts[|texts| - 1])
  }

  /** The context is empty exactly when every resolved text is empty. */
  lemma {:induction false} ContextEmptyIff(texts: seq<string>)
    ensures ContextBlock(texts) == "" <==> forall t :: t in texts ==> t == ""
  {
    if texts != [] {
      var init := texts[..|texts| - 1];
      ContextEmptyIff(init);
      assert forall t :: t in texts ==> t in init || t == texts[|texts| - 1];
      assert forall t :: t in init ==> t in texts;
      var last := Bullet(texts[|texts| - 1]);
      assert ContextBlock(texts) == ContextBlock(init) + last;
      if texts[|texts| - 1] != "" {
        assert texts[|texts| - 1] in texts;
        assert |ContextBlock(texts)| >= |last| > 0;
      }
    }
  }

  /** A slice that lies inside the left operand of a concatenation is a slice of that operand. */
  lemma SliceOfLeft(a: string, b: string, lo: nat, hi: nat)
    requires lo <= hi <= |a|
    ensures (a + b)[lo..hi] == a[lo..hi]
  {
  }

  /** The right operand of a concatenation is the slice after the left one. */
  lemma SliceOfRight(a: string, b: string)
    ensures (a + b)[|a|..|a| + |b|] == b
  {
  }

  /** Every non-empty resolved text appears in the context as its own bulleted line. */
  lemma {:induction false} ContextHasLine(texts: seq<string>, j: nat) returns (pos: nat)
    requires j < |texts| && texts[j] != ""
    ensures pos + |Bullet(texts[j])| <= |ContextBlock(texts)|
    ensures ContextBlock(texts)[pos..pos + |Bullet(texts[j])|] == "- " + texts[j] + "\n"
  {
    var init := texts[..|texts| - 1];
    var prefix := ContextBlock(init);
    var last := Bullet(texts[|texts| - 1]);
    assert ContextBlock(texts) == prefix + last;
    if j == |texts| - 1 {
      pos := |prefix|;
      SliceOfRight(prefix, last);
    } else {
      assert init[j] == texts[j];
      pos := ContextHasLine(init, j);
      SliceOfLeft(prefix, last, pos, pos + |Bullet(texts[j])|);
    }
  }

  /** The texts the repository gives for the retrieved ids, in rank order. */
  function Resolutions(repo: Repository, ids: seq<string>): (texts: seq<string>)
    ensures |texts| == |ids|
  {
    seq(|ids|, j requires 0 <= j < |ids| => repo.contentById(ids[j]))
  }

  /** One content fetch per retrieved id, in rank order. */
  function Fetches(ids: seq<string>): (calls: seq<Call>)
    ensures |calls| == |ids|
  {
    seq(|ids|, j requires 0 <= j < |ids| => FetchContent(ids[j]))
  }

  /** Resolving and fetching one more id extends the texts and the calls by one. */
  lemma ResolveOneMore(repo: Repository, ids: seq<string>, i: nat)
    requires i < |ids|
    ensures Resolutions(repo, ids[..i + 1]) == Resolutions(repo, ids[..i]) + [repo.contentById(ids[i])]
    ensures Fetches(ids[..i + 1]) == Fetches(ids[..i]) + [FetchContent(ids[i])]
  {
  }

  /** One more resolved id adds its bullet, and only it, to the end of the context. */
  lemma ContextStep(repo: Repository, ids: seq<string>, i: nat)
    requires i < |ids|
    ensures ContextBlock(Resolutions(repo, ids[..i + 1]))
         == ContextBlock(Resolutions(repo, ids[..i])) + Bullet(repo.contentById(ids[i]))
  {
    ResolveOneMore(repo, ids, i);
    var texts := Resolutions(repo, ids[..i + 1]);
    assert texts[..|texts| - 1] == Resolutions(repo, ids[..i]);
  }

  // ---------------------------------------------------------------------------
  // The service
  // ---------------------------------------------------------------------------

  class RagService {
    /** m_llm */
    const llm: Llm
    /** m_vec_store */
    const store: VectorStore
    /** m_db */
    const repo: Repository
    /** Every call made to the collaborators so far, oldest first. */
    ghost var Calls: seq<Call>

    ghost predicate Valid()
      reads store
    {
      store.Valid()
    }

    constructor (llm: Llm, store: VectorStore, repo: Repository)
      requires store.Valid()
      ensures this.llm == llm && this.store == store && this.repo == repo
      ensures Calls == []
      ensures Valid()
    {
      this.llm := llm;
      this.store := store;
      this.repo := repo;
      Calls := [];
    }

    /**
     * Indexes one message. Content under two bytes is dropped before any call; otherwise
     * "sender: content" is embedded once, and a non-empty embedding goes to AddIndex under
     * msgId (which itself rejects a wrong dimension). Nothing else changes.
     */
    method IngestMessage(msgId: string, content: string, sender: string)
      requires Valid()
      modifies this, store
      ensures Valid()
      ensures Utf8Length(content) < 2 ==> store.State() == old(store.State()) && Calls == old(Calls)
      ensures Utf8Length(content) >= 2 ==> Calls == old(Calls) + [Embed(Labelled(sender, content))]
      ensures Utf8Length(content) >= 2 && llm.embed(Labelled(sender, content)) == [] ==>
        store.State() == old(store.State())
      ensures Utf8Length(content) >= 2 && llm.embed(Labelled(sender, content)) != [] ==>
        store.State() == Added(old(store.State()), store.dimension, msgId, llm.embed(Labelled(sender, content)))
      ensures store.State() == Ingested(old(store.State()), store.dimension, llm.embed, msgId, content, sender)
      ensures Calls == old(Calls) + IngestCalls(content, sender)
    {
      if Utf8Length(content) < 2 {
        return;
      }
      var textToEmbed := Labelled(sender, content);
      var embedding := llm.embed(textToEmbed);
      Calls := Calls + [Embed(textToEmbed)];
      if embedding != [] {
        store.AddIndex(msgId, embedding);
      }
    }

    /** The ids the store returns for the question's embedding. */
    ghost function Retrieved(question: string): seq<string>
      reads store
      requires Valid() && llm.embed(question) != [] && |llm.embed(question)| == store.dimension
    {
      SearchResult(store.State(), llm.embed(question), AskK)
    }

    /** The context block built from the retrieved ids. */
    ghost function ContextFor(question: string): string
      reads store
      requires Valid() && llm.embed(question) != [] && |llm.embed(question)| == store.dimension
    {
      ContextBlock(Resolutions(repo, Retrieved(question)))
    }

    /** No retrieved id resolves to any text: there were no candidates, or none was readable. */
    ghost predicate NothingReadable(question: string)
      reads store
      requires Valid() && llm.embed(question) != [] && |llm.embed(question)| == store.dimension
    {
      forall t :: t in Resolutions(repo, Retrieved(question)) ==> t == ""
    }

    /**
     * The context loop of Ask: fetches the text of each id in rank order and appends a
     * "- text\n" line for each non-empty one; `foundData` records whether any line was added.
     */
    method BuildContext(ids: seq<string>) returns (context: string, foundData: bool)
      modifies this
      ensures context == ContextBlock(Resolutions(repo, ids))
      ensures foundData <==> |context| > 0
      ensures Calls == old(Calls) + Fetches(ids)
    {
      context := "";
      foundData := false;
      for i := 0 to |ids|
        invariant context == ContextBlock(Resolutions(repo, ids[..i]))
        invariant foundData <==> |context| > 0
        invariant Calls == old(Calls) + Fetches(ids[..i])
      {
        var id := ids[i];
        var msgText := repo.contentById(id);
        Calls := Calls + [FetchContent(id)];
        ContextStep(repo, ids, i);
        ResolveOneMore(repo, ids, i);
        if msgText != "" {
          var line := "- " + msgText + "\n";
          context := context + line;
          foundData := true;
        }
      }
      assert ids[..|ids|] == ids;
    }

    /**
     * Answers a question from the indexed history. An empty question embedding gives the
     * processing-error message and nothing else is called; otherwise the 8 nearest ids are
     * resolved in rank order, and when none resolves to any text the no-information message
     * is returned without calling Chat; otherwise Chat gets the system prompt and the user
     * prompt around the context block, and its answer (or the model-failure message) is
     * returned. The store is not changed.
     */
    method Ask(question: string) returns (answer: string)
      requires Valid()
      requires llm.embed(question) == [] || |llm.embed(question)| == store.dimension
      modifies this
      ensures store.State() == old(store.State())
      ensures llm.embed(question) == [] ==>
        answer == ProcessingFailed && Calls == old(Calls) + [Embed(question)]
      ensures llm.embed(question) != [] && NothingReadable(question) ==>
        && answer == NoInformation
        && Calls == old(Calls) + [Embed(question), SearchIndex(AskK)] + Fetches(Retrieved(question))
      ensures llm.embed(question) != [] && !NothingReadable(question) ==>
        && answer == llm.chat(SystemPrompt, UserPrompt(ContextFor(question), question)).GetOr(ModelFailed)
        && Calls == old(Calls) + [Embed(question), SearchIndex(AskK)] + Fetches(Retrieved(question))
                  + [Chat(SystemPrompt, UserPrompt(ContextFor(question), question))]
    {
      var queryVec := llm.embed(question);
      Calls := Calls + [Embed(question)];
      if queryVec == [] {
        return ProcessingFailed;
      }
      var relevantIds := store.Search(queryVec, AskK);
      Calls := Calls + [SearchIndex(AskK)];
      ghost var searched := Calls;
      assert searched == old(Calls) + [Embed(question), SearchIndex(AskK)];
      var context, foundData := BuildContext(relevantIds);
      assert relevantIds == Retrieved(question);
      assert context == ContextFor(question);
      ContextEmptyIff(Resolutions(repo, relevantIds));

      if !foundData {
        return NoInformation;
      }
      var systemPrompt := SystemPrompt;
      var userPrompt := PromptHeader + context + PromptFooter + question;
      assert userPrompt == UserPrompt(ContextFor(question), question);
      var reply := llm.chat(systemPrompt, userPrompt);
      Calls := Calls + [Chat(systemPrompt, userPrompt)];
      answer := if reply.Some? then reply.value else ModelFailed;
    }

    /**
     * Replays up to 1000 stored messages, as GetAllMessages returns them, through
     * IngestMessage one by one and in that order.
     */
    method LoadHistoryFromDB()
      requires Valid()
      modifies this, store
      ensures Valid()
      ensures var history := repo.allMessages(HistoryLimit);
        && store.State() == IngestedAll(old(store.State()), store.dimension, llm.embed, history)
        && Calls == old(Calls) + [FetchHistory(HistoryLimit)] + IngestAllCalls(history)
    {
      var history := repo.allMessages(HistoryLimit);
      Calls := Calls + [FetchHistory(HistoryLimit)];
      ghost var start := store.State();
      ghost var fetched := Calls;
      for i := 0 to |history|
        invariant Valid()
        invariant store.State() == IngestedAll(start, store.dimension, llm.embed, history[..i])
        invariant Calls == fetched + IngestAllCalls(history[..i])
      {
        var msg := history[i];
        IngestMessage(msg.id, msg.content, msg.sender);
        assert history[..i + 1][..i] == history[..i];
      }
      assert history[..|history|] == history;
    }
  }
}
