/**
  The memory gate between the conversation and the vector store: which
  incoming messages become memories, how memories are retrieved for a
  context, and how they are laid out in the prompt. The analysis model is
  an oracle from message text to `MemoryAnalysis`.
 */
module MemoryManager {
  import opened Wrappers
  import opened Exceptions
  import opened Text
  import opened GraphState
  import opened VectorStore
  import Settings

  /** The analysis model's verdict on a message. */
  datatype MemoryAnalysis = MemoryAnalysis(isImportant: bool, formattedMemory: Option<string>)

  /**
    What extraction did with a message. The source returns nothing; the
    outcome names the branch it took.
   */
  datatype Outcome = NotHuman | NotImportant | Duplicate | Stored

  /** The analysis asks for storage: important, with a non-empty formatted memory. */
  predicate Worth(a: MemoryAnalysis) {
    a.isImportant && a.formattedMemory.Some? && a.formattedMemory.value != ""
  }

  /** The payload a new memory is stored with. */
  function NewPayload(text: string, id: string, timestamp: string): map<string, string> {
    map["text" := text, "id" := id, "timestamp" := timestamp]
  }

  /**
    `extract_and_store_memories`: only a human message is analysed; only a
    worthwhile analysis with no near-duplicate in the store is written, under
    a fresh id with its creation timestamp. A failing analysis raises.
   */
  method ExtractAndStoreMemories(
    store: Store, message: Message, analyze: string -> Result<MemoryAnalysis>,
    newId: string, timestamp: string)
    returns (r: Result<Outcome>)
    requires store.Valid()
    modifies store
    ensures store.Valid()
    ensures r != Ok(Stored) ==> unchanged(store)
    ensures message.role != Human ==> r == Ok(NotHuman)
    ensures message.role == Human ==>
      match analyze(message.content)
      case Err(e) => r == Err(e)
      case Ok(a) =>
        if !Worth(a) then r == Ok(NotImportant)
        else if old(store.HasNearDuplicate(a.formattedMemory.value)) then r == Ok(Duplicate)
        else
          (r == Ok(Stored) && store.hasCollection &&
           store.points == old(store.points)[Named(newId) :=
             Point(a.formattedMemory.value, NewPayload(a.formattedMemory.value, newId, timestamp))])
  {
    if message.role != Human {
      return Ok(NotHuman);
    }
    var analysis := analyze(message.content);
    if analysis.Err? {
      return Err(analysis.error);
    }
    var a := analysis.value;
    if !(a.isImportant && a.formattedMemory.Some? && a.formattedMemory.value != "") {
      return Ok(NotImportant);
    }
    var text := a.formattedMemory.value;
    var similar := store.FindSimilarMemory(text);
    if similar.Some? {
      return Ok(Duplicate);
    }
    var md := new Metadata(map["id" := newId, "timestamp" := timestamp]);
    ghost var again := store.StoreMemory(text, md);
    assert map["text" := text] + md.entries == NewPayload(text, newId, timestamp);
    return Ok(Stored);
  }

  /**
    A memory stored by extraction reads back from a search with its text,
    its id and its creation timestamp (absent when the timestamp is empty).
   */
  lemma NewMemoryReadsBack(store: Store, query: string, text: string, id: string, timestamp: string)
    requires store.Valid() && Named(id) in store.points
    requires store.points[Named(id)] == Point(text, NewPayload(text, id, timestamp))
    ensures var m := store.MemoryOf(query, Named(id));
      && m.text == text
      && m.Id() == Some(id)
      && m.Timestamp() == (if timestamp == "" then None else Some(timestamp))
  {
    var entries := map["id" := id, "timestamp" := timestamp];
    assert map["text" := text] + entries == NewPayload(text, id, timestamp);
    assert store.KeyFor(text, entries) == Named(id);
    store.StoredComesBack(query, text, entries);
  }

  /** The payload texts of the points `ids`. */
  function TextsOf(store: Store, ids: seq<PointId>): (r: seq<string>)
    reads store
    requires store.Valid() && store.AllStored(ids)
    ensures |r| == |ids| && forall i :: 0 <= i < |ids| ==> r[i] == store.points[ids[i]].payload["text"]
  {
    seq(|ids|, i requires 0 <= i < |ids| reads store requires store.Valid() && store.AllStored(ids) =>
      store.points[ids[i]].payload["text"])
  }

  /**
    `get_relevant_memories`: the texts of the best `MemoryTopK` matches for
    the context, best first; none when the store has no collection.
   */
  method GetRelevantMemories(store: Store, context: string) returns (texts: seq<string>)
    requires store.Valid()
    ensures |texts| <= Settings.MemoryTopK
    ensures !store.hasCollection ==> texts == []
    ensures exists ids ::
      (store.AllStored(ids) && IsTopK(store.Scores(context), Settings.MemoryTopK, ids) &&
       texts == TextsOf(store, ids))
  {
    var memories := store.SearchMemories(context, Settings.MemoryTopK);
    ghost var ids :| store.AllStored(ids) && IsTopK(store.Scores(context), Settings.MemoryTopK, ids)
      && memories == store.MemoriesOf(context, ids);
    texts := seq(|memories|, i requires 0 <= i < |memories| => memories[i].text);
    assert texts == TextsOf(store, ids);
  }

  /** One `"- m"` line per memory. */
  function Bullets(memories: seq<string>): (r: seq<string>)
    ensures |r| == |memories| && forall i :: 0 <= i < |r| ==> r[i] == "- " + memories[i]
  {
    seq(|memories|, i requires 0 <= i < |memories| => "- " + memories[i])
  }

  /** `format_memories_for_prompt`: the bullet lines joined by newlines; `""` for none. */
  function FormatMemoriesForPrompt(memories: seq<string>): string {
    if memories == [] then "" else Join(Bullets(memories), "\n")
  }

  /** No memories give the empty context. */
  lemma FormatNoMemories()
    ensures FormatMemoriesForPrompt([]) == ""
  {
  }

  /**
    Single-line memories can be read back from the formatted text: its lines
    are exactly the bullets, one per memory, in order, with no empty line
    after the last.
   */
  lemma FormatLines(memories: seq<string>)
    requires memories != []
    requires forall i :: 0 <= i < |memories| ==> '\n' !in memories[i]
    ensures Split(FormatMemoriesForPrompt(memories), '\n') == Bullets(memories)
  {
    var b := Bullets(memories);
    forall i | 0 <= i < |b|
      ensures '\n' !in b[i]
    {
      assert b[i] == "- " + memories[i];
    }
    SplitJoin(b, '\n');
  }
}
