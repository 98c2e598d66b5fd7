/**
  The nodes of the turn graph. Each reads the state and returns a partial
  update; the language models and media services are oracles gathered in
  `Services`, and the activity of the moment, the fresh message id and the
  image uuid are parameters.
 */
module Nodes {
  import opened Wrappers
  import opened Exceptions
  import opened Text
  import opened GraphState
  import opened Chains
  import opened Helpers
  import opened Media
  import opened VectorStore
  import opened MemoryManager
  import Settings

  /** The models and services a turn calls. */
  datatype Services = Services(
    /** The character card prompt. */
    card: string,
    /** The router chain's structured answer for a window of messages. */
    classify: seq<Message> -> Result<RouterResponse>,
    /** The raw text the character model answers a prompt with. */
    reply: CharacterPrompt -> Result<string>,
    /** The content of the summary model's answer to a conversation. */
    summarize: seq<Message> -> Result<string>,
    /** The memory analysis of a message text. */
    analyze: string -> Result<MemoryAnalysis>,
    /** The image prompt of the scenario for a chat history. */
    scenario: seq<Message> -> Result<string>,
    /** The image rendered for a prompt and saved at a path. */
    render: (string, string) -> Result<seq<bv8>>,
    /** The audio synthesized for a text. */
    speech: string -> Result<seq<bv8>>)

  /** The stored activity, read with `""` as default. */
  function StoredActivity(s: State): Option<string> {
    s.currentActivity.GetOr(Some(""))
  }

  /** `router_node`: classify the last messages and record the label as the workflow. */
  function RouterNode(s: State, classify: seq<Message> -> Result<RouterResponse>): Result<Update> {
    var response :- classify(Last(s.messages, Settings.RouterMessagesToAnalyze));
    Ok(NoUpdate.(workflow := Set(response.responseType)))
  }

  /**
    The router sees only the last three messages: histories that end alike
    are routed alike, and the merged update changes the workflow and nothing else.
   */
  lemma RouterWindow(s: State, t: State, classify: seq<Message> -> Result<RouterResponse>)
    requires Last(s.messages, 3) == Last(t.messages, 3)
    ensures RouterNode(s, classify) == RouterNode(t, classify)
  {
  }

  lemma RouterWritesOnlyWorkflow(s: State, classify: seq<Message> -> Result<RouterResponse>)
    ensures RouterNode(s, classify).Ok? <==> classify(Last(s.messages, 3)).Ok?
    ensures RouterNode(s, classify).Ok? ==>
      Merge(s, RouterNode(s, classify).value) ==
        s.(workflow := Set(classify(Last(s.messages, 3)).value.responseType))
  {
    if RouterNode(s, classify).Ok? {
      MergeAppends(s, RouterNode(s, classify).value);
      assert s.messages + [] == s.messages;
    }
  }

  /** `context_injection_node`: record the activity, flagging whether it changed. */
  function ContextInjectionNode(s: State, activity: Option<string>): Update {
    var apply := activity != StoredActivity(s);
    NoUpdate.(applyActivity := Set(apply), currentActivity := Set(activity))
  }

  /**
    The flag is set exactly when the new activity differs from the stored one
    (an absent one counts as `""`); the activity is always overwritten and
    nothing else changes.
   */
  lemma ContextInjectionFlag(s: State, activity: Option<string>)
    ensures Merge(s, ContextInjectionNode(s, activity)) ==
      s.(applyActivity := Set(activity != StoredActivity(s)), currentActivity := Set(activity))
  {
    MergeAppends(s, ContextInjectionNode(s, activity));
    assert s.messages + [] == s.messages;
  }

  /** A second injection of the same activity raises no flag. */
  lemma ContextInjectionSettles(s: State, activity: Option<string>)
    ensures ContextInjectionNode(Merge(s, ContextInjectionNode(s, activity)), activity).applyActivity == Set(false)
  {
    ContextInjectionFlag(s, activity);
  }

  /** With nothing stored, only an activity other than `""` raises the flag; `None` does. */
  lemma ContextInjectionFirstTurn(s: State)
    requires s.currentActivity.Unset?
    ensures ContextInjectionNode(s, Some("")).applyActivity == Set(false)
    ensures ContextInjectionNode(s, None).applyActivity == Set(true)
  {
  }

  /** The character prompt for a conversation. */
  function Prompt(s: State, card: string, conversation: seq<Message>, activity: Option<string>): CharacterPrompt {
    CharacterPrompt(SystemMessage(card, s.summary.GetOr("")), conversation, activity, s.memoryContext.GetOr(""))
  }

  /** Zazu's reply as a message. */
  function Reply(replyId: string, raw: string): Message {
    Message(replyId, Ai, CharacterResponse(raw))
  }

  /** `conversation_node`: answer the whole history with the character chain. */
  function ConversationNode(s: State, sv: Services, activity: Option<string>, replyId: string): Result<Update> {
    var raw :- sv.reply(Prompt(s, sv.card, s.messages, activity));
    Ok(NoUpdate.(added := [Reply(replyId, raw)]))
  }

  /** Where the image of a turn is saved. */
  function ImagePath(uuid: string): string {
    "generated_images/image_" + uuid + ".png"
  }

  /** The message that tells the character chain which image it sends. */
  function ScenarioMessage(imagePrompt: string): Message {
    Message("", Human, "<image attached by Zazu generated from prompt: " + imagePrompt + ">")
  }

  /**
    `image_node`: a scenario from the last messages, an image for its prompt,
    and a reply to the history extended by a note on the image.
   */
  function ImageNode(s: State, sv: Services, activity: Option<string>, uuid: string, replyId: string)
    : Result<Update>
  {
    var imagePrompt :- CreateScenario(Last(s.messages, 5), sv.scenario);
    var path := ImagePath(uuid);
    var _ :- GenerateImage(imagePrompt, path, sv.render);
    var raw :- sv.reply(Prompt(s, sv.card, s.messages + [ScenarioMessage(imagePrompt)], activity));
    Ok(NoUpdate.(added := [Reply(replyId, raw)], imagePath := Set(path)))
  }

  /**
    `audio_node` as written: the reply string itself is returned under
    `messages`, and the message reducer turns a bare string into a human
    message.
   */
  function AudioNodeAsWritten(s: State, sv: Services, activity: Option<string>, replyId: string)
    : Result<Update>
  {
    var raw :- sv.reply(Prompt(s, sv.card, s.messages, activity));
    var response := CharacterResponse(raw);
    var audio :- Synthesize(response, sv.speech);
    Ok(NoUpdate.(added := [Message(replyId, Human, response)], audioBuffer := Set(audio)))
  }

  /** `audio_node` as intended: the reply is recorded as Zazu's message, with its audio. */
  function AudioNode(s: State, sv: Services, activity: Option<string>, replyId: string): Result<Update> {
    var raw :- sv.reply(Prompt(s, sv.card, s.messages, activity));
    var response := CharacterResponse(raw);
    var audio :- Synthesize(response, sv.speech);
    Ok(NoUpdate.(added := [Message(replyId, Ai, response)], audioBuffer := Set(audio)))
  }

  /** The audio reply as written is filed under the user's role. */
  lemma AudioReplyFiledAsHuman(s: State, sv: Services, activity: Option<string>, replyId: string)
    requires AudioNodeAsWritten(s, sv, activity, replyId).Ok?
    ensures AudioNodeAsWritten(s, sv, activity, replyId).value.added[0].role == Human
    ensures AudioNode(s, sv, activity, replyId).Ok?
    ensures AudioNode(s, sv, activity, replyId).value.added[0].role == Ai
  {
  }

  /**
    Each generation node adds exactly one message, Zazu's reply with the
    asides removed, removes none, and writes nothing but its own media key.
   */
  lemma ConversationAddsOneReply(s: State, sv: Services, activity: Option<string>, replyId: string)
    requires ConversationNode(s, sv, activity, replyId).Ok?
    ensures var u := ConversationNode(s, sv, activity, replyId).value;
      u.added == [Reply(replyId, sv.reply(Prompt(s, sv.card, s.messages, activity)).value)] &&
      u == NoUpdate.(added := u.added)
  {
  }

  lemma ImageAddsOneReply(s: State, sv: Services, activity: Option<string>, uuid: string, replyId: string)
    requires ImageNode(s, sv, activity, uuid, replyId).Ok?
    ensures var u := ImageNode(s, sv, activity, uuid, replyId).value;
      |u.added| == 1 && u.added[0].role == Ai && u.added[0].id == replyId &&
      u == NoUpdate.(added := u.added, imagePath := Set(ImagePath(uuid)))
  {
  }

  lemma AudioAddsOneReply(s: State, sv: Services, activity: Option<string>, replyId: string)
    requires AudioNode(s, sv, activity, replyId).Ok?
    ensures var u := AudioNode(s, sv, activity, replyId).value;
      |u.added| == 1 && u.added[0].role == Ai && u.added[0].id == replyId &&
      u.audioBuffer.Set? && u.audioBuffer.value != [] &&
      u == NoUpdate.(added := u.added, audioBuffer := u.audioBuffer)
  {
  }

  /**
    The image scenario is built from the last five messages only, and the
    scenario note reaches the character chain but not the state.
   */
  lemma ImageUsesLastFive(s: State, sv: Services, activity: Option<string>, uuid: string, replyId: string)
    requires ImageNode(s, sv, activity, uuid, replyId).Ok?
    ensures sv.scenario(Last(s.messages, 5)).Ok?
    ensures var imagePrompt := sv.scenario(Last(s.messages, 5)).value;
      sv.reply(Prompt(s, sv.card, s.messages + [ScenarioMessage(imagePrompt)], activity)).Ok? &&
      ImageNode(s, sv, activity, uuid, replyId).value.added ==
        [Reply(replyId, sv.reply(Prompt(s, sv.card, s.messages + [ScenarioMessage(imagePrompt)], activity)).value)]
  {
    LastOfLast(s.messages, 5);
  }

  lemma LastOfLast<T>(s: seq<T>, k: nat)
    requires k > 0
    ensures Last(Last(s, k), k) == Last(s, k)
  {
  }

  /** The instruction appended for a first summary. */
  const CreateSummaryPrompt: string :=
    "Create " + "a summary of the conversation above between Zazu and the user. "
    + "The summary must be a short description of the conversation so far, "
    + "but that captures all the relevant information shared between Zazu and the user:"

  /** The instruction appended to extend an existing summary. */
  function ExtendSummaryPrompt(summary: string): string {
    "This " + "is summary of the conversation to date between Zazu and the user: " + summary
    + "\n\nExtend the summary by taking into account the new messages above:"
  }

  /** The instruction the summary model receives. */
  function SummaryPrompt(summary: string): string {
    if summary != "" then ExtendSummaryPrompt(summary) else CreateSummaryPrompt
  }

  /** The extend instruction is used exactly when a summary already exists. */
  lemma SummaryPromptChoice(summary: string)
    ensures SummaryPrompt(summary) == CreateSummaryPrompt <==> summary == ""
    ensures summary != "" ==> SummaryPrompt(summary) == ExtendSummaryPrompt(summary)
  {
    if summary != "" {
      var lead := "This ";
      var rest := "is summary of the conversation to date between Zazu and the user: " + summary
        + "\n\nExtend the summary by taking into account the new messages above:";
      assert ExtendSummaryPrompt(summary) == lead + rest;
      assert (lead + rest)[0] == lead[0] == 'T';
      var first := "Create ";
      var more := "a summary of the conversation above between Zazu and the user. "
        + "The summary must be a short description of the conversation so far, "
        + "but that captures all the relevant information shared between Zazu and the user:";
      assert CreateSummaryPrompt == first + more;
      assert (first + more)[0] == first[0] == 'C';
    }
  }

  /** The history with the summary instruction appended, as a human message. */
  function SummaryRequest(s: State): seq<Message> {
    s.messages + [Message("", Human, SummaryPrompt(s.summary.GetOr("")))]
  }

  /**
    `summarize_conversation_node`: summarize the history with the
    instruction appended, and remove every message except the last five.
   */
  function SummarizeNode(s: State, summarize: seq<Message> -> Result<string>): Result<Update> {
    var content :- summarize(SummaryRequest(s));
    Ok(NoUpdate.(
      removed := Ids(DropLast(s.messages, Settings.TotalMessagesAfterSummary)),
      summary := Set(content)))
  }

  /**
    After the merge of a summarization, the last five messages (all, when
    there are no more than five) are left, unchanged and in order, and the
    summary is the model's answer. With five or fewer messages nothing is
    removed.
   */
  lemma SummarizeKeepsLastFive(s: State, summarize: seq<Message> -> Result<string>)
    requires UniqueIds(s.messages)
    requires SummarizeNode(s, summarize).Ok?
    ensures var merged := Merge(s, SummarizeNode(s, summarize).value);
      merged.messages == Last(s.messages, 5) &&
      merged.summary == Set(summarize(SummaryRequest(s)).value) &&
      merged == s.(messages := merged.messages, summary := merged.summary)
    ensures |s.messages| <= 5 ==> SummarizeNode(s, summarize).value.removed == []
  {
    var u := SummarizeNode(s, summarize).value;
    assert s.messages + [] == s.messages;
    KeepLast(s.messages, 5);
  }

  /** The last message a memory is drawn from, if any. */
  function LastMessage(s: State): Option<Message> {
    if s.messages == [] then None else Some(s.messages[|s.messages| - 1])
  }

  /** The message leads to a write: it is human and its analysis is worth storing. */
  predicate WritesFrom(m: Message, analyze: string -> Result<MemoryAnalysis>) {
    m.role == Human && analyze(m.content).Ok? && Worth(analyze(m.content).value)
  }

  /** Extraction of the last message writes: it leads to a write and the store holds no near-duplicate. */
  predicate ExtractionWrites(store: Store, s: State, analyze: string -> Result<MemoryAnalysis>)
    reads store
  {
    LastMessage(s).Some? && WritesFrom(LastMessage(s).value, analyze) &&
    !store.HasNearDuplicate(analyze(LastMessage(s).value.content).value.formattedMemory.value)
  }

  /** The points of `store` once extraction of the last message of `s` has run. */
  function ExtractedPoints(
    store: Store, s: State, analyze: string -> Result<MemoryAnalysis>, newId: string, timestamp: string)
    : map<PointId, Point>
    reads store
  {
    if ExtractionWrites(store, s, analyze) then
      var text := analyze(LastMessage(s).value.content).value.formattedMemory.value;
      store.points[Named(newId) := Point(text, NewPayload(text, newId, timestamp))]
    else
      store.points
  }

  /**
    `memory_extraction_node`: hand the last message, and only that, to the
    memory manager; the update is always empty. An analysis failure raises.
   */
  method MemoryExtractionNode(
    store: Store, s: State, analyze: string -> Result<MemoryAnalysis>, newId: string, timestamp: string)
    returns (r: Result<Update>)
    requires store.Valid()
    modifies store
    ensures store.Valid()
    ensures r.Ok? ==> r.value == NoUpdate
    ensures LastMessage(s).None? ==> r == Ok(NoUpdate)
    ensures r.Err? <==>
      (LastMessage(s).Some? && LastMessage(s).value.role == Human &&
       analyze(LastMessage(s).value.content).Err?)
    ensures LastMessage(s).None? || !WritesFrom(LastMessage(s).value, analyze) ==> unchanged(store)
    ensures LastMessage(s).Some? && WritesFrom(LastMessage(s).value, analyze) ==>
      var text := analyze(LastMessage(s).value.content).value.formattedMemory.value;
      if old(store.HasNearDuplicate(text)) then unchanged(store)
      else store.points == old(store.points)[Named(newId) := Point(text, NewPayload(text, newId, timestamp))]
  {
    if s.messages == [] {
      return Ok(NoUpdate);
    }
    var outcome := ExtractAndStoreMemories(store, s.messages[|s.messages| - 1], analyze, newId, timestamp);
    if outcome.Err? {
      return Err(outcome.error);
    }
    return Ok(NoUpdate);
  }

  /** The contents of the last three messages, joined by single spaces. */
  function RecentContext(ms: seq<Message>): string {
    var recent := Last(ms, 3);
    Join(seq(|recent|, i requires 0 <= i < |recent| => recent[i].content), " ")
  }

  /** The query is built from the last three messages alone. */
  lemma RecentContextOfThree(ms: seq<Message>)
    requires |ms| >= 3
    ensures RecentContext(ms) ==
      ms[|ms| - 3].content + " " + ms[|ms| - 2].content + " " + ms[|ms| - 1].content
  {
    var recent := Last(ms, 3);
    var contents := seq(|recent|, i requires 0 <= i < |recent| => recent[i].content);
    assert contents == [ms[|ms| - 3].content, ms[|ms| - 2].content, ms[|ms| - 1].content];
    var a, b, d := ms[|ms| - 3].content, ms[|ms| - 2].content, ms[|ms| - 1].content;
    assert contents[1..] == [b, d] && contents[1..][1..] == [d];
    assert Join([b, d], " ") == b + " " + d;
    assert Join(contents, " ") == a + " " + (b + " " + d);
  }

  /** Shorter histories give the query from every message they hold, and none gives `""`. */
  lemma RecentContextShort(ms: seq<Message>)
    ensures |ms| == 0 ==> RecentContext(ms) == ""
    ensures |ms| == 1 ==> RecentContext(ms) == ms[0].content
    ensures |ms| == 2 ==> RecentContext(ms) == ms[0].content + " " + ms[1].content
  {
    if |ms| == 2 {
      var recent := Last(ms, 3);
      var contents := seq(|recent|, i requires 0 <= i < |recent| => recent[i].content);
      assert recent == ms;
      assert contents == [ms[0].content, ms[1].content];
      assert contents[1..] == [ms[1].content];
      assert Join(contents, " ") == ms[0].content + " " + ms[1].content;
    }
  }

  /**
    `memory_injection_node`: look up the memories relevant to the recent
    context and write them, formatted, as the memory context, and nothing else.
   */
  method MemoryInjectionNode(store: Store, s: State) returns (u: Update)
    requires store.Valid()
    ensures exists ids ::
      (store.AllStored(ids) && IsTopK(store.Scores(RecentContext(s.messages)), Settings.MemoryTopK, ids) &&
       u == NoUpdate.(memoryContext := Set(FormatMemoriesForPrompt(TextsOf(store, ids)))))
    ensures !store.hasCollection ==> u == NoUpdate.(memoryContext := Set(""))
  {
    var context := RecentContext(s.messages);
    var memories := GetRelevantMemories(store, context);
    u := NoUpdate.(memoryContext := Set(FormatMemoriesForPrompt(memories)));
  }
}
