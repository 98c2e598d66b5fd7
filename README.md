# Zazu's turn graph, memory gate and schedule

This project models the core of zazubot, a persona chat agent ("Zazu"). A
conversation turn runs through a fixed graph of nodes:

1. memory extraction, router, context injection, memory injection;
2. one of the three reply generators: conversation, image or audio;
3. optionally, summarization.

Each node returns a partial update that is merged into the graph state.

Some members are plain definitions, and other members' contracts give them their meaning:

- `GraphState.Overwrite` is explained by the merge lemmas.
- `VectorStore.Store.Scores`, `MemoryOf` and `MemoriesOf`, and `VectorStore.Memory.Id` and `Timestamp`, are explained by `SearchMemories`, `StoredComesBack` and `NewMemoryReadsBack`.
- `MemoryManager.TextsOf` and `Bullets` are explained by `GetRelevantMemories` and `FormatLines`.

The model covers:

- the turn graph (`graph.dfy`) as a transition relation plus a driver method,
  `Graph.RunTurn`, that runs one turn against a vector store;
- the two conditional edges (`edges.dfy`);
- the nodes and their updates (`nodes.dfy`), with the state record and merge
  rule (`state.dfy`);
- the long-term memory gate (`memory_manager.dfy`) and the vector store it
  writes to, as a class whose index is a map from point id to point
  (`vector_store.dfy`);
- the weekly activity schedule: key parsing and the first-match lookup
  (`context_generation.dfy`), the seven day tables (`schedules.dfy`), and the
  proof that every minute of every day finds an activity
  (`schedule_coverage.dfy`);
- the asterisk-aside scrubber that every character reply passes through
  (`helpers.dfy`), and the character system message (`chains.dfy`);
- the guards of the media services (`media.dfy`).

Several things outside the code become parameters:

- **Models and services.** Every language model and media service is an
  oracle function gathered in `Nodes.Services`: the router classifier, the
  character model, the summarizer, memory analysis, scenario creation,
  image rendering and speech synthesis.
- **Similarity.** The embedding similarity is an oracle
  `score(query, text): real`, compared with 0.9.
- **Hash.** Python's salted `hash` is an oracle of the store.
- **Clocks and ids.** The clock readings, the memory id and timestamp, the
  image uuid and the reply's message id arrive in `Graph.TurnInputs`.
- **Timetable.** The weekly timetable is also passed in `TurnInputs`. The
  source's timetable, `SCHEDULES`, is `ContextGeneration.DaySchedules`, and
  its lookup is proved total in `ScheduleCoverage.ActivityAlwaysFound`.

Merging follows this rule:

1. the returned messages are appended;
2. the messages whose ids are listed for removal are dropped;
3. every other returned key overwrites the stored one.

Where the code and its description disagree, the model follows the code:

- Schedule ranges are inclusive at both ends. At a shared boundary, the
  earlier range wins.
- A near-duplicate memory is skipped. The memory manager never updates an
  existing record.
- No node catches an error from memory extraction or injection, so a failing
  analysis ends the turn.
- `memory_context` is written by memory injection although the state class
  does not declare it. The model's `State` has the slot (see "## Left out").

## Model

| member | source | states |
|---|---|---|
| ContextGeneration.TicksOrderIsLexicographic | src/zazubot/modules/schedules/context_generation.py:56-61 | comparing microseconds-since-midnight is exactly the field-by-field order in which Python compares `time` values |
| ContextGeneration.ParseClock | src/zazubot/modules/schedules/context_generation.py:31-33 | a parsed `%H:%M` clock is a valid time of day with zero seconds and microseconds |
| ContextGeneration.ParseTimeRange | src/zazubot/modules/schedules/context_generation.py:29-34 | a key parses only if it holds exactly one `-`, and then to two valid times (start, end) |
| ContextGeneration.LookupFirstMatch | src/zazubot/modules/schedules/context_generation.py:52-61 | when every earlier entry parses and misses and entry `i` matches, the lookup returns entry `i`'s activity: the first match in table order wins |
| ContextGeneration.LookupSkip | src/zazubot/modules/schedules/context_generation.py:52-61 | an entry that parses and does not match is passed over |
| ContextGeneration.LookupNoMatch | src/zazubot/modules/schedules/context_generation.py:52-63 | when every key parses and none matches, the result is `None` |
| ContextGeneration.LookupFindsCover | src/zazubot/modules/schedules/context_generation.py:52-63 | when every key parses and some entry matches, an activity is returned |
| ContextGeneration.ScheduleForDayWeek | src/zazubot/modules/schedules/context_generation.py:65-75 | days 0..6 (Monday first) give their day's table, and every other day an empty one |
| ContextGeneration.GetCurrentActivity | src/zazubot/modules/schedules/context_generation.py:36-63 | the loop with early return yields the first-match lookup over the day's table, including its error when an unmatched-so-far key does not parse |
| ScheduleCoverage.ParseFormatClock | src/zazubot/modules/schedules/context_generation.py:31-33 | a whole-minute time written as `HH:MM` parses back to itself |
| ScheduleCoverage.ParseFormatRange | src/zazubot/modules/schedules/context_generation.py:29-34 | a range written as `HH:MM-HH:MM` parses back to itself |
| ScheduleCoverage.KeySets | src/zazubot/core/schedules.py:2-106 | Monday to Friday carry the weekday keys (11 entries), Saturday and Sunday the weekend keys (12 entries), in table order |
| ScheduleCoverage.DistinctKeys | src/zazubot/core/schedules.py:2-106 | no key repeats within a table |
| ScheduleCoverage.WeekdayKeysParse | src/zazubot/core/schedules.py:3-73 | every weekday key parses, to the stated bounds |
| ScheduleCoverage.WeekendKeysParse | src/zazubot/core/schedules.py:78-105 | every weekend key parses, splitting the day at 10:00, 15:30 and 17:00 among others |
| ScheduleCoverage.ChainCovers | src/zazubot/core/schedules.py:3-13 | a table of ranges starting at 06:00, each ending where the next starts and the last wrapping back to the start, covers every time of day |
| ScheduleCoverage.OnlyLastWraps | src/zazubot/core/schedules.py:2-106 | in each day's table exactly one range wraps midnight, the last |
| ScheduleCoverage.LastKeyIsOvernight | src/zazubot/core/schedules.py:2-106 | the last key of every day is `23:00-06:00` |
| ScheduleCoverage.ActivityAlwaysFound | src/zazubot/modules/schedules/context_generation.py:52-63 | for every day 0..6 and every time of day the lookup succeeds with an activity |
| ScheduleCoverage.NoActivityOffWeek | src/zazubot/modules/schedules/context_generation.py:49-63 | a day outside 0..6 finds no activity |
| ScheduleCoverage.BoundaryGoesToEarlierRange | src/zazubot/core/schedules.py:3-4 | on Monday every time from 06:00 through 07:00, 07:00 included, gets the `06:00-07:00` activity: at a shared boundary the earlier range wins |
| ScheduleCoverage.JustAfterBoundary | src/zazubot/core/schedules.py:3-4 | on Monday, after 07:00 up to 08:30, the `07:00-08:30` activity is given |
| ScheduleCoverage.OvernightKey | src/zazubot/core/schedules.py:13 | `23:00-06:00` parses to a range that wraps midnight |
| ScheduleCoverage.OvernightMatchesNight | src/zazubot/modules/schedules/context_generation.py:56-58 | the `23:00-06:00` range matches exactly the times at or after 23:00 or at or before 06:00 |
| ScheduleCoverage.OvernightMissesDaytime | src/zazubot/modules/schedules/context_generation.py:56-58 | the `23:00-06:00` range misses the times strictly between 06:00 and 23:00 |
| Edges.ShouldSummarizeConversation | src/zazubot/graph/edges.py:8-16 | summarize exactly when the history holds more than 20 messages, otherwise end |
| Edges.SummarizeBoundary | src/zazubot/graph/edges.py:13-16 | 20 messages end the turn and 21 summarize |
| Edges.SummarizeMonotone | src/zazubot/graph/edges.py:13 | a longer history never turns a summarization into an end |
| Edges.WorkflowNode | src/zazubot/graph/edges.py:22-31 | `"image"` gives the image node, `"audio"` the audio node, and every other label the conversation node |
| Edges.SelectWorkflow | src/zazubot/graph/edges.py:19-31 | with a workflow set, the dispatch yields exactly one generation node; with none, a `KeyError` |
| Edges.DefaultIsConversation | src/zazubot/graph/edges.py:30-31 | `"conversation"`, `""` and unknown labels route to conversation |
| Chains.NoSummaryIsCard | src/zazubot/graph/utils/chains.py:26-28 | with an empty summary the system message is the card itself |
| Chains.CardIsPrefix | src/zazubot/graph/utils/chains.py:26-31 | the card always opens the system message, and a non-empty summary follows the fixed lead |
| Chains.SystemMessageInjective | src/zazubot/graph/utils/chains.py:26-31 | different summaries give different system messages |
| Chains.CharacterResponse | src/zazubot/graph/utils/chains.py:40 | a character reply is the raw text through the asterisk remover: no aside pair remains on a line and it is no longer |
| Helpers.Closing | src/zazubot/graph/utils/helpers.py:34 | the non-greedy match finds the first `*` before any newline, or none when a newline comes first |
| Helpers.Scrub | src/zazubot/graph/utils/helpers.py:34 | the substitution never lengthens its input |
| Helpers.ParseReply | src/zazubot/graph/utils/helpers.py:37-40 | the parser returns the scrubbed, stripped text: no longer than the input, no whitespace at either end, no asterisk pair left on a line |
| Helpers.NoStarOnlyStrips | src/zazubot/graph/utils/helpers.py:32-34 | text without `*` is only stripped |
| Helpers.RemovesLeftmostPair | src/zazubot/graph/utils/helpers.py:34 | the leftmost `*…*` pair on one line is deleted with its asterisks, and the scan resumes after it |
| Helpers.NewlineBreaksPair | src/zazubot/graph/utils/helpers.py:34 | an asterisk whose partner lies past a newline is kept |
| Helpers.UnpairedStarSurvives | src/zazubot/graph/utils/helpers.py:34 | a lone asterisk survives (`"a*b"` stays `"a*b"`) |
| Helpers.LeadingAsideRemoved | src/zazubot/graph/utils/helpers.py:32-34 | a leading aside is removed and the rest is stripped |
| Helpers.ScrubNoPairOnALine | src/zazubot/graph/utils/helpers.py:32-34 | after the substitution no line holds two asterisks |
| Text.Split | src/zazubot/modules/schedules/context_generation.py:31 | `str.split(c)` gives one more part than there are separators, none containing one |
| Text.JoinSplit | src/zazubot/modules/schedules/context_generation.py:31 | joining the parts of a split with the separator gives back the string |
| Text.SplitJoin | src/zazubot/modules/memory/long_term/memory_manager.py:138 | splitting a join of separator-free parts gives back the parts |
| Text.Strip | src/zazubot/graph/utils/helpers.py:34 | strip removes exactly the leading and trailing whitespace |
| Text.StripIdempotent | src/zazubot/graph/utils/helpers.py:34 | stripping twice is stripping once |
| GraphState.RemoveIds | src/zazubot/graph/nodes.py:125-129 | removal keeps exactly the messages whose id is not listed |
| GraphState.Last | src/zazubot/graph/nodes.py:25 | `s[-k:]`: the last `k` elements, or all when fewer |
| GraphState.DropLast | src/zazubot/graph/nodes.py:127 | `s[:-k]`: everything but the last `k`, empty when at most `k` |
| GraphState.DropLastThenLast | src/zazubot/graph/nodes.py:127 | the two slices split the history |
| GraphState.MergeNoUpdate | src/zazubot/graph/nodes.py:139 | merging the empty update changes nothing |
| GraphState.KeepLast | src/zazubot/graph/nodes.py:125-129 | with unique ids, removing the ids of all but the last `k` leaves exactly the last `k`, in order |
| Nodes.RouterWindow | src/zazubot/graph/nodes.py:22-27 | the router reads only the last three messages: histories that end alike route alike |
| Nodes.RouterWritesOnlyWorkflow | src/zazubot/graph/nodes.py:22-27 | the merged router update sets the workflow to the classifier's label and changes nothing else; it fails iff the classifier does |
| Nodes.ContextInjectionFlag | src/zazubot/graph/nodes.py:30-36 | the flag is set iff the new activity differs from the stored one (absent counts as `""`); the activity is overwritten; nothing else changes |
| Nodes.ContextInjectionSettles | src/zazubot/graph/nodes.py:30-36 | injecting the same activity again raises no flag |
| Nodes.ContextInjectionFirstTurn | src/zazubot/graph/nodes.py:32-33 | with nothing stored, `""` raises no flag and `None` does |
| Nodes.ConversationAddsOneReply | src/zazubot/graph/nodes.py:39-53 | the conversation update is exactly one reply, with the raw answer scrubbed, and nothing else |
| Nodes.ImageAddsOneReply | src/zazubot/graph/nodes.py:56-83 | the image update is one AI reply plus the image path, and nothing else |
| Nodes.ImageUsesLastFive | src/zazubot/graph/nodes.py:63-83 | the scenario reads the last five messages; the scenario note reaches the chain but not the state |
| Nodes.AudioAddsOneReply | src/zazubot/graph/nodes.py:86-103 | the (corrected) audio update is one AI reply plus non-empty audio, and nothing else |
| Nodes.AudioReplyFiledAsHuman | src/zazubot/graph/nodes.py:103 | as written, the audio reply lands in the history under the user's role; the corrected node files it as Zazu's |
| Nodes.SummaryPromptChoice | src/zazubot/graph/nodes.py:108-122 | the extend instruction is used exactly when a non-empty summary exists |
| Nodes.SummarizeKeepsLastFive | src/zazubot/graph/nodes.py:106-129 | after the merge just the last five messages remain, unchanged and in order, the summary is the model's answer, nothing else changes, and with five or fewer messages nothing is removed |
| Nodes.MemoryExtractionNode | src/zazubot/graph/nodes.py:132-139 | the update is empty; only the last message reaches the manager; it fails iff that message is human and its analysis fails; the store changes only by the manager's write |
| Nodes.RecentContextOfThree | src/zazubot/graph/nodes.py:145-146 | the memory query is the contents of the last three messages joined by single spaces |
| Nodes.RecentContextShort | src/zazubot/graph/nodes.py:145-147 | a history of fewer than three messages gives the query from all of them, and an empty one gives `""` |
| Nodes.MemoryInjectionNode | src/zazubot/graph/nodes.py:142-153 | the update sets only the memory context, to the formatted top-3 memories for the recent context; `""` when the store has no collection |
| MemoryManager.ExtractAndStoreMemories | src/zazubot/modules/memory/long_term/memory_manager.py:71-104 | a non-human message is not analysed; an unimportant or empty analysis and a near-duplicate write nothing; otherwise the formatted memory is stored under the fresh id with its timestamp, creating the collection, and no other point changes |
| MemoryManager.GetRelevantMemories | src/zazubot/modules/memory/long_term/memory_manager.py:106-124 | the texts of the top-3 points for the context, best first, at most three; none without a collection |
| MemoryManager.NewMemoryReadsBack | src/zazubot/modules/memory/long_term/memory_manager.py:97-104 | a memory stored by extraction comes back from a search with its text, its id, and its timestamp (absent when empty), as the `Memory` accessors of vector_store.py:27-39 read them |
| MemoryManager.FormatNoMemories | src/zazubot/modules/memory/long_term/memory_manager.py:136-137 | no memories format to `""` |
| MemoryManager.FormatLines | src/zazubot/modules/memory/long_term/memory_manager.py:126-138 | the lines of the formatted text are exactly the bullets, in order, with no trailing newline |
| VectorStore.MissingVars | src/zazubot/modules/memory/long_term/vector_store.py:92 | the unset or empty variables, within the list |
| VectorStore.ValidateEnvVars | src/zazubot/modules/memory/long_term/vector_store.py:86-96 | raises iff some required variable is missing, naming the missing ones in declaration order |
| VectorStore.BothMissing | src/zazubot/modules/memory/long_term/vector_store.py:92-96 | with both missing, the message names `QDRANT_URL, QDRANT_API_KEY` |
| VectorStore.MaxExists | src/zazubot/modules/memory/long_term/vector_store.py:188-194 | a non-empty set of scored points has a best one |
| VectorStore.SelectingStep | src/zazubot/modules/memory/long_term/vector_store.py:188-194 | taking a best remaining point keeps the hits in rank order |
| VectorStore.SelectingDone | src/zazubot/modules/memory/long_term/vector_store.py:188-194 | a selection of `k` points, or of all, is the top `k` |
| VectorStore.Store.HitIdIsKey | src/zazubot/modules/memory/long_term/vector_store.py:27-30 | the id a search hit reports is the key its point is stored under, so reusing it overwrites that point |
| VectorStore.Store.StoredComesBack | src/zazubot/modules/memory/long_term/vector_store.py:158-201 | a point upserted with payload `{"text": text, **metadata}` is found again with that text (a metadata `text` wins), the metadata without `text`, the stored text's score, and its metadata id, which is its key |
| VectorStore.Store.CreateCollection | src/zazubot/modules/memory/long_term/vector_store.py:98-120 | creating the collection leaves it existing and empty |
| VectorStore.Store.SearchMemories | src/zazubot/modules/memory/long_term/vector_store.py:171-201 | without a collection, `[]` and nothing created; otherwise the memories of the `k` best points, best first, at most `k` |
| VectorStore.Store.FindSimilarMemory | src/zazubot/modules/memory/long_term/vector_store.py:122-135 | a memory is returned iff some point scores at least 0.9, and then it is the best-scoring one |
| VectorStore.Store.StoreMemory | src/zazubot/modules/memory/long_term/vector_store.py:137-169 | the collection exists afterwards; a near-duplicate's non-empty id is written into the caller's metadata; the point under the metadata's id (or the text's hash) becomes the text with payload text plus metadata; every other point is kept; reusing an id adds no point |
| Media.Synthesize | src/zazubot/modules/speech/text_to_speech.py:35-74 | blank text and text over 5000 characters are refused before the service is called; audio is returned only when the service gives some, and a service failure or empty audio is a text-to-speech error |
| Media.GenerateImage | src/zazubot/modules/image/text_to_image.py:62-91 | a blank prompt is refused; otherwise the render result is returned and its failure is a text-to-image error |
| Media.CreateScenario | src/zazubot/modules/image/text_to_image.py:93-125 | the scenario model sees the last five messages; its failure is a text-to-image error |
| Graph.EightNodes | src/zazubot/graph/graph.py:27-34 | exactly eight nodes are registered: every node but the entry and the exit |
| Graph.EdgeDeepens | src/zazubot/graph/graph.py:38-56 | every edge leads deeper, so the graph is acyclic |
| Graph.PathDeepens | src/zazubot/graph/graph.py:38-56 | depth grows strictly along a path |
| Graph.PathIsShort | src/zazubot/graph/graph.py:38-56 | a path repeats no node and has at most eight nodes |
| Graph.RunShape | src/zazubot/graph/graph.py:38-56 | every run is extraction, router, context injection, memory injection, exactly one generation node, then the exit or summarization and the exit: at most six node visits, none repeated |
| Graph.Next | src/zazubot/graph/graph.py:38-56 | the runtime's next node is joined to the current one by an edge and is always defined except after memory injection, where a missing workflow raises |
| Graph.GenerateAppendsReply | src/zazubot/graph/nodes.py:39-103 | each generation node adds exactly Zazu's one reply, under the reply id, removes nothing, and leaves the summary and workflow alone |
| Graph.RunGeneration | src/zazubot/graph/nodes.py:39-103 | a generation node reads the clock for the activity, then runs its node |
| Graph.Step | src/zazubot/graph/graph.py:27-34 | each node returns its own update; memory extraction fails exactly when the analysis of a human last message does, and leaves the store as it was unless its message is worth storing and has no near-duplicate, in which case exactly one point, the new memory under the fresh id, is added or replaced; memory injection sets only the memory context, to the formatted top-3 memories; every other node leaves the store alone |
| Graph.RunNode | src/zazubot/graph/graph.py:38-56 | a step follows an edge deeper and keeps the turn's record of the route and the generated history; the store effect of memory extraction and the memory-injection state are passed on exactly as `Step` gives them |
| Graph.RunTurn | src/zazubot/graph/graph.py:38-56 | a successful turn follows a complete run whose generation node is the one the router's verdict selects; the generated history is the inbound one plus Zazu's reply; summarization runs iff that history is over 20 messages, and the final state is the summarized one or the generated one; a failing extraction fails the turn; whether the turn succeeds or not, the store is unchanged unless the inbound last message is human, worth storing and has no near-duplicate, and then it differs only by the new memory |
| Graph.Finish | src/zazubot/graph/graph.py:51-56 | at the exit the route is a complete run whose summary branch matches the history length |
| Graph.ExtendsByKeepsUnique | src/zazubot/graph/nodes.py:39-103 | a reply with a fresh id keeps message ids unique |
| Graph.TurnKeepsLastFive | src/zazubot/graph/graph.py:51-56 | when the generated history exceeds 20 messages the final state keeps exactly its last five and the summary is replaced |

## Left out

- I/O, logging, `async`/`await`, and the LangGraph runtime and checkpointer are not modelled. The turn is a sequential driver method.
- The singleton and `lru_cache` mechanics are not modelled. The store is the object passed in.
- The webhook, Chainlit and WhatsApp interfaces are left out.
- The image-to-text module is left out.
- Speech-to-text is left out.
- The image file write and its directory creation are not modelled. The render oracle takes the path.
- `enhance_prompt` (src/zazubot/modules/image/text_to_image.py:127) is left out: no node calls it.
- The environment checks of the image and speech clients are not modelled. `image_node` and `audio_node` build a new client on every call (src/zazubot/graph/nodes.py:61 and nodes.py:91), and its constructor raises `ValueError("Missing required environment variables: ...")` when `GROQ_API_KEY`/`TOGETHER_API_KEY` or `ELEVENLABS_API_KEY`/`ELEVENLABS_VOICE_ID` is unset. So every image or audio turn can fail there, and an audio turn fails before the reply model is called. The model's image and audio nodes assume the variables are set.
- The language models, the embedding model, cosine similarity, the clock, `uuid4` and Python's salted `hash` are oracles or parameters.
- The nearest-neighbour search is modelled as an exact top-`k`. Among equal scores the order is left open.
- The Qdrant point-id format is not modelled. Ids are a string or the hash.
- `datetime.fromisoformat` parsing of the timestamp is left out. The timestamp is kept as text.
- `strptime` itself is not modelled: its exact error messages, Unicode digits and whitespace handling. The model parses `%H:%M` as one or two ASCII digits per field.
- The contents of the character card, router and memory-analysis prompts are parameters. core/prompts.py is not part of this model.
- LangGraph's `add_messages` reducer is modelled as "append, then remove by id". Replacement of a message by id, and the reducer's assignment of ids to new messages, are not modelled. The reply id is an input.
- Graph.RunTurn: takes the timetable as an input instead of reading `SCHEDULES`. The source's timetable is `ContextGeneration.DaySchedules`, which is proved total separately.
- Graph.TurnKeepsLastFive: needs the inbound messages' ids to be unique and the reply id to be fresh. LangGraph guarantees this; the model assumes it.
- Graph.RunTurn: runs the corrected audio node (`Nodes.AudioNode`), so for an audio turn the reply it promises is Zazu's (AI role). The source as written (nodes.py:103) files that reply as a human message (see "## Findings").
- Graph.GenerateAppendsReply: states the AI-role reply for the corrected audio node, not for the audio node as written at nodes.py:103.
- Graph.RunGeneration: runs the corrected audio node, not the one written at nodes.py:103.
- Graph.Step: the audio node's update is the corrected one, not the one written at nodes.py:103.
- Graph.RunNode: the turn record it keeps (`ExtendsBy`, an AI-role reply) describes the corrected audio node, not the one written at nodes.py:103.
- Nodes.MemoryInjectionNode: assumes the runtime keeps the `memory_context` key, which state.py:17-22 does not declare. A LangGraph state schema has no channel for an undeclared key, so the write is probably discarded and the prompts read `""`. The model keeps the key and feeds it to the character prompt (`Graph.RunTurn` likewise). Nothing was executed to decide this.
- ContextGeneration.ParseTimeRange: the unpacking error messages follow CPython up to 3.12; from 3.13 the "too many values" message adds ", got N".
- Nodes.Prompt: the system message is used as a `ChatPromptTemplate` template (src/zazubot/graph/utils/chains.py:33-38), so a summary holding `{x}` or a lone `{` is parsed as template syntax and can raise. The model passes the summary as plain text; template parsing happens inside the character-model oracle.
- pydantic settings loading is left out. Only the constants 3, 3, 20 and 5 are carried over.

## Findings

| source | as written | input that shows it | evidently intended | confidence | as-written member | corrected member |
|---|---|---|---|---|---|---|
| src/zazubot/graph/nodes.py:103 | `audio_node` returns the reply as a bare string under `messages`, which the message reducer turns into a human message | any turn routed to `"audio"` whose synthesis succeeds | the reply is recorded as Zazu's (AI) message, as the other generation nodes do | not executed | Nodes.AudioNodeAsWritten (shown by Nodes.AudioReplyFiledAsHuman) | Nodes.AudioNode |
