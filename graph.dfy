/**
  The turn graph: eight registered nodes joined by fixed and conditional
  edges, written as a transition relation, and the driver that runs one
  turn by following it from the entry to the exit, merging each node's
  update into the state. No node catches an error: the first failure ends
  the turn with that error.
 */
module Graph {
  import opened Wrappers
  import opened Exceptions
  import opened GraphState
  import opened Edges
  import opened Nodes
  import opened VectorStore
  import opened MemoryManager
  import opened ContextGeneration
  import opened Chains
  import opened Schedules
  import Settings

  /** The nodes added to the graph. */
  const Registered: set<Node> :=
    {MemoryExtraction, Router, ContextInjection, MemoryInjection, Conversation, Image, Audio, Summarize}

  /** Exactly eight nodes are registered; the entry and exit are not among them. */
  lemma EightNodes()
    ensures |Registered| == 8
    ensures Start !in Registered && End !in Registered
    ensures forall n: Node :: n != Start && n != End ==> n in Registered
  {
  }

  /** The edges of the graph; a conditional edge leads to every node its condition can pick. */
  predicate Edge(u: Node, v: Node) {
    match u
    case Start => v == MemoryExtraction
    case MemoryExtraction => v == Router
    case Router => v == ContextInjection
    case ContextInjection => v == MemoryInjection
    case MemoryInjection => IsGeneration(v)
    case Conversation => v == Summarize || v == End
    case Image => v == Summarize || v == End
    case Audio => v == Summarize || v == End
    case Summarize => v == End
    case End => false
  }

  /** The depth of a node in the graph. */
  function Rank(n: Node): nat {
    match n
    case Start => 0
    case MemoryExtraction => 1
    case Router => 2
    case ContextInjection => 3
    case MemoryInjection => 4
    case Conversation => 5
    case Image => 5
    case Audio => 5
    case Summarize => 6
    case End => 7
  }

  /** Every edge leads deeper, so the graph has no cycle. */
  lemma EdgeDeepens(u: Node, v: Node)
    requires Edge(u, v)
    ensures Rank(u) < Rank(v)
  {
  }

  /** Consecutive nodes of `p` are joined by edges. */
  predicate IsPath(p: seq<Node>) {
    forall i :: 0 <= i < |p| - 1 ==> Edge(p[i], p[i + 1])
  }

  /** A complete run: a path from the entry to the exit. */
  predicate IsRun(p: seq<Node>) {
    IsPath(p) && |p| >= 2 && p[0] == Start && p[|p| - 1] == End
  }

  /** Along a path the depth strictly grows. */
  lemma {:induction false} PathDeepens(p: seq<Node>, i: nat, j: nat)
    requires IsPath(p) && i < j < |p|
    ensures Rank(p[i]) < Rank(p[j])
    decreases j - i
  {
    EdgeDeepens(p[i], p[i + 1]);
    if i + 1 < j {
      PathDeepens(p, i + 1, j);
    }
  }

  /** A path visits no node twice and is at most eight nodes long. */
  lemma PathIsShort(p: seq<Node>)
    requires IsPath(p)
    ensures forall i, j :: 0 <= i < j < |p| ==> p[i] != p[j]
    ensures |p| <= 8
  {
    forall i, j | 0 <= i < j < |p|
      ensures p[i] != p[j]
    {
      PathDeepens(p, i, j);
    }
    if |p| > 8 {
      forall i | 0 <= i < 8
        ensures Rank(p[i]) >= i
      {
        if i > 0 {
          PathDeepens(p, 0, i);
          RankLowerBound(p, i);
        }
      }
      RankLowerBound(p, 8);
      assert false;
    }
  }

  /** The node at position `i` of a path lies at depth `i` or deeper. */
  lemma {:induction false} RankLowerBound(p: seq<Node>, i: nat)
    requires IsPath(p) && i < |p|
    ensures Rank(p[i]) >= i
  {
    if i > 0 {
      RankLowerBound(p, i - 1);
      EdgeDeepens(p[i - 1], p[i]);
    }
  }

  /** The fixed opening of every run. */
  const Opening: seq<Node> := [Start, MemoryExtraction, Router, ContextInjection, MemoryInjection]

  /**
    Every run is the opening, then exactly one generation node, then either
    the exit or a summarization and the exit. It visits at most six nodes
    and none twice.
   */
  lemma RunShape(p: seq<Node>)
    requires IsRun(p)
    ensures |p| >= 7 && p[..5] == Opening && IsGeneration(p[5])
    ensures p == p[..6] + [End] || p == p[..6] + [Summarize, End]
    ensures |p| - 2 <= 6
    ensures forall i, j :: 0 <= i < j < |p| ==> p[i] != p[j]
  {
    PathIsShort(p);
    var n := |p|;
    assert p[1] == MemoryExtraction;
    assert p[2] == Router;
    assert p[3] == ContextInjection;
    assert p[4] == MemoryInjection;
    assert IsGeneration(p[5]);
    assert p[6] == Summarize || p[6] == End;
    if p[6] == End {
      assert n == 7;
      assert p == p[..6] + [End];
    } else {
      assert p[7] == End;
      assert n == 8;
      assert p == p[..6] + [Summarize, End];
    }
  }

  /** The node the runtime goes to after `u`, given the merged state. */
  function Next(u: Node, s: State): (r: Result<Node>)
    requires u != End
    ensures r.Ok? ==> Edge(u, r.value)
    ensures u != MemoryInjection ==> r.Ok?
  {
    match u
    case Start => Ok(MemoryExtraction)
    case MemoryExtraction => Ok(Router)
    case Router => Ok(ContextInjection)
    case ContextInjection => Ok(MemoryInjection)
    case MemoryInjection => SelectWorkflow(s)
    case Conversation => Ok(ShouldSummarizeConversation(s))
    case Image => Ok(ShouldSummarizeConversation(s))
    case Audio => Ok(ShouldSummarizeConversation(s))
    case Summarize => Ok(End)
  }

  /** A point in time as the clock reports it: weekday (0 = Monday) and time of day. */
  datatype Moment = Moment(day: int, time: TimeOfDay)

  /**
    What a turn reads besides the state: the weekly timetable (the source's
    `SCHEDULES`, which is `DaySchedules`), the clock and the id generators.
   */
  datatype TurnInputs = TurnInputs(
    /** The timetable activities are looked up in. */
    timetable: map<int, seq<Entry>>,
    /** When context injection reads the clock. */
    contextMoment: Moment,
    /** When the generation node reads the clock. */
    replyMoment: Moment,
    /** Id and ISO timestamp of a memory stored this turn. */
    memoryId: string,
    timestamp: string,
    /** Uuid naming this turn's image file. */
    imageUuid: string,
    /** Id the message reducer gives Zazu's reply. */
    replyId: string)

  /** The update of context injection, at the moment it reads the clock. */
  function ContextStep(s: State, inputs: TurnInputs): Result<Update> {
    var m := inputs.contextMoment;
    var activity :- Lookup(DayTable(inputs.timetable, m.day), m.time);
    Ok(ContextInjectionNode(s, activity))
  }

  /**
    The update of generation node `n`. The audio case runs the corrected
    `AudioNode`, which files the reply as Zazu's; `AudioNodeAsWritten` is
    the node as the source has it.
   */
  function Generate(n: Node, s: State, sv: Services, inputs: TurnInputs): Result<Update>
    requires IsGeneration(n)
  {
    var activity :- Lookup(DayTable(inputs.timetable, inputs.replyMoment.day), inputs.replyMoment.time);
    match n
    case Conversation => ConversationNode(s, sv, activity, inputs.replyId)
    case Image => ImageNode(s, sv, activity, inputs.imageUuid, inputs.replyId)
    case Audio => AudioNode(s, sv, activity, inputs.replyId)
  }

  /** A generation appends Zazu's one reply and leaves the workflow and summary alone. */
  lemma GenerateAppendsReply(n: Node, s: State, sv: Services, inputs: TurnInputs)
    requires IsGeneration(n) && Generate(n, s, sv, inputs).Ok?
    ensures var u := Generate(n, s, sv, inputs).value;
      u.removed == [] && |u.added| == 1 && u.added[0].id == inputs.replyId && u.added[0].role == Ai &&
      u.summary.Unset? && u.workflow.Unset?
  {
    var activity := Lookup(DayTable(inputs.timetable, inputs.replyMoment.day), inputs.replyMoment.time).value;
    match n
    case Conversation => ConversationAddsOneReply(s, sv, activity, inputs.replyId);
    case Image => ImageAddsOneReply(s, sv, activity, inputs.imageUuid, inputs.replyId);
    case Audio => AudioAddsOneReply(s, sv, activity, inputs.replyId);
  }

  /** The state a turn starts from: the stored state with the inbound messages appended. */
  function Inbound(persisted: State, inbound: seq<Message>): State {
    Merge(persisted, NoUpdate.(added := inbound))
  }

  /** `ms` extended by one message whose id is `id`, with `ms` left as it was. */
  predicate ExtendsBy(extended: seq<Message>, ms: seq<Message>, id: string) {
    |extended| == |ms| + 1 && extended[..|ms|] == ms && extended[|ms|].id == id && extended[|ms|].role == Ai
  }

  /** The extraction of the turn's last message fails: it is human and its analysis errs. */
  predicate ExtractionFails(s: State, sv: Services) {
    LastMessage(s).Some? && LastMessage(s).value.role == Human &&
    sv.analyze(LastMessage(s).value.content).Err?
  }

  /** What a successful node returned, node by node. */
  ghost predicate Stepped(n: Node, s: State, u: Update, sv: Services, inputs: TurnInputs) {
    match n
    case Start => false
    case End => false
    case MemoryExtraction => u == NoUpdate && !ExtractionFails(s, sv)
    case Router => RouterNode(s, sv.classify) == Ok(u)
    case ContextInjection => ContextStep(s, inputs) == Ok(u)
    case MemoryInjection => u == NoUpdate.(memoryContext := u.memoryContext)
    case Conversation => Generate(n, s, sv, inputs) == Ok(u)
    case Image => Generate(n, s, sv, inputs) == Ok(u)
    case Audio => Generate(n, s, sv, inputs) == Ok(u)
    case Summarize => SummarizeNode(s, sv.summarize) == Ok(u)
  }

  /** Runs generation node `n`: it reads the clock for the activity, then prompts the model. */
  method RunGeneration(n: Node, s: State, sv: Services, inputs: TurnInputs) returns (res: Result<Update>)
    requires IsGeneration(n)
    ensures res == Generate(n, s, sv, inputs)
  {
    var activity := GetCurrentActivity(inputs.timetable, inputs.replyMoment.day, inputs.replyMoment.time);
    if activity.Err? {
      return Err(activity.error);
    }
    match n
    case Conversation =>
      res := ConversationNode(s, sv, activity.value, inputs.replyId);
    case Image =>
      res := ImageNode(s, sv, activity.value, inputs.imageUuid, inputs.replyId);
    case Audio =>
      res := AudioNode(s, sv, activity.value, inputs.replyId);
  }

  /** Runs one node against the state and returns its update. */
  method Step(store: Store, n: Node, s: State, sv: Services, inputs: TurnInputs) returns (res: Result<Update>)
    requires store.Valid() && n != Start && n != End
    modifies store
    ensures store.Valid()
    ensures n != MemoryExtraction ==> unchanged(store)
    ensures n == MemoryExtraction ==>
      store.points == old(ExtractedPoints(store, s, sv.analyze, inputs.memoryId, inputs.timestamp)) &&
      store.hasCollection == (old(store.hasCollection) || old(ExtractionWrites(store, s, sv.analyze)))
    ensures n == MemoryExtraction && !old(ExtractionWrites(store, s, sv.analyze)) ==> unchanged(store)
    ensures res.Ok? ==> Stepped(n, s, res.value, sv, inputs)
    ensures n == MemoryExtraction ==> (res.Err? <==> ExtractionFails(s, sv))
    ensures n == Router ==> res == RouterNode(s, sv.classify)
    ensures n == ContextInjection ==> res == ContextStep(s, inputs)
    ensures n == MemoryInjection ==> res.Ok?
    ensures n == MemoryInjection ==> exists ids ::
      (store.AllStored(ids) && IsTopK(store.Scores(RecentContext(s.messages)), Settings.MemoryTopK, ids) &&
       res == Ok(NoUpdate.(memoryContext := Set(FormatMemoriesForPrompt(TextsOf(store, ids))))))
    ensures n == MemoryInjection && !store.hasCollection ==> res == Ok(NoUpdate.(memoryContext := Set("")))
    ensures IsGeneration(n) ==> res == Generate(n, s, sv, inputs)
    ensures n == Summarize ==> res == SummarizeNode(s, sv.summarize)
  {
    match n
    case MemoryExtraction =>
      res := MemoryExtractionNode(store, s, sv.analyze, inputs.memoryId, inputs.timestamp);
    case Router =>
      res := RouterNode(s, sv.classify);
    case ContextInjection =>
      var activity := GetCurrentActivity(inputs.timetable, inputs.contextMoment.day, inputs.contextMoment.time);
      res := if activity.Ok? then Ok(ContextInjectionNode(s, activity.value)) else Err(activity.error);
    case MemoryInjection =>
      var u := MemoryInjectionNode(store, s);
      res := Ok(u);
    case Conversation =>
      res := RunGeneration(n, s, sv, inputs);
    case Image =>
      res := RunGeneration(n, s, sv, inputs);
    case Audio =>
      res := RunGeneration(n, s, sv, inputs);
    case Summarize =>
      res := SummarizeNode(s, sv.summarize);
  }

  /** The router's verdict on the state a turn starts from. */
  function Verdict(start: State, sv: Services): Result<RouterResponse> {
    sv.classify(Last(start.messages, Settings.RouterMessagesToAnalyze))
  }

  /** The messages are the turn's inbound ones and the workflow is the router's verdict. */
  ghost predicate Classified(s: State, start: State, sv: Services) {
    s.messages == start.messages && Verdict(start, sv).Ok? &&
    s.workflow == Set(Verdict(start, sv).value.responseType)
  }

  /** The route has passed the opening and the generation node the verdict picks. */
  ghost predicate Routed(route: seq<Node>, start: State, sv: Services) {
    |route| >= 6 && route[..5] == Opening && Verdict(start, sv).Ok? &&
    route[5] == WorkflowNode(Verdict(start, sv).value.responseType)
  }

  /**
    How a turn ends: with the generated state, or, past the trigger, with
    the summarization merged into it.
   */
  ghost predicate Finished(route: seq<Node>, s: State, generated: State, sv: Services) {
    (|route| == 6 && s == generated &&
     |generated.messages| <= Settings.TotalMessagesSummaryTrigger) ||
    (|route| == 7 && route[6] == Summarize &&
     |generated.messages| > Settings.TotalMessagesSummaryTrigger &&
     SummarizeNode(generated, sv.summarize).Ok? &&
     s == Merge(generated, SummarizeNode(generated, sv.summarize).value))
  }

  /**
    What holds when the turn, having visited `route`, is about to run
    `node` on state `s`; `generated` is the state after the generation node.
   */
  ghost predicate Reached(
    node: Node, route: seq<Node>, s: State, generated: State, start: State, sv: Services, replyId: string)
  {
    (node != MemoryExtraction ==> !ExtractionFails(start, sv)) &&
    match node
    case Start => false
    case MemoryExtraction => route == Opening[..1] && s == start
    case Router => route == Opening[..2] && s.messages == start.messages
    case ContextInjection => route == Opening[..3] && Classified(s, start, sv)
    case MemoryInjection => route == Opening[..4] && Classified(s, start, sv)
    case Conversation => route == Opening && Classified(s, start, sv) && Routed(route + [node], start, sv)
    case Image => route == Opening && Classified(s, start, sv) && Routed(route + [node], start, sv)
    case Audio => route == Opening && Classified(s, start, sv) && Routed(route + [node], start, sv)
    case Summarize =>
      Routed(route, start, sv) && |route| == 6 && s == generated &&
      ExtendsBy(generated.messages, start.messages, replyId) &&
      |generated.messages| > Settings.TotalMessagesSummaryTrigger
    case End =>
      Routed(route, start, sv) && ExtendsBy(generated.messages, start.messages, replyId) &&
      Finished(route, s, generated, sv)
  }

  /** An update that appends nothing and removes nothing keeps the messages. */
  lemma MergeKeepsMessages(s: State, u: Update)
    requires u.added == [] && u.removed == []
    ensures Merge(s, u).messages == s.messages
  {
    MergeAppends(s, u);
    assert s.messages + [] == s.messages;
  }

  /** The opening nodes keep what `Reached` records for the next one. */
  lemma AdvanceOpening(
    node: Node, route: seq<Node>, s: State, u: Update, generated: State, start: State, sv: Services,
    inputs: TurnInputs)
    requires Rank(node) in {1, 2, 3, 4}
    requires Reached(node, route, s, generated, start, sv, inputs.replyId) && Stepped(node, s, u, sv, inputs)
    requires Next(node, Merge(s, u)).Ok?
    ensures Reached(Next(node, Merge(s, u)).value, route + [node], Merge(s, u), generated, start, sv, inputs.replyId)
  {
    match node
    case MemoryExtraction =>
      MergeNoUpdate(s);
    case Router =>
      RouterWritesOnlyWorkflow(s, sv.classify);
    case ContextInjection =>
      MergeKeepsMessages(s, u);
    case MemoryInjection =>
      AdvanceMemoryInjection(route, s, u, generated, start, sv, inputs);
  }

  /** Memory injection hands over to the generation node the verdict picks. */
  lemma AdvanceMemoryInjection(
    route: seq<Node>, s: State, u: Update, generated: State, start: State, sv: Services, inputs: TurnInputs)
    requires route == Opening[..4] && Classified(s, start, sv) && !ExtractionFails(start, sv)
    requires u == NoUpdate.(memoryContext := u.memoryContext)
    requires Next(MemoryInjection, Merge(s, u)).Ok?
    ensures Reached(Next(MemoryInjection, Merge(s, u)).value, route + [MemoryInjection], Merge(s, u),
      generated, start, sv, inputs.replyId)
  {
    MergeKeepsMessages(s, u);
    var g := Next(MemoryInjection, Merge(s, u)).value;
    assert route + [MemoryInjection] == Opening;
    assert g == WorkflowNode(Verdict(start, sv).value.responseType);
    assert (Opening + [g])[..5] == Opening;
  }

  /** A generation node records the generated state and picks the summary branch by length. */
  lemma AdvanceGeneration(
    node: Node, route: seq<Node>, s: State, u: Update, generated: State, start: State, sv: Services,
    inputs: TurnInputs)
    requires IsGeneration(node)
    requires Reached(node, route, s, generated, start, sv, inputs.replyId) && Stepped(node, s, u, sv, inputs)
    ensures Next(node, Merge(s, u)).Ok?
    ensures Reached(Next(node, Merge(s, u)).value, route + [node], Merge(s, u), Merge(s, u), start, sv, inputs.replyId)
  {
    GenerationExtends(node, s, u, start, sv, inputs);
    assert |route + [node]| == 6;
  }

  /** The generated history is the inbound one with the reply appended. */
  lemma GenerationExtends(node: Node, s: State, u: Update, start: State, sv: Services, inputs: TurnInputs)
    requires IsGeneration(node) && s.messages == start.messages
    requires Generate(node, s, sv, inputs) == Ok(u)
    ensures ExtendsBy(Merge(s, u).messages, start.messages, inputs.replyId)
  {
    GenerateAppendsReply(node, s, sv, inputs);
    AppendReply(s, u, inputs.replyId);
  }

  /** Merging one reply that removes nothing extends the history by that reply. */
  lemma AppendReply(s: State, u: Update, replyId: string)
    requires u.removed == [] && |u.added| == 1 && u.added[0].id == replyId && u.added[0].role == Ai
    ensures ExtendsBy(Merge(s, u).messages, s.messages, replyId)
  {
    MergeAppends(s, u);
    var t := Merge(s, u).messages;
    assert t == s.messages + [u.added[0]];
    assert t[..|s.messages|] == s.messages;
  }

  /** Summarization leads to the exit with its update merged. */
  lemma AdvanceSummarize(
    route: seq<Node>, s: State, u: Update, generated: State, start: State, sv: Services, inputs: TurnInputs)
    requires Reached(Summarize, route, s, generated, start, sv, inputs.replyId)
    requires Stepped(Summarize, s, u, sv, inputs)
    ensures Reached(End, route + [Summarize], Merge(s, u), generated, start, sv, inputs.replyId)
  {
    SummarizeRouted(route, start, sv);
    SummarizeFinishes(route, s, u, generated, sv);
  }

  /** Appending the summarization keeps the route's opening and generation node. */
  lemma SummarizeRouted(route: seq<Node>, start: State, sv: Services)
    requires Routed(route, start, sv) && |route| == 6
    ensures Routed(route + [Summarize], start, sv) && |route + [Summarize]| == 7
  {
    RoutedExtend(route, Summarize, start, sv);
  }

  /** After the summarization the turn is finished on its second branch. */
  lemma SummarizeFinishes(route: seq<Node>, s: State, u: Update, generated: State, sv: Services)
    requires |route| == 6 && s == generated && |generated.messages| > Settings.TotalMessagesSummaryTrigger
    requires SummarizeNode(s, sv.summarize) == Ok(u)
    ensures Finished(route + [Summarize], Merge(s, u), generated, sv)
  {
  }

  /** Each node keeps what `Reached` records for the node the runtime picks next, which lies deeper. */
  lemma Advance(
    node: Node, route: seq<Node>, s: State, u: Update, generated: State, start: State, sv: Services,
    inputs: TurnInputs)
    requires node != End
    requires Reached(node, route, s, generated, start, sv, inputs.replyId) && Stepped(node, s, u, sv, inputs)
    requires Next(node, Merge(s, u)).Ok?
    ensures Rank(node) < Rank(Next(node, Merge(s, u)).value)
    ensures Reached(Next(node, Merge(s, u)).value, route + [node], Merge(s, u),
      if IsGeneration(node) then Merge(s, u) else generated, start, sv, inputs.replyId)
  {
    EdgeDeepens(node, Next(node, Merge(s, u)).value);
    if IsGeneration(node) {
      AdvanceGeneration(node, route, s, u, generated, start, sv, inputs);
    } else if node == Summarize {
      AdvanceSummarize(route, s, u, generated, start, sv, inputs);
    } else {
      AdvanceOpening(node, route, s, u, generated, start, sv, inputs);
    }
  }

  /** A path extended along an edge is a path. */
  lemma PathExtend(p: seq<Node>, v: Node)
    requires IsPath(p) && p != [] && Edge(p[|p| - 1], v)
    ensures IsPath(p + [v])
  {
  }

  /**
    Runs `node`, merges its update into `s` giving `t`, and returns the node
    the runtime goes to next, or the first error of either.
   */
  method RunNode(
    store: Store, node: Node, s: State, sv: Services, inputs: TurnInputs,
    ghost route: seq<Node>, ghost generated: State, ghost start: State)
    returns (next: Result<Node>, t: State)
    requires store.Valid() && node != Start && node != End
    requires Reached(node, route, s, generated, start, sv, inputs.replyId)
    modifies store
    ensures store.Valid()
    ensures next.Ok? ==>
      Edge(node, next.value) && Rank(node) < Rank(next.value) &&
      Reached(next.value, route + [node], t, if IsGeneration(node) then t else generated, start, sv, inputs.replyId)
    ensures node == MemoryExtraction && ExtractionFails(s, sv) ==> next.Err?
    ensures node != MemoryExtraction ==> unchanged(store)
    ensures node == MemoryExtraction ==>
      store.points == old(ExtractedPoints(store, s, sv.analyze, inputs.memoryId, inputs.timestamp)) &&
      store.hasCollection == (old(store.hasCollection) || old(ExtractionWrites(store, s, sv.analyze)))
    ensures node == MemoryExtraction && !old(ExtractionWrites(store, s, sv.analyze)) ==> unchanged(store)
    ensures node == MemoryInjection ==> exists ids ::
      (store.AllStored(ids) && IsTopK(store.Scores(RecentContext(s.messages)), Settings.MemoryTopK, ids) &&
       t == Merge(s, NoUpdate.(memoryContext := Set(FormatMemoriesForPrompt(TextsOf(store, ids))))))
  {
    var res := Step(store, node, s, sv, inputs);
    if res.Err? {
      return Err(res.error), s;
    }
    var u := res.value;
    t := Merge(s, u);
    next := Next(node, t);
    if next.Ok? {
      Advance(node, route, s, u, generated, start, sv, inputs);
    }
  }

  /**
    One turn: the inbound messages are appended to the stored state, and the
    graph is followed from the entry, each node's update merged in, until
    the exit or the first error. `route` is the nodes visited, and
    `generated` the state right after the generation node.
   */
  method RunTurn(store: Store, persisted: State, inbound: seq<Message>, sv: Services, inputs: TurnInputs)
    returns (r: Result<State>, ghost route: seq<Node>, ghost generated: State)
    requires store.Valid()
    modifies store
    ensures store.Valid()
    ensures IsPath(route) && route != [] && route[0] == Start
    ensures r.Ok? ==> IsRun(route) && Routed(route, Inbound(persisted, inbound), sv)
    ensures r.Ok? ==> ExtendsBy(generated.messages, Inbound(persisted, inbound).messages, inputs.replyId)
    ensures r.Ok? ==> (Summarize in route <==> |generated.messages| > Settings.TotalMessagesSummaryTrigger)
    ensures r.Ok? ==> Finished(route[..|route| - 1], r.value, generated, sv)
    ensures ExtractionFails(Inbound(persisted, inbound), sv) ==> r.Err?
    ensures store.points ==
      old(ExtractedPoints(store, Inbound(persisted, inbound), sv.analyze, inputs.memoryId, inputs.timestamp))
    ensures store.hasCollection ==
      (old(store.hasCollection) || old(ExtractionWrites(store, Inbound(persisted, inbound), sv.analyze)))
    ensures !old(ExtractionWrites(store, Inbound(persisted, inbound), sv.analyze)) ==> unchanged(store)
  {
    var s := Inbound(persisted, inbound);
    ghost var start := s;
    route := [Start];
    generated := s;
    var node := MemoryExtraction;
    while node != End
      invariant store.Valid()
      invariant IsPath(route + [node]) && route != [] && route[0] == Start
      invariant Reached(node, route, s, generated, start, sv, inputs.replyId)
      invariant node == MemoryExtraction ==> unchanged(store)
      invariant node != MemoryExtraction ==>
        store.points == old(ExtractedPoints(store, start, sv.analyze, inputs.memoryId, inputs.timestamp)) &&
        store.hasCollection == (old(store.hasCollection) || old(ExtractionWrites(store, start, sv.analyze)))
      invariant node != MemoryExtraction && !old(ExtractionWrites(store, start, sv.analyze)) ==> unchanged(store)
      decreases 7 - Rank(node)
    {
      var next, t := RunNode(store, node, s, sv, inputs, route, generated, start);
      if next.Err? {
        route := route + [node];
        return Err(next.error), route, generated;
      }
      PathExtend(route + [node], next.value);
      if IsGeneration(node) {
        generated := t;
      }
      s := t;
      route := route + [node];
      node := next.value;
    }
    Finish(route, s, generated, start, sv, inputs.replyId);
    route := route + [End];
    r := Ok(s);
  }

  /** At the exit the route is a complete run whose summary branch matches the length. */
  lemma Finish(route: seq<Node>, s: State, generated: State, start: State, sv: Services, replyId: string)
    requires IsPath(route + [End]) && route != [] && route[0] == Start
    requires Routed(route, start, sv) && Finished(route, s, generated, sv)
    ensures IsRun(route + [End]) && Routed(route + [End], start, sv)
    ensures (route + [End])[..|route|] == route
    ensures Summarize in route + [End] <==> |generated.messages| > Settings.TotalMessagesSummaryTrigger
  {
    var p := route + [End];
    assert p[..|route|] == route;
    RoutedExtend(route, End, start, sv);
    if |route| == 6 {
      forall i | 0 <= i < |p|
        ensures p[i] != Summarize
      {
        if i < 5 {
          assert p[i] == route[..5][i] == Opening[i];
        } else if i == 5 {
          assert p[i] == route[5];
        }
      }
    } else {
      assert p[6] == Summarize;
    }
  }

  /** Extending a routed path keeps it routed. */
  lemma RoutedExtend(route: seq<Node>, v: Node, start: State, sv: Services)
    requires Routed(route, start, sv)
    ensures Routed(route + [v], start, sv)
  {
    var p := route + [v];
    assert p[..5] == route[..5];
    assert p[5] == route[5];
  }

  /** With unique inbound ids and a new reply id, the generated history has unique ids. */
  lemma ExtendsByKeepsUnique(ms: seq<Message>, extended: seq<Message>, replyId: string)
    requires UniqueIds(ms) && replyId !in Ids(ms)
    requires ExtendsBy(extended, ms, replyId)
    ensures UniqueIds(extended)
  {
    var n := |ms|;
    forall i, j | 0 <= i < j < |extended|
      ensures extended[i].id != extended[j].id
    {
      assert extended[i] == extended[..n][i];
      if j < n {
        assert extended[j] == extended[..n][j];
      } else {
        assert Ids(ms)[i] == ms[i].id;
      }
    }
  }

  /**
    End to end: when the ids of the inbound history are unique and the
    reply's id is new, a turn whose history has grown past the trigger ends
    with exactly the last five messages and the model's new summary.
   */
  lemma TurnKeepsLastFive(start: State, generated: State, replyId: string, summarize: seq<Message> -> Result<string>)
    requires UniqueIds(start.messages) && replyId !in Ids(start.messages)
    requires ExtendsBy(generated.messages, start.messages, replyId)
    requires |generated.messages| > Settings.TotalMessagesSummaryTrigger
    requires SummarizeNode(generated, summarize).Ok?
    ensures var final := Merge(generated, SummarizeNode(generated, summarize).value);
      |final.messages| == Settings.TotalMessagesAfterSummary &&
      final.messages == Last(generated.messages, Settings.TotalMessagesAfterSummary) &&
      final.summary == Set(summarize(SummaryRequest(generated)).value)
  {
    ExtendsByKeepsUnique(start.messages, generated.messages, replyId);
    SummarizeKeepsLastFive(generated, summarize);
  }


}
