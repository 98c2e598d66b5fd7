/**
  The nodes of the turn graph and its two conditional edges: the choice of
  generation node after memory injection, and the choice between
  summarizing and ending after generation.
 */
module Edges {
  import opened Exceptions
  import opened GraphState
  import Settings

  /** The registered nodes, with the graph's entry and exit points. */
  datatype Node =
    | Start
    | MemoryExtraction
    | Router
    | ContextInjection
    | MemoryInjection
    | Conversation
    | Image
    | Audio
    | Summarize
    | End

  /** The three nodes that produce Zazu's reply. */
  predicate IsGeneration(n: Node) {
    n == Conversation || n == Image || n == Audio
  }

  /**
    `should_summarize_conversation`: summarize once the history is strictly
    longer than the trigger; otherwise end the turn.
   */
  function ShouldSummarizeConversation(s: State): (r: Node)
    ensures r == Summarize || r == End
    ensures r == Summarize <==> |s.messages| > Settings.TotalMessagesSummaryTrigger
  {
    if |s.messages| > Settings.TotalMessagesSummaryTrigger then Summarize else End
  }

  /** Twenty messages end the turn; twenty-one summarize. */
  lemma SummarizeBoundary(s: State)
    ensures |s.messages| == 20 ==> ShouldSummarizeConversation(s) == End
    ensures |s.messages| == 21 ==> ShouldSummarizeConversation(s) == Summarize
  {
  }

  /** A longer history never turns a summarization into an end. */
  lemma SummarizeMonotone(s: State, t: State)
    requires |s.messages| <= |t.messages|
    requires ShouldSummarizeConversation(s) == Summarize
    ensures ShouldSummarizeConversation(t) == Summarize
  {
  }

  /** The generation node a workflow label selects. */
  function WorkflowNode(workflow: string): (r: Node)
    ensures IsGeneration(r)
    ensures r == Image <==> workflow == "image"
    ensures r == Audio <==> workflow == "audio"
    ensures r == Conversation <==> workflow != "image" && workflow != "audio"
  {
    if workflow == "image" then Image
    else if workflow == "audio" then Audio
    else Conversation
  }

  /**
    `select_workflow`: reads `state["workflow"]`, which raises `KeyError`
    when no node has written it, and dispatches on the label.
   */
  function SelectWorkflow(s: State): (r: Result<Node>)
    ensures r.Ok? <==> s.workflow.Set?
    ensures r.Ok? ==> r.value == WorkflowNode(s.workflow.value) && IsGeneration(r.value)
    ensures r.Err? ==> r.error == KeyError("workflow")
  {
    match s.workflow
    case Set(w) => Ok(WorkflowNode(w))
    case Unset => Err(KeyError("workflow"))
  }

  /** Labels outside the two special ones, including `""`, fall back to conversation. */
  lemma DefaultIsConversation()
    ensures WorkflowNode("conversation") == Conversation
    ensures WorkflowNode("") == Conversation
    ensures WorkflowNode("Image") == Conversation
  {
  }
}
