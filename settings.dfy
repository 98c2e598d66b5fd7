/** The memory and conversation limits of the application settings. */
module Settings {

  /** Number of memories retrieved for the prompt. */
  const MemoryTopK: nat := 3

  /** Number of trailing messages the router classifies. */
  const RouterMessagesToAnalyze: nat := 3

  /** A turn summarizes once the history is longer than this. */
  const TotalMessagesSummaryTrigger: nat := 20

  /** Number of trailing messages a summarization keeps. */
  const TotalMessagesAfterSummary: nat := 5
}
