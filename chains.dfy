/**
  The prompt side of the chains: the system message of the character
  chain, the request a character chain sends to the language model, and
  the router's structured answer. The character card itself is a prompt
  constant of core/prompts.py and is a parameter here.
 */
module Chains {
  import opened Wrappers
  import opened GraphState
  import opened Helpers

  /** Text put between the character card and a non-empty summary. */
  const SummaryLead: string := "\n\nSummary of conversation earlier between Zazu and the user: "

  /** The system message: the card, followed by the summary when there is one. */
  function SystemMessage(card: string, summary: string): string {
    if summary != "" then card + SummaryLead + summary else card
  }

  /** With no summary the system message is the card itself. */
  lemma NoSummaryIsCard(card: string)
    ensures SystemMessage(card, "") == card
  {
  }

  /** The card always opens the system message, and a summary is all that follows the lead. */
  lemma CardIsPrefix(card: string, summary: string)
    ensures |SystemMessage(card, summary)| >= |card|
    ensures SystemMessage(card, summary)[..|card|] == card
    ensures summary != "" ==>
      SystemMessage(card, summary)[|card|..] == SummaryLead + summary
  {
    if summary != "" {
      assert card + SummaryLead + summary == card + (SummaryLead + summary);
    }
  }

  /** Different summaries give different system messages. */
  lemma SystemMessageInjective(card: string, s1: string, s2: string)
    requires SystemMessage(card, s1) == SystemMessage(card, s2)
    ensures s1 == s2
  {
    CardIsPrefix(card, s1);
    CardIsPrefix(card, s2);
    if s1 != "" && s2 != "" {
      var m := SystemMessage(card, s1);
      assert m[|card|..] == SummaryLead + s1 && m[|card|..] == SummaryLead + s2;
      assert s1 == (SummaryLead + s1)[|SummaryLead|..];
      assert s2 == (SummaryLead + s2)[|SummaryLead|..];
    }
  }

  /**
    The input of a character chain: the system message, the conversation
    it answers, and the values of the card's `current_activity` and
    `memory_context` placeholders.
   */
  datatype CharacterPrompt = CharacterPrompt(
    system: string,
    messages: seq<Message>,
    currentActivity: Option<string>,
    memoryContext: string)

  /**
    The output of a character chain: the raw model text through the
    asterisk-removal parser.
   */
  function CharacterResponse(raw: string): (r: string)
    ensures r == RemoveAsteriskContent(raw)
    ensures NoPairOnALine(r) && |r| <= |raw|
  {
    ParseReply(raw)
  }

  /**
    The router's structured answer. The label is a plain string: nothing
    restricts it to the three documented values.
   */
  datatype RouterResponse = RouterResponse(responseType: string)
}
