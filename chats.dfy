/**
 * The conversational assistant prompt: a fixed prompt configuration and the
 * template that lays out system text, assistant description, optional context,
 * history and the user's query.
 */
module Chats {
  import opened Wrappers
  import GoogleAI

  datatype PromptConfig = PromptConfig(stopSequences: seq<string>, queryPrefix: string, responsePrefix: string)

  /** The stored context is optional; the configuration is the same for every assistant prompt. */
  datatype AssistantPrompt = AssistantPrompt(config: PromptConfig, context: Option<string>)

  const Description: string :=
    "The following is a conversation with an AI assistant. The assistant is helpful, creative, clever, and very friendly."

  const ContextHeading: string := "\nUse the following context:\n"

  /** Construction: the fixed configuration, whose stop sequences the adapter accepts. */
  function NewAssistantPrompt(context: Option<string>): (p: AssistantPrompt)
    ensures p.context == context
    ensures p.config.stopSequences == ["Human:", "AI:"]
    ensures |p.config.stopSequences| <= GoogleAI.MaxStopSequences
    ensures p.config.queryPrefix == "\nHuman: " && p.config.responsePrefix == "\nAI: "
  {
    AssistantPrompt(PromptConfig(["Human:", "AI:"], "\nHuman: ", "\nAI: "), context)
  }

  /** The assistant's stop sequences never trip either request builder's limit. */
  lemma AssistantStopSequencesAccepted(context: Option<string>, prompt: string, opt: GoogleAI.Options)
    ensures GoogleAI.GenerateReq(prompt, opt, NewAssistantPrompt(context).config.stopSequences).Success?
    ensures GoogleAI.GenerateChatReq(prompt, opt, NewAssistantPrompt(context).config.stopSequences).Success?
  {
  }

  /** A context is shown only when it is present and non-empty. */
  predicate HasContext(context: Option<string>) {
    context.Some? && context.value != ""
  }

  function ContextBlock(context: Option<string>): string {
    if HasContext(context) then ContextHeading + context.value else ""
  }

  /** The lines before the context block: a newline, the system text, the description line. */
  function Head(system: string): string {
    "\n" + system + "\n" + Description + "\n"
  }

  /** The lines after the context block: a blank line, the history, the query line, the response line. */
  function Tail(history: string, query: string): string {
    "\n\n" + history + "\nHuman: " + query + "\nAI:\n"
  }

  /** The prompt text; `history` is what the history callback returned. */
  function Create(p: AssistantPrompt, query: string, system: string, history: string): (r: string)
    ensures |r| >= 6 && r[..1] == "\n" && r[|r| - 5..] == "\nAI:\n"
  {
    var r := Head(system) + ContextBlock(p.context) + Tail(history, query);
    assert r[|r| - 5..] == Tail(history, query)[|Tail(history, query)| - 5..];
    r
  }

  /** Where the context block starts: after the newline, the system text and the description line. */
  function ContextOffset(system: string): nat {
    1 + |system| + 1 + |Description| + 1
  }

  /** Where the query starts: after the context block, the blank line, the history and the Human line prefix. */
  function QueryOffset(p: AssistantPrompt, system: string, history: string): nat {
    ContextOffset(system) + |ContextBlock(p.context)| + 2 + |history| + |"\nHuman: "|
  }

  /** The system text follows the leading newline verbatim, and the description line follows it. */
  lemma CreateHeadLayout(p: AssistantPrompt, query: string, system: string, history: string)
    ensures var r, c := Create(p, query, system, history), ContextOffset(system);
      && r[1..1 + |system|] == system
      && r[1 + |system|..c] == "\n" + Description + "\n"
  {
  }

  /** The context block follows the description line. */
  lemma CreateBlockLayout(p: AssistantPrompt, query: string, system: string, history: string)
    ensures var r, c, b := Create(p, query, system, history), ContextOffset(system), ContextBlock(p.context);
      && c + |b| <= |r|
      && r[c..c + |b|] == b
  {
  }

  /** After the block: a blank line, the history, then the query after its line prefix, then only the AI line. */
  lemma CreateTailLayout(p: AssistantPrompt, query: string, system: string, history: string)
    ensures var r, c, q := Create(p, query, system, history), ContextOffset(system), QueryOffset(p, system, history);
      var e := c + |ContextBlock(p.context)|;
      && |r| == q + |query| + 5
      && r[e..e + 2] == "\n\n"
      && r[e + 2..q - 8] == history
      && r[q - 8..q] == "\nHuman: "
      && r[q..q + |query|] == query
  {
  }

  /** The query sits right after the configured query prefix. */
  lemma QueryFollowsQueryPrefix(context: Option<string>, query: string, system: string, history: string)
    ensures var p := NewAssistantPrompt(context);
      var r, q := Create(p, query, system, history), QueryOffset(p, system, history);
      && q >= |p.config.queryPrefix|
      && r[q - |p.config.queryPrefix|..q] == p.config.queryPrefix
      && r[q..q + |query|] == query
  {
  }

  /**
   * The context block is shown exactly when a non-empty context is stored: the character
   * after the description line's newline opens the block, and is a newline otherwise.
   */
  lemma ContextShownIffPresent(p: AssistantPrompt, query: string, system: string, history: string)
    ensures var r, c := Create(p, query, system, history), ContextOffset(system);
      && c + 1 < |r|
      && (r[c + 1] == '\n' <==> !HasContext(p.context))
      && (HasContext(p.context) ==>
            r[c..c + |ContextHeading| + |p.context.value|] == ContextHeading + p.context.value)
  {
  }

  /** Storing a context changes nothing but the inserted block. */
  lemma ContextOnlyAddsBlock(p: AssistantPrompt, query: string, system: string, history: string)
    requires HasContext(p.context)
    ensures var plain, c := Create(p.(context := None), query, system, history), ContextOffset(system);
      && c <= |plain|
      && Create(p, query, system, history) == plain[..c] + ContextHeading + p.context.value + plain[c..]
  {
  }
}
