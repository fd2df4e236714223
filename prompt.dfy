/**
 * The prompt built by `init_prompt`: four entries in a fixed order, each naming
 * the input variable that fills it. Rendering the template is not modelled.
 */
module Prompt {

  datatype Role = System | User

  /** One entry of the chat prompt template. */
  datatype PromptEntry =
    | Template(role: Role, variable: string)   // a `(role, "{variable}")` message
    | HistoryPlaceholder(variable: string)     // `MessagesPlaceholder(variable_name=...)`

  /** The four logical slots of the prompt. */
  datatype Slot = SystemPromptSlot | ContextSlot | HistorySlot | ContentSlot

  /** The keys of the input record that `on_message` builds, in the order it writes them. */
  const InputKeys: seq<string> := ["system_prompt", "context", "history", "content"]

  /**
   * The prompt template of the LangChain adapter. Its one placeholder is the
   * history, and it ends with the user's message.
   */
  function InitPrompt(): (r: seq<PromptEntry>)
    ensures forall i :: 0 <= i < |r| ==> (r[i].HistoryPlaceholder? <==> r[i].variable == "history")
    ensures r != [] && r[|r| - 1] == Template(User, "content")
  {
    [ Template(System, "system_prompt"),
      Template(System, "context"),
      HistoryPlaceholder("history"),
      Template(User, "content") ]
  }

  /**
   * The slot an entry fills: a placeholder is the history, a user message the
   * content, and a system message the system prompt or the context according
   * to the variable it reads.
   */
  function SlotOf(e: PromptEntry): Slot {
    match e
    case HistoryPlaceholder(_) => HistorySlot
    case Template(User, _) => ContentSlot
    case Template(System, v) => if v == "system_prompt" then SystemPromptSlot else ContextSlot
  }

  function Slots(entries: seq<PromptEntry>): (r: seq<Slot>)
    ensures |r| == |entries|
    ensures forall i :: 0 <= i < |entries| ==> r[i] == SlotOf(entries[i])
  {
    seq(|entries|, i requires 0 <= i < |entries| => SlotOf(entries[i]))
  }

  function Variables(entries: seq<PromptEntry>): (r: seq<string>)
    ensures |r| == |entries|
    ensures forall i :: 0 <= i < |entries| ==> r[i] == entries[i].variable
  {
    seq(|entries|, i requires 0 <= i < |entries| => entries[i].variable)
  }

  /**
   * The prompt has exactly four slots, in the order system prompt, context,
   * history, user content; the two system messages come first, the history is
   * a placeholder, not a message, and the user message comes last.
   */
  lemma PromptSlotOrder()
    ensures |InitPrompt()| == 4
    ensures Slots(InitPrompt()) == [SystemPromptSlot, ContextSlot, HistorySlot, ContentSlot]
    ensures forall i :: 0 <= i < 4 ==> (InitPrompt()[i].HistoryPlaceholder? <==> i == 2)
    ensures forall i :: 0 <= i < 4 && InitPrompt()[i].Template? ==>
              (InitPrompt()[i].role == User <==> i == 3)
  {
  }

  /**
   * Every variable of the prompt is a key of the input record and every key is
   * used by exactly one entry, in the same order: no placeholder of the
   * template is left unresolved and no input is unused.
   */
  lemma PromptVariablesAreInputKeys()
    ensures Variables(InitPrompt()) == InputKeys
    ensures forall i, j :: 0 <= i < j < |InputKeys| ==> InputKeys[i] != InputKeys[j]
  {
  }
}
