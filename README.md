# A Dafny model of the chatbot's LangChain adapter

The chatbot connects a chat user interface (the `chainlit` host) to a language
model through an adapter. For each chat session the adapter keeps a chain and a
history in the host's session store. For each user message it builds a
four-field input record. It runs the chain, streaming the reply into an
outgoing message or sending it in one piece. After that it stores the history
extended by the user's turn and the reply's turn.

This project models that adapter (`chatbot/adapter.py`) and proves properties
of the model:

- `Identifier`: the split of the configured adapter name at its last dot.
- `Prompt`: the four prompt slots, in order, and their agreement with the input record's keys.
- `Starters`: the starter suggestions built from the configuration.
- `Streaming`: chunks, the text the `AIMessageChunk`s add up to, and the updates shown while they arrive.
- `Pipeline`: `run_chain` and `on_message` as functions over a session state and an event log, and a
  whole conversation as a fold of `on_message`.
- `Adapter`: the same hooks as methods over mutable objects. `UserSession` is the session store,
  `Message` is an outgoing message with a `content` field, and `Outbox` logs what the messages send.
  Each method is proved to follow the `Pipeline` function that specifies it.
- `Scenarios`: concrete runs. A buffered reply "Hello!" to "Hi". A streamed reply "Hel", "lo", "!"
  showing "Hel", "Hello", "Hello!". A conversation where the second message times out and its resend
  becomes the second stored pair (`TimeoutThenResend`, a client of the `Adapter` methods).
- `Config` and `Wrappers`: the configuration record, the exceptions, and Option/Result.

How the outside world appears in the model:

- The configuration is a read-only record. An unset attribute is `None`, and reading it is the
  source's `AttributeError`.
- The language-model service is a `Backend` value passed to each call. It gives the stream (chunks,
  then possibly an exception) and the buffered answer for each input record. It is a parameter of
  every call because the service need not answer the same input the same way twice; this is what
  lets a resend succeed after a timeout.
- The stored chain is the prompt template together with the model client's construction parameters.
- The host assigns message ids. Here a message's id is the length of the outbox log when the
  message is created.

## Model

| member | source | states |
|---|---|---|
| Identifier.LastIndexOf | chatbot/adapter.py:26 | none exactly when the character does not occur; otherwise an index holding it with no later occurrence |
| Identifier.SplitAdapterName | chatbot/adapter.py:26 | fails (not enough values to unpack) exactly when the name has no dot; otherwise name = module + "." + class and the class part holds no dot |
| Identifier.InitAdapterNames | chatbot/adapter.py:25-26 | an unset ADAPTER raises AttributeError; otherwise the result is the split of ADAPTER |
| Identifier.SplitJoin | chatbot/adapter.py:26 | joining any module path (dots allowed) and a dot-free class name with "." splits back into exactly those two parts |
| Prompt.InitPrompt | chatbot/adapter.py:34-42 | exactly the entry for the history variable is a placeholder, and the last entry is the user's content template |
| Prompt.PromptSlotOrder | chatbot/adapter.py:34-42 | the prompt has four entries: system prompt, context, history placeholder, user content; only the third is a placeholder and only the fourth has the user role |
| Prompt.PromptVariablesAreInputKeys | chatbot/adapter.py:35-66 | the prompt's variables are, in order, exactly the distinct keys of the input record: nothing is left unresolved and nothing is unused |
| Starters.MakeStarters | chatbot/adapter.py:97 | one starter per configured entry, the i-th built from the i-th entry's keyword arguments |
| Starters.SetStarters | chatbot/adapter.py:95-99 | None exactly when the STARTERS attribute is missing (the caught AttributeError); otherwise a list of the same length, element i built from entry i |
| Starters.StarterRoundTrip | chatbot/adapter.py:97 | the keyword arguments of the starters give back the configured entries, all of them and in order |
| Starters.MakeStartersAppend | chatbot/adapter.py:97 | the starters of a + b are those of a followed by those of b |
| Streaming.Fragments | chatbot/adapter.py:83-85 | the AI fragments of a stream, in arrival order: at most one per chunk |
| Streaming.StreamedText | chatbot/adapter.py:78-85 | the accumulated reply text: it starts from "" and stays "" when no AI fragment arrived |
| Streaming.StreamUpdates | chatbot/adapter.py:83-87 | exactly one update per AI fragment |
| Streaming.FragmentsAppend | chatbot/adapter.py:83-85 | the AI fragments of a + b are those of a followed by those of b |
| Streaming.StreamedTextAppend | chatbot/adapter.py:83-85 | the streamed text of a + b is the text of a followed by the text of b, so chunk order is preserved |
| Streaming.StreamedTextOfOne | chatbot/adapter.py:84-85 | an AIMessageChunk contributes its content; any other chunk contributes "" |
| Streaming.StreamStep | chatbot/adapter.py:83-87 | one more chunk adds its text and exactly one update with the new running text if it is an AIMessageChunk, and nothing otherwise |
| Streaming.StreamUpdatesAt | chatbot/adapter.py:83-87 | one update per AIMessageChunk; the k-th update shows the concatenation of the first k+1 fragments |
| Streaming.UpdatesArePrefixes | chatbot/adapter.py:83-87 | every update is about the streamed message and shows a prefix of the final text; each update is a prefix of the next; the last shows the final text |
| Pipeline.InitChain | chatbot/adapter.py:47-48 | the chain's prompt has the four slots in order, its variables are the input keys, and it carries the given client parameters |
| Pipeline.GetContext | chatbot/adapter.py:50-51 | the context is always the empty string |
| Pipeline.BuildInputs | chatbot/adapter.py:50-66 | an unset SYSTEM_PROMPT raises AttributeError; otherwise the record holds the configured system prompt, context "", the given history and the message text |
| Pipeline.RunChainSpec | chatbot/adapter.py:77-93 | an unset STREAM_RESPONSE raises before anything is sent; streamed mode first sends the empty message; buffered mode sends exactly one message with the reply when it succeeds and nothing when it fails; every event is about the one response message |
| Pipeline.StreamedRun | chatbot/adapter.py:78-87 | streamed mode opens the message with "" first, logs one update per AIMessageChunk, all about that message, each showing a prefix of the text; it succeeds exactly when the stream does not raise, and then returns the concatenated text, which the message finally shows |
| Pipeline.BufferedRun | chatbot/adapter.py:88-93 | buffered mode succeeds exactly when the backend responds; it then sends exactly one message whose content is the response's content and returns that content; on an exception nothing is sent |
| Pipeline.ModesAgree | chatbot/adapter.py:77-93 | for a backend whose buffered answer is the text its stream adds up to, both modes return the same reply and leave the message showing the same content |
| Pipeline.RunWithoutChain | chatbot/adapter.py:77-91 | without a stored chain the run fails; in streamed mode the empty message has already been sent, in buffered mode nothing has |
| Pipeline.HandleMessage | chatbot/adapter.py:56-75 | the chain is never changed; the history changes only when the message succeeds; an unset SYSTEM_PROMPT raises before anything is sent |
| Pipeline.MessageCommitsPair | chatbot/adapter.py:56-75 | after a successful message the history is the old history followed by Human(content), AI(reply): two turns longer, old prefix unchanged, chain untouched |
| Pipeline.MessageFailureNoCommit | chatbot/adapter.py:68-75 | a message that raises leaves the session store exactly as it was |
| Pipeline.StepHistory | chatbot/adapter.py:68-75 | one message extends the history by its turn pair if it succeeded and by nothing if it failed, and never replaces the chain |
| Pipeline.MessageInputs | chatbot/adapter.py:56-68 | in either mode, the message's outcome and events are those of run_chain on the record (configured system prompt, "", stored history or [] on the first turn, message text) |
| Pipeline.BufferedMessageReply | chatbot/adapter.py:56-91 | in buffered mode the reply committed is the backend's answer to that record, and the message fails exactly when that answer is an exception |
| Pipeline.Converse | chatbot/adapter.py:56-75 | one outcome per message; the log only grows, keeping what was logged before; the chain is unchanged |
| Pipeline.ConverseHistory | chatbot/adapter.py:58-75 | after any sequence of messages the history is the old one followed by one Human/AI pair per successful message, in submission order; the chain is unchanged |
| Pipeline.PairsShape | chatbot/adapter.py:71-75 | the pairs of a conversation have two turns per success and alternate Human, AI |
| Pipeline.ConverseAlternates | chatbot/adapter.py:71-75 | from an alternating history the history stays alternating and grows by exactly 2 per successful message; failed messages add nothing |
| Pipeline.PairsAllSucceeded | chatbot/adapter.py:71-75 | when every message succeeded the pairs hold 2N turns: message k at 2k, its reply at 2k+1 |
| Pipeline.FreshConversation | chatbot/adapter.py:58-75 | in a fresh session where all N messages succeed the history holds 2N turns, message k at 2k and its reply at 2k+1 |
| Adapter.UserSession.constructor | chatbot/adapter.py:57-58 | a new session holds neither a chain nor a history (the store's get returns None and the default) |
| Adapter.Message.Send | chatbot/adapter.py:80-81 | sending logs the message's id and current content |
| Adapter.Message.Update | chatbot/adapter.py:86-87 | updating logs the message's id and current content |
| Adapter.OnChatStart | chatbot/adapter.py:53-54 | stores the new chain in the session and leaves the history alone |
| Adapter.RunChain | chatbot/adapter.py:77-93 | the result and the new log are those of RunChainSpec for the configured mode; an unset STREAM_RESPONSE raises before anything is sent |
| Adapter.RunStreamed | chatbot/adapter.py:78-87 | opens and sends an empty message, then relays the stream; result and log as RunChainSpec in streamed mode |
| Adapter.RelayChunks | chatbot/adapter.py:83-87 | the loop returns the streamed text of the chunks, appends exactly their updates to the log, and leaves the message showing the returned text |
| Adapter.RunBuffered | chatbot/adapter.py:88-91 | one backend call and, on a response, one message sent with its content; result and log as RunChainSpec in buffered mode |
| Adapter.OnMessage | chatbot/adapter.py:56-75 | result, session state and log are those of HandleMessage; on success the history is the old one plus Human(content), AI(reply); on failure it is unchanged; the chain is never changed |
| Scenarios.ConfiguredAdapterName | chatbot/adapter.py:25-26 | "chatbot.adapter.OpenAILangChainAdapter" splits into "chatbot.adapter" and "OpenAILangChainAdapter" |
| Scenarios.UndottedAdapterName | chatbot/adapter.py:26 | "OpenAILangChainAdapter", which has no dot, fails to unpack |
| Scenarios.BufferedHello | chatbot/adapter.py:56-93 | buffered "Hi" answered "Hello!" sends one message "Hello!" and stores [Human("Hi"), AI("Hello!")] |
| Scenarios.AppendFragment | chatbot/adapter.py:83-87 | one more AI chunk extends the text by its content and adds one update showing the new text |
| Scenarios.ThreeFragments | chatbot/adapter.py:83-87 | three AI chunks x, y, z show x, x + y, x + y + z and leave x + y + z |
| Scenarios.HelloUpdates | chatbot/adapter.py:83-87 | the chunks "Hel", "lo", "!" add up to "Hello!" with updates "Hel", "Hello", "Hello!" |
| Scenarios.StreamedHello | chatbot/adapter.py:56-93 | streamed "Hi" with those chunks sends "", updates "Hel", "Hello", "Hello!" and stores [Human("Hi"), AI("Hello!")] |
| Scenarios.TimeoutThenResend | chatbot/adapter.py:56-93 | on the objects: "first" answered "one", "second" timing out, "second" resent and answered "two" give outcomes success, timeout, success, the history [Human("first"), AI("one"), Human("second"), AI("two")] and the log [Sent(0, "one"), Sent(1, "two")] |

## Left out

- `chatbot/config.py`: reading `config.yaml` and upper-casing its keys is file I/O and YAML
  parsing. The settings are an abstract record, and settings.LLM appears only as the client
  parameters passed to `OnChatStart`.
- `app.py` only forwards the host's decorators to the adapter singleton, so it has nothing to model.
- The module-level singleton (chatbot/adapter.py:117), the dynamic import and the class lookup in
  `init_adapter` (chatbot/adapter.py:27-29): these are foreign calls. Only the name split is modelled.
- `init_llm` and the provider adapters `OpenAILangChainAdapter` and `OllamaLangChainAdapter`
  (chatbot/adapter.py:44-45, 102-114): these construct foreign clients. The Ollama variant declares
  `init_llm` as a property, so `init_chain` would call the client object. That is not modelled.
- Prompt template rendering and the `|` composition are not modelled. The prompt is its list of
  slot entries, and the chain's answers come from the `Backend` parameter.
- `on_chat_end` and `on_chat_resume` (chatbot/adapter.py:15-19) are `pass` in the source, and the
  base `on_message` only raises `NotImplementedError`. None of the three is modelled.
- Asynchronous scheduling: each hook is one sequential step. Exceptions raised by the host's own
  `send`/`update` are not modelled.
- Adapter.RunStreamed: a stream that raises midway is modelled as the chunks delivered before the exception,
  followed by the exception. The chunks it never delivered are not represented.
- Starters.MakeStarters: `cl.Starter(**entry)` is not checked against the host's starter fields. An entry with
  wrong keys, which would raise `TypeError` inside the host library, is not modelled.
- Chunk and response contents are plain strings. LangChain content in list form is not modelled.
- No context caching, directory-based context loader, timeout, stream cancellation or finalize
  step for a streamed message exists in the code, so none is modelled: `get_context` returns "" on
  every message.
- Failures are not turned into distinct error values: the code lets each exception propagate to
  the host, and the model returns it as `Failure`.
- In the model `SetStarters` gives `None` only when the STARTERS attribute is missing; a configured
  empty list gives an empty list.
- The settings are assumed well-typed: STREAM_RESPONSE a boolean and STARTERS a list of keyword
  maps. The code tests STREAM_RESPONSE by truthiness (chatbot/adapter.py:79), so a YAML string such
  as "no", or the number 1, would select streamed mode; the model has only `true` and `false`.
- Starters.SetStarters: a STARTERS set to null, which makes the comprehension raise `TypeError`, is not
  modelled. Nor is the `except AttributeError` (chatbot/adapter.py:98) also catching an
  `AttributeError` raised inside the comprehension at chatbot/adapter.py:97; the model returns `None`
  only for a missing STARTERS attribute.
