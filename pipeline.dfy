/**
 * The per-message pipeline of the LangChain adapter as functions: the input
 * record, the response protocol of `run_chain` in streamed and buffered mode,
 * one `on_message` step on the session state, and a whole conversation.
 * The methods of module Adapter are proved to follow these functions.
 */
module Pipeline {
  import opened Wrappers
  import opened Config
  import opened Prompt
  import opened Streaming

  /** A turn of the stored history: `HumanMessage` or `AIMessage`. */
  datatype Turn = Human(text: string) | AI(text: string)

  /** The four-field input record handed to the chain. */
  datatype Inputs = Inputs(systemPrompt: string, context: string, history: seq<Turn>, content: string)

  /** What `chain.astream(inputs)` delivers: some chunks, then possibly an exception. */
  datatype StreamReply = StreamReply(chunks: seq<Chunk>, failure: Option<string>)

  /** What `chain.ainvoke(inputs)` delivers: a response message or an exception. */
  datatype InvokeReply = Response(content: string) | Raised(reason: string)

  /**
   * What the language-model service answers, on one call, to each input record
   * it may be sent. It is a parameter of every call: the service is external
   * and need not answer the same way twice.
   */
  datatype Backend = Backend(astream: Inputs -> StreamReply, ainvoke: Inputs -> InvokeReply)

  /** The construction parameters of the model client (`settings.LLM`). */
  type LlmConfig = map<string, string>

  /** `init_prompt() | init_llm()`: the prompt template piped into the model client. */
  datatype Chain = Chain(prompt: seq<PromptEntry>, llm: LlmConfig)

  function InitChain(llm: LlmConfig): (c: Chain)
    ensures Slots(c.prompt) == [SystemPromptSlot, ContextSlot, HistorySlot, ContentSlot]
    ensures Variables(c.prompt) == InputKeys
    ensures c.llm == llm
  {
    PromptSlotOrder();
    PromptVariablesAreInputKeys();
    Chain(InitPrompt(), llm)
  }

  /** The context of the base LangChain adapter: always empty. */
  function GetContext(): (c: string)
    ensures c == ""
  {
    ""
  }

  /** The input record; reading SYSTEM_PROMPT raises when it is not configured. */
  function BuildInputs(settings: Settings, history: seq<Turn>, content: string): (r: Result<Inputs, Error>)
    ensures r.Failure? <==> settings.systemPrompt.None?
    ensures r.Failure? ==> r.error == MissingSetting("SYSTEM_PROMPT")
    ensures r.Success? ==> r.value.systemPrompt == settings.systemPrompt.value
    ensures r.Success? ==> r.value.context == "" && r.value.history == history && r.value.content == content
  {
    match settings.systemPrompt
    case None => Failure(MissingSetting("SYSTEM_PROMPT"))
    case Some(systemPrompt) => Success(Inputs(systemPrompt, GetContext(), history, content))
  }

  /** The outcome of `run_chain` and what it wrote to the message sink. */
  datatype Run = Run(result: Result<string, Error>, events: seq<Event>)

  /**
   * `run_chain` with message id `id` for the message it opens. Streamed: send an
   * empty message, then update it after each `AIMessageChunk`. Buffered: send
   * one message with the response's content. A missing chain (`None`) fails
   * when its `astream` or `ainvoke` is looked up; in streamed mode that is after
   * the empty message went out.
   */
  function RunChainSpec(streamResponse: Option<bool>, chain: Option<Chain>, backend: Backend, inputs: Inputs, id: nat)
    : (r: Run)
    ensures streamResponse.None? ==> r == Run(Failure(MissingSetting("STREAM_RESPONSE")), [])
    ensures streamResponse == Some(true) ==> |r.events| >= 1 && r.events[0] == Sent(id, "")
    ensures streamResponse == Some(false) ==>
              r.events == (if r.result.Success? then [Sent(id, r.result.value)] else [])
    ensures forall k :: 0 <= k < |r.events| ==> r.events[k].id == id
  {
    match streamResponse
    case None => Run(Failure(MissingSetting("STREAM_RESPONSE")), [])
    case Some(true) =>
      if chain.None? then Run(Failure(MissingAttribute("astream")), [Sent(id, "")])
      else
        var reply := backend.astream(inputs);
        StreamUpdatesAt(id, reply.chunks);
        var events := [Sent(id, "")] + StreamUpdates(id, reply.chunks);
        if reply.failure.Some? then Run(Failure(BackendFailure(reply.failure.value)), events)
        else Run(Success(StreamedText(reply.chunks)), events)
    case Some(false) =>
      if chain.None? then Run(Failure(MissingAttribute("ainvoke")), [])
      else
        match backend.ainvoke(inputs)
        case Raised(reason) => Run(Failure(BackendFailure(reason)), [])
        case Response(content) => Run(Success(content), [Sent(id, content)])
  }

  /**
   * Streamed mode: the message is opened with "" whatever happens next, every
   * event is about that message, one update follows per `AIMessageChunk` that
   * arrived; on success the reply is the concatenation of those chunks' texts
   * and it is what the message finally shows.
   */
  lemma StreamedRun(chain: Chain, backend: Backend, inputs: Inputs, id: nat)
    ensures var run := RunChainSpec(Some(true), Some(chain), backend, inputs, id);
            var reply := backend.astream(inputs);
            && run.events[0] == Sent(id, "")
            && |run.events| == 1 + |Fragments(reply.chunks)|
            && (forall k :: 0 <= k < |run.events| ==> run.events[k].id == id)
            && (forall k :: 1 <= k < |run.events| ==>
                  run.events[k].Updated? && run.events[k].content <= StreamedText(reply.chunks))
            && (run.result.Success? <==> reply.failure.None?)
            && (run.result.Success? ==> run.result.value == StreamedText(reply.chunks) &&
                                        VisibleContent(run.events, id) == Some(run.result.value))
  {
    var run := RunChainSpec(Some(true), Some(chain), backend, inputs, id);
    var chunks := backend.astream(inputs).chunks;
    var u := StreamUpdates(id, chunks);
    assert run.events == [Sent(id, "")] + u;
    StreamUpdatesAt(id, chunks);
    UpdatesArePrefixes(id, chunks);
    if u != [] {
      assert run.events[|run.events| - 1] == u[|u| - 1];
    }
  }

  /**
   * Buffered mode: exactly one message is sent; on success its content is the
   * response's content, which is also the reply; on failure nothing is sent.
   */
  lemma BufferedRun(chain: Chain, backend: Backend, inputs: Inputs, id: nat)
    ensures var run := RunChainSpec(Some(false), Some(chain), backend, inputs, id);
            var reply := backend.ainvoke(inputs);
            && (run.result.Success? <==> reply.Response?)
            && (reply.Response? ==> run.result.value == reply.content &&
                                    run.events == [Sent(id, reply.content)] &&
                                    VisibleContent(run.events, id) == Some(reply.content))
            && (reply.Raised? ==> run.events == [] && run.result == Failure(BackendFailure(reply.reason)))
  {
  }

  /**
   * For a backend whose buffered answer is the text its stream adds up to, both
   * modes return the same reply and leave the message showing the same content.
   */
  lemma ModesAgree(chain: Chain, backend: Backend, inputs: Inputs, id: nat)
    requires backend.astream(inputs).failure.None?
    requires backend.ainvoke(inputs) == Response(StreamedText(backend.astream(inputs).chunks))
    ensures var streamed := RunChainSpec(Some(true), Some(chain), backend, inputs, id);
            var buffered := RunChainSpec(Some(false), Some(chain), backend, inputs, id);
            && streamed.result == buffered.result
            && VisibleContent(streamed.events, id) == VisibleContent(buffered.events, id)
  {
    StreamedRun(chain, backend, inputs, id);
    BufferedRun(chain, backend, inputs, id);
  }

  /**
   * Without a chain in the session (`on_chat_start` never ran) the run fails;
   * in streamed mode the empty message has been sent already, in buffered
   * mode nothing has.
   */
  lemma RunWithoutChain(streamResponse: bool, backend: Backend, inputs: Inputs, id: nat)
    ensures var run := RunChainSpec(Some(streamResponse), None, backend, inputs, id);
            && run.result.Failure?
            && run.events == (if streamResponse then [Sent(id, "")] else [])
  {
  }

  /** The session-scoped store: the keys "chain" and "history", each possibly unset. */
  datatype SessionState = SessionState(chain: Option<Chain>, history: Option<seq<Turn>>)

  /** `user_session.get("history", [])`. */
  function CurrentHistory(st: SessionState): seq<Turn> {
    st.history.GetOr([])
  }

  /** The outcome of `on_message`: the reply committed, or the exception it raised. */
  datatype Step = Step(outcome: Result<string, Error>, state: SessionState, events: seq<Event>)

  /**
   * `on_message`: the history is written only after `run_chain` returned, the
   * chain is never written, and a missing SYSTEM_PROMPT fails before anything
   * is sent.
   */
  function HandleMessage(settings: Settings, st: SessionState, backend: Backend, id: nat, content: string)
    : (step: Step)
    ensures step.state.chain == st.chain
    ensures step.state.history != st.history ==> step.outcome.Success?
    ensures settings.systemPrompt.None? ==> step.outcome.Failure? && step.events == []
  {
    var history := CurrentHistory(st);
    match BuildInputs(settings, history, content)
    case Failure(e) => Step(Failure(e), st, [])
    case Success(inputs) =>
      var run := RunChainSpec(settings.streamResponse, st.chain, backend, inputs, id);
      match run.result
      case Failure(e) => Step(Failure(e), st, run.events)
      case Success(reply) =>
        Step(Success(reply), st.(history := Some(history + [Human(content), AI(reply)])), run.events)
  }

  /**
   * A successful message appends exactly the user's turn and then the reply's
   * turn to the history, leaves the earlier turns as they were and the chain
   * untouched.
   */
  lemma MessageCommitsPair(settings: Settings, st: SessionState, backend: Backend, id: nat, content: string)
    ensures var step := HandleMessage(settings, st, backend, id, content);
            step.outcome.Success? ==>
              && step.state.history.Some?
              && CurrentHistory(step.state) == CurrentHistory(st) + [Human(content), AI(step.outcome.value)]
              && |CurrentHistory(step.state)| == |CurrentHistory(st)| + 2
              && CurrentHistory(step.state)[..|CurrentHistory(st)|] == CurrentHistory(st)
              && step.state.chain == st.chain
  {
    var step := HandleMessage(settings, st, backend, id, content);
    if step.outcome.Success? {
      assert (CurrentHistory(st) + [Human(content), AI(step.outcome.value)])[..|CurrentHistory(st)|]
             == CurrentHistory(st);
    }
  }

  /** A message that raises leaves the session store exactly as it was. */
  lemma MessageFailureNoCommit(settings: Settings, st: SessionState, backend: Backend, id: nat, content: string)
    ensures var step := HandleMessage(settings, st, backend, id, content);
            step.outcome.Failure? ==> step.state == st
  {
  }

  /**
   * In either mode the chain is run on the configured system prompt, the empty
   * context, the stored history (empty on the first turn) and the message
   * text: the outcome and the messages sent are those of `run_chain` on
   * exactly that record.
   */
  lemma MessageInputs(settings: Settings, st: SessionState, backend: Backend, id: nat, content: string)
    requires settings.systemPrompt.Some?
    ensures var run := RunChainSpec(settings.streamResponse, st.chain, backend,
                         Inputs(settings.systemPrompt.value, "", CurrentHistory(st), content), id);
            var step := HandleMessage(settings, st, backend, id, content);
            step.outcome == run.result && step.events == run.events
  {
  }

  /**
   * In buffered mode with a chain stored, the reply committed is the backend's
   * answer to that record, and the message fails exactly when the answer is an
   * exception.
   */
  lemma BufferedMessageReply(settings: Settings, st: SessionState, backend: Backend, id: nat, content: string)
    requires settings.systemPrompt.Some? && settings.streamResponse == Some(false) && st.chain.Some?
    ensures var reply := backend.ainvoke(Inputs(settings.systemPrompt.value, "", CurrentHistory(st), content));
            var step := HandleMessage(settings, st, backend, id, content);
            && (step.outcome.Success? <==> reply.Response?)
            && (reply.Response? ==> step.outcome.value == reply.content)
  {
    MessageInputs(settings, st, backend, id, content);
  }

  /** One message of a conversation and what the backend answers to it. */
  datatype Submission = Submission(content: string, backend: Backend)

  /** The results of a sequence of messages in one session, each message's id the log's length. */
  datatype Conversation = Conversation(state: SessionState, log: seq<Event>, outcomes: seq<Result<string, Error>>)

  /** The log only grows, one outcome is recorded per message, and the chain stays as it was. */
  function Converse(settings: Settings, st: SessionState, log: seq<Event>, messages: seq<Submission>)
    : (c: Conversation)
    ensures |c.outcomes| == |messages|
    ensures |log| <= |c.log| && c.log[..|log|] == log
    ensures c.state.chain == st.chain
    decreases |messages|
  {
    if messages == [] then Conversation(st, log, [])
    else
      var step := HandleMessage(settings, st, messages[0].backend, |log|, messages[0].content);
      var rest := Converse(settings, step.state, log + step.events, messages[1..]);
      Conversation(rest.state, rest.log, [step.outcome] + rest.outcomes)
  }

  /** The turn pairs the successful messages contribute, in submission order. */
  function Pairs(messages: seq<Submission>, outcomes: seq<Result<string, Error>>): seq<Turn>
    requires |messages| == |outcomes|
  {
    if messages == [] then []
    else
      (if outcomes[0].Success? then [Human(messages[0].content), AI(outcomes[0].value)] else [])
      + Pairs(messages[1..], outcomes[1..])
  }

  function Successes(outcomes: seq<Result<string, Error>>): nat {
    if outcomes == [] then 0 else (if outcomes[0].Success? then 1 else 0) + Successes(outcomes[1..])
  }

  /** Even length, user turns at even positions and reply turns at odd ones. */
  predicate Alternating(h: seq<Turn>) {
    |h| % 2 == 0 && forall k :: 0 <= k < |h| / 2 ==> h[2 * k].Human? && h[2 * k + 1].AI?
  }

  /**
   * After a sequence of messages the history is the old one followed by one
   * user/reply pair per successful message, in submission order; failed
   * messages add nothing, and the chain is never replaced.
   */
  lemma {:induction false} ConverseHistory(settings: Settings, st: SessionState, log: seq<Event>, messages: seq<Submission>)
    ensures var c := Converse(settings, st, log, messages);
            && |c.outcomes| == |messages|
            && CurrentHistory(c.state) == CurrentHistory(st) + Pairs(messages, c.outcomes)
            && c.state.chain == st.chain
    decreases |messages|
  {
    if messages != [] {
      var m := messages[0];
      var step := HandleMessage(settings, st, m.backend, |log|, m.content);
      var head := if step.outcome.Success? then [Human(m.content), AI(step.outcome.value)] else [];
      StepHistory(settings, st, m.backend, |log|, m.content);
      assert CurrentHistory(step.state) == CurrentHistory(st) + head;
      var rest := Converse(settings, step.state, log + step.events, messages[1..]);
      ConverseHistory(settings, step.state, log + step.events, messages[1..]);
      var c := Converse(settings, st, log, messages);
      assert c.state == rest.state && c.outcomes == [step.outcome] + rest.outcomes;
      assert c.outcomes[1..] == rest.outcomes;
      assert Pairs(messages, c.outcomes) == head + Pairs(messages[1..], rest.outcomes);
    }
  }

  /** One message's effect on the history, in one formula. */
  lemma StepHistory(settings: Settings, st: SessionState, backend: Backend, id: nat, content: string)
    ensures var step := HandleMessage(settings, st, backend, id, content);
            && CurrentHistory(step.state) == CurrentHistory(st) +
                 (if step.outcome.Success? then [Human(content), AI(step.outcome.value)] else [])
            && step.state.chain == st.chain
  {
    MessageCommitsPair(settings, st, backend, id, content);
    MessageFailureNoCommit(settings, st, backend, id, content);
  }

  lemma {:induction false} AlternatingAppend(a: seq<Turn>, b: seq<Turn>)
    requires Alternating(a) && Alternating(b)
    ensures Alternating(a + b)
  {
    var n := |a| / 2;
    assert |a| == 2 * n;
    forall k | n <= k < |a + b| / 2 ensures (a + b)[2 * k].Human? && (a + b)[2 * k + 1].AI? {
      assert (a + b)[2 * k] == b[2 * (k - n)] && (a + b)[2 * k + 1] == b[2 * (k - n) + 1];
    }
  }

  lemma {:induction false} PairsShape(messages: seq<Submission>, outcomes: seq<Result<string, Error>>)
    requires |messages| == |outcomes|
    ensures |Pairs(messages, outcomes)| == 2 * Successes(outcomes)
    ensures Alternating(Pairs(messages, outcomes))
  {
    if messages != [] {
      PairsShape(messages[1..], outcomes[1..]);
      var head := if outcomes[0].Success? then [Human(messages[0].content), AI(outcomes[0].value)] else [];
      assert Alternating(head);
      AlternatingAppend(head, Pairs(messages[1..], outcomes[1..]));
    }
  }

  /**
   * Starting from an alternating history (the empty one included), the history
   * stays alternating and grows by exactly two turns per successful message;
   * a failed message never makes it longer.
   */
  lemma ConverseAlternates(settings: Settings, st: SessionState, log: seq<Event>, messages: seq<Submission>)
    requires Alternating(CurrentHistory(st))
    ensures var c := Converse(settings, st, log, messages);
            && Alternating(CurrentHistory(c.state))
            && |CurrentHistory(c.state)| == |CurrentHistory(st)| + 2 * Successes(c.outcomes)
  {
    var c := Converse(settings, st, log, messages);
    ConverseHistory(settings, st, log, messages);
    PairsShape(messages, c.outcomes);
    AlternatingAppend(CurrentHistory(st), Pairs(messages, c.outcomes));
  }

  lemma {:induction false} PairsAllSucceeded(messages: seq<Submission>, outcomes: seq<Result<string, Error>>)
    requires |messages| == |outcomes|
    requires forall i :: 0 <= i < |outcomes| ==> outcomes[i].Success?
    ensures |Pairs(messages, outcomes)| == 2 * |messages|
    ensures forall k :: 0 <= k < |messages| ==>
              Pairs(messages, outcomes)[2 * k] == Human(messages[k].content) &&
              Pairs(messages, outcomes)[2 * k + 1] == AI(outcomes[k].value)
  {
    if messages != [] {
      PairsAllSucceeded(messages[1..], outcomes[1..]);
      var p := Pairs(messages, outcomes);
      var rest := Pairs(messages[1..], outcomes[1..]);
      assert p == [Human(messages[0].content), AI(outcomes[0].value)] + rest;
      forall k | 1 <= k < |messages|
        ensures p[2 * k] == Human(messages[k].content) && p[2 * k + 1] == AI(outcomes[k].value)
      {
        assert p[2 * k] == rest[2 * (k - 1)];
        assert p[2 * k + 1] == rest[2 * (k - 1) + 1];
      }
    }
  }

  /**
   * In a fresh session where all N messages succeed the history holds 2N turns:
   * the k-th message at position 2k and its reply right after it.
   */
  lemma FreshConversation(settings: Settings, chain: Option<Chain>, messages: seq<Submission>)
    ensures var c := Converse(settings, SessionState(chain, None), [], messages);
            && |c.outcomes| == |messages|
            && ((forall i :: 0 <= i < |c.outcomes| ==> c.outcomes[i].Success?) ==>
                 && |CurrentHistory(c.state)| == 2 * |messages|
                 && forall k :: 0 <= k < |messages| ==>
                      CurrentHistory(c.state)[2 * k] == Human(messages[k].content) &&
                      CurrentHistory(c.state)[2 * k + 1] == AI(c.outcomes[k].value))
  {
    var c := Converse(settings, SessionState(chain, None), [], messages);
    ConverseHistory(settings, SessionState(chain, None), [], messages);
    if forall i :: 0 <= i < |c.outcomes| ==> c.outcomes[i].Success? {
      PairsAllSucceeded(messages, c.outcomes);
    }
  }
}
