/**
 * The hooks of the LangChain adapter over the host's mutable state: the
 * session store, the outgoing messages and the sink that records what they
 * send. Each method is proved to do what module Pipeline specifies.
 */
module Adapter {
  import opened Wrappers
  import opened Config
  import opened Streaming
  import opened Pipeline

  /** The host's session-scoped key/value store, with its two keys as fields. */
  class UserSession {
    var chain: Option<Chain>
    var history: Option<seq<Turn>>

    /** A new session holds neither key. */
    constructor ()
      ensures chain == None && history == None
    {
      chain := None;
      history := None;
    }

    function State(): SessionState
      reads this
    {
      SessionState(chain, history)
    }
  }

  /** The log of everything the outgoing messages sent to the user interface. */
  class Outbox {
    var log: seq<Event>

    constructor ()
      ensures log == []
    {
      log := [];
    }
  }

  /** An outgoing message, `cl.Message`: a content field, sent once and then updated. */
  class Message {
    const id: nat
    var content: string

    constructor (id: nat, content: string)
      ensures this.id == id && this.content == content
    {
      this.id := id;
      this.content := content;
    }

    method Send(outbox: Outbox)
      modifies outbox
      ensures outbox.log == old(outbox.log) + [Sent(id, content)]
    {
      outbox.log := outbox.log + [Sent(id, content)];
    }

    method Update(outbox: Outbox)
      modifies outbox
      ensures outbox.log == old(outbox.log) + [Updated(id, content)]
    {
      outbox.log := outbox.log + [Updated(id, content)];
    }
  }

  /** `on_chat_start`: store a new chain; the history is left alone. */
  method OnChatStart(session: UserSession, llm: LlmConfig)
    modifies session
    ensures session.chain == Some(InitChain(llm))
    ensures session.history == old(session.history)
  {
    session.chain := Some(InitChain(llm));
  }

  /**
   * `run_chain`: look up STREAM_RESPONSE, then answer in streamed or in
   * buffered mode. The new message's id is the length of the log when it is
   * created.
   */
  method RunChain(settings: Settings, outbox: Outbox, chain: Option<Chain>, backend: Backend, inputs: Inputs)
    returns (r: Result<string, Error>)
    modifies outbox
    ensures var run := RunChainSpec(settings.streamResponse, chain, backend, inputs, old(|outbox.log|));
            r == run.result && outbox.log == old(outbox.log) + run.events
  {
    match settings.streamResponse
    case None =>
      r := Failure(MissingSetting("STREAM_RESPONSE"));
    case Some(true) =>
      r := RunStreamed(outbox, chain, backend, inputs);
    case Some(false) =>
      r := RunBuffered(outbox, chain, backend, inputs);
  }

  /** The streamed branch of `run_chain`: open an empty message, then relay the stream. */
  method RunStreamed(outbox: Outbox, chain: Option<Chain>, backend: Backend, inputs: Inputs)
    returns (r: Result<string, Error>)
    modifies outbox
    ensures var run := RunChainSpec(Some(true), chain, backend, inputs, old(|outbox.log|));
            r == run.result && outbox.log == old(outbox.log) + run.events
  {
    var responseMessage := new Message(|outbox.log|, "");
    responseMessage.Send(outbox);
    if chain.None? {
      return Failure(MissingAttribute("astream"));
    }
    var reply := backend.astream(inputs);
    var responseContent := RelayChunks(outbox, responseMessage, reply.chunks);
    if reply.failure.Some? {
      return Failure(BackendFailure(reply.failure.value));
    }
    return Success(responseContent);
  }

  /**
   * The `async for` loop of `run_chain`. It keeps the accumulated text equal
   * to the text of the chunks seen so far, the message showing it, and the
   * log extended by one update per `AIMessageChunk` seen so far.
   */
  method RelayChunks(outbox: Outbox, responseMessage: Message, chunks: seq<Chunk>)
    returns (responseContent: string)
    requires responseMessage.content == ""
    modifies outbox, responseMessage
    ensures responseContent == StreamedText(chunks)
    ensures outbox.log == old(outbox.log) + StreamUpdates(responseMessage.id, chunks)
    ensures responseMessage.content == responseContent
  {
    responseContent := "";
    for i := 0 to |chunks|
      invariant responseContent == StreamedText(chunks[..i])
      invariant outbox.log == old(outbox.log) + StreamUpdates(responseMessage.id, chunks[..i])
      invariant responseMessage.content == responseContent
    {
      assert chunks[..i + 1] == chunks[..i] + [chunks[i]];
      StreamStep(responseMessage.id, chunks[..i], chunks[i]);
      if chunks[i].AIMessageChunk? {
        responseContent := responseContent + chunks[i].content;
        responseMessage.content := responseContent;
        responseMessage.Update(outbox);
      }
    }
    assert chunks[..|chunks|] == chunks;
  }

  /** The buffered branch of `run_chain`: one call, one message sent. */
  method RunBuffered(outbox: Outbox, chain: Option<Chain>, backend: Backend, inputs: Inputs)
    returns (r: Result<string, Error>)
    modifies outbox
    ensures var run := RunChainSpec(Some(false), chain, backend, inputs, old(|outbox.log|));
            r == run.result && outbox.log == old(outbox.log) + run.events
  {
    if chain.None? {
      return Failure(MissingAttribute("ainvoke"));
    }
    var response := backend.ainvoke(inputs);
    if response.Raised? {
      return Failure(BackendFailure(response.reason));
    }
    var responseContent := response.content;
    var responseMessage := new Message(|outbox.log|, responseContent);
    responseMessage.Send(outbox);
    return Success(responseContent);
  }

  /**
   * `on_message`: read the chain and the history, build the input record, run
   * the chain and, only once that returned, store the history extended by the
   * user's turn and the reply's turn.
   */
  method OnMessage(settings: Settings, session: UserSession, outbox: Outbox, backend: Backend, content: string)
    returns (r: Result<string, Error>)
    modifies session, outbox
    ensures var step := HandleMessage(settings, old(session.State()), backend, old(|outbox.log|), content);
            r == step.outcome && session.State() == step.state && outbox.log == old(outbox.log) + step.events
    ensures r.Success? ==> session.history == Some(CurrentHistory(old(session.State())) + [Human(content), AI(r.value)])
    ensures r.Failure? ==> session.history == old(session.history)
    ensures session.chain == old(session.chain)
  {
    var chain := session.chain;
    var history := session.history.GetOr([]);
    var context := GetContext();
    if settings.systemPrompt.None? {
      return Failure(MissingSetting("SYSTEM_PROMPT"));
    }
    var inputs := Inputs(settings.systemPrompt.value, context, history, content);
    r := RunChain(settings, outbox, chain, backend, inputs);
    if r.Failure? {
      return r;
    }
    session.history := Some(history + [Human(content), AI(r.value)]);
  }
}
