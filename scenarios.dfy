/**
 * Concrete runs of the adapter: a buffered reply, a streamed reply in three
 * fragments, and a conversation in which one call to the backend times out.
 */
module Scenarios {
  import opened Wrappers
  import opened Config
  import opened Streaming
  import opened Pipeline
  import opened Adapter
  import opened Identifier

  /** The module path and the class name of the configured adapter, `chatbot.adapter.OpenAILangChainAdapter`. */
  const AdapterModule: string := "chatbot.adapter"
  const AdapterClass: string := "OpenAILangChainAdapter"

  function ConfiguredSettings(stream: bool): Settings {
    Settings(Some(AdapterModule + "." + AdapterClass), Some("You are helpful."), Some(stream), None)
  }

  /** The configured identifier splits at its last dot, keeping the dot inside the module path. */
  lemma ConfiguredAdapterName()
    ensures InitAdapterNames(ConfiguredSettings(false)) == Success(("chatbot.adapter", "OpenAILangChainAdapter"))
  {
    assert '.' !in AdapterClass by {
      forall i | 0 <= i < |AdapterClass| ensures AdapterClass[i] != '.' { }
    }
    SplitJoin(AdapterModule, AdapterClass);
  }

  /** A bare class name has no dot, so it does not unpack into two names. */
  lemma UndottedAdapterName()
    ensures SplitAdapterName("OpenAILangChainAdapter") == Failure(NotEnoughValues)
  {
    var name := "OpenAILangChainAdapter";
    assert '.' !in name by {
      forall i | 0 <= i < |name| ensures name[i] != '.' { }
    }
  }

  /** A backend that answers every buffered call with `text` and streams `chunks`. */
  function Answering(text: string, chunks: seq<Chunk>): Backend {
    Backend((inputs: Inputs) => StreamReply(chunks, None), (inputs: Inputs) => Response(text))
  }

  /** A backend whose calls all time out. */
  function TimingOut(): Backend {
    Backend((inputs: Inputs) => StreamReply([], Some("timeout")), (inputs: Inputs) => Raised("timeout"))
  }

  /** Buffered: "Hi" answered by "Hello!" sends one message "Hello!" and stores the pair. */
  lemma BufferedHello()
    ensures var step := HandleMessage(ConfiguredSettings(false), SessionState(Some(InitChain(map[])), None),
                                      Answering("Hello!", []), 0, "Hi");
            && step.outcome == Success("Hello!")
            && step.events == [Sent(0, "Hello!")]
            && step.state.history == Some([Human("Hi"), AI("Hello!")])
  {
    assert [] + [Human("Hi"), AI("Hello!")] == [Human("Hi"), AI("Hello!")];
  }

  const HelloChunks: seq<Chunk> := [AIMessageChunk("Hel"), AIMessageChunk("lo"), AIMessageChunk("!")]

  /** One more AI chunk `x` extends the text by `x` and adds one update showing it. */
  lemma AppendFragment(id: nat, chunks: seq<Chunk>, text: string, updates: seq<Event>, x: string)
    requires StreamedText(chunks) == text && StreamUpdates(id, chunks) == updates
    ensures StreamedText(chunks + [AIMessageChunk(x)]) == text + x
    ensures StreamUpdates(id, chunks + [AIMessageChunk(x)]) == updates + [Updated(id, text + x)]
  {
    StreamStep(id, chunks, AIMessageChunk(x));
  }

  /** Three AI chunks `x`, `y`, `z` show `x`, `x + y` and `x + y + z`, and leave `x + y + z`. */
  lemma ThreeFragments(id: nat, x: string, y: string, z: string)
    ensures var chunks := [AIMessageChunk(x), AIMessageChunk(y), AIMessageChunk(z)];
            && StreamedText(chunks) == x + y + z
            && StreamUpdates(id, chunks) == [Updated(id, x), Updated(id, x + y), Updated(id, x + y + z)]
  {
    var empty: seq<Chunk> := [];
    AppendFragment(id, empty, "", [], x);
    var c1 := empty + [AIMessageChunk(x)];
    assert "" + x == x && [] + [Updated(id, x)] == [Updated(id, x)];
    AppendFragment(id, c1, x, [Updated(id, x)], y);
    var c2 := c1 + [AIMessageChunk(y)];
    AppendFragment(id, c2, x + y, [Updated(id, x), Updated(id, x + y)], z);
    assert c2 + [AIMessageChunk(z)] == [AIMessageChunk(x), AIMessageChunk(y), AIMessageChunk(z)];
  }

  lemma HelloUpdates()
    ensures StreamedText(HelloChunks) == "Hello!"
    ensures StreamUpdates(0, HelloChunks) == [Updated(0, "Hel"), Updated(0, "Hello"), Updated(0, "Hello!")]
  {
    ThreeFragments(0, "Hel", "lo", "!");
    assert "Hel" + "lo" == "Hello";
    assert "Hel" + "lo" + "!" == "Hello!";
  }

  /** Streamed: fragments "Hel", "lo", "!" show "Hel", "Hello", "Hello!" and store "Hello!". */
  lemma StreamedHello()
    ensures var step := HandleMessage(ConfiguredSettings(true), SessionState(Some(InitChain(map[])), None),
                                      Answering("", HelloChunks), 0, "Hi");
            && step.outcome == Success("Hello!")
            && step.events == [Sent(0, ""), Updated(0, "Hel"), Updated(0, "Hello"), Updated(0, "Hello!")]
            && step.state.history == Some([Human("Hi"), AI("Hello!")])
  {
    HelloUpdates();
    assert [] + [Human("Hi"), AI("Hello!")] == [Human("Hi"), AI("Hello!")];
  }

  /**
   * Two messages, the second timing out, then the second resent: the history
   * keeps the first pair across the failure and gets the resent message as its
   * second pair.
   */
  method TimeoutThenResend() returns (outcomes: seq<Result<string, Error>>, history: Option<seq<Turn>>, log: seq<Event>)
    ensures outcomes == [Success("one"), Failure(BackendFailure("timeout")), Success("two")]
    ensures history == Some([Human("first"), AI("one"), Human("second"), AI("two")])
    ensures log == [Sent(0, "one"), Sent(1, "two")]
  {
    var settings := ConfiguredSettings(false);
    var session := new UserSession();
    var outbox := new Outbox();
    OnChatStart(session, map[]);
    var r1 := OnMessage(settings, session, outbox, Answering("one", []), "first");
    assert r1 == Success("one");
    assert [] + [Human("first"), AI("one")] == [Human("first"), AI("one")];
    var r2 := OnMessage(settings, session, outbox, TimingOut(), "second");
    assert r2 == Failure(BackendFailure("timeout"));
    assert session.history == Some([Human("first"), AI("one")]);
    var r3 := OnMessage(settings, session, outbox, Answering("two", []), "second");
    assert [Human("first"), AI("one")] + [Human("second"), AI("two")]
           == [Human("first"), AI("one"), Human("second"), AI("two")];
    assert session.history == Some([Human("first"), AI("one"), Human("second"), AI("two")]);
    assert outbox.log == [Sent(0, "one"), Sent(1, "two")];
    outcomes, history, log := [r1, r2, r3], session.history, outbox.log;
  }
}
