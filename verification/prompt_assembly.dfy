/**
 * The OpenAI helpers: the message list sent for forex advice (a system
 * prompt, the earlier conversation with roles alternating by position, then
 * the new question), the fallbacks applied to the completion, and the
 * trading-signal request with its single generic error.
 *
 * The OpenAI client is a parameter: a function from the request to what the
 * call produced. `JSON.stringify` of the market data and `JSON.parse` of the
 * reply are parameters too.
 */
module PromptAssembly {
  import opened Wrappers

  datatype Role = System | User | Assistant

  datatype ChatMessage = ChatMessage(role: Role, content: string)

  /** The arguments of `openai.chat.completions.create`. */
  datatype ChatRequest = ChatRequest(model: string, messages: seq<ChatMessage>, maxTokens: nat, temperature: real)

  /**
   * What the client call produced: it threw, or it returned a completion
   * whose `choices[0]?.message?.content` is `content` (`None` when the
   * choice, its message or its content is missing).
   */
  datatype Completion = CallFailed | Completed(content: Option<string>)

  /** A template literal written over several source lines: the lines joined by line feeds. */
  function JoinLines(lines: seq<string>): string {
    if |lines| == 0 then ""
    else if |lines| == 1 then lines[0]
    else lines[0] + "\n" + JoinLines(lines[1..])
  }

  // ---------------------------------------------------------------------------
  // Forex advice
  // ---------------------------------------------------------------------------

  const AdvisorPromptLines: seq<string> := [
    "You are an expert forex trading advisor with deep knowledge of:",
    "    - Technical analysis and chart patterns",
    "    - Fundamental analysis and economic indicators",
    "    - Risk management strategies",
    "    - Market psychology and sentiment analysis",
    "    - Currency pair correlations",
    "    - Central bank policies and their impact on currencies",
    "    ",
    "    Provide detailed, actionable advice while always emphasizing proper risk management.",
    "    Include specific entry/exit points when relevant, but always mention that trading involves risk.",
    "    Use clear, professional language suitable for both beginners and experienced traders."]

  /** The system prompt of every advice request. */
  const AdvisorPrompt: string := JoinLines(AdvisorPromptLines)

  const ApologyText: string := "I apologize, but I could not generate a response at this time."
  const AdviceFailedText: string := "Failed to generate forex advice. Please try again."

  /** The role of context entry `index`: the conversation is taken to open with the user. */
  function ContextRole(index: nat): (role: Role)
    ensures role == User <==> index % 2 == 0
    ensures role == Assistant <==> index % 2 == 1
  {
    if index % 2 == 0 then User else Assistant
  }

  /** An absent context behaves as an empty one. */
  function ContextOf(context: Option<seq<string>>): seq<string> {
    if context.Some? then context.value else []
  }

  /**
   * An advice request's message list: the system prompt, each context entry
   * in order under its positional role, then the question as the user.
   */
  predicate Assembled(messages: seq<ChatMessage>, system: string, message: string, context: seq<string>) {
    && |messages| == |context| + 2
    && messages[0] == ChatMessage(System, system)
    && (forall i :: 0 <= i < |context| ==> messages[i + 1] == ChatMessage(ContextRole(i), context[i]))
    && messages[|messages| - 1] == ChatMessage(User, message)
  }

  /**
   * The messages are built by pushing onto an array: the system prompt, then
   * the context in a `forEach`, then the question.
   */
  method BuildMessages(systemPrompt: string, message: string, context: Option<seq<string>>)
    returns (messages: seq<ChatMessage>)
    ensures Assembled(messages, systemPrompt, message, ContextOf(context))
  {
    messages := [ChatMessage(System, systemPrompt)];
    if context.Some? && |context.value| > 0 {
      var entries := context.value;
      var index := 0;
      while index < |entries|
        invariant 0 <= index <= |entries|
        invariant |messages| == index + 1
        invariant messages[0] == ChatMessage(System, systemPrompt)
        invariant forall i :: 0 <= i < index ==> messages[i + 1] == ChatMessage(ContextRole(i), entries[i])
      {
        var turn := ChatMessage(ContextRole(index), entries[index]);
        messages := messages + [turn];
        assert messages[index + 1] == turn;
        index := index + 1;
      }
    }
    messages := messages + [ChatMessage(User, message)];
  }

  /** The description pins the list down completely: two lists assembled from the same inputs are equal. */
  lemma {:induction false} AssembledIsUnique(a: seq<ChatMessage>, b: seq<ChatMessage>, system: string, message: string, context: seq<string>)
    requires Assembled(a, system, message, context) && Assembled(b, system, message, context)
    ensures a == b
  {
    forall k | 0 <= k < |a|
      ensures a[k] == b[k]
    {
      if 1 <= k <= |context| {
        var j := k - 1;
        assert a[j + 1] == ChatMessage(ContextRole(j), context[j]) == b[j + 1];
      }
    }
  }

  /** Without context (absent or empty) the list is exactly the system prompt and the question. */
  lemma WithoutContext(messages: seq<ChatMessage>, system: string, message: string)
    requires Assembled(messages, system, message, [])
    ensures messages == [ChatMessage(System, system), ChatMessage(User, message)]
  {
  }

  /** The roles after the system prompt: user at odd positions, assistant at even ones, except the question at the end. */
  predicate Alternating(messages: seq<ChatMessage>) {
    && |messages| >= 1 && messages[0].role == System
    && forall k :: 1 <= k < |messages| ==> messages[k].role == (if k % 2 == 1 then User else Assistant)
  }

  /** An even-length context gives a strictly alternating conversation that ends with the question. */
  lemma {:induction false} EvenContextAlternates(messages: seq<ChatMessage>, system: string, message: string, context: seq<string>)
    requires Assembled(messages, system, message, context) && |context| % 2 == 0
    ensures Alternating(messages)
  {
    forall k | 1 <= k < |messages|
      ensures messages[k].role == (if k % 2 == 1 then User else Assistant)
    {
      if k <= |context| {
        assert messages[(k - 1) + 1].role == ContextRole(k - 1);
      }
    }
  }

  /** An odd-length context ends on a user entry, so two user messages are sent in a row. */
  lemma {:induction false} OddContextRepeatsUser(messages: seq<ChatMessage>, system: string, message: string, context: seq<string>)
    requires Assembled(messages, system, message, context) && |context| % 2 == 1
    ensures messages[|messages| - 2].role == User && messages[|messages| - 1].role == User
    ensures !Alternating(messages)
  {
    var last := |context| - 1;
    assert messages[last + 1] == ChatMessage(ContextRole(last), context[last]);
  }

  /** `content || apology`, inside a `try` whose `catch` replaces every failure with one message. */
  function AdviceReply(completion: Completion): (reply: Result<string, string>)
    ensures reply.Failure? <==> completion.CallFailed?
    ensures reply.Failure? ==> reply.error == AdviceFailedText
    ensures reply.Success? ==> reply.value != ""
    ensures completion.Completed? && completion.content.Some? && completion.content.value != "" ==>
      reply == Success(completion.content.value)
    ensures completion.Completed? && (completion.content.None? || completion.content.value == "") ==>
      reply == Success(ApologyText)
  {
    match completion
    case CallFailed => Failure(AdviceFailedText)
    case Completed(content) =>
      if content.Some? && content.value != "" then Success(content.value) else Success(ApologyText)
  }

  /** `generateForexAdvice(message, context)`: build the list, call the model once, apply the fallbacks. */
  method GenerateForexAdvice(message: string, context: Option<seq<string>>, openai: ChatRequest -> Completion)
    returns (request: ChatRequest, reply: Result<string, string>)
    ensures request.model == "gpt-4" && request.maxTokens == 1000 && request.temperature == 0.7
    ensures Assembled(request.messages, AdvisorPrompt, message, ContextOf(context))
    ensures reply == AdviceReply(openai(request))
  {
    var messages := BuildMessages(AdvisorPrompt, message, context);
    request := ChatRequest("gpt-4", messages, 1000, 0.7);
    var completion := openai(request);
    reply := AdviceReply(completion);
  }

  // ---------------------------------------------------------------------------
  // Trading signals
  // ---------------------------------------------------------------------------

  datatype SignalAction = Buy | Sell | Hold

  /** The object the reply is expected to hold. */
  datatype TradingSignal = TradingSignal(
    action: SignalAction, confidence: real, reasoning: string, entryPrice: real,
    stopLoss: Option<real>, takeProfit: Option<real>)

  const AnalystPrompt: string := "You are a professional forex analyst. Provide trading signals in JSON format."
  const SignalFailedText: string := "Failed to analyze trading signal"

  /** The prompt's opening line, naming the symbol. */
  function SignalHeading(symbol: string): string {
    "Analyze the following forex data for " + symbol + " and provide a trading recommendation:"
  }

  /** What the prompt asks for after the market data, one source line each. */
  const SignalInstructions: seq<string> := [
    "    ",
    "    Please provide:",
    "    1. Trading action (buy/sell/hold)",
    "    2. Confidence level (0-100)",
    "    3. Detailed reasoning",
    "    4. Suggested entry price",
    "    5. Stop loss level (if applicable)",
    "    6. Take profit level (if applicable)",
    "    ",
    "    Format your response as JSON."]

  /** Joining two blocks of lines is joining each block and putting a line feed between them. */
  lemma {:induction false} JoinLinesAppend(a: seq<string>, b: seq<string>)
    requires |a| > 0 && |b| > 0
    ensures JoinLines(a + b) == JoinLines(a) + "\n" + JoinLines(b)
  {
    if |a| == 1 {
      assert (a + b)[1..] == b;
    } else {
      assert (a + b)[1..] == a[1..] + b;
      JoinLinesAppend(a[1..], b);
    }
  }

  /** Three lines joined. */
  lemma JoinThreeLines(a: string, b: string, c: string)
    ensures JoinLines([a, b, c]) == a + "\n" + (b + "\n" + c)
  {
    assert [a, b, c][1..] == [b, c];
    assert [b, c][1..] == [c];
    assert JoinLines([c]) == c;
    assert JoinLines([b, c]) == b + "\n" + c;
  }

  /**
   * The user prompt: the heading naming the symbol, a blank line, the
   * pretty-printed market data, then the instructions.
   */
  function SignalPrompt(symbol: string, marketDataJson: string): (prompt: string)
    ensures "Analyze the following forex data for " + symbol <= prompt
    ensures prompt == SignalHeading(symbol) + "\n" + ("    " + "\n" + ("    Market Data: " + marketDataJson))
                      + "\n" + JoinLines(SignalInstructions)
  {
    var lines := [SignalHeading(symbol), "    ", "    Market Data: " + marketDataJson];
    JoinLinesAppend(lines, SignalInstructions);
    JoinThreeLines(SignalHeading(symbol), "    ", "    Market Data: " + marketDataJson);
    JoinLines(lines + SignalInstructions)
  }

  /** The request for a signal: two messages, a shorter and cooler completion than for advice. */
  function SignalRequest(symbol: string, marketDataJson: string): (request: ChatRequest)
    ensures request.model == "gpt-4" && request.maxTokens == 500 && request.temperature == 0.3
    ensures |request.messages| == 2
    ensures request.messages[0] == ChatMessage(System, AnalystPrompt)
    ensures request.messages[1] == ChatMessage(User, SignalPrompt(symbol, marketDataJson))
  {
    ChatRequest("gpt-4",
      [ChatMessage(System, AnalystPrompt), ChatMessage(User, SignalPrompt(symbol, marketDataJson))],
      500, 0.3)
  }

  /**
   * `analyzeTradingSignal(symbol, marketData)`: a failed call, an empty or
   * missing reply and a reply that does not parse all end in the same error.
   */
  function AnalyzeTradingSignal(
    symbol: string, marketDataJson: string,
    openai: ChatRequest -> Completion, parse: string -> Option<TradingSignal>): (result: Result<TradingSignal, string>)
    ensures result.Failure? ==> result.error == SignalFailedText
    ensures var c := openai(SignalRequest(symbol, marketDataJson));
      result.Success? <==> c.Completed? && c.content.Some? && c.content.value != "" && parse(c.content.value).Some?
    ensures var c := openai(SignalRequest(symbol, marketDataJson));
      result.Success? ==> result.value == parse(c.content.value).value
  {
    var completion := openai(SignalRequest(symbol, marketDataJson));
    if completion.CallFailed? then Failure(SignalFailedText)
    else if completion.content.None? || completion.content.value == "" then Failure(SignalFailedText)
    else
      var parsed := parse(completion.content.value);
      if parsed.None? then Failure(SignalFailedText) else Success(parsed.value)
  }
}
