/**
 * The dashboard's chat assistant: a message list that starts with a greeting,
 * a send step guarded against blank input and double sends, a scripted reply
 * that arrives when the reply timer fires, and the navigation state next to it.
 * Also the keyword reply selector and the display-name and initial fallbacks.
 *
 * Message ids and timestamps come from the clock and are not modelled; the
 * 1500 ms reply timer is the `pendingReply` field, holding the input the
 * timer's callback captured.
 */
module ChatSession {
  import opened Wrappers

  // ---------------------------------------------------------------------------
  // Text helpers
  // ---------------------------------------------------------------------------

  /** The characters `String.prototype.trim` strips: ECMAScript white space and line terminators. */
  predicate IsWhitespace(c: char) {
    var n := c as int;
    (0x09 <= n <= 0x0D) || n == 0x20 || n == 0xA0 || n == 0x1680 || (0x2000 <= n <= 0x200A)
    || n == 0x2028 || n == 0x2029 || n == 0x202F || n == 0x205F || n == 0x3000 || n == 0xFEFF
  }

  /** Nothing but white space: what `!s.trim()` tests. */
  predicate IsBlank(s: string) {
    forall i :: 0 <= i < |s| ==> IsWhitespace(s[i])
  }

  /** `trimStart`: drop leading white space. */
  function TrimStart(s: string): (t: string)
    ensures |t| <= |s| && t == s[|s| - |t|..]
    ensures IsBlank(s[..|s| - |t|])
    ensures t == [] || !IsWhitespace(t[0])
  {
    if s == [] || !IsWhitespace(s[0]) then s else
    var r := TrimStart(s[1..]);
    assert s[..|s| - |r|] == [s[0]] + s[1..][..|s[1..]| - |r|];
    r
  }

  /** `trimEnd`: drop trailing white space. */
  function TrimEnd(s: string): (t: string)
    ensures |t| <= |s| && t == s[..|t|]
    ensures IsBlank(s[|t|..])
    ensures t == [] || !IsWhitespace(t[|t| - 1])
  {
    if s == [] || !IsWhitespace(s[|s| - 1]) then s else
    var r := TrimEnd(s[..|s| - 1]);
    assert s[|r|..] == s[..|s| - 1][|r|..] + [s[|s| - 1]];
    r
  }

  /** Trimming both ends leaves nothing exactly when the text is all white space. */
  lemma TrimBothEnds(s: string)
    ensures var t := TrimEnd(TrimStart(s));
      && (t == [] || !IsWhitespace(t[0]))
      && (t == [] <==> IsBlank(s))
  {
    var head := TrimStart(s);
    var t := TrimEnd(head);
    if head == [] {
      assert s[..|s|] == s;
    } else {
      var start := |s| - |head|;
      assert head[0] == s[start];
      assert !IsBlank(s);
      assert t[0] == head[0];
    }
  }

  /**
   * `s.trim()`: the text between its leading and its trailing white space;
   * nothing is left exactly when the text is blank.
   */
  function Trim(s: string): (t: string)
    ensures t == [] || (!IsWhitespace(t[0]) && !IsWhitespace(t[|t| - 1]))
    ensures t == [] <==> IsBlank(s)
  {
    TrimBothEnds(s);
    TrimEnd(TrimStart(s))
  }

  function ToLowerChar(c: char): char {
    if 'A' <= c <= 'Z' then (c as int + 32) as char else c
  }

  function ToUpperChar(c: char): char {
    if 'a' <= c <= 'z' then (c as int - 32) as char else c
  }

  function ToLower(s: string): string {
    seq(|s|, i requires 0 <= i < |s| => ToLowerChar(s[i]))
  }

  function ToUpper(s: string): string {
    seq(|s|, i requires 0 <= i < |s| => ToUpperChar(s[i]))
  }

  /** `sub` occurs in `s` starting at index `i`. */
  predicate OccursAt(s: string, sub: string, i: nat) {
    i + |sub| <= |s| && forall k :: 0 <= k < |sub| ==> s[i + k] == sub[k]
  }

  /** `s.includes(sub)`. */
  predicate Contains(s: string, sub: string) {
    exists i: nat :: i <= |s| && OccursAt(s, sub, i)
  }

  /** A string drawn from an alphabet cannot contain a text with a character outside it. */
  lemma MissingCharRefutes(s: string, alphabet: set<char>, sub: string, c: char)
    requires forall i :: 0 <= i < |s| ==> s[i] in alphabet
    requires c in sub && c !in alphabet
    ensures !Contains(s, sub)
  {
  }

  /** Lower-casing twice is lower-casing once. */
  lemma ToLowerIdempotent(s: string)
    ensures ToLower(ToLower(s)) == ToLower(s)
  {
  }

  /** Lower-casing forgets an earlier upper-casing. */
  lemma ToLowerAfterToUpper(s: string)
    ensures ToLower(ToUpper(s)) == ToLower(s)
  {
  }

  // ---------------------------------------------------------------------------
  // Scripted replies
  // ---------------------------------------------------------------------------


  predicate AsksEurUsd(lower: string) { Contains(lower, "eur/usd") || Contains(lower, "eurusd") }
  predicate AsksStrategy(lower: string) { Contains(lower, "strategy") || Contains(lower, "trading plan") }
  predicate AsksRisk(lower: string) { Contains(lower, "risk") || Contains(lower, "money management") }
  predicate AsksMarket(lower: string) { Contains(lower, "market") || Contains(lower, "analysis") }

  /** What a question is about, by the first keyword rule it meets. */
  datatype Topic = EurUsd | Strategy | Risk | Market | General

  /** The keyword rules in order; the first that matches decides. */
  function TopicOf(lower: string): (t: Topic)
    ensures t == EurUsd <==> AsksEurUsd(lower)
    ensures t == Strategy <==> !AsksEurUsd(lower) && AsksStrategy(lower)
    ensures t == Risk <==> !AsksEurUsd(lower) && !AsksStrategy(lower) && AsksRisk(lower)
    ensures t == General <==> !AsksEurUsd(lower) && !AsksStrategy(lower) && !AsksRisk(lower) && !AsksMarket(lower)
  {
    if AsksEurUsd(lower) then EurUsd
    else if AsksStrategy(lower) then Strategy
    else if AsksRisk(lower) then Risk
    else if AsksMarket(lower) then Market
    else General
  }

  /** What the assistant says: the greeting it opens with, or the scripted answer on a topic. */
  datatype Reply = Greeting | Answer(topic: Topic)

  function ReplyText(r: Reply): string {
    match r
    case Greeting => "Hello! I'm your AI forex trading assistant. I can help you with market analysis, trading strategies, risk management, and answer any questions about forex trading. What would you like to know?"
    case Answer(EurUsd) => "EUR/USD is currently showing bullish momentum. The pair has broken above key resistance at 1.0850. I recommend watching for a retest of this level as support. Key levels to watch: Support at 1.0850, Resistance at 1.0920. Consider risk management with a 2% position size."
    case Answer(Strategy) => "Here's a solid forex trading strategy: 1) Always use proper risk management (1-2% per trade), 2) Focus on major pairs during London/NY overlap, 3) Use technical analysis with fundamentals, 4) Keep a trading journal, 5) Never risk more than you can afford to lose. Would you like me to elaborate on any of these points?"
    case Answer(Risk) => "Risk management is crucial in forex trading. Key principles: 1) Never risk more than 1-2% of your account per trade, 2) Use stop losses on every trade, 3) Maintain a risk-to-reward ratio of at least 1:2, 4) Diversify across different currency pairs, 5) Don't overtrade. Remember: preservation of capital is more important than profits."
    case Answer(Market) => "Current market conditions show mixed signals. Major central banks are in different phases of monetary policy. The USD remains strong due to Fed policy, while EUR is gaining ground on ECB hawkishness. Key events to watch this week: NFP data, ECB meeting minutes, and GDP releases. Would you like analysis on a specific pair?"
    case Answer(General) => "That's a great question about forex trading! Based on current market conditions and analysis, I'd recommend focusing on risk management and following the major economic indicators. The forex market is highly dynamic, so staying informed about central bank policies, economic data releases, and technical patterns is crucial. What specific aspect of forex trading would you explore further?"
  }

  /** The answer the assistant picks for an input: the topic of its lower-cased text, never the greeting. */
  function ResponseTo(userInput: string): (reply: Reply)
    ensures reply != Greeting
  {
    Answer(TopicOf(ToLower(userInput)))
  }

  /** The selector applies the keyword rules in order to the lower-cased input; the first that matches decides. */
  lemma ResponseRules(userInput: string)
    ensures var lower := ToLower(userInput); var topic := ResponseTo(userInput).topic;
      && (topic == EurUsd <==> AsksEurUsd(lower))
      && (topic == Strategy <==> !AsksEurUsd(lower) && AsksStrategy(lower))
      && (topic == Risk <==> !AsksEurUsd(lower) && !AsksStrategy(lower) && AsksRisk(lower))
      && (topic == Market <==> !AsksEurUsd(lower) && !AsksStrategy(lower) && !AsksRisk(lower) && AsksMarket(lower))
      && (topic == General <==> !AsksEurUsd(lower) && !AsksStrategy(lower) && !AsksRisk(lower) && !AsksMarket(lower))
  {
  }

  /**
   * The scripted assistant: the lower-cased input is matched against four
   * keyword rules in order, the first match wins, and anything else gets the
   * default reply.
   */
  function GenerateMockResponse(userInput: string): (text: string)
    ensures var lower := ToLower(userInput);
      && (AsksEurUsd(lower) ==> text == ReplyText(Answer(EurUsd)))
      && (!AsksEurUsd(lower) && AsksStrategy(lower) ==> text == ReplyText(Answer(Strategy)))
      && (!AsksEurUsd(lower) && !AsksStrategy(lower) && AsksRisk(lower) ==> text == ReplyText(Answer(Risk)))
      && (!AsksEurUsd(lower) && !AsksStrategy(lower) && !AsksRisk(lower) && AsksMarket(lower) ==> text == ReplyText(Answer(Market)))
      && (!AsksEurUsd(lower) && !AsksStrategy(lower) && !AsksRisk(lower) && !AsksMarket(lower) ==> text == ReplyText(Answer(General)))
  {
    ReplyText(ResponseTo(userInput))
  }

  /** The bubble the reply timer appends shows exactly the selector's text for the captured input. */
  lemma AnswerShowsMockResponse(userInput: string)
    ensures AssistantMessage(ResponseTo(userInput)).Text() == GenerateMockResponse(userInput)
    ensures !AssistantMessage(ResponseTo(userInput)).IsUser()
  {
  }

  /** The selector ignores case: lower- or upper-casing the input first changes nothing. */
  lemma {:induction false} MockResponseIgnoresCase(userInput: string)
    ensures ResponseTo(ToLower(userInput)) == ResponseTo(userInput)
    ensures ResponseTo(ToUpper(userInput)) == ResponseTo(userInput)
  {
    ToLowerIdempotent(userInput);
    ToLowerAfterToUpper(userInput);
  }

  /** An earlier rule beats a later one: a question about EUR/USD risk is answered about EUR/USD. */
  lemma {:induction false} FirstRuleWins(userInput: string)
    requires AsksEurUsd(ToLower(userInput))
    ensures ResponseTo(userInput) == Answer(EurUsd)
  {
  }

  const QuickPrompts: seq<string> := [
    "Analyze EUR/USD trend", "Best trading strategy for beginners", "How to manage risk in forex",
    "Current market outlook", "Technical analysis tips"]

  lemma QuickPromptPairLowered()
    ensures ToLower(QuickPrompts[0]) == "analyze eur/usd trend"
  {
  }

  /** "Analyze EUR/USD trend" asks about the pair. */
  lemma QuickPromptPair()
    ensures ResponseTo(QuickPrompts[0]) == Answer(EurUsd)
  {
    QuickPromptPairLowered();
    var p := "analyze eur/usd trend";
    assert OccursAt(p, "eur/usd", 8);
  }

  lemma QuickPromptStrategyLowered()
    ensures ToLower(QuickPrompts[1]) == "best trading strategy for beginners"
  {
  }

  lemma QuickPromptStrategySkipsEurUsd()
    ensures !AsksEurUsd("best trading strategy for beginners")
  {
    var p := "best trading strategy for beginners";
    var letters := {' ', 'a', 'b', 'd', 'e', 'f', 'g', 'i', 'n', 'o', 'r', 's', 't', 'y'};
    assert forall i :: 0 <= i < |p| ==> p[i] in letters;
    MissingCharRefutes(p, letters, "eur/usd", 'u');
    MissingCharRefutes(p, letters, "eurusd", 'u');
  }

  /** "Best trading strategy for beginners" asks about strategy. */
  lemma QuickPromptStrategy()
    ensures ResponseTo(QuickPrompts[1]) == Answer(Strategy)
  {
    QuickPromptStrategyLowered();
    QuickPromptStrategySkipsEurUsd();
    var p := "best trading strategy for beginners";
    assert OccursAt(p, "strategy", 13);
    assert TopicOf(p) == Strategy;
  }

  lemma QuickPromptRiskLowered()
    ensures ToLower(QuickPrompts[2]) == "how to manage risk in forex"
  {
  }

  lemma QuickPromptRiskSkipsEurUsd()
    ensures !AsksEurUsd("how to manage risk in forex")
  {
    var p := "how to manage risk in forex";
    var letters := {' ', 'a', 'e', 'f', 'g', 'h', 'i', 'k', 'm', 'n', 'o', 'r', 's', 't', 'w', 'x'};
    assert forall i :: 0 <= i < |p| ==> p[i] in letters;
    MissingCharRefutes(p, letters, "eur/usd", 'u');
    MissingCharRefutes(p, letters, "eurusd", 'u');
  }

  lemma QuickPromptRiskSkipsStrategy()
    ensures !AsksStrategy("how to manage risk in forex")
  {
    var p := "how to manage risk in forex";
    var letters := {' ', 'a', 'e', 'f', 'g', 'h', 'i', 'k', 'm', 'n', 'o', 'r', 's', 't', 'w', 'x'};
    assert forall i :: 0 <= i < |p| ==> p[i] in letters;
    MissingCharRefutes(p, letters, "strategy", 'y');
    MissingCharRefutes(p, letters, "trading plan", 'd');
  }

  /** "How to manage risk in forex" asks about risk. */
  lemma QuickPromptRisk()
    ensures ResponseTo(QuickPrompts[2]) == Answer(Risk)
  {
    QuickPromptRiskLowered();
    QuickPromptRiskSkipsEurUsd();
    QuickPromptRiskSkipsStrategy();
    var p := "how to manage risk in forex";
    assert OccursAt(p, "risk", 14);
  }

  lemma QuickPromptMarketLowered()
    ensures ToLower(QuickPrompts[3]) == "current market outlook"
  {
  }

  lemma QuickPromptMarketSkipsEurUsd()
    ensures !AsksEurUsd("current market outlook")
  {
    var p := "current market outlook";
    var letters := {' ', 'a', 'c', 'e', 'k', 'l', 'm', 'n', 'o', 'r', 't', 'u'};
    assert forall i :: 0 <= i < |p| ==> p[i] in letters;
    MissingCharRefutes(p, letters, "eur/usd", '/');
    MissingCharRefutes(p, letters, "eurusd", 's');
  }

  lemma QuickPromptMarketSkipsStrategy()
    ensures !AsksStrategy("current market outlook")
  {
    var p := "current market outlook";
    var letters := {' ', 'a', 'c', 'e', 'k', 'l', 'm', 'n', 'o', 'r', 't', 'u'};
    assert forall i :: 0 <= i < |p| ==> p[i] in letters;
    MissingCharRefutes(p, letters, "strategy", 's');
    MissingCharRefutes(p, letters, "trading plan", 'd');
  }

  lemma QuickPromptMarketSkipsRisk()
    ensures !AsksRisk("current market outlook")
  {
    var p := "current market outlook";
    var letters := {' ', 'a', 'c', 'e', 'k', 'l', 'm', 'n', 'o', 'r', 't', 'u'};
    assert forall i :: 0 <= i < |p| ==> p[i] in letters;
    MissingCharRefutes(p, letters, "risk", 'i');
    MissingCharRefutes(p, letters, "money management", 'y');
  }

  /** "Current market outlook" asks about the market. */
  lemma QuickPromptMarket()
    ensures ResponseTo(QuickPrompts[3]) == Answer(Market)
  {
    QuickPromptMarketLowered();
    QuickPromptMarketSkipsEurUsd();
    QuickPromptMarketSkipsStrategy();
    QuickPromptMarketSkipsRisk();
    var p := "current market outlook";
    assert OccursAt(p, "market", 8);
  }

  lemma QuickPromptAnalysisLowered()
    ensures ToLower(QuickPrompts[4]) == "technical analysis tips"
  {
  }

  lemma QuickPromptAnalysisSkipsEurUsd()
    ensures !AsksEurUsd("technical analysis tips")
  {
    var p := "technical analysis tips";
    var letters := {' ', 'a', 'c', 'e', 'h', 'i', 'l', 'n', 'p', 's', 't', 'y'};
    assert forall i :: 0 <= i < |p| ==> p[i] in letters;
    MissingCharRefutes(p, letters, "eur/usd", 'u');
    MissingCharRefutes(p, letters, "eurusd", 'u');
  }

  lemma QuickPromptAnalysisSkipsStrategy()
    ensures !AsksStrategy("technical analysis tips")
  {
    var p := "technical analysis tips";
    var letters := {' ', 'a', 'c', 'e', 'h', 'i', 'l', 'n', 'p', 's', 't', 'y'};
    assert forall i :: 0 <= i < |p| ==> p[i] in letters;
    MissingCharRefutes(p, letters, "strategy", 'r');
    MissingCharRefutes(p, letters, "trading plan", 'r');
  }

  lemma QuickPromptAnalysisSkipsRisk()
    ensures !AsksRisk("technical analysis tips")
    ensures !Contains("technical analysis tips", "market")
  {
    var p := "technical analysis tips";
    var letters := {' ', 'a', 'c', 'e', 'h', 'i', 'l', 'n', 'p', 's', 't', 'y'};
    assert forall i :: 0 <= i < |p| ==> p[i] in letters;
    MissingCharRefutes(p, letters, "risk", 'r');
    MissingCharRefutes(p, letters, "money management", 'm');
    MissingCharRefutes(p, letters, "market", 'm');
  }

  /** "Technical analysis tips" meets none of the earlier rules and reaches the market reply through "analysis" alone. */
  lemma QuickPromptAnalysis()
    ensures ResponseTo(QuickPrompts[4]) == Answer(Market)
  {
    QuickPromptAnalysisLowered();
    QuickPromptAnalysisSkipsEurUsd();
    QuickPromptAnalysisSkipsStrategy();
    QuickPromptAnalysisSkipsRisk();
    var p := "technical analysis tips";
    assert OccursAt(p, "analysis", 10);
  }

  // ---------------------------------------------------------------------------
  // Who is signed in
  // ---------------------------------------------------------------------------

  /** `email.split('@')[0]`: everything before the first '@', the whole address when there is none. */
  function EmailLocalPart(email: string): (local: string)
    ensures |local| <= |email| && local == email[..|local|]
    ensures '@' !in local
    ensures |local| < |email| ==> email[|local|] == '@'
  {
    if email == [] || email[0] == '@' then []
    else [email[0]] + EmailLocalPart(email[1..])
  }

  /**
   * `full_name || email.split('@')[0] || 'User'`; a missing name or address
   * is the empty string. The result is never empty.
   */
  function UserDisplayName(fullName: string, email: string): (name: string)
    ensures name != ""
    ensures fullName != "" ==> name == fullName
    ensures fullName == "" && EmailLocalPart(email) != "" ==> name == EmailLocalPart(email)
    ensures fullName == "" && EmailLocalPart(email) == "" ==> name == "User"
  {
    if fullName != "" then fullName
    else if EmailLocalPart(email) != "" then EmailLocalPart(email)
    else "User"
  }

  /** The avatar letter: the upper-cased first character of the name, else of the address, else "U". */
  function UserInitial(fullName: string, email: string): (initial: string)
    ensures |initial| == 1
    ensures fullName != "" ==> initial == [ToUpperChar(fullName[0])]
    ensures fullName == "" && email != "" ==> initial == [ToUpperChar(email[0])]
    ensures fullName == "" && email == "" ==> initial == "U"
  {
    if fullName != "" then [ToUpperChar(fullName[0])]
    else if email != "" then [ToUpperChar(email[0])]
    else "U"
  }

  /** Whenever the display name comes from the profile or the address, the initial is its first letter, upper-cased. */
  lemma {:induction false} InitialMatchesDisplayName(fullName: string, email: string)
    requires fullName != "" || EmailLocalPart(email) != ""
    ensures UserInitial(fullName, email) == [ToUpperChar(UserDisplayName(fullName, email)[0])]
  {
    if fullName == "" {
      var local := EmailLocalPart(email);
      assert local[0] == email[..|local|][0] == email[0];
    }
  }

  /** The two fallbacks part ways on an address with an empty local part: the name is "User", the initial "@". */
  lemma InitialAndNameDisagreeOnBareDomain()
    ensures UserDisplayName("", "@example.com") == "User"
    ensures UserInitial("", "@example.com") == "@"
  {
  }

  // ---------------------------------------------------------------------------
  // The chat state
  // ---------------------------------------------------------------------------

  /**
   * A chat bubble. The assistant's bubbles are kept as which scripted text
   * they show; `Text()` is what the page renders.
   */
  datatype Message = UserMessage(text: string) | AssistantMessage(reply: Reply)
  {
    predicate IsUser() { UserMessage? }

    function Text(): string {
      match this
      case UserMessage(text) => text
      case AssistantMessage(reply) => ReplyText(reply)
    }
  }

  datatype ChatState = ChatState(
    messages: seq<Message>, inputMessage: string, isLoading: bool,
    activeTab: string, isDropdownOpen: bool, pendingReply: Option<string>)

  /** The dashboard as it mounts. */
  const InitialChat: ChatState := ChatState([AssistantMessage(Greeting)], "", false, "chat", false, None)

  /**
   * The conversation so far: the greeting, then user messages (odd positions,
   * never blank) each followed by the scripted reply to it; a reply is
   * pending, and the list ends on the user's message, exactly while loading.
   */
  predicate Conversation(s: ChatState) {
    var ms := s.messages;
    && |ms| >= 1 && ms[0] == AssistantMessage(Greeting)
    && (s.isLoading <==> s.pendingReply.Some?)
    && (s.pendingReply.Some? <==> |ms| % 2 == 0)
    && (s.pendingReply.Some? ==> ms[|ms| - 1] == UserMessage(s.pendingReply.value))
    && (forall i :: 1 <= i < |ms| ==> (ms[i].IsUser() <==> i % 2 == 1))
    && (forall i :: 1 <= i < |ms| && i % 2 == 1 ==> !IsBlank(ms[i].text))
    && (forall i :: 2 <= i < |ms| && i % 2 == 0 ==> ms[i] == AssistantMessage(ResponseTo(ms[i - 1].text)))
  }

  /** The input box changes (typing, or a quick prompt button). */
  function Typed(s: ChatState, text: string): ChatState {
    s.(inputMessage := text)
  }

  /** The guard of `handleSendMessage`. */
  predicate SendAccepted(s: ChatState) {
    !IsBlank(s.inputMessage) && !s.isLoading
  }

  /** `!inputMessage.trim() || isLoading`: the early return of `handleSendMessage`. */
  function SendRejected(inputMessage: string, isLoading: bool): (rejected: bool)
    ensures rejected <==> IsBlank(inputMessage) || isLoading
  {
    Trim(inputMessage) == "" || isLoading
  }

  /** Evaluates the early-return test of `handleSendMessage`; callers see only the verdict. */
  method CheckSend(inputMessage: string, isLoading: bool) returns (rejected: bool)
    ensures rejected <==> IsBlank(inputMessage) || isLoading
  {
    rejected := SendRejected(inputMessage, isLoading);
  }

  /**
   * `handleSendMessage()`: unless the guard rejects it, append the input as
   * it was typed, clear the box, show the spinner and start the reply timer.
   */
  function Sent(s: ChatState): ChatState {
    if !SendAccepted(s) then s
    else s.(messages := s.messages + [UserMessage(s.inputMessage)], inputMessage := "",
            isLoading := true, pendingReply := Some(s.inputMessage))
  }

  /** The reply timer fires: append the scripted reply to the captured input and stop the spinner. */
  function Replied(s: ChatState): ChatState
    requires s.pendingReply.Some?
  {
    s.(messages := s.messages + [AssistantMessage(ResponseTo(s.pendingReply.value))],
       isLoading := false, pendingReply := None)
  }

  /** `handleTabChange(tab)`: switch tab, and the dropdown always closes. */
  function TabChanged(s: ChatState, tab: string): ChatState {
    s.(activeTab := tab, isDropdownOpen := false)
  }

  /** The avatar button flips the dropdown. */
  function DropdownToggled(s: ChatState): ChatState {
    s.(isDropdownOpen := !s.isDropdownOpen)
  }

  /**
   * Quick prompts are rendered while the list holds at most one message: in a
   * conversation, exactly until the first message is sent.
   */
  function QuickPromptsShown(s: ChatState): (shown: bool)
    ensures Conversation(s) ==> (shown <==> s.messages == [AssistantMessage(Greeting)])
  {
    |s.messages| <= 1
  }

  // ---------------------------------------------------------------------------
  // Properties of the chat steps
  // ---------------------------------------------------------------------------

  /** The mount state: one greeting from the assistant, an empty box, no spinner, the chat tab. */
  lemma InitialChatIsConversation()
    ensures Conversation(InitialChat)
    ensures |InitialChat.messages| == 1 && !InitialChat.messages[0].IsUser()
    ensures InitialChat.inputMessage == "" && !InitialChat.isLoading && InitialChat.activeTab == "chat"
  {
  }

  /** A rejected send (blank input or a reply still pending) changes nothing at all. */
  lemma RejectedSendIsNoOp(s: ChatState)
    requires IsBlank(s.inputMessage) || s.isLoading
    ensures Sent(s) == s
  {
  }

  /** An accepted send appends exactly one user message carrying the untrimmed input. */
  lemma AcceptedSend(s: ChatState)
    requires SendAccepted(s)
    ensures var t := Sent(s);
      && t.messages == s.messages + [UserMessage(s.inputMessage)]
      && t.inputMessage == "" && t.isLoading && t.pendingReply == Some(s.inputMessage)
      && t.activeTab == s.activeTab && t.isDropdownOpen == s.isDropdownOpen
  {
  }

  /** Sending keeps the conversation well formed. */
  lemma {:induction false} SentKeepsConversation(s: ChatState)
    requires Conversation(s)
    ensures Conversation(Sent(s))
  {
    if SendAccepted(s) {
      var t := Sent(s);
      assert t.messages[..|s.messages|] == s.messages;
      forall i | 2 <= i < |t.messages| && i % 2 == 0
        ensures t.messages[i] == AssistantMessage(ResponseTo(t.messages[i - 1].text))
      {
        assert i < |s.messages|;
      }
    }
  }

  /** A reply keeps the conversation well formed. */
  lemma {:induction false} RepliedKeepsConversation(s: ChatState)
    requires Conversation(s) && s.pendingReply.Some?
    ensures Conversation(Replied(s))
  {
    var t := Replied(s);
    var n := |s.messages|;
    assert t.messages[..n] == s.messages;
    assert t.messages[n - 1] == s.messages[n - 1];
  }

  /** A full round trip: an accepted send and its reply grow the list by exactly two, the input then its answer. */
  lemma {:induction false} SendThenReply(s: ChatState)
    requires Conversation(s) && SendAccepted(s)
    ensures Sent(s).pendingReply.Some?
    ensures var t := Replied(Sent(s));
      && t.messages == s.messages + [UserMessage(s.inputMessage), AssistantMessage(ResponseTo(s.inputMessage))]
      && |t.messages| == |s.messages| + 2
      && !t.isLoading && t.inputMessage == "" && Conversation(t)
  {
    SentKeepsConversation(s);
    RepliedKeepsConversation(Sent(s));
  }

  /** Tab changes always close the dropdown and touch nothing of the conversation. */
  lemma TabChangeClosesDropdown(s: ChatState, tab: string)
    ensures var t := TabChanged(s, tab);
      t.activeTab == tab && !t.isDropdownOpen && t.messages == s.messages && t.isLoading == s.isLoading
  {
  }

  // ---------------------------------------------------------------------------
  // The dashboard component
  // ---------------------------------------------------------------------------

  class Dashboard {
    var messages: seq<Message>
    var inputMessage: string
    var isLoading: bool
    var activeTab: string
    var isDropdownOpen: bool
    var pendingReply: Option<string>

    function State(): ChatState
      reads this
    {
      ChatState(messages, inputMessage, isLoading, activeTab, isDropdownOpen, pendingReply)
    }

    constructor ()
      ensures State() == InitialChat
    {
      messages := [AssistantMessage(Greeting)];
      inputMessage := "";
      isLoading := false;
      activeTab := "chat";
      isDropdownOpen := false;
      pendingReply := None;
    }

    method SetInputMessage(text: string)
      modifies this
      ensures State() == Typed(old(State()), text)
    {
      inputMessage := text;
    }

    method HandleSendMessage()
      modifies this
      ensures State() == Sent(old(State()))
    {
      var rejected := CheckSend(inputMessage, isLoading);
      if rejected {
        return;
      }
      var userMessage := UserMessage(inputMessage);
      messages := messages + [userMessage];
      var currentInput := inputMessage;
      inputMessage := "";
      isLoading := true;
      pendingReply := Some(currentInput);
    }

    /** The reply timer's callback; it exists only after an accepted send. */
    method CompleteReply()
      requires pendingReply.Some?
      modifies this
      ensures State() == Replied(old(State()))
    {
      var aiResponse := AssistantMessage(ResponseTo(pendingReply.value));
      messages := messages + [aiResponse];
      isLoading := false;
      pendingReply := None;
    }

    method HandleTabChange(tab: string)
      modifies this
      ensures State() == TabChanged(old(State()), tab)
    {
      activeTab := tab;
      isDropdownOpen := false;
    }

    method ToggleDropdown()
      modifies this
      ensures State() == DropdownToggled(old(State()))
    {
      isDropdownOpen := !isDropdownOpen;
    }
  }
}
